/** A run of three voters that elects a leader and commits, one in which a read that a follower sent on comes
    back to it, and two in which the leader queues one context twice and answers a read that it queued in
    between too low. */
module ReadFailure {
  import opened Types
  import opened Logs
  import opened Progresses
  import opened ReadQueues
  import opened Commitment
  import opened Nodes
  import opened NodeLocal
  import opened Steps
  import opened Cluster
  import opened Reads
  import opened ReadRuns
  import L = Laws

  // ---------------------------------------------------------------- the nodes and their messages

  function Cfg(i: NodeId): Config {
    Config(i, [1, 2, 3], 20, 4, 10, false, false, false, false)
  }

  function Trio(a: Node, b: Node, c: Node): map<NodeId, Node> {
    map[1 := a, 2 := b, 3 := c]
  }

  /** The entry that the leader of a term puts at an index when it is elected. */
  function Opening(term: nat, index: nat): Entry {
    Entry(term, index, EntryNormal, "")
  }

  function ReadRequest(ctx: string): Message {
    Blank(MsgReadIndex, 1).(entries := [Entry(0, 0, EntryNormal, ctx)])
  }

  /** The request as voter 3 sends it on to voter 1. */
  function Forwarded(ctx: string): Message {
    ReadRequest(ctx).(from := 3)
  }

  /** How the context that is queued twice reaches voter 1: sent on by voter 3, or asked for. */
  function Arriving(sent: bool): Message {
    if sent then Forwarded("c") else ReadRequest("c")
  }

  function Arrival(sent: bool): Action {
    if sent then Deliver(Forwarded("c")) else Request(ReadRequest("c"))
  }

  /** The other two voters, in order. */
  function One(i: NodeId): NodeId {
    if i == 1 then 2 else 1
  }

  function Other(i: NodeId): NodeId {
    if i == 3 then 2 else 3
  }

  function WaitingPeer(next: nat): Progress {
    Fresh(next, 0).(paused := true)
  }

  function CaughtUp(last: nat): Progress {
    Progress(last, last + 1, Replicate, false, 0, true, [])
  }

  ghost predicate Idle(n: Node, i: NodeId) {
    n.cfg == Cfg(i) && i in {1, 2, 3} && n.msgs == [] && n.applied == 0 && n.committed <= |n.log| && !n.panicked
  }

  function Running(n: Node): Node {
    Reset(n, n.term + 1).(vote := n.cfg.id, role := Candidate, votes := map[n.cfg.id := true])
  }

  function Ballot(n: Node, to: NodeId): Message {
    Message(MsgVote, to, n.cfg.id, n.term + 1, TermAt(n.log, |n.log|), |n.log|, [], 0, false, 0, "")
  }

  function Leading(n: Node): Node {
    Reset(n, n.term).(
      lead := n.cfg.id, role := Leader, pendingConfIndex := |n.log|, log := n.log + [Opening(n.term, |n.log| + 1)],
      prs := map[One(n.cfg.id) := WaitingPeer(|n.log| + 1), Other(n.cfg.id) := WaitingPeer(|n.log| + 1),
                 n.cfg.id := Fresh(|n.log| + 2, |n.log| + 1)])
  }

  function OpeningApp(n: Node, to: NodeId): Message {
    Message(MsgApp, to, n.cfg.id, n.term, TermAt(n.log, |n.log|), |n.log|, [Opening(n.term, |n.log| + 1)], 0, false, 0, "")
  }

  // ---------------------------------------------------------------- the loops over three voters

  lemma VotesOut(n: Node, i: NodeId, m: Message)
    requires n.cfg == Cfg(i) && i in {1, 3} && n.msgs == [] && !BadTerm(m)
    ensures SendVotes(n, [1, 2, 3], m) == n.(msgs := [Stamped(n, m.(to := One(i))), Stamped(n, m.(to := Other(i)))])
  {
    assert [1, 2, 3][1..] == [2, 3] && [2, 3][1..] == [3] && [3][1..] == [];
    if i == 1 {
      var n1 := Send(n, m.(to := 2));
      assert SendVotes(n1, [3], m) == Send(n1, m.(to := 3));
    } else {
      var n1 := Send(n, m.(to := 1));
      assert SendVotes(n1, [2, 3], m) == SendVotes(Send(n1, m.(to := 2)), [3], m);
      assert SendVotes(Send(n1, m.(to := 2)), [3], m) == Send(n1, m.(to := 2));
    }
  }

  lemma AppendsOut(n: Node, i: NodeId)
    requires n.cfg == Cfg(i) && i in {1, 3} && SendAppend(n, One(i)).cfg == n.cfg
    requires SendAppend(SendAppend(n, One(i)), Other(i)).cfg == n.cfg
    ensures BcastAppend(n, [1, 2, 3]) == SendAppend(SendAppend(n, One(i)), Other(i))
  {
    hide SendAppend;
    assert [1, 2, 3][1..] == [2, 3] && [2, 3][1..] == [3] && [3][1..] == [];
    var n1 := SendAppend(n, One(i));
    var n2 := SendAppend(n1, Other(i));
    assert BcastAppend(n2, []) == n2;
    if i == 1 {
      assert BcastAppend(n1, [3]) == n2;
    } else {
      assert BcastAppend(n2, [3]) == n2;
      assert BcastAppend(n1, [2, 3]) == n2;
    }
  }

  lemma BeatsOut(n: Node, ctx: string)
    requires n.cfg == Cfg(1) && n.msgs == []
    ensures BcastHeartbeat(n, [1, 2, 3], ctx) == n.(msgs := [BeatTo(n, 2, ctx), BeatTo(n, 3, ctx)])
  {
    assert [1, 2, 3][1..] == [2, 3] && [2, 3][1..] == [3] && [3][1..] == [];
    var n1 := SendHeartbeat(n, 2, ctx);
    assert BcastHeartbeat(n1, [3], ctx) == SendHeartbeat(n1, 3, ctx);
  }

  function BeatTo(n: Node, to: NodeId, ctx: string): Message {
    Message(MsgHeartbeat, to, n.cfg.id, n.term, 0, 0, [], Min(Pr(n, to).matched, n.committed), false, 0, ctx)
  }

  lemma ReachingThree(ms: seq<nat>, k: nat)
    requires |ms| == 3
    ensures Reaching(ms, k) == (if ms[0] >= k then 1 else 0) + (if ms[1] >= k then 1 else 0) + (if ms[2] >= k then 1 else 0)
  {
    assert Reaching(ms[1..][1..][1..], k) == 0;
    assert Reaching(ms[1..][1..], k) == if ms[2] >= k then 1 else 0;
  }

  /** Two of three voters reach k and at most one reaches more. */
  lemma Middle(ms: seq<nat>, k: nat)
    requires |ms| == 3 && Reaching(ms, k) >= 2 && Reaching(ms, k + 1) < 2
    ensures QuorumIndex(ms, 2) == k
  {
    QuorumIndexExact(ms, 2, k);
    QuorumIndexExact(ms, 2, k + 1);
  }

  // ---------------------------------------------------------------- elections

  lemma Campaigns(n: Node, i: NodeId)
    requires Idle(n, i) && i in {1, 3} && n.role.Follower? && n.committed == 0
    ensures Step(n, Blank(MsgHup, i)) == Running(n).(msgs := [Ballot(n, One(i)), Ballot(n, Other(i))])
  {
    hide Reset, FreshPeers;
    assert n.log[0..0] == [];
    var c := BecomeCandidate(n);
    ResetFrame(n, n.term + 1);
    var c1 := Poll(c, i, true).0;
    assert c1.votes == map[i := true];
    assert Granted(c1.votes) == {i};
    assert c1 == Running(n);
    VotesOut(c1, i, VoteRequest(c1, Election));
  }

  lemma ResetFrame(n: Node, term: nat)
    ensures var r := Reset(n, term);
      && r.cfg == n.cfg && r.log == n.log && r.committed == n.committed && r.applied == n.applied && r.msgs == n.msgs
      && r.term == term && r.votes == map[] && r.panicked == n.panicked && r.readStates == n.readStates
      && r.prs == FreshPeers(n.cfg.id, n.cfg.peers, |n.log|) && r.leadTransferee == NONE
  {
  }

  function VoteFor(n: Node, from: NodeId): Message {
    Message(MsgVoteResp, n.cfg.id, from, n.term, 0, 0, [], 0, false, 0, "")
  }

  lemma Wins(n: Node, i: NodeId)
    requires Idle(n, i) && i in {1, 3} && n.role.Candidate? && n.votes == map[i := true] && n.committed == 0 && n.term > 0
    ensures Step(n, VoteFor(n, 2)) == Leading(n).(msgs := [OpeningApp(n, One(i)), OpeningApp(n, Other(i))])
  {
    hide BecomeLeader, BcastAppend, Opened, Leading, OpeningApp;
    var n1 := Poll(n, 2, true).0;
    assert n1.votes == map[i := true, 2 := true];
    assert Granted(n1.votes) == {i, 2};
    Opens(n1, i);
    SameOpened(n, n1);
    Announces(n, i);
  }

  lemma SameOpened(n: Node, n1: Node)
    requires n1 == n.(votes := n1.votes)
    ensures Opened(n1) == Opened(n) && Opened(n).cfg == n.cfg
  {
  }

  /** The new leader before it has sent anything. */
  function Opened(n: Node): Node {
    Leading(n).(prs := FreshPeers(n.cfg.id, n.cfg.peers, |n.log|)[n.cfg.id := Fresh(|n.log| + 2, |n.log| + 1)])
  }

  lemma Opens(n: Node, i: NodeId)
    requires Idle(n, i) && i in {1, 3} && n.role.Candidate? && n.committed == 0
    ensures BecomeLeader(n) == Opened(n)
  {
    hide AppendEntry, MaybeCommit, Grown, Opened;
    var r := Reset(n, n.term).(lead := i, role := Leader, pendingConfIndex := |n.log|);
    var es := [Entry(0, 0, EntryNormal, "")];
    AppendEntryFrame(r, es);
    OpensLog(n, r, es);
    OpenedPeers(n, i);
    NothingYet(Opened(n), i);
  }

  lemma OpensLog(n: Node, r: Node, es: seq<Entry>)
    requires r == Reset(n, n.term).(lead := n.cfg.id, role := Leader, pendingConfIndex := |n.log|)
    requires es == [Entry(0, 0, EntryNormal, "")] && n.cfg.id in n.cfg.peers
    ensures Grown(r, es) == Opened(n)
  {
    assert Stamp(r, es) == [Opening(n.term, |n.log| + 1)];
    assert Pr(r, n.cfg.id) == Fresh(|n.log| + 1, |n.log|);
  }

  lemma OpenedPeers(n: Node, i: NodeId)
    requires n.cfg == Cfg(i) && i in {1, 3} && n.committed == 0
    ensures var o := Opened(n);
      o.cfg == n.cfg && o.committed == 0 && Pr(o, One(i)).matched == 0 && Pr(o, Other(i)).matched == 0
  {
  }

  lemma NothingYet(n: Node, i: NodeId)
    requires n.cfg == Cfg(i) && i in {1, 3} && Pr(n, One(i)).matched == 0 && Pr(n, Other(i)).matched == 0
    requires n.committed == 0
    ensures MaybeCommit(n) == (n, false)
  {
    var ms := MatchIndexes(n);
    ReachingThree(ms, 0);
    ReachingThree(ms, 1);
    Middle(ms, 0);
  }

  lemma OpenedParts(n: Node, i: NodeId)
    requires n.cfg == Cfg(i) && i in {1, 3} && n.committed == 0 && n.msgs == []
    ensures var o := Opened(n);
      && o.cfg == n.cfg && o.log == n.log + [Opening(n.term, |n.log| + 1)] && o.term == n.term && o.committed == 0
      && o.msgs == []
      && o.prs.Keys == {1, 2, 3} && o.prs[One(i)] == Fresh(|n.log| + 1, 0) && o.prs[Other(i)] == Fresh(|n.log| + 1, 0)
      && o.prs[One(i) := WaitingPeer(|n.log| + 1)][Other(i) := WaitingPeer(|n.log| + 1)] == Leading(n).prs
      && o.(prs := Leading(n).prs) == Leading(n)
  {
  }

  lemma Announces(n: Node, i: NodeId)
    requires n.cfg == Cfg(i) && i in {1, 3} && n.committed == 0 && n.msgs == []
    ensures BcastAppend(Opened(n), [1, 2, 3]) == Leading(n).(msgs := [OpeningApp(n, One(i)), OpeningApp(n, Other(i))])
  {
    hide SendAppend, BcastAppend, OpeningApp, WaitingPeer, Opened, Leading;
    OpenedParts(n, i);
    var n0 := Opened(n);
    SendsOpening(n0, n, One(i));
    var n1 := SendAppend(n0, One(i));
    SendsOpening(n1, n, Other(i));
    AppendsOut(n0, i);
  }

  lemma SendsOpening(n: Node, was: Node, to: NodeId)
    requires n.cfg == was.cfg && n.cfg.maxInflight == 4 && n.log == was.log + [Opening(was.term, |was.log| + 1)]
    requires n.term == was.term
    requires n.committed == 0 && to in n.prs && n.prs[to] == Fresh(|was.log| + 1, 0)
    ensures SendAppend(n, to) == n.(prs := n.prs[to := WaitingPeer(|was.log| + 1)], msgs := n.msgs + [OpeningApp(was, to)])
  {
    assert n.log[|was.log|..] == [Opening(was.term, |was.log| + 1)];
    assert AppendMsg(n, to).entries == [Opening(was.term, |was.log| + 1)];
  }

  function AckOf(n: Node, index: nat): Message {
    Message(MsgAppResp, n.cfg.id, 2, n.term, 0, index, [], 0, false, 0, "")
  }

  /** The message that tells voter 2 the new commit index. */
  function CommitApp(n: Node): Message {
    Message(MsgApp, 2, n.cfg.id, n.term, TermAt(n.log, |n.log|), |n.log|, [], |n.log|, false, 0, "")
  }

  ghost predicate Unacked(n: Node, i: NodeId) {
    && Idle(n, i) && i in {1, 3} && n.role.Leader? && n.committed == 0 && n.log != [] && n.log[|n.log| - 1].term == n.term
    && n.leadTransferee == NONE && n.prs.Keys == {1, 2, 3}
    && n.prs[One(i)] == WaitingPeer(|n.log|) && n.prs[Other(i)] == WaitingPeer(|n.log|) && n.prs[i].matched == |n.log|
  }

  function Committing(n: Node): Node {
    n.(committed := |n.log|, prs := n.prs[2 := CaughtUp(|n.log|)])
  }

  lemma Commits(n: Node, i: NodeId)
    requires Unacked(n, i)
    ensures Step(n, AckOf(n, |n.log|)) == Committing(n).(msgs := [CommitApp(n)])
  {
    hide SendAppend, SendLoop, BcastAppend, MaybeCommit;
    var m := AckOf(n, |n.log|);
    var n1 := SetPr(n, 2, Pr(n, 2).(recentActive := true));
    var g := SetPr(n1, 2, CaughtUp(|n.log|));
    assert g.prs == n.prs[2 := CaughtUp(|n.log|)];
    Majority(g, i);
    var n2 := Committing(n);
    assert SendAppend(n2, One(i)) == (if i == 1 then n2.(msgs := [CommitApp(n)]) else n2) by { Tells(n2, n, One(i)); }
    var n3 := SendAppend(n2, One(i));
    assert SendAppend(n3, Other(i)) == n2.(msgs := [CommitApp(n)]) by { Tells(n3, n, Other(i)); }
    AppendsOut(n2, i);
    NothingLeft(n2.(msgs := [CommitApp(n)]), 2);
  }

  lemma Majority(n: Node, i: NodeId)
    requires n.cfg == Cfg(i) && i in {1, 3} && n.committed == 0 && n.log != [] && n.log[|n.log| - 1].term == n.term
    requires n.prs.Keys == {1, 2, 3} && n.prs[2].matched == |n.log| && n.prs[i].matched == |n.log|
    requires n.prs[4 - i].matched == 0
    ensures MaybeCommit(n) == (n.(committed := |n.log|), true)
  {
    var ms := MatchIndexes(n);
    ReachingThree(ms, |n.log|);
    ReachingThree(ms, |n.log| + 1);
    Middle(ms, |n.log|);
  }

  lemma Tells(n: Node, was: Node, to: NodeId)
    requires Unacked(was, was.cfg.id) && n == Committing(was).(msgs := n.msgs) && to in {1, 2, 3} && to != n.cfg.id
    ensures SendAppend(n, to) == if to == 2 then n.(msgs := n.msgs + [CommitApp(was)]) else n
  {
    if to == 2 { assert n.prs[2 := n.prs[2]] == n.prs; }
  }

  lemma NothingLeft(n: Node, to: NodeId)
    requires Pr(n, to).next > |n.log|
    ensures SendLoop(n, to) == n
  {
  }

  // ---------------------------------------------------------------- followers

  function Granting(n: Node, m: Message): Node {
    BecomeFollower(n, m.term, NONE).(vote := m.from)
  }

  lemma Grants(n: Node, m: Message)
    requires n.cfg == Cfg(2) && n.msgs == [] && m.kind.MsgVote? && m.term > n.term && IsUpToDate(n.log, m.index, m.logTerm)
    ensures Step(n, m) == Granting(n, m).(msgs := [Message(MsgVoteResp, m.from, 2, m.term, 0, 0, [], 0, false, 0, "")])
  {
    hide Reset, IsUpToDate;
    ResetFrame(n, m.term);
    ResetVote(n, m.term);
  }

  lemma ResetVote(n: Node, term: nat)
    requires n.term != term
    ensures Reset(n, term).vote == NONE && Reset(n, term).electionElapsed == 0
  {
  }

  /** The follower once it has taken note of its leader's term. */
  function Following(n: Node, m: Message): Node {
    if m.term > n.term then BecomeFollower(n, m.term, m.from) else n.(electionElapsed := 0, lead := m.from)
  }

  lemma TakesApp(n: Node, m: Message, e: Entry)
    requires n.cfg == Cfg(n.cfg.id) && n.msgs == [] && n.role.Follower? && n.committed <= |n.log| && m.kind.MsgApp?
    requires m.term >= n.term
    requires m.term > 0 && m.index == |n.log| && m.logTerm == TermAt(n.log, |n.log|) && m.entries == [e] && m.commit == 0
    requires e.index == |n.log| + 1 && e.term > 0
    ensures Step(n, m) == Following(n, m).(
      log := n.log + [e],
      msgs := [Message(MsgAppResp, m.from, n.cfg.id, m.term, 0, |n.log| + 1, [], 0, false, 0, "")])
  {
    hide HandleAppendEntries, TermAt;
    Appends(Following(n, m), m, e);
  }

  lemma Appends(n: Node, m: Message, e: Entry)
    requires n.msgs == [] && n.committed <= |n.log| && m.kind.MsgApp? && m.term == n.term
    requires m.term > 0 && m.index == |n.log| && m.logTerm == TermAt(n.log, |n.log|) && m.entries == [e] && m.commit == 0
    requires e.index == |n.log| + 1 && e.term > 0
    ensures HandleAppendEntries(n, m) == n.(
      log := n.log + [e],
      msgs := [Message(MsgAppResp, m.from, n.cfg.id, m.term, 0, |n.log| + 1, [], 0, false, 0, "")])
  {
    assert FindConflict(n.log, [e]) == |n.log| + 1;
    assert [e][0..] == [e] && n.log[..|n.log|] == n.log;
  }

  lemma TakesBeat(n: Node, m: Message)
    requires n.msgs == [] && n.role.Follower? && m.kind.MsgHeartbeat? && m.term == n.term && m.commit <= |n.log|
    requires n.lead == m.from && n.electionElapsed == 0
    ensures Step(n, m) == n.(
      committed := Max(n.committed, m.commit),
      msgs := [Message(MsgHeartbeatResp, m.from, n.cfg.id, n.term, 0, 0, [], 0, false, 0, m.context)])
  {
  }

  // ---------------------------------------------------------------- reads

  ghost predicate Serving(n: Node) {
    && n.cfg == Cfg(1) && n.role.Leader? && n.msgs == [] && n.term == 1 && n.log == [Opening(1, 1)] && n.committed == 1
    && n.prs.Keys == {1, 2, 3} && n.prs[2] == CaughtUp(1) && Backed(n.readOnly)
  }

  ghost predicate IsRead(m: Message) {
    m.kind.MsgReadIndex? && m.term == 0 && |m.entries| == 1
  }

  function Queueing(n: Node, m: Message): Node {
    n.(readOnly := AddRequest(n.readOnly, n.committed, m))
  }

  lemma Queues(n: Node, m: Message)
    requires Serving(n) && IsRead(m)
    ensures Step(n, m) == Queueing(n, m).(msgs := [BeatTo(n, 2, Ctx(m)), BeatTo(n, 3, Ctx(m))])
  {
    hide BcastHeartbeat, AddRequest, Ctx;
    BeatsOut(Queueing(n, m), Ctx(m));
  }

  lemma Forwards(n: Node, ctx: string)
    requires n.cfg == Cfg(3) && n.msgs == [] && n.role.Follower? && n.lead == 1
    ensures Step(n, ReadRequest(ctx)) == n.(msgs := [Forwarded(ctx)])
  {
  }

  function Echo(from: NodeId, ctx: string): Message {
    Message(MsgHeartbeatResp, 1, from, 1, 0, 0, [], 0, false, 0, ctx)
  }

  /** The queue after one read, or after two. */
  function Alone(m: Message): ReadQueue {
    ReadQueue(map[Ctx(m) := ReadStatus(1, m, {})], [Ctx(m)])
  }

  function InTurn(m: Message, m': Message): ReadQueue {
    ReadQueue(map[Ctx(m) := ReadStatus(1, m, {}), Ctx(m') := ReadStatus(1, m', {})], [Ctx(m), Ctx(m')])
  }

  /** The answer to a read: a read state for the leader's own, a message for one that was sent on. */
  function States(m: Message): seq<ReadState> {
    if m.from == NONE then [ReadState(1, Ctx(m))] else []
  }

  function Answer(m: Message): seq<Message> {
    if m.from == NONE then [] else [Message(MsgReadIndexResp, m.from, 1, 1, 0, 1, m.entries, 0, false, 0, "")]
  }

  lemma ReleasesOne(n: Node, m: Message)
    requires Serving(n) && IsRead(m) && m.from in {NONE, 3} && Ctx(m) != "" && n.readOnly == Alone(m)
    ensures Step(n, Echo(2, Ctx(m))) ==
            n.(readOnly := EmptyQueue(), readStates := n.readStates + States(m), msgs := Answer(m))
  {
    hide Ctx, Release;
    var ctx := Ctx(m);
    var n1 := SetPr(n, 2, CaughtUp(1));
    assert n1.prs == n.prs;
    var (q, acks) := RecvAck(n.readOnly, 2, ctx);
    assert {} + {2} == {2};
    assert acks == 2;
    var s := ReadStatus(1, m, {2});
    assert Advance(q, ctx).1 == [s];
    assert q.queue[..1] == [ctx];
    assert Advance(q, ctx).0.pending == map[];
    assert Advance(q, ctx).0 == EmptyQueue();
    Releases(n.(readOnly := EmptyQueue()), s);
  }

  lemma Releases(n: Node, s: ReadStatus)
    requires n.cfg == Cfg(1) && n.term == 1 && n.msgs == [] && s.index == 1 && s.req.from in {NONE, 3}
    ensures Release(n, [s]) == n.(readStates := n.readStates + States(s.req), msgs := Answer(s.req))
  {
    assert [s][1..] == [];
  }

  lemma ReleasesBoth(n: Node, m: Message, m': Message)
    requires Serving(n) && m.from == NONE && Ctx(m') != "" && Ctx(m) != Ctx(m') && n.readOnly == InTurn(m, m')
    ensures ReadState(1, Ctx(m)) in Step(n, Echo(3, Ctx(m'))).readStates
  {
    hide SendAppend, HandleReadAck, Ctx;
    var echo := Echo(3, Ctx(m'));
    var pr := Pr(n, 3).(recentActive := true, paused := false);
    var pr1 := if pr.state.Replicate? && IsFull(pr, 4) then pr.(inflights := FreeFirstOne(pr.inflights)) else pr;
    var n1 := SetPr(n, 3, pr1);
    SendAppendReads(n1, 3);
    var n2 := if pr1.matched < LastIndex(n1) then SendAppend(n1, 3) else n1;
    assert Step(n, echo) == HandleReadAck(n2, echo);
    EchoReleases(n2, m, m');
  }

  lemma SendAppendReads(n: Node, to: NodeId)
    ensures var n' := SendAppend(n, to); n'.cfg == n.cfg && n'.readOnly == n.readOnly && n'.readStates == n.readStates
  {
    hide AppendMsg, ProgressSent, IsPaused, Pr;
  }

  lemma EchoReleases(n: Node, m: Message, m': Message)
    requires n.cfg == Cfg(1) && m.from == NONE && Ctx(m') != "" && Ctx(m) != Ctx(m') && n.readOnly == InTurn(m, m')
    ensures ReadState(1, Ctx(m)) in HandleReadAck(n, Echo(3, Ctx(m'))).readStates
  {
    hide Ctx, Release;
    var (first, second) := (Ctx(m), Ctx(m'));
    var (q, acks) := RecvAck(n.readOnly, 3, second);
    assert {} + {3} == {3};
    assert acks == 2;
    assert q.queue[1..] == [second] && [second][1..] == [];
    assert ScanTo([second], second) == 1;
    assert ScanTo(q.queue, second) == 2;
    var s := ReadStatus(1, m, {});
    var s' := ReadStatus(1, m', {3});
    assert Advance(q, second).1 == [s, s'];
    FirstStates(n.(readOnly := Advance(q, second).0), s, s');
  }

  lemma FirstStates(n: Node, s: ReadStatus, s': ReadStatus)
    requires s.req.from == NONE
    ensures ReadState(s.index, Ctx(s.req)) in Release(n, [s, s']).readStates
  {
    assert [s, s'][1..] == [s'] && [s'][1..] == [];
    var n1 := n.(readStates := n.readStates + [ReadState(s.index, Ctx(s.req))]);
    assert n1.readStates[|n.readStates|] == ReadState(s.index, Ctx(s.req));
    assert n1.readStates <= Release(n1, [s']).readStates;
  }

  // ---------------------------------------------------------------- the run, step by step

  /** In the one story voter 3 is asked for c in step 6 and voter 1 for d in step 16; in the other no
      read request that was sent on is delivered. */
  ghost predicate Allowed(sent: bool, k: nat, a: Action) {
    (a.Request? || a.Deliver?) && a.m.kind.MsgReadIndex? ==>
      if sent then a.Request? ==> (k == 6 && Ctx(a.m) == "c") || (k == 16 && Ctx(a.m) == "d") else a.Request?
  }

  ghost predicate Story(cs: seq<System>, acts: seq<(NodeId, Action)>, sent: bool) {
    && RunBy(cs, acts)
    && forall k {:trigger acts[k]} :: 0 <= k < |acts| ==> Allowed(sent, k, acts[k].1)
  }

  /** What voter i does not do before another leader has committed: voter 1 does not queue the read d,
      and neither of the others leads with commit index 1. */
  ghost predicate Fine(i: NodeId, n: Node) {
    match i
    case 1 =>
      && "d" !in n.readOnly.pending
      && (n.role.Leader? && n.committed == 1 ==> n.cfg == Cfg(1) && n.term == 1 && n.log == [Opening(1, 1)])
    case _ => n.role.Leader? ==> n.committed != 1
  }

  ghost predicate Before(c: System) {
    c.nodes.Keys == {1, 2, 3} && Fine(1, c.nodes[1]) && Fine(2, c.nodes[2]) && Fine(3, c.nodes[3])
  }

  ghost predicate AllBefore(cs: seq<System>) {
    forall b {:trigger cs[b]} :: 0 <= b < |cs| ==> Before(cs[b])
  }

  function Last(cs: seq<System>): System
    requires |cs| > 0
  {
    cs[|cs| - 1]
  }

  lemma Goes(cs: seq<System>, acts: seq<(NodeId, Action)>, sent: bool, i: NodeId, act: Action, n': Node, ms: seq<Message>)
    returns (cs': seq<System>, acts': seq<(NodeId, Action)>)
    requires Story(cs, acts, sent) && i in Last(cs).nodes && Enabled(Last(cs), i, act)
    requires (act.Deliver? || act.Request?) && Allowed(sent, |cs| - 1, act)
    requires Step(Last(cs).nodes[i], act.m) == n'.(msgs := ms) && n'.msgs == []
    ensures Story(cs', acts', sent) && cs' == cs + [System(Last(cs).nodes[i := n'], Last(cs).net + (set m | m in ms))]
  {
    hide Init, Enabled, Step, Allowed;
    var c := Last(cs);
    cs', acts' := cs + [After(c, i, act)], acts + [(i, act)];
    forall k | 0 <= k < |acts'|
      ensures ByStep(cs', acts', k)
    {
      if k < |acts| { assert ByStep(cs, acts, k); }
    }
  }

  /** The run has come to a state with these nodes, in which these messages can be delivered. */
  ghost predicate Scene(cs: seq<System>, acts: seq<(NodeId, Action)>, sent: bool, k: nat, a: Node, b: Node, c: Node,
                        net: set<Message>) {
    && Story(cs, acts, sent) && AllBefore(cs) && SafeMode(cs[0]) && |cs| == k + 1
    && Last(cs).nodes == Trio(a, b, c) && net <= Last(cs).net
  }

  lemma Sets(a: Node, b: Node, c: Node, n: Node)
    ensures Trio(a, b, c)[1 := n] == Trio(n, b, c)
    ensures Trio(a, b, c)[2 := n] == Trio(a, n, c)
    ensures Trio(a, b, c)[3 := n] == Trio(a, b, n)
  {
  }

  lemma Grew(cs: seq<System>, i: NodeId, n: Node, net: set<Message>)
    requires |cs| > 0 && AllBefore(cs) && i in {1, 2, 3} && Fine(i, n)
    ensures AllBefore(cs + [System(Last(cs).nodes[i := n], net)])
  {
    hide Fine;
    assert Before(Last(cs));
  }

  ghost predicate Takes(i: NodeId, n: Node, m: Message, n': Node, ms: seq<Message>) {
    Step(n, m) == n'.(msgs := ms) && n'.msgs == [] && Fine(i, n')
  }

  /** Voter i acts. */
  lemma Moves(cs: seq<System>, acts: seq<(NodeId, Action)>, sent: bool, k: nat, a: Node, b: Node, c: Node,
              net: set<Message>, i: NodeId, act: Action, n': Node, ms: seq<Message>)
    returns (cs': seq<System>, acts': seq<(NodeId, Action)>)
    requires Scene(cs, acts, sent, k, a, b, c, net) && i in {1, 2, 3} && Allowed(sent, k, act)
    requires match act
      case Deliver(m) => m in net && m.to == i
      case Request(m) => LocalMsg(m)
      case _ => false
    requires Takes(i, if i == 1 then a else if i == 2 then b else c, act.m, n', ms)
    ensures Scene(cs', acts', sent, k + 1, if i == 1 then n' else a, if i == 2 then n' else b, if i == 3 then n' else c,
                  net + (set m | m in ms))
  {
    hide Step, Story, LocalMsg, Fine, AllBefore, SafeMode, Allowed;
    cs', acts' := Goes(cs, acts, sent, i, act, n', ms);
    Sets(a, b, c, n');
    Grew(cs, i, n', Last(cs').net);
  }

  // ---------------------------------------------------------------- the nodes along the run

  function New(i: NodeId): Node {
    NewNode(Cfg(i))
  }

  /** Voter 1 as leader of term 1, and once it has committed. */
  function Led1(): Node {
    Leading(Running(New(1)))
  }

  function Served1(): Node {
    Committing(Led1())
  }

  function Voted2(): Node {
    Granting(New(2), Ballot(New(1), 2))
  }

  function Logged2(): Node {
    Voted2().(lead := 1, log := [Opening(1, 1)])
  }

  function Logged3(): Node {
    BecomeFollower(New(3), 1, 1).(log := [Opening(1, 1)])
  }

  lemma NewFacts(i: NodeId)
    requires i in {1, 2, 3}
    ensures Idle(New(i), i) && New(i).role.Follower? && New(i).committed == 0 && New(i).term == 0 && New(i).log == []
    ensures New(i).readOnly == EmptyQueue() && New(i).readStates == [] && Fine(i, New(i))
  {
  }

  lemma Running1()
    ensures var n := Running(New(1));
      && Idle(n, 1) && n.role.Candidate? && n.votes == map[1 := true] && n.committed == 0 && n.term == 1 && n.log == []
      && n.readOnly == EmptyQueue() && n.readStates == [] && Fine(1, n)
  {
  }

  lemma Led1Facts()
    ensures Unacked(Led1(), 1) && Led1().log == [Opening(1, 1)] && Led1().term == 1 && Led1().readOnly == EmptyQueue()
    ensures Led1().readStates == []
    ensures Fine(1, Led1())
  {
    hide New;
    Running1();
  }

  lemma Served1Facts()
    ensures Serving(Served1()) && Served1().readOnly == EmptyQueue() && Served1().readStates == []
    ensures Served1().prs[3].matched == 0
    ensures Fine(1, Served1())
  {
    hide Led1;
    Led1Facts();
  }

  lemma Voted2Facts()
    ensures var n := Voted2();
      && n.cfg == Cfg(2) && n.msgs == [] && n.role.Follower? && n.committed == 0
      && n.log == [] && n.term == 1 && n.electionElapsed == 0
    ensures Fine(2, Voted2())
  {
  }

  lemma NewParts(i: NodeId)
    requires i in {1, 2, 3}
    ensures var cfg := New(i).cfg;
      && cfg == Cfg(i) && New(i) == NewNode(cfg) && cfg.id == i && ConfigOK(cfg) && !cfg.leaseRead
      && (forall p :: p in cfg.peers <==> p in {1, 2, 3})
  {
    hide NewNode;
    NewConfig(Cfg(i));
  }

  lemma NewSystem()
    ensures Init(System(Trio(New(1), New(2), New(3)), {})) && SafeMode(System(Trio(New(1), New(2), New(3)), {}))
  {
    hide New, NewNode, ConfigOK, Cfg;
    NewParts(1);
    NewParts(2);
    NewParts(3);
  }

  lemma Start(sent: bool) returns (cs: seq<System>, acts: seq<(NodeId, Action)>)
    ensures Scene(cs, acts, sent, 0, New(1), New(2), New(3), {})
  {
    hide Fine, New, Init, SafeMode, Idle;
    cs, acts := [System(Trio(New(1), New(2), New(3)), {})], [];
    NewFacts(1);
    NewFacts(2);
    NewFacts(3);
    NewSystem();
  }

  lemma Hup1()
    ensures Takes(1, New(1), Blank(MsgHup, 1), Running(New(1)), [Ballot(New(1), 2), Ballot(New(1), 3)])
  {
    hide Step, New, Running;
    NewFacts(1);
    Running1();
    Campaigns(New(1), 1);
  }

  lemma Vote2()
    ensures Takes(2, New(2), Ballot(New(1), 2), Voted2(), [VoteFor(Running(New(1)), 2)])
  {
    hide Step, New, Running, Granting;
    NewFacts(1);
    NewFacts(2);
    Running1();
    Voted2Facts();
    Grants(New(2), Ballot(New(1), 2));
  }

  lemma Win1()
    ensures var n := Running(New(1)); Takes(1, n, VoteFor(n, 2), Led1(), [OpeningApp(n, 2), OpeningApp(n, 3)])
  {
    hide Step, New, Running;
    Running1();
    Led1Facts();
    Wins(Running(New(1)), 1);
  }

  lemma App2()
    ensures Takes(2, Voted2(), OpeningApp(Running(New(1)), 2), Logged2(), [AckOf(Led1(), 1)])
  {
    hide Step, New, Running, Voted2, Led1;
    Voted2Facts();
    Running1();
    Led1Facts();
    TakesApp(Voted2(), OpeningApp(Running(New(1)), 2), Opening(1, 1));
  }

  lemma Commit1()
    ensures Takes(1, Led1(), AckOf(Led1(), 1), Served1(), [CommitApp(Led1())])
  {
    hide Step, Led1;
    Led1Facts();
    Served1Facts();
    Commits(Led1(), 1);
  }

  /** Voter 1 is elected by voter 2 and commits its first entry. */
  lemma Elected(sent: bool) returns (cs: seq<System>, acts: seq<(NodeId, Action)>, net: set<Message>)
    ensures Scene(cs, acts, sent, 5, Served1(), Logged2(), New(3), net) && OpeningApp(Running(New(1)), 3) in net
  {
    hide Scene, New, Running, Led1, Served1, Voted2, Logged2, Takes;
    var n0, n1 := New(1), Running(New(1));
    Running1();
    Led1Facts();
    cs, acts := Start(sent);
    net := {};
    Hup1();
    cs, acts := Moves(cs, acts, sent, 0, n0, New(2), New(3), net, 1, Request(Blank(MsgHup, 1)), n1,
        [Ballot(n0, 2), Ballot(n0, 3)]);
    net := net + (set m | m in [Ballot(n0, 2), Ballot(n0, 3)]);
    Vote2();
    cs, acts := Moves(cs, acts, sent, 1, n1, New(2), New(3), net, 2, Deliver(Ballot(n0, 2)), Voted2(), [VoteFor(n1, 2)]);
    net := net + (set m | m in [VoteFor(n1, 2)]);
    Win1();
    cs, acts := Moves(cs, acts, sent, 2, n1, Voted2(), New(3), net, 1, Deliver(VoteFor(n1, 2)), Led1(),
        [OpeningApp(n1, 2), OpeningApp(n1, 3)]);
    net := net + (set m | m in [OpeningApp(n1, 2), OpeningApp(n1, 3)]);
    App2();
    cs, acts := Moves(cs, acts, sent, 3, Led1(), Voted2(), New(3), net, 2, Deliver(OpeningApp(n1, 2)), Logged2(),
        [AckOf(Led1(), 1)]);
    net := net + (set m | m in [AckOf(Led1(), 1)]);
    Commit1();
    cs, acts := Moves(cs, acts, sent, 4, Led1(), Logged2(), New(3), net, 1, Deliver(AckOf(Led1(), 1)), Served1(),
        [CommitApp(Led1())]);
    net := net + (set m | m in [CommitApp(Led1())]);
  }

  // ---------------------------------------------------------------- the first read

  function Asked1(sent: bool): Node {
    Queueing(Served1(), Arriving(sent))
  }

  function Answered1(sent: bool): Node {
    Served1().(readStates := States(Arriving(sent)))
  }

  function Committed2(): Node {
    Logged2().(committed := 1)
  }

  lemma Logged2Facts()
    ensures var n := Logged2();
      && n.cfg == Cfg(2) && n.msgs == [] && n.role.Follower? && n.committed == 0 && n.term == 1 && n.lead == 1
      && n.log == [Opening(1, 1)] && n.electionElapsed == 0
  {
    hide Voted2;
    Voted2Facts();
  }

  lemma Logged3Facts()
    ensures var n := Logged3();
      && Idle(n, 3) && n.role.Follower? && n.committed == 0 && n.term == 1 && n.lead == 1
      && n.log == [Opening(1, 1)] && n.electionElapsed == 0
    ensures Fine(3, Logged3())
  {
  }

  function Ack3(): Message {
    Message(MsgAppResp, 1, 3, 1, 0, 1, [], 0, false, 0, "")
  }

  lemma App3()
    ensures Takes(3, New(3), OpeningApp(Running(New(1)), 3), Logged3(),
                  [Ack3()])
  {
    hide Step, New, Running, BecomeFollower, Idle, Fine;
    NewFacts(3);
    NewParts(3);
    Running1();
    Logged3Facts();
    FlushedFacts();
    TakesApp(New(3), OpeningApp(Running(New(1)), 3), Opening(1, 1));
  }

  lemma FlushedFacts()
    ensures New(3).msgs == [] && Running(New(1)).cfg == Cfg(1) && Logged3().msgs == []
  {
  }

  lemma Ask3(ctx: string)
    ensures Takes(3, Logged3(), ReadRequest(ctx), Logged3(), [Forwarded(ctx)])
  {
    hide Step, Logged3;
    Logged3Facts();
    Forwards(Logged3(), ctx);
  }

  lemma AskC(sent: bool)
    ensures Takes(1, Served1(), Arriving(sent), Asked1(sent), [BeatTo(Served1(), 2, "c"), BeatTo(Served1(), 3, "c")])
    ensures Serving(Asked1(sent)) && Asked1(sent).readOnly == Alone(Arriving(sent))
  {
    hide Step, Served1;
    Served1Facts();
    Queues(Served1(), Arriving(sent));
  }

  lemma Beat2()
    ensures Takes(2, Logged2(), BeatTo(Served1(), 2, "c"), Committed2(), [Echo(2, "c")])
  {
    hide Step, Served1, Logged2;
    Served1Facts();
    Logged2Facts();
    TakesBeat(Logged2(), BeatTo(Served1(), 2, "c"));
  }

  lemma Beat3()
    ensures Takes(3, Logged3(), BeatTo(Served1(), 3, "c"), Logged3(), [Echo(3, "c")])
  {
    hide Step, Served1, Logged3;
    Served1Facts();
    Logged3Facts();
    TakesBeat(Logged3(), BeatTo(Served1(), 3, "c"));
  }

  lemma AnswerC(sent: bool)
    ensures Takes(1, Asked1(sent), Echo(2, "c"), Answered1(sent), Answer(Arriving(sent)))
  {
    hide Step, Served1;
    Served1Facts();
    AskC(sent);
    ReleasesOne(Asked1(sent), Arriving(sent));
  }

  /** Voter 1 answers a read under context c when voter 2 confirms it; voter 3 confirms it too. */
  lemma FirstRead(sent: bool) returns (cs: seq<System>, acts: seq<(NodeId, Action)>, net: set<Message>)
    ensures Scene(cs, acts, sent, 11, Answered1(sent), Committed2(), Logged3(), net) && Echo(3, "c") in net
    ensures Forwarded("c") in net && forall m :: m in Answer(Arriving(sent)) ==> m in net
  {
    hide Scene, New, Running, Served1, Logged2, Logged3, Asked1, Answered1, Committed2, Takes, Ack3, Serving, Alone, Answer;
    var app, s1 := OpeningApp(Running(New(1)), 3), Served1();
    cs, acts, net := Elected(sent);
    App3();
    cs, acts := Moves(cs, acts, sent, 5, s1, Logged2(), New(3), net, 3, Deliver(app), Logged3(), [Ack3()]);
    net := net + (set m | m in [Ack3()]);
    Ask3("c");
    cs, acts := Moves(cs, acts, sent, 6, s1, Logged2(), Logged3(), net, 3, Request(ReadRequest("c")), Logged3(),
        [Forwarded("c")]);
    net := net + (set m | m in [Forwarded("c")]);
    cs, acts, net := Confirmed3(sent, cs, acts, net);
  }

  lemma Confirmed3(sent: bool, cs: seq<System>, acts: seq<(NodeId, Action)>, net: set<Message>)
    returns (cs': seq<System>, acts': seq<(NodeId, Action)>, net': set<Message>)
    requires Scene(cs, acts, sent, 7, Served1(), Logged2(), Logged3(), net) && Forwarded("c") in net
    ensures Scene(cs', acts', sent, 11, Answered1(sent), Committed2(), Logged3(), net') && Echo(3, "c") in net'
    ensures net <= net' && forall m :: m in Answer(Arriving(sent)) ==> m in net'
  {
    hide Scene, Served1, Logged2, Logged3, Asked1, Answered1, Committed2, Takes, Serving, Alone, Answer;
    var s1, beats := Served1(), [BeatTo(Served1(), 2, "c"), BeatTo(Served1(), 3, "c")];
    AskC(sent);
    cs', acts' := Moves(cs, acts, sent, 7, s1, Logged2(), Logged3(), net, 1, Arrival(sent), Asked1(sent), beats);
    assert beats[0] in beats && beats[1] in beats;
    net' := net + (set m | m in beats);
    Beat2();
    cs', acts' := Moves(cs', acts', sent, 8, Asked1(sent), Logged2(), Logged3(), net', 2, Deliver(beats[0]),
        Committed2(), [Echo(2, "c")]);
    net' := net' + (set m | m in [Echo(2, "c")]);
    Beat3();
    cs', acts' := Moves(cs', acts', sent, 9, Asked1(sent), Committed2(), Logged3(), net', 3, Deliver(beats[1]),
        Logged3(), [Echo(3, "c")]);
    net' := net' + (set m | m in [Echo(3, "c")]);
    AnswerC(sent);
    cs', acts' := Moves(cs', acts', sent, 10, Asked1(sent), Committed2(), Logged3(), net', 1, Deliver(Echo(2, "c")),
        Answered1(sent), Answer(Arriving(sent)));
    net' := net' + (set m | m in Answer(Arriving(sent)));
  }

  // ---------------------------------------------------------------- the next leader

  function Led3(): Node {
    Leading(Running(Logged3()))
  }

  function Served3(): Node {
    Committing(Led3())
  }

  function Moved2(): Node {
    Granting(Committed2(), Ballot(Logged3(), 2))
  }

  function Extended2(): Node {
    Moved2().(lead := 3, log := [Opening(1, 1), Opening(2, 2)])
  }

  lemma Running3()
    ensures var n := Running(Logged3());
      && Idle(n, 3) && n.role.Candidate? && n.votes == map[3 := true] && n.committed == 0 && n.term == 2
      && n.log == [Opening(1, 1)]
      && Fine(3, n)
  {
    hide Logged3;
    Logged3Facts();
  }

  lemma Led3Facts()
    ensures Unacked(Led3(), 3) && Led3().log == [Opening(1, 1), Opening(2, 2)] && Led3().term == 2
    ensures Fine(3, Led3())
  {
    hide Running;
    Running3();
  }

  lemma Served3Facts()
    ensures Served3().committed == 2 && Served3().msgs == []
    ensures Fine(3, Served3())
  {
    hide Led3;
    Led3Facts();
  }

  lemma Moved2Facts()
    ensures var n := Moved2();
      && n.cfg == Cfg(2) && n.msgs == [] && n.role.Follower? && n.committed == 1 && n.term == 2
      && n.log == [Opening(1, 1)] && n.electionElapsed == 0
  {
    hide Logged2, Logged3;
    Logged2Facts();
    Logged3Facts();
  }

  lemma Hup3()
    ensures Takes(3, Logged3(), Blank(MsgHup, 3), Running(Logged3()), [Ballot(Logged3(), 1), Ballot(Logged3(), 2)])
  {
    hide Step, Logged3, Running;
    Logged3Facts();
    Running3();
    Campaigns(Logged3(), 3);
  }

  lemma Vote2Again()
    ensures Takes(2, Committed2(), Ballot(Logged3(), 2), Moved2(), [VoteFor(Running(Logged3()), 2)])
  {
    hide Step, Logged2, Logged3, Running, Granting;
    Logged2Facts();
    Logged3Facts();
    Running3();
    Moved2Facts();
    Grants(Committed2(), Ballot(Logged3(), 2));
  }

  lemma Win3()
    ensures var n := Running(Logged3()); Takes(3, n, VoteFor(n, 2), Led3(), [OpeningApp(n, 1), OpeningApp(n, 2)])
  {
    hide Step, Logged3, Running;
    Running3();
    Led3Facts();
    Wins(Running(Logged3()), 3);
  }

  lemma App2Again()
    ensures Takes(2, Moved2(), OpeningApp(Running(Logged3()), 2), Extended2(), [AckOf(Led3(), 2)])
  {
    hide Step, Logged3, Running, Moved2, Led3;
    Moved2Facts();
    Running3();
    Led3Facts();
    TakesApp(Moved2(), OpeningApp(Running(Logged3()), 2), Opening(2, 2));
  }

  lemma Commit3()
    ensures Takes(3, Led3(), AckOf(Led3(), 2), Served3(), [CommitApp(Led3())])
  {
    hide Step, Led3;
    Led3Facts();
    Served3Facts();
    Commits(Led3(), 3);
  }

  /** Voter 3 is elected by voter 2, while voter 1 hears nothing of it. */
  lemma Overtaken(sent: bool) returns (cs: seq<System>, acts: seq<(NodeId, Action)>, net: set<Message>)
    ensures Scene(cs, acts, sent, 14, Answered1(sent), Moved2(), Led3(), net)
    ensures Echo(3, "c") in net && Forwarded("c") in net && OpeningApp(Running(Logged3()), 2) in net
  {
    hide Scene, Running, Logged3, Answered1, Committed2, Led3, Moved2, Takes, TermAt;
    var a, n0, n1 := Answered1(sent), Logged3(), Running(Logged3());
    Running3();
    cs, acts, net := FirstRead(sent);
    Hup3();
    cs, acts := Moves(cs, acts, sent, 11, a, Committed2(), n0, net, 3, Request(Blank(MsgHup, 3)), n1,
        [Ballot(n0, 1), Ballot(n0, 2)]);
    net := net + (set m | m in [Ballot(n0, 1), Ballot(n0, 2)]);
    Vote2Again();
    cs, acts := Moves(cs, acts, sent, 12, a, Committed2(), n1, net, 2, Deliver(Ballot(n0, 2)), Moved2(), [VoteFor(n1, 2)]);
    net := net + (set m | m in [VoteFor(n1, 2)]);
    Win3();
    cs, acts := Moves(cs, acts, sent, 13, a, Moved2(), n1, net, 3, Deliver(VoteFor(n1, 2)), Led3(),
        [OpeningApp(n1, 1), OpeningApp(n1, 2)]);
    net := net + (set m | m in [OpeningApp(n1, 1), OpeningApp(n1, 2)]);
  }

  /** Voter 3 commits a second entry. */
  lemma Deposed(sent: bool) returns (cs: seq<System>, acts: seq<(NodeId, Action)>, net: set<Message>)
    ensures Scene(cs, acts, sent, 16, Answered1(sent), Extended2(), Served3(), net)
    ensures Echo(3, "c") in net && Forwarded("c") in net
  {
    hide Scene, Running, Logged3, Answered1, Led3, Served3, Moved2, Extended2, Takes, CommitApp, TermAt;
    var a, n1 := Answered1(sent), Running(Logged3());
    Led3Facts();
    cs, acts, net := Overtaken(sent);
    App2Again();
    cs, acts := Moves(cs, acts, sent, 14, a, Moved2(), Led3(), net, 2, Deliver(OpeningApp(n1, 2)), Extended2(),
        [AckOf(Led3(), 2)]);
    net := net + (set m | m in [AckOf(Led3(), 2)]);
    Commit3();
    cs, acts := Moves(cs, acts, sent, 15, a, Extended2(), Led3(), net, 3, Deliver(AckOf(Led3(), 2)), Served3(),
        [CommitApp(Led3())]);
    net := net + (set m | m in [CommitApp(Led3())]);
  }

  // ---------------------------------------------------------------- the stale read

  function Asked1Again(sent: bool): Node {
    Queueing(Answered1(sent), ReadRequest("d"))
  }

  function Reused1(sent: bool): Node {
    Queueing(Asked1Again(sent), Arriving(sent))
  }

  lemma AskD(sent: bool)
    ensures Step(Answered1(sent), ReadRequest("d")) ==
            Asked1Again(sent).(msgs := [BeatTo(Answered1(sent), 2, "d"), BeatTo(Answered1(sent), 3, "d")])
    ensures Serving(Asked1Again(sent)) && Asked1Again(sent).readOnly == Alone(ReadRequest("d"))
  {
    hide Step, Served1;
    Served1Facts();
    Queues(Answered1(sent), ReadRequest("d"));
  }

  lemma AskCAgain(sent: bool)
    ensures Step(Asked1Again(sent), Arriving(sent)) ==
            Reused1(sent).(msgs := [BeatTo(Asked1Again(sent), 2, "c"), BeatTo(Asked1Again(sent), 3, "c")])
    ensures Serving(Reused1(sent)) && Reused1(sent).readOnly == InTurn(ReadRequest("d"), Arriving(sent))
  {
    hide Step, Asked1Again;
    AskD(sent);
    Queues(Asked1Again(sent), Arriving(sent));
  }

  /** Accepting the read puts it on the queue. */
  lemma QueuedHere(cs: seq<System>, a: nat, j: NodeId)
    requires Run(cs) && a + 1 < |cs| && Before(cs[a]) && Before(cs[a + 1])
    ensures !(Accepts(cs, a, j, "d") && cs[a].nodes[j].committed == 1)
  {
    if Accepts(cs, a, j, "d") && cs[a].nodes[j].committed == 1 {
      var m :| TakesRead(cs[a], cs[a + 1], j, m) && Ctx(m) == "d";
      hide Run, Enabled, Step, ReadIndexReq, Before, LocalMsg;
      ReadKind(cs, a, j, m);
      OnlyVoter1(cs[a], j);
      NotQueued(cs[a + 1]);
      assert cs[a + 1].nodes[j].readOnly == Step(cs[a].nodes[j], m).readOnly;
      ReadIndexFrame(cs[a].nodes[j], m);
    }
  }

  lemma OnlyVoter1(c: System, j: NodeId)
    requires Before(c) && j in c.nodes && c.nodes[j].role.Leader? && c.nodes[j].committed == 1
    ensures j == 1 && c.nodes[j].cfg == Cfg(1) && Quorum(c.nodes[j]) == 2 && TermAt(c.nodes[j].log, 1) == c.nodes[j].term
  {
  }

  lemma NotQueued(c: System)
    requires Before(c)
    ensures 1 in c.nodes && "d" !in c.nodes[1].readOnly.pending
  {
  }

  lemma ReadKind(cs: seq<System>, a: nat, j: NodeId, m: Message)
    requires Run(cs) && a + 1 < |cs| && j in cs[a].nodes && cs[a].nodes[j].role.Leader? && TakesRead(cs[a], cs[a + 1], j, m)
    ensures m.entries != [] && Step(cs[a].nodes[j], m) == ReadIndexReq(cs[a].nodes[j], m)
  {
    hide Run, Step, ReadIndexReq, Inv, LocalMsg;
    var hs := Chronicled(cs);
    assert Inv(cs[a], hs[a]);
    if Enabled(cs[a], j, Deliver(m)) { MessageFacts(cs[a], hs[a], j, Deliver(m)); }
    TakenStep(hs[a], cs[a].nodes[j], m);
  }

  lemma NoReadPoint(cs: seq<System>, a: nat, j: NodeId)
    requires Run(cs) && |cs| > 16 && AllBefore(cs[..17]) && cs[16].nodes[3].committed == 2
    ensures !ReadPoint(cs, a, j, 1, "d")
  {
    hide Run, Accepts, Before;
    if a < 16 {
      assert cs[a] == cs[..17][a] && cs[a + 1] == cs[..17][a + 1];
      QueuedHere(cs, a, j);
    } else {
      assert cs[16] == cs[..17][16];
      Third(cs[16]);
    }
  }

  lemma Third(c: System)
    requires Before(c)
    ensures 3 in c.nodes
  {
  }

  lemma SceneFacts(cs: seq<System>, acts: seq<(NodeId, Action)>, sent: bool, k: nat, a: Node, b: Node, c: Node,
                   net: set<Message>)
    requires Scene(cs, acts, sent, k, a, b, c, net)
    ensures Run(cs) && |cs| == k + 1 && cs[k].nodes == Trio(a, b, c) && SafeMode(cs[0]) && AllBefore(cs)
    ensures Story(cs, acts, sent) && net <= cs[k].net
  {
    hide RunBy, Run, Before, SafeMode;
    RunByRuns(cs, acts);
  }

  /** A leader and a committed entry in a cluster of three voters. */
  lemma ThreeVotersCommit() returns (cs: seq<System>)
    ensures Run(cs) && |cs| == 6 && cs[5].nodes.Keys == {1, 2, 3}
    ensures var n := cs[5].nodes[1]; n.role.Leader? && n.committed == 1 == |n.log| && cs[5].nodes[2].log == n.log
  {
    Served1Facts();
    Logged2Facts();
    hide Run, Scene, Served1, Logged2, New, Running, SafeMode, AllBefore, Story;
    var acts, net;
    cs, acts, net := Elected(false);
    SceneFacts(cs, acts, false, 5, Served1(), Logged2(), New(3), net);
  }

  /** The answer reaches voter 3. */
  lemma Answered3()
    ensures var m := Message(MsgReadIndexResp, 3, 1, 1, 0, 1, ReadRequest("c").entries, 0, false, 0, "");
      && Answer(Arriving(true)) == [m]
      && Takes(3, Logged3(), m, Logged3().(readStates := Logged3().readStates + [ReadState(1, "c")]), [])
  {
    hide Step, Logged3;
    Logged3Facts();
    L.ReadAnswered(Logged3(), Answer(Arriving(true))[0]);
  }

  /** A read that a follower sends on comes back to it: the leader takes it at its commit index, is confirmed
      by another voter, and the follower has its read state. */
  lemma FollowerReads() returns (cs: seq<System>)
    ensures Run(cs) && |cs| == 13 && cs[12].nodes.Keys == {1, 2, 3} && cs[12].nodes[1].role.Leader?
    ensures cs[12].nodes[3].role.Follower? && ReadState(1, "c") in cs[12].nodes[3].readStates
  {
    hide Scene, Run, New, Running, Served1, Logged2, Logged3, Answered1, Committed2, Takes, Story, SafeMode, AllBefore;
    hide Answer;
    var acts, net;
    cs, acts, net := FirstRead(true);
    Answered3();
    var m := Answer(Arriving(true))[0];
    var n := Logged3().(readStates := Logged3().readStates + [ReadState(1, "c")]);
    cs, acts := Moves(cs, acts, true, 11, Answered1(true), Committed2(), Logged3(), net, 3, Deliver(m), n, []);
    Logged3Facts();
    Answered1Leads();
    SceneFacts(cs, acts, true, 12, Answered1(true), Committed2(), n, net + (set x | x in []));
    StoryFacts(cs, acts, true);
  }

  lemma Answered1Leads()
    ensures Answered1(true).role.Leader?
  {
    hide Served1;
    Served1Facts();
  }

  /** A state after the others have moved on: all that voter 1 still does. */
  ghost predicate Late1(cs: seq<System>, acts: seq<(NodeId, Action)>, sent: bool, k: nat, a: Node, net: set<Message>) {
    Story(cs, acts, sent) && |cs| == k + 1 && Last(cs).nodes == Trio(a, Extended2(), Served3()) && net <= Last(cs).net
  }

  ghost predicate Becomes(n: Node, m: Message, n': Node, ms: seq<Message>) {
    Step(n, m) == n'.(msgs := ms) && n'.msgs == []
  }

  lemma LastSteps(sent: bool)
    ensures var n0, n1, n2 := Answered1(sent), Asked1Again(sent), Reused1(sent);
      var n' := Step(n2, Echo(3, "c"));
      && Becomes(n0, ReadRequest("d"), n1, [BeatTo(n0, 2, "d"), BeatTo(n0, 3, "d")])
      && Becomes(n1, Arriving(sent), n2, [BeatTo(n1, 2, "c"), BeatTo(n1, 3, "c")])
      && Becomes(n2, Echo(3, "c"), n'.(msgs := []), n'.msgs)
  {
    hide Answered1, Asked1Again, Reused1, Step, InTurn, Alone, BeatTo;
    AskD(sent);
    AskCAgain(sent);
  }

  lemma Continues1(cs: seq<System>, acts: seq<(NodeId, Action)>, sent: bool, k: nat, a: Node, net: set<Message>,
                   act: Action, n': Node, ms: seq<Message>)
    returns (cs': seq<System>, acts': seq<(NodeId, Action)>)
    requires Late1(cs, acts, sent, k, a, net) && Allowed(sent, k, act)
    requires match act
      case Deliver(m) => m in net && m.to == 1
      case Request(m) => LocalMsg(m)
      case _ => false
    requires Becomes(a, act.m, n', ms)
    ensures Late1(cs', acts', sent, k + 1, n', net) && |cs'| == k + 2 && cs'[..k + 1] == cs
  {
    hide Step, Story, LocalMsg, Allowed, Extended2, Served3;
    cs', acts' := Goes(cs, acts, sent, 1, act, n', ms);
    Sets(a, Extended2(), Served3(), n');
  }

  lemma Ending(sent: bool, cs: seq<System>, acts: seq<(NodeId, Action)>, net: set<Message>)
    returns (cs': seq<System>, acts': seq<(NodeId, Action)>)
    requires Late1(cs, acts, sent, 16, Answered1(sent), net) && |cs| == 17 && Echo(3, "c") in net && Forwarded("c") in net
    ensures Late1(cs', acts', sent, 19, Step(Reused1(sent), Echo(3, "c")).(msgs := []), net) && |cs'| == 20
    ensures cs'[..17] == cs
  {
    hide Late1, Answered1, Asked1Again, Reused1, Step, BeatTo, Becomes;
    LastSteps(sent);
    var n0, n1, n2 := Answered1(sent), Asked1Again(sent), Reused1(sent);
    var cs1, acts1 := Continues1(cs, acts, sent, 16, n0, net, Request(ReadRequest("d")), n1,
        [BeatTo(n0, 2, "d"), BeatTo(n0, 3, "d")]);
    var cs2, acts2 := Continues1(cs1, acts1, sent, 17, n1, net, Arrival(sent), n2,
        [BeatTo(n1, 2, "c"), BeatTo(n1, 3, "c")]);
    var n' := Step(n2, Echo(3, "c"));
    cs', acts' := Continues1(cs2, acts2, sent, 18, n2, net, Deliver(Echo(3, "c")), n'.(msgs := []), n'.msgs);
    assert cs'[..17] == cs'[..19][..18][..17];
  }

  lemma Released(sent: bool)
    ensures ReadState(1, "d") in Step(Reused1(sent), Echo(3, "c")).readStates
  {
    hide Step, Reused1;
    AskCAgain(sent);
    ReleasesBoth(Reused1(sent), ReadRequest("d"), Arriving(sent));
  }

  /** Linearizability needs both that reads are asked for under contexts of their own and that no read
      request is delivered twice. Leader 1 answers a read under context c. Then, when voter 3 has
      already committed more, it is asked for a read under d, and c reaches it again: in the one run
      voter 3's request is delivered a second time, in the other c is asked for once more. Voter 3's
      late answer for the first c releases d, at an index below what was committed before d was asked
      for. */
  lemma StaleRead(sent: bool) returns (cs: seq<System>, acts: seq<(NodeId, Action)>)
    ensures RunBy(cs, acts) && SafeMode(cs[0]) && (if sent then FreshRequests(acts) else NoReadTwice(acts))
    ensures |cs| > 0 && 1 in cs[|cs| - 1].nodes && ReadState(1, "d") in cs[|cs| - 1].nodes[1].readStates
    ensures forall a: nat, j: NodeId :: !ReadPoint(cs, a, j, 1, "d")
  {
    hide Scene, Run, RunBy, SafeMode, ReadPoint, AllBefore, Answered1, Extended2, Served3, Story, Step;
    hide FreshRequests, NoReadTwice;
    var cs0, acts0, net := Deposed(sent);
    SceneFacts(cs0, acts0, sent, 16, Answered1(sent), Extended2(), Served3(), net);
    Served3Facts();
    cs, acts := Ending(sent, cs0, acts0, net);
    StoryFacts(cs, acts, sent);
    Released(sent);
    assert cs[0] == cs[..17][0] && cs[16] == cs[..17][16];
    forall a: nat, j: NodeId
      ensures !ReadPoint(cs, a, j, 1, "d")
    {
      NoReadPoint(cs, a, j);
    }
  }

  lemma StoryFacts(cs: seq<System>, acts: seq<(NodeId, Action)>, sent: bool)
    requires Story(cs, acts, sent)
    ensures RunBy(cs, acts) && Run(cs) && (if sent then FreshRequests(acts) else NoReadTwice(acts))
  {
    hide RunBy, Run, Ctx;
    RunByRuns(cs, acts);
  }
}
