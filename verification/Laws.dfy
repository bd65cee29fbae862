/** What a step does, in terms of what its caller sees: who is elected, what is voted, logged, sent and
    answered (src/raft.cc). Majorities are counted in voters and messages are written out, so that none
    of these laws rests on how `Nodes` computes the step. */
module Laws {
  import opened Types
  import opened Logs
  import opened Progresses
  import opened ReadQueues
  import opened Nodes
  import opened NodeLocal

  // ---------------------------------------------------------------- voters and messages

  /** More than half of the voters. */
  predicate Most(cfg: Config, k: nat) {
    2 * k > |cfg.peers|
  }

  /** The node sent these messages, after what it had sent before. */
  ghost predicate Sends(n: Node, n': Node, ms: seq<Message>) {
    n'.msgs == n.msgs + ms
  }

  /** A message to every other voter, in their order. */
  function ToOthers(id: NodeId, ps: seq<NodeId>, f: NodeId -> Message): seq<Message> {
    if ps == [] then []
    else (if ps[0] == id then [] else [f(ps[0])]) + ToOthers(id, ps[1..], f)
  }

  /** The messages of a kind, in order. */
  function OfKind(ms: seq<Message>, kind: MsgType): seq<Message> {
    if ms == [] then []
    else
      var rest, m := OfKind(ms[..|ms| - 1], kind), ms[|ms| - 1];
      if m.kind == kind then rest + [m] else rest
  }

  lemma KindOne(ms: seq<Message>, m: Message, kind: MsgType)
    ensures OfKind(ms + [m], kind) == if m.kind == kind then OfKind(ms, kind) + [m] else OfKind(ms, kind)
  {
    assert (ms + [m])[..|ms + [m]| - 1] == ms;
  }

  /** The answers to reads among the messages. */
  function Answers(ms: seq<Message>): seq<Message> {
    OfKind(ms, MsgReadIndexResp)
  }

  function LastOf(log: Log): nat {
    if log == [] then 0 else log[|log| - 1].term
  }

  // ---------------------------------------------------------------- campaigns

  function Ballot(n: Node, kind: MsgType, term: nat, context: string): NodeId -> Message {
    (p: NodeId) => Message(kind, p, n.cfg.id, term, LastOf(n.log), |n.log|, [], 0, false, 0, context)
  }

  lemma {:induction false} VotesSent(n: Node, ps: seq<NodeId>, m: Message, f: NodeId -> Message)
    requires IsCampaignMsg(m.kind) && m.term != 0 && forall p :: f(p) == m.(to := p, from := n.cfg.id)
    ensures SendVotes(n, ps, m) == n.(msgs := n.msgs + ToOthers(n.cfg.id, ps, f))
    decreases |ps|
  {
    if ps != [] {
      if ps[0] == n.cfg.id {
        VotesSent(n, ps[1..], m, f);
        assert n.msgs + ([] + ToOthers(n.cfg.id, ps[1..], f)) == n.msgs + ToOthers(n.cfg.id, ps[1..], f);
      } else {
        var n1 := Send(n, m.(to := ps[0]));
        assert n1 == n.(msgs := n.msgs + [f(ps[0])]);
        VotesSent(n1, ps[1..], m, f);
        var rest := ToOthers(n.cfg.id, ps[1..], f);
        assert n.msgs + [f(ps[0])] + rest == n.msgs + ([f(ps[0])] + rest);
      }
    }
  }

  /** A candidate of the next term that has voted for itself and asked everyone else. */
  ghost predicate Stands(n: Node, n': Node, context: string) {
    && n'.role.Candidate? && n'.term == n.term + 1 && n'.vote == n.cfg.id && n'.votes == map[n.cfg.id := true]
    && n'.cfg == n.cfg && n'.lead == NONE && n'.log == n.log && n'.committed == n.committed
    && Sends(n, n', ToOthers(n.cfg.id, n.cfg.peers, Ballot(n, MsgVote, n.term + 1, context)))
  }

  /** A pre-candidate that is in its old term, has voted for itself and asked everyone else. */
  ghost predicate Sounds(n: Node, n': Node) {
    && n'.role.PreCandidate? && n'.term == n.term && n'.vote == n.vote && n'.votes == map[n.cfg.id := true]
    && n'.cfg == n.cfg && n'.log == n.log && n'.committed == n.committed
    && Sends(n, n', ToOthers(n.cfg.id, n.cfg.peers, Ballot(n, MsgPreVote, n.term + 1, "")))
  }

  lemma AloneCounts(id: NodeId)
    ensures Granted(map[id := true]) == {id} && |Granted(map[id := true])| == 1
  {
    assert Granted(map[id := true]) == {id};
  }

  lemma LastIs(log: Log)
    ensures TermAt(log, |log|) == LastOf(log)
  {
  }

  lemma OfficeSought(n: Node, t: CampaignType)
    requires !n.role.Leader? && |n.cfg.peers| > 1 && !t.PreElection?
    ensures Stands(n, RunForOffice(n, t), if t.Transfer? then "CampaignTransfer" else "")
  {
    hide FreshPeers, SendVotes;
    var c := Poll(BecomeCandidate(n), n.cfg.id, true).0;
    assert c.votes == map[n.cfg.id := true];
    AloneCounts(n.cfg.id);
    LastIs(n.log);
    var context := if t.Transfer? then "CampaignTransfer" else "";
    VotesSent(c, n.cfg.peers, VoteRequest(c, t), Ballot(n, MsgVote, n.term + 1, context));
  }

  lemma PollHeld(n: Node)
    requires !n.role.Leader? && |n.cfg.peers| > 1
    ensures Sounds(n, Campaign(n, PreElection))
  {
    hide SendVotes, RunForOffice;
    var c := Poll(BecomePreCandidate(n), n.cfg.id, true).0;
    assert c.votes == map[n.cfg.id := true];
    AloneCounts(n.cfg.id);
    LastIs(n.log);
    VotesSent(c, n.cfg.peers, VoteRequest(c, PreElection), Ballot(n, MsgPreVote, n.term + 1, ""));
  }

  /** There is a committed configuration change that is not applied yet. */
  ghost predicate Unsettled(n: Node) {
    exists k :: n.applied <= k < n.committed && k < |n.log| && n.log[k].kind.EntryConfChange?
  }

  lemma {:induction false} ConfCounted(es: seq<Entry>)
    ensures NumConf(es) != 0 <==> exists k :: 0 <= k < |es| && es[k].kind.EntryConfChange?
  {
    if es != [] {
      ConfCounted(es[1..]);
      if k :| 0 <= k < |es| && es[k].kind.EntryConfChange? {
        assert k > 0 ==> es[1..][k - 1] == es[k];
      }
      if k :| 0 <= k < |es[1..]| && es[1..][k].kind.EntryConfChange? {
        assert es[k + 1] == es[1..][k];
      }
    }
  }

  lemma UnsettledCounted(n: Node)
    requires n.applied <= n.committed <= |n.log|
    ensures Unsettled(n) <==> NumConf(n.log[n.applied..n.committed]) != 0
    ensures Unsettled(n) ==> n.applied < n.committed
  {
    var es := n.log[n.applied..n.committed];
    ConfCounted(es);
    if k :| n.applied <= k < n.committed && n.log[k].kind.EntryConfChange? { assert es[k - n.applied] == n.log[k]; }
    if k :| 0 <= k < |es| && es[k].kind.EntryConfChange? { assert n.log[n.applied + k] == es[k]; }
  }

  /** Asked to campaign: a leader does nothing, nor does a node with an unapplied configuration change;
      with pre-vote it asks around in its old term; without, it stands in the next. */
  lemma HupCampaigns(n: Node, m: Message)
    requires Local(n) && m.kind.MsgHup? && m.term == 0 && |n.cfg.peers| > 1
    ensures var n' := Step(n, m);
      && (n.role.Leader? || Unsettled(n) ==> n' == n)
      && (!n.role.Leader? && !Unsettled(n) && n.cfg.preVote ==> Sounds(n, n'))
      && (!n.role.Leader? && !Unsettled(n) && !n.cfg.preVote ==> Stands(n, n', ""))
  {
    hide Campaign, NumConf, Unsettled, Sounds, Stands, RunForOffice;
    Cursors(n);
    UnsettledCounted(n);
    if !n.role.Leader? {
      PollHeld(n);
      OfficeSought(n, Election);
      CampaignElection(n, Election);
    }
  }

  /** A lone voter is leader of the next term at once, with or without pre-vote. */
  lemma LoneVoterLeads(n: Node, m: Message)
    requires Local(n) && m.kind.MsgHup? && m.term == 0 && |n.cfg.peers| == 1 && !n.role.Leader? && !Unsettled(n)
    ensures var n' := Step(n, m);
      && n'.role.Leader? && n'.term == n.term + 1 && n'.vote == n.cfg.id && n'.msgs == n.msgs
      && n'.log == n.log + [Entry(n.term + 1, |n.log| + 1, EntryNormal, "")]
  {
    hide Local, NumConf, Unsettled, RunForOffice;
    Cursors(n);
    UnsettledCounted(n);
    AloneCounts(n.cfg.id);
    var c := Poll(BecomePreCandidate(n), n.cfg.id, true).0;
    assert c.votes == map[n.cfg.id := true];
    PreLocal(n, c);
    LoneRuns(n);
    LoneRuns(c);
  }

  lemma PreLocal(n: Node, c: Node)
    requires Local(n) && c == n.(votes := c.votes, role := PreCandidate)
    ensures Local(c)
  {
  }

  lemma LoneRuns(n: Node)
    requires Local(n) && |n.cfg.peers| == 1 && !n.role.Leader?
    ensures var n' := RunForOffice(n, Election);
      && n'.role.Leader? && n'.term == n.term + 1 && n'.vote == n.cfg.id && n'.msgs == n.msgs
      && n'.log == n.log + [Entry(n.term + 1, |n.log| + 1, EntryNormal, "")]
  {
    hide Local, AppendEntry, FreshPeers, SendVotes;
    Cursors(n);
    var c := Poll(BecomeCandidate(n), n.cfg.id, true).0;
    assert c.votes == map[n.cfg.id := true];
    AloneCounts(n.cfg.id);
    var r := Reset(c, c.term).(lead := c.cfg.id, role := Leader, pendingConfIndex := LastIndex(c));
    var es := [Entry(0, 0, EntryNormal, "")];
    Appends(r, es, c.cfg.id);
    assert Stamp(r, es) == [Entry(n.term + 1, |n.log| + 1, EntryNormal, "")];
  }

  lemma CampaignElection(n: Node, t: CampaignType)
    requires !t.PreElection?
    ensures Campaign(n, t) == RunForOffice(n, t)
  {
    hide RunForOffice;
  }

  lemma Cursors(n: Node)
    requires Local(n)
    ensures n.applied <= n.committed <= |n.log| && n.cfg.id in n.prs && (n.role.Leader? || n.role.Candidate? ==> n.term > 0)
  {
  }

  /** A follower told to take over at once stands in the next term, without pre-vote, and says so. */
  lemma TimeoutNowCampaigns(n: Node, m: Message)
    requires Local(n) && n.role.Follower? && m.kind.MsgTimeoutNow? && (m.term == 0 || m.term == n.term) && |n.cfg.peers| > 1
    ensures Stands(n, Step(n, m), "CampaignTransfer")
  {
    hide Campaign, Stands, RunForOffice;
    Cursors(n);
    OfficeSought(n, Transfer);
    CampaignElection(n, Transfer);
  }

  // ---------------------------------------------------------------- counting votes

  /** Who has granted its vote. */
  ghost function Voted(n: Node): set<NodeId> {
    set p | p in n.votes && n.votes[p]
  }

  /** Who has refused it. */
  ghost function Denied(n: Node): set<NodeId> {
    set p | p in n.votes && !n.votes[p]
  }

  lemma VotesSplit(n: Node)
    ensures |n.votes| == |Voted(n)| + |Denied(n)|
  {
    assert n.votes.Keys == Voted(n) + Denied(n) && Voted(n) !! Denied(n);
    assert |n.votes| == |n.votes.Keys|;
  }

  lemma VoteCounted(n: Node, from: NodeId)
    requires from !in n.votes
    ensures var (n1, granted) := Poll(n, from, true);
      n1 == n.(votes := n.votes[from := true]) && granted == |Voted(n)| + 1 && |n1.votes| - granted == |Denied(n)|
  {
    var n1 := n.(votes := n.votes[from := true]);
    assert Granted(n1.votes) == Voted(n) + {from} == Voted(n1);
    assert Denied(n1) == Denied(n);
    VotesSplit(n1);
  }

  lemma RefusalCounted(n: Node, from: NodeId)
    requires from !in n.votes
    ensures var (n1, granted) := Poll(n, from, false);
      n1 == n.(votes := n.votes[from := false]) && granted == |Voted(n)| && |n1.votes| - granted == |Denied(n)| + 1
  {
    var n1 := n.(votes := n.votes[from := false]);
    assert Granted(n1.votes) == Voted(n) == Voted(n1);
    assert Denied(n1) == Denied(n) + {from};
    VotesSplit(n1);
  }

  /** The vote that takes a count over half of the voters is the one that reaches the quorum. */
  lemma FirstMajority(n: Node, k: nat)
    requires |n.cfg.peers| > 0
    ensures !Most(n.cfg, k) && Most(n.cfg, k + 1) <==> Quorum(n) == k + 1
  {
  }

  /** A leader that has just been elected: no transferee, its first entry of the term at the end of its
      log, and nothing known of the others. */
  ghost predicate TakesOffice(n: Node, n': Node) {
    && n'.cfg == n.cfg && n'.role.Leader? && n'.term == n.term && n'.lead == n.cfg.id && n'.vote == n.vote
    && n'.leadTransferee == NONE
    && n'.log == n.log + [Entry(n.term, |n.log| + 1, EntryNormal, "")]
    && n'.readOnly.queue == [] && n'.readOnly.pending == map[]
    && (forall p :: p in n.cfg.peers && p != n.cfg.id ==> p in n'.prs && n'.prs[p].matched == 0)
  }

  lemma SendKeepsMatch(n: Node, to: NodeId, e: bool)
    requires Local(n) && to in n.prs
    ensures var n' := MaybeSendAppend(n, to, e).0;
      SameMatch(n, n') && Local(n') && OnlySent(n, n') && n'.panicked == n.panicked
  {
    hide Local, MaybeSendAppend;
    MaybeSendAppendLocal(n, to, e);
    HasPeers(n);
    HasPeers(MaybeSendAppend(n, to, e).0);
  }

  /** The same is known of every voter. */
  ghost predicate SameMatch(n: Node, n': Node) {
    n'.prs.Keys == n.prs.Keys && forall p {:trigger n'.prs[p]} :: p in n.prs ==> n'.prs[p].matched == n.prs[p].matched
  }

  lemma HasPeers(n: Node)
    requires Local(n)
    ensures n.prs.Keys == (set p | p in n.cfg.peers) && n.cfg.peers != []
  {
  }

  lemma {:induction false} BcastKeepsMatch(n: Node, ps: seq<NodeId>)
    requires Local(n) && forall i :: 0 <= i < |ps| ==> ps[i] in n.cfg.peers
    ensures SameMatch(n, BcastAppend(n, ps)) && OnlySent(n, BcastAppend(n, ps)) && Local(BcastAppend(n, ps))
    decreases |ps|
  {
    hide Local, MaybeSendAppend;
    HasPeers(n);
    if ps != [] {
      if ps[0] == n.cfg.id {
        BcastKeepsMatch(n, ps[1..]);
      } else {
        SendKeepsMatch(n, ps[0], true);
        BcastKeepsMatch(SendAppend(n, ps[0]), ps[1..]);
      }
    }
  }

  lemma OfficeTaken(n: Node)
    requires Local(n) && !n.role.Follower? && n.term > 0
    ensures TakesOffice(n, BecomeLeader(n))
  {
    hide Local, AppendEntry, MaybeCommit;
    Cursors(n);
    var r := Reset(n, n.term).(lead := n.cfg.id, role := Leader, pendingConfIndex := LastIndex(n));
    var es := [Entry(0, 0, EntryNormal, "")];
    AppendEntryFrame(r, es);
    assert Stamp(r, es) == [Entry(n.term, |n.log| + 1, EntryNormal, "")];
    CommitFrame(Grown(r, es));
  }

  lemma CommitFrame(n: Node)
    ensures var n' := MaybeCommit(n).0; n' == n.(committed := n'.committed, panicked := n'.panicked)
  {
  }

  lemma CountsOn(n: Node, m: Message)
    requires n.role.Candidate? || n.role.PreCandidate?
    requires m.from !in n.votes && !m.reject && |n.cfg.peers| > 0
    requires !Most(n.cfg, |Voted(n)| + 1) && !Most(n.cfg, |Denied(n)|)
    ensures HandleVoteResp(n, m) == n.(votes := n.votes[m.from := true])
  {
    hide BecomeLeader, BcastAppend, Campaign, BecomeFollower, Poll;
    VoteCounted(n, m.from);
  }

  lemma Elects(n: Node, m: Message)
    requires Local(n) && n.role.Candidate? && m.from !in n.votes && !m.reject
    requires !Most(n.cfg, |Voted(n)|) && Most(n.cfg, |Voted(n)| + 1)
    ensures TakesOffice(n, HandleVoteResp(n, m))
  {
    hide Local, BecomeLeader, BcastAppend, TakesOffice, Poll, Campaign;
    HasPeers(n);
    Cursors(n);
    VoteCounted(n, m.from);
    FirstMajority(n, |Voted(n)|);
    var n1 := n.(votes := n.votes[m.from := true]);
    VotesLocal(n, n1.votes);
    OfficeTaken(n1);
    BecomeLeaderLocal(n1);
    var l := BecomeLeader(n1);
    BcastKeepsMatch(l, l.cfg.peers);
    OfficeSent(n, n1, l, BcastAppend(l, l.cfg.peers));
  }

  lemma VotesLocal(n: Node, votes: map<NodeId, bool>)
    requires Local(n)
    ensures Local(n.(votes := votes))
  {
  }

  lemma OfficeSent(n: Node, n1: Node, l: Node, l': Node)
    requires n1 == n.(votes := n1.votes) && TakesOffice(n1, l) && OnlySent(l, l') && SameMatch(l, l')
    ensures TakesOffice(n, l')
  {
  }

  /** A candidate is elected by the vote that gives it more than half of the voters. Until then, and
      unless more than half refuse, it goes on counting. */
  lemma ElectedByMajority(n: Node, m: Message)
    requires Local(n) && n.role.Candidate? && m.kind.MsgVoteResp? && !m.reject && m.term == n.term && m.from !in n.votes
    ensures var n', k := Step(n, m), |Voted(n)|;
      && (!Most(n.cfg, k) && Most(n.cfg, k + 1) ==> TakesOffice(n, n'))
      && (!Most(n.cfg, k + 1) && !Most(n.cfg, |Denied(n)|) ==> n' == n.(votes := n.votes[m.from := true]))
  {
    hide Local, TakesOffice, HandleVoteResp, Most;
    HasPeers(n);
    var k := |Voted(n)|;
    if !Most(n.cfg, k) && Most(n.cfg, k + 1) { Elects(n, m); }
    if !Most(n.cfg, k + 1) && !Most(n.cfg, |Denied(n)|) { CountsOn(n, m); }
  }

  /** The first answer of a voter counts: one that repeats or revises it changes nothing. */
  lemma RepeatedVote(n: Node, m: Message)
    requires (n.role.Candidate? && m.kind.MsgVoteResp?) || (n.role.PreCandidate? && m.kind.MsgPreVoteResp?)
    requires m.term == n.term && m.from in n.votes && !Most(n.cfg, |Voted(n)|) && !Most(n.cfg, |Denied(n)|)
    ensures Step(n, m) == n
  {
    hide BecomeLeader, BcastAppend, Campaign, BecomeFollower;
    assert Granted(n.votes) == Voted(n);
    VotesSplit(n);
    assert n.(votes := n.votes) == n;
  }

  /** A candidate or pre-candidate that more than half refuse gives up and stays in its term. */
  lemma RefusedByMajority(n: Node, m: Message)
    requires Local(n) && m.reject && m.term == n.term && m.from !in n.votes
    requires (n.role.Candidate? && m.kind.MsgVoteResp?) || (n.role.PreCandidate? && m.kind.MsgPreVoteResp?)
    requires !Most(n.cfg, |Denied(n)|) && Most(n.cfg, |Denied(n)| + 1) && !Most(n.cfg, |Voted(n)|)
    ensures var n' := Step(n, m);
      n'.role.Follower? && n'.term == n.term && n'.lead == NONE && n'.vote == n.vote && n'.log == n.log && n'.msgs == n.msgs
  {
    hide Local, HandleVoteResp, Most;
    HasPeers(n);
    GivesUp(n, m);
  }

  lemma GivesUp(n: Node, m: Message)
    requires m.reject && m.from !in n.votes && |n.cfg.peers| > 0
    requires !Most(n.cfg, |Denied(n)|) && Most(n.cfg, |Denied(n)| + 1) && !Most(n.cfg, |Voted(n)|)
    ensures var n' := HandleVoteResp(n, m);
      n'.role.Follower? && n'.term == n.term && n'.lead == NONE && n'.vote == n.vote && n'.log == n.log && n'.msgs == n.msgs
  {
    hide BecomeLeader, BcastAppend, Campaign, Poll, FreshPeers;
    RefusalCounted(n, m.from);
    FirstMajority(n, |Denied(n)|);
  }

  lemma PreElects(n: Node, m: Message)
    requires |n.cfg.peers| > 1 && n.role.PreCandidate? && m.from !in n.votes && !m.reject
    requires !Most(n.cfg, |Voted(n)|) && Most(n.cfg, |Voted(n)| + 1)
    ensures Stands(n, HandleVoteResp(n, m), "")
  {
    hide BecomeLeader, BcastAppend, Stands, RunForOffice, Poll;
    VoteCounted(n, m.from);
    FirstMajority(n, |Voted(n)|);
    var n1 := n.(votes := n.votes[m.from := true]);
    OfficeSought(n1, Election);
    StandsAnyway(n, n1, RunForOffice(n1, Election));
  }

  /** A pre-candidate that more than half would vote for stands in the next term. */
  lemma PreElectedByMajority(n: Node, m: Message)
    requires Local(n) && n.role.PreCandidate? && m.kind.MsgPreVoteResp? && !m.reject && m.term >= n.term
    requires m.from !in n.votes && |n.cfg.peers| > 1
    ensures var n', k := Step(n, m), |Voted(n)|;
      && (!Most(n.cfg, k) && Most(n.cfg, k + 1) ==> Stands(n, n', ""))
      && (!Most(n.cfg, k + 1) && !Most(n.cfg, |Denied(n)|) ==> n' == n.(votes := n.votes[m.from := true]))
  {
    hide Local, Stands, HandleVoteResp, Most;
    HasPeers(n);
    var k := |Voted(n)|;
    if !Most(n.cfg, k) && Most(n.cfg, k + 1) { PreElects(n, m); }
    if !Most(n.cfg, k + 1) && !Most(n.cfg, |Denied(n)|) { CountsOn(n, m); }
  }

  lemma StandsAnyway(n: Node, n1: Node, n': Node)
    requires n1 == n.(votes := n1.votes)
    ensures Stands(n1, n', "") ==> Stands(n, n', "")
  {
    if Stands(n1, n', "") {
      var f, f1 := Ballot(n, MsgVote, n.term + 1, ""), Ballot(n1, MsgVote, n.term + 1, "");
      SameOthers(n.cfg.id, n.cfg.peers, f, f1);
    }
  }

  lemma {:induction false} SameOthers(id: NodeId, ps: seq<NodeId>, f: NodeId -> Message, f1: NodeId -> Message)
    requires forall p :: f(p) == f1(p)
    ensures ToOthers(id, ps, f) == ToOthers(id, ps, f1)
    decreases |ps|
  {
    if ps != [] { SameOthers(id, ps[1..], f, f1); }
  }

  // ---------------------------------------------------------------- giving votes

  /** The sender's log is at least as up to date as the node's. */
  predicate Current(n: Node, m: Message) {
    m.logTerm > LastOf(n.log) || (m.logTerm == LastOf(n.log) && m.index >= |n.log|)
  }

  /** The node has heard from a leader within its election timeout, and the request is not one by which
      that leader hands over. */
  predicate Leased(n: Node, m: Message) {
    && m.term > n.term && (m.kind.MsgVote? || m.kind.MsgPreVote?) && m.context != "CampaignTransfer"
    && n.cfg.checkQuorum && n.lead != NONE && n.electionElapsed < n.cfg.electionTimeout
  }

  /** The node has not given its vote in this term to another, and knows of no leader. */
  predicate Free(n: Node, from: NodeId) {
    n.vote == from || (n.vote == NONE && n.lead == NONE)
  }

  function Reply(n: Node, m: Message, kind: MsgType, term: nat, reject: bool): Message {
    Message(kind, m.from, n.cfg.id, term, 0, 0, [], 0, reject, 0, "")
  }

  lemma CurrentIs(n: Node, m: Message)
    ensures IsUpToDate(n.log, m.index, m.logTerm) == Current(n, m)
  {
    LastIs(n.log);
  }

  /** A node under lease does not hear of other candidates. */
  lemma LeaseProtects(n: Node, m: Message)
    requires Leased(n, m)
    ensures Step(n, m) == n
  {
    hide Dispatch, BecomeFollower;
  }

  /** A vote is granted if and only if the sender's log is current and the node is free to vote; a later
      term frees it. */
  lemma VoteDecided(n: Node, m: Message)
    requires m.kind.MsgVote? && m.term > 0 && m.term >= n.term && !Leased(n, m)
    ensures var n', later := Step(n, m), m.term > n.term;
      var granted := (later || Free(n, m.from)) && Current(n, m);
      && n'.cfg == n.cfg && n'.term == m.term && n'.vote == (if granted then m.from else if later then NONE else n.vote)
      && n'.role == (if later then Follower else n.role) && n'.lead == (if later then NONE else n.lead)
      && n'.log == n.log && n'.committed == n.committed && (later || granted ==> n'.electionElapsed == 0)
      && Sends(n, n', [Reply(n, m, MsgVoteResp, m.term, !granted)])
  {
    hide IsUpToDate, FreshPeers;
    CurrentIs(n, m);
  }

  /** A pre-vote is granted if and only if the sender's log is current and it asks for a later term, or
      the node is free to vote; nothing else changes. A refusal in term 0 is a panic, since campaign
      messages must carry a term. */
  lemma PreVoteDecided(n: Node, m: Message)
    requires m.kind.MsgPreVote? && m.term > 0 && !Leased(n, m)
    ensures var n' := Step(n, m);
      var granted := (m.term > n.term || (m.term == n.term && Free(n, m.from))) && Current(n, m);
      if !granted && n.term == 0 then n' == n.(panicked := true)
      else
        && n' == n.(msgs := n'.msgs)
        && Sends(n, n', [Reply(n, m, MsgPreVoteResp, if granted then m.term else n.term, !granted)])
  {
    hide IsUpToDate, BecomeFollower;
    CurrentIs(n, m);
  }

  // ---------------------------------------------------------------- other terms

  /** A message of an earlier term is answered only so far as its sender must learn the later term:
      where leases or pre-votes are on, and it takes itself for the leader or asks for a pre-vote. */
  lemma EarlierTerm(n: Node, m: Message)
    requires 0 < m.term < n.term
    ensures var n', leading := Step(n, m), m.kind.MsgApp? || m.kind.MsgHeartbeat?;
      && n' == n.(msgs := n'.msgs)
      && Sends(n, n', if leading && (n.cfg.checkQuorum || n.cfg.preVote) then [Reply(n, m, MsgAppResp, n.term, false)]
                      else if m.kind.MsgPreVote? then [Reply(n, m, MsgPreVoteResp, n.term, true)] else [])
  {
    hide Dispatch, NoteHigher;
    assert n.msgs + [] == n.msgs;
  }

  /** An answer of a later term makes the node a follower of that term, without a leader or a vote. */
  lemma LaterTerm(n: Node, m: Message)
    requires m.term > n.term
    requires m.kind.MsgAppResp? || m.kind.MsgHeartbeatResp? || m.kind.MsgVoteResp? || (m.kind.MsgPreVoteResp? && m.reject)
    ensures var n' := Step(n, m);
      && n'.role.Follower? && n'.term == m.term && n'.lead == NONE && n'.vote == NONE
      && n'.log == n.log && n'.committed == n.committed && n'.msgs == n.msgs
  {
    hide FreshPeers;
  }

  // ---------------------------------------------------------------- followers

  /** A proposal goes to the leader as it is, unless there is none or forwarding is off. */
  lemma ProposalForwarded(n: Node, m: Message)
    requires n.role.Follower? && m.kind.MsgProp? && m.term == 0
    ensures var n' := Step(n, m);
      && n' == n.(msgs := n'.msgs)
      && Sends(n, n', if n.lead == NONE || n.cfg.dropProposals then [] else [m.(to := n.lead, from := n.cfg.id)])
  {
    assert n.msgs + [] == n.msgs;
  }

  /** So does a read request. */
  lemma ReadForwarded(n: Node, m: Message)
    requires n.role.Follower? && m.kind.MsgReadIndex? && m.term == 0
    ensures var n' := Step(n, m);
      && n' == n.(msgs := n'.msgs)
      && Sends(n, n', if n.lead == NONE then [] else [m.(to := n.lead, from := n.cfg.id)])
  {
    assert n.msgs + [] == n.msgs;
  }

  /** And a request to hand over, stamped with the follower's term. */
  lemma TransferForwarded(n: Node, m: Message)
    requires n.role.Follower? && m.kind.MsgTransferLeader? && m.term == 0
    ensures var n' := Step(n, m);
      && n' == n.(msgs := n'.msgs)
      && Sends(n, n', if n.lead == NONE then [] else [m.(to := n.lead, from := n.cfg.id, term := n.term)])
  {
    assert n.msgs + [] == n.msgs;
  }

  /** The answer to a read becomes exactly one read state, with the index and the context of the answer. */
  lemma ReadAnswered(n: Node, m: Message)
    requires n.role.Follower? && m.kind.MsgReadIndexResp? && (m.term == 0 || m.term == n.term)
    ensures Step(n, m) ==
            if |m.entries| == 1 then n.(readStates := n.readStates + [ReadState(m.index, m.entries[0].data)]) else n
  {
  }

  // ---------------------------------------------------------------- proposals

  /** Entry i of a batch is a configuration change that cannot go in: one is pending, or one before it in
      the batch goes in. */
  predicate Blanked(n: Node, es: seq<Entry>, i: nat)
    requires i < |es|
  {
    && es[i].kind.EntryConfChange?
    && (n.pendingConfIndex > n.applied || exists j :: 0 <= j < i && es[j].kind.EntryConfChange?)
  }

  /** How entry i of the batch stands in the log after. */
  ghost predicate Logged(n: Node, es: seq<Entry>, log: Log, i: nat)
    requires i < |es| && |n.log| + i < |log|
  {
    var e := log[|n.log| + i];
    && e.term == n.term && e.index == |n.log| + 1 + i
    && if Blanked(n, es, i) then e.kind == EntryNormal && e.data == "" else e.kind == es[i].kind && e.data == es[i].data
  }

  /** What the filter leaves of a batch, entry by entry. */
  lemma {:induction false} Filtered(es: seq<Entry>, pending: nat, applied: nat, next: nat, i: nat)
    requires i < |es| && applied < next
    ensures var fs := FilterConf(es, pending, applied, next).0;
      && |fs| == |es|
      && fs[i] == if && es[i].kind.EntryConfChange?
                     && (pending > applied || exists j :: 0 <= j < i && es[j].kind.EntryConfChange?)
                  then Entry(0, 0, EntryNormal, "") else es[i]
    decreases |es|
  {
    var rest := es[1..];
    var pending' := if es[0].kind.EntryConfChange? && pending <= applied then next else pending;
    FilterLength(rest, pending', applied, next + 1);
    if i > 0 {
      Filtered(rest, pending', applied, next + 1, i - 1);
      assert rest[i - 1] == es[i];
      EarlierConf(es, i);
    }
  }

  lemma EarlierConf(es: seq<Entry>, i: nat)
    requires 0 < i < |es|
    ensures (exists j :: 0 <= j < i && es[j].kind.EntryConfChange?) <==>
            es[0].kind.EntryConfChange? || exists j :: 0 <= j < i - 1 && es[1..][j].kind.EntryConfChange?
  {
    if j :| 0 <= j < i && es[j].kind.EntryConfChange? {
      assert j > 0 ==> es[1..][j - 1] == es[j];
    }
    if j :| 0 <= j < i - 1 && es[1..][j].kind.EntryConfChange? {
      assert es[j + 1] == es[1..][j];
    }
  }

  lemma {:induction false} FilterLength(es: seq<Entry>, pending: nat, applied: nat, next: nat)
    ensures |FilterConf(es, pending, applied, next).0| == |es|
    decreases |es|
  {
    if es != [] {
      FilterLength(es[1..], pending, applied, next + 1);
      FilterLength(es[1..], next, applied, next + 1);
    }
  }

  lemma EntryLogged(n: Node, es: seq<Entry>, i: nat)
    requires i < |es| && n.applied <= |n.log|
    ensures var fs := FilterConf(es, n.pendingConfIndex, n.applied, |n.log| + 1).0;
      |fs| == |es| && Logged(n, es, n.log + Stamp(n, fs), i)
  {
    hide FilterConf;
    Filtered(es, n.pendingConfIndex, n.applied, |n.log| + 1, i);
  }

  lemma SameStamp(n: Node, pending: nat, es: seq<Entry>)
    ensures Stamp(n.(pendingConfIndex := pending), es) == Stamp(n, es) && |Stamp(n, es)| == |es|
  {
  }

  /** What is proposed to a leader is logged: the log grows by the batch, in order, in the leader's term,
      and each entry is as it was proposed, except that of the configuration changes only the first goes
      in, and only if none is pending. While the leader is handing over, the proposal is dropped. */
  lemma ProposalLogged(n: Node, m: Message)
    requires Local(n) && n.role.Leader? && m.kind.MsgProp? && m.term == 0 && m.entries != []
    ensures var n' := Step(n, m);
      && (n.leadTransferee != NONE ==> n' == n)
      && (n.leadTransferee == NONE ==>
            && |n'.log| == |n.log| + |m.entries| && n.log <= n'.log && n'.term == n.term && n'.role.Leader?
            && forall i :: 0 <= i < |m.entries| ==> Logged(n, m.entries, n'.log, i))
  {
    hide Local, FilterConf, AppendEntry, BcastAppend, Logged, Stamp, MaybeCommit;
    Cursors(n);
    if n.leadTransferee == NONE {
      var (es, pending) := FilterConf(m.entries, n.pendingConfIndex, n.applied, |n.log| + 1);
      ProposeLog(n, m);
      SameStamp(n, pending, es);
      FilterLength(m.entries, n.pendingConfIndex, n.applied, |n.log| + 1);
      forall i | 0 <= i < |m.entries|
        ensures Logged(n, m.entries, n.log + Stamp(n, es), i)
      {
        EntryLogged(n, m.entries, i);
      }
    }
  }

  // ---------------------------------------------------------------- reads

  /** The request was made at this node. */
  predicate Own(n: Node, s: ReadStatus) {
    s.req.from == NONE || s.req.from == n.cfg.id
  }

  /** The answer to a read that was sent on: the index at which it was taken, and what it asked with. */
  function AnswerTo(n: Node, s: ReadStatus): Message {
    Message(MsgReadIndexResp, s.req.from, n.cfg.id, n.term, 0, s.index, s.req.entries, 0, false, 0, "")
  }

  /** What the node learns when the first k reads of its queue are confirmed: a read state for each of its
      own, with the index at which the read was taken. */
  ghost function OwnReads(n: Node, q: ReadQueue, k: nat): seq<ReadState>
    requires k <= |q.queue| && Backed(q)
  {
    if k == 0 then []
    else
      var c := q.queue[k - 1];
      OwnReads(n, q, k - 1) + if Own(n, q.pending[c]) then [ReadState(q.pending[c].index, c)] else []
  }

  /** And what it tells others: an answer to each asker. */
  ghost function OthersReads(n: Node, q: ReadQueue, k: nat): seq<Message>
    requires k <= |q.queue| && Backed(q)
  {
    if k == 0 then []
    else
      var s := q.pending[q.queue[k - 1]];
      OthersReads(n, q, k - 1) + if Own(n, s) then [] else [AnswerTo(n, s)]
  }

  /** The first k reads of the queue have been answered, and nothing else. */
  ghost predicate Released(n: Node, q: ReadQueue, n': Node, k: nat)
    requires k <= |q.queue| && Backed(q)
  {
    n'.readStates == n.readStates + OwnReads(n, q, k) && Answers(n'.msgs) == Answers(n.msgs) + OthersReads(n, q, k)
  }

  lemma {:induction false} ReleaseLast(n: Node, rss: seq<ReadStatus>, s: ReadStatus)
    ensures Release(n, rss + [s]) == Release(Release(n, rss), [s])
    decreases |rss|
  {
    if rss == [] {
      assert rss + [s] == [s];
    } else {
      var r := rss[0];
      var n1 :=
        if r.req.from == NONE || r.req.from == n.cfg.id then
          n.(readStates := n.readStates + [ReadState(r.index, Ctx(r.req))])
        else Send(n, Blank(MsgReadIndexResp, r.req.from).(index := r.index, entries := r.req.entries));
      assert (rss + [s])[0] == r && (rss + [s])[1..] == rss[1..] + [s];
      ReleaseLast(n1, rss[1..], s);
    }
  }

  lemma ReleaseOne(n: Node, s: ReadStatus)
    ensures var n' := Release(n, [s]);
      && n' == n.(readStates := n'.readStates, msgs := n'.msgs)
      && n'.readStates == n.readStates + (if Own(n, s) then [ReadState(s.index, Ctx(s.req))] else [])
      && n'.msgs == n.msgs + if Own(n, s) then [] else [AnswerTo(n, s)]
  {
    assert [s][1..] == [];
    assert n.msgs + [] == n.msgs && n.readStates + [] == n.readStates;
  }

  lemma {:induction false} Releases(n: Node, q: ReadQueue, k: nat)
    requires k <= |q.queue| && Backed(q) && Filed(q)
    ensures var n' := Release(n, Statuses(q, k));
      n' == n.(readStates := n'.readStates, msgs := n'.msgs) && Released(n, q, n', k)
    decreases k
  {
    hide Answers;
    if k == 0 {
      assert n.readStates + [] == n.readStates && Answers(n.msgs) + [] == Answers(n.msgs);
    } else {
      var c := q.queue[k - 1];
      var s := q.pending[c];
      assert Statuses(q, k) == Statuses(q, k - 1) + [s];
      ReleaseLast(n, Statuses(q, k - 1), s);
      Releases(n, q, k - 1);
      var n1 := Release(n, Statuses(q, k - 1));
      ReleaseOne(n1, s);
      if !Own(n, s) { AnswersOne(n1.msgs, AnswerTo(n, s)); }
      Assoc(n.readStates, OwnReads(n, q, k - 1), if Own(n, s) then [ReadState(s.index, c)] else []);
      AssocMsgs(n, q, k, Release(n, Statuses(q, k)).msgs, n1.msgs);
    }
  }

  lemma AnswersOne(ms: seq<Message>, m: Message)
    requires m.kind.MsgReadIndexResp?
    ensures Answers(ms + [m]) == Answers(ms) + [m]
  {
    KindOne(ms, m, MsgReadIndexResp);
  }

  lemma Assoc(a: seq<ReadState>, b: seq<ReadState>, c: seq<ReadState>)
    ensures a + b + c == a + (b + c)
  {
  }

  lemma AssocMsgs(n: Node, q: ReadQueue, k: nat, ms: seq<Message>, ms1: seq<Message>)
    requires 0 < k <= |q.queue| && Backed(q) && Answers(ms1) == Answers(n.msgs) + OthersReads(n, q, k - 1)
    requires var s := q.pending[q.queue[k - 1]];
      Answers(ms) == if Own(n, s) then Answers(ms1) else Answers(ms1) + [AnswerTo(n, s)]
    ensures Answers(ms) == Answers(n.msgs) + OthersReads(n, q, k)
  {
    hide Answers;
  }

  /** Acknowledgements do not change what is answered. */
  lemma {:induction false} SameReads(n: Node, q: ReadQueue, q1: ReadQueue, k: nat)
    requires Backed(q) && Backed(q1) && q1.queue == q.queue && k <= |q.queue|
    requires forall c {:trigger q1.pending[c]} :: c in q.pending && c in q1.pending ==>
      q1.pending[c].index == q.pending[c].index && q1.pending[c].req == q.pending[c].req
    ensures OwnReads(n, q1, k) == OwnReads(n, q, k) && OthersReads(n, q1, k) == OthersReads(n, q, k)
    decreases k
  {
    if k > 0 { SameReads(n, q, q1, k - 1); }
  }

  lemma MajorityIs(n: Node, k: nat)
    ensures Most(n.cfg, k) <==> k >= Quorum(n)
  {
  }

  /** The queue with one more acknowledgement of the context, if it is queued. */
  function Noted(q: ReadQueue, from: NodeId, ctx: string): ReadQueue {
    if ctx in q.pending then q.(pending := q.pending[ctx := q.pending[ctx].(acks := q.pending[ctx].acks + {from})]) else q
  }

  /** The first k reads are answered and leave the queue; the k-th is the confirmed one. */
  ghost predicate Confirms(n: Node, q: ReadQueue, n': Node, ctx: string, k: nat) {
    && Backed(q) && 0 < k <= |q.queue| && q.queue[k - 1] == ctx && Released(n, q, n', k)
    && n'.readOnly.queue == q.queue[k..] && n'.readOnly.pending.Keys == q.pending.Keys - (set c | c in q.queue[..k])
  }

  /** More than half of the voters, the leader among them, have confirmed the context. */
  ghost predicate Backing(n: Node, q: ReadQueue, from: NodeId, ctx: string) {
    ctx in q.pending && Most(n.cfg, |q.pending[ctx].acks + {from}| + 1)
  }

  lemma AckHandled(n: Node, m: Message, k: nat)
    requires Valid(n.readOnly) && !n.cfg.leaseRead && m.context != "" && k == ScanTo(n.readOnly.queue, m.context)
    ensures var n', q := HandleReadAck(n, m), n.readOnly;
      if Backing(n, q, m.from, m.context) then Confirms(n, q, n', m.context, k)
      else n' == n.(readOnly := Noted(q, m.from, m.context))
  {
    hide Valid, Release, Statuses, Answers, Quorum, Confirms;
    var q := n.readOnly;
    var (q1, acks) := RecvAck(q, m.from, m.context);
    ValidParts(q, m.context);
    MajorityIs(n, acks);
    MajorityIs(n, 0);
    if Backing(n, q, m.from, m.context) { AckReleases(n, q1, m.from, m.context, k); }
  }

  lemma AckReleases(n: Node, q1: ReadQueue, from: NodeId, ctx: string, k: nat)
    requires Valid(n.readOnly) && ctx in n.readOnly.pending && q1 == Noted(n.readOnly, from, ctx) && Backed(q1)
    requires k == ScanTo(n.readOnly.queue, ctx)
    ensures Confirms(n, n.readOnly, Release(n.(readOnly := Advance(q1, ctx).0), Advance(q1, ctx).1), ctx, k)
  {
    hide Valid, Release, Statuses, Answers, OwnReads, OthersReads;
    var q := n.readOnly;
    ValidParts(q, ctx);
    var n1 := n.(readOnly := Advance(q1, ctx).0);
    Releases(n1, q1, k);
    SameReads(n1, q, q1, k);
    ReadsOf(n, n1, q, k);
  }

  lemma {:induction false} ReadsOf(n: Node, n1: Node, q: ReadQueue, k: nat)
    requires Backed(q) && k <= |q.queue| && n1.cfg == n.cfg && n1.term == n.term
    ensures OwnReads(n1, q, k) == OwnReads(n, q, k) && OthersReads(n1, q, k) == OthersReads(n, q, k)
    decreases k
  {
    if k > 0 { ReadsOf(n, n1, q, k - 1); }
  }

  /** A read is confirmed by the answer that gives it more than half of the voters. Then every read queued
      through it is answered exactly once and in order: the leader's own by a read state, one that was sent
      on by a message to its asker. Until then nothing is answered. */
  lemma ReadConfirmed(n: Node, m: Message)
    requires Local(n) && n.role.Leader? && m.kind.MsgHeartbeatResp? && m.term == n.term && m.from in n.prs
    requires !n.cfg.leaseRead && m.context != ""
    ensures var n', q := Step(n, m), n.readOnly;
      && (Backing(n, q, m.from, m.context) ==> exists k :: Confirms(n, q, n', m.context, k))
      && (!Backing(n, q, m.from, m.context) ==>
            && n'.readOnly == Noted(q, m.from, m.context) && n'.readStates == n.readStates
            && Answers(n'.msgs) == Answers(n.msgs))
  {
    hide Local, HandleReadAck, MaybeSendAppend, Valid, Confirms, Backing, OfKind, FreeFirstOne, IsFull;
    ReadsValid(n);
    var pr := Pr(n, m.from).(recentActive := true, paused := false);
    var pr1 :=
      if pr.state.Replicate? && IsFull(pr, n.cfg.maxInflight) then pr.(inflights := FreeFirstOne(pr.inflights))
      else pr;
    var n1 := SetPr(n, m.from, pr1);
    var n2 := if pr1.matched < LastIndex(n1) then SendAppend(n1, m.from) else n1;
    AppendKinds(n1, m.from, true, MsgReadIndexResp);
    assert Step(n, m) == HandleReadAck(n2, m);
    var k := ScanTo(n.readOnly.queue, m.context);
    AckHandled(n2, m, k);
    ConfirmsFrom(n, n2, Step(n, m), m, k);
  }

  /** With leases, or without a context, the answer to a heartbeat confirms nothing. */
  lemma NothingConfirmed(n: Node, m: Message)
    requires n.role.Leader? && m.kind.MsgHeartbeatResp? && m.term == n.term && m.from in n.prs
    requires n.cfg.leaseRead || m.context == ""
    ensures var n' := Step(n, m);
      n'.readOnly == n.readOnly && n'.readStates == n.readStates && Answers(n'.msgs) == Answers(n.msgs)
  {
    hide MaybeSendAppend, OfKind, FreeFirstOne, IsFull;
    var pr := Pr(n, m.from).(recentActive := true, paused := false);
    var pr1 :=
      if pr.state.Replicate? && IsFull(pr, n.cfg.maxInflight) then pr.(inflights := FreeFirstOne(pr.inflights))
      else pr;
    AppendKinds(SetPr(n, m.from, pr1), m.from, true, MsgReadIndexResp);
  }

  lemma ReadsValid(n: Node)
    requires Local(n)
    ensures Valid(n.readOnly)
  {
  }

  lemma AppendKinds(n: Node, to: NodeId, e: bool, kind: MsgType)
    requires !kind.MsgApp?
    ensures var n' := MaybeSendAppend(n, to, e).0;
      && n'.cfg == n.cfg && n'.term == n.term && n'.readOnly == n.readOnly && n'.readStates == n.readStates
      && n'.leadTransferee == n.leadTransferee && OfKind(n'.msgs, kind) == OfKind(n.msgs, kind)
  {
    hide ProgressSent, IsPaused, EntriesFrom, OfKind, TermAt;
    KindOne(n.msgs, Stamped(SetPr(n, to, ProgressSent(Pr(n, to), AppendMsg(n, to).entries)), AppendMsg(n, to)), kind);
  }

  lemma ConfirmsFrom(n: Node, n2: Node, n': Node, m: Message, k: nat)
    requires n2.cfg == n.cfg && n2.term == n.term && n2.readStates == n.readStates && Answers(n2.msgs) == Answers(n.msgs)
    ensures Backing(n2, n.readOnly, m.from, m.context) == Backing(n, n.readOnly, m.from, m.context)
    ensures Confirms(n2, n.readOnly, n', m.context, k) ==> Confirms(n, n.readOnly, n', m.context, k)
  {
    hide Answers;
    if Confirms(n2, n.readOnly, n', m.context, k) { ReadsOf(n, n2, n.readOnly, k); }
  }

  /** A heartbeat of the leader: a context, and no more of the commit index than the voter is known to have. */
  function BeatOf(n: Node, p: NodeId, ctx: string): Message {
    Message(MsgHeartbeat, p, n.cfg.id, n.term, 0, 0, [], Min(Pr(n, p).matched, n.committed), false, 0, ctx)
  }

  function Beating(n: Node, ctx: string): NodeId -> Message {
    (p: NodeId) => BeatOf(n, p, ctx)
  }

  lemma {:induction false} BeatsSent(n: Node, ps: seq<NodeId>, ctx: string, f: NodeId -> Message)
    requires forall p :: f(p) == BeatOf(n, p, ctx)
    ensures BcastHeartbeat(n, ps, ctx) == n.(msgs := n.msgs + ToOthers(n.cfg.id, ps, f))
    decreases |ps|
  {
    hide SendHeartbeat, BeatOf;
    if ps != [] {
      if ps[0] == n.cfg.id {
        BeatsSent(n, ps[1..], ctx, f);
        assert n.msgs + ([] + ToOthers(n.cfg.id, ps[1..], f)) == n.msgs + ToOthers(n.cfg.id, ps[1..], f);
      } else {
        var n1 := SendHeartbeat(n, ps[0], ctx);
        BeatSent(n, ps[0], ctx);
        BeatsSent(n1, ps[1..], ctx, f);
        var rest := ToOthers(n.cfg.id, ps[1..], f);
        assert n.msgs + [f(ps[0])] + rest == n.msgs + ([f(ps[0])] + rest);
      }
    }
  }

  lemma BeatSent(n: Node, p: NodeId, ctx: string)
    ensures var n' := SendHeartbeat(n, p, ctx);
      n' == n.(msgs := n.msgs + [BeatOf(n, p, ctx)]) && forall q :: BeatOf(n', q, ctx) == BeatOf(n, q, ctx)
  {
  }

  /** Every other voter is sent a heartbeat with the last context that waits to be confirmed, and no more
      of the commit index than it is known to have. */
  lemma HeartbeatsSent(n: Node, m: Message)
    requires n.role.Leader? && m.kind.MsgBeat? && m.term == 0
    ensures var n', q := Step(n, m), n.readOnly.queue;
      n' == n.(msgs := n.msgs + ToOthers(n.cfg.id, n.cfg.peers, Beating(n, if q == [] then "" else q[|q| - 1])))
  {
    hide BcastHeartbeat;
    var q := n.readOnly.queue;
    var ctx := if q == [] then "" else q[|q| - 1];
    BeatsSent(n, n.cfg.peers, ctx, Beating(n, ctx));
  }

  /** The leader has committed an entry of its own term. */
  predicate Settled(n: Node) {
    0 < n.committed <= |n.log| && n.log[n.committed - 1].term == n.term
  }

  /** A leader takes a read at its commit index: a lone voter answers it at once; before it has committed
      in its own term a leader drops it; with leases it answers at once; otherwise it queues the read, once,
      and asks all others to confirm it. */
  lemma ReadTaken(n: Node, m: Message)
    requires Local(n) && n.role.Leader? && m.kind.MsgReadIndex? && m.term == 0 && m.entries != []
    ensures var n', ctx := Step(n, m), m.entries[0].data;
      var own := m.from == NONE || m.from == n.cfg.id;
      if |n.cfg.peers| == 1 then n' == n.(readStates := n.readStates + [ReadState(n.committed, ctx)])
      else if !Settled(n) then n' == n
      else if n.cfg.leaseRead then
        if own then n' == n.(readStates := n.readStates + [ReadState(n.committed, ctx)])
        else n' == n.(msgs := n.msgs + [AnswerTo(n, ReadStatus(n.committed, m, {}))])
      else
        && n' == n.(readOnly := n'.readOnly, msgs := n.msgs + ToOthers(n.cfg.id, n.cfg.peers, Beating(n, ctx)))
        && n'.readOnly == if ctx in n.readOnly.pending then n.readOnly
                          else ReadQueue(n.readOnly.pending[ctx := ReadStatus(n.committed, m, {})],
                                         n.readOnly.queue + [ctx])
  {
    hide Local, ReadIndexReq, Settled;
    HasPeers(n);
    Cursors(n);
    if |n.cfg.peers| == 1 || !Settled(n) || n.cfg.leaseRead { ReadAtOnce(n, m); } else { ReadQueued(n, m); }
  }

  lemma ReadAtOnce(n: Node, m: Message)
    requires n.cfg.peers != [] && m.entries != [] && n.committed <= |n.log| && n.term > 0
    requires |n.cfg.peers| == 1 || !Settled(n) || n.cfg.leaseRead
    ensures ReadIndexReq(n, m) ==
      if |n.cfg.peers| == 1 then n.(readStates := n.readStates + [ReadState(n.committed, m.entries[0].data)])
      else if !Settled(n) then n
      else if m.from == NONE || m.from == n.cfg.id then
        n.(readStates := n.readStates + [ReadState(n.committed, m.entries[0].data)])
      else n.(msgs := n.msgs + [AnswerTo(n, ReadStatus(n.committed, m, {}))])
  {
    hide BcastHeartbeat, AddRequest;
  }

  lemma ReadQueued(n: Node, m: Message)
    requires |n.cfg.peers| > 1 && m.entries != [] && Settled(n) && !n.cfg.leaseRead
    ensures var n', ctx := ReadIndexReq(n, m), m.entries[0].data;
      && n' == n.(readOnly := n'.readOnly, msgs := n.msgs + ToOthers(n.cfg.id, n.cfg.peers, Beating(n, ctx)))
      && n'.readOnly == if ctx in n.readOnly.pending then n.readOnly
                        else ReadQueue(n.readOnly.pending[ctx := ReadStatus(n.committed, m, {})], n.readOnly.queue + [ctx])
  {
    hide BcastHeartbeat;
    var n1 := n.(readOnly := AddRequest(n.readOnly, n.committed, m));
    BeatsSent(n1, n.cfg.peers, m.entries[0].data, Beating(n, m.entries[0].data));
  }

  // ---------------------------------------------------------------- handing over, and losing touch

  /** The leader is asked to hand over to p: it tells p to campaign at once if p is known to have all of
      its log, and otherwise brings it in line first. */
  lemma TransferBegun(n: Node, m: Message)
    requires Local(n) && n.role.Leader? && m.kind.MsgTransferLeader? && (m.term == 0 || m.term == n.term) && m.from in n.prs
    ensures var n', p := Step(n, m), m.from;
      if n.leadTransferee == p && p != NONE then n' == n
      else if p == n.cfg.id then n' == n.(leadTransferee := NONE)
      else
        && n'.leadTransferee == p && n'.electionElapsed == 0 && n'.log == n.log && n'.role.Leader? && n'.term == n.term
        && (n.prs[p].matched == |n.log| ==>
              n'.msgs == n.msgs + [Message(MsgTimeoutNow, p, n.cfg.id, n.term, 0, 0, [], 0, false, 0, "")])
        && (n.prs[p].matched != |n.log| ==> OfKind(n'.msgs, MsgTimeoutNow) == OfKind(n.msgs, MsgTimeoutNow))
  {
    hide Local, MaybeSendAppend, OfKind;
    var n2 := n.(electionElapsed := 0, leadTransferee := m.from);
    AppendKinds(n2, m.from, true, MsgTimeoutNow);
    TransferLocal(n, m.from);
    SendKeepsMatch(n2, m.from, true);
  }

  lemma TransferLocal(n: Node, to: NodeId)
    requires Local(n)
    ensures Local(n.(electionElapsed := 0, leadTransferee := to))
  {
  }

  lemma {:induction false} BcastKinds(n: Node, ps: seq<NodeId>, kind: MsgType)
    requires !kind.MsgApp?
    ensures var n' := BcastAppend(n, ps);
      && n'.cfg == n.cfg && n'.term == n.term && n'.leadTransferee == n.leadTransferee
      && OfKind(n'.msgs, kind) == OfKind(n.msgs, kind)
    decreases |ps|
  {
    hide OfKind, MaybeSendAppend;
    if ps != [] {
      if ps[0] == n.cfg.id {
        BcastKinds(n, ps[1..], kind);
      } else {
        AppendKinds(n, ps[0], true, kind);
        BcastKinds(SendAppend(n, ps[0]), ps[1..], kind);
      }
    }
  }

  lemma {:induction false} LoopKinds(n: Node, to: NodeId, kind: MsgType)
    requires !kind.MsgApp?
    ensures var n' := SendLoop(n, to);
      && n'.cfg == n.cfg && n'.term == n.term && n'.leadTransferee == n.leadTransferee
      && OfKind(n'.msgs, kind) == OfKind(n.msgs, kind)
    decreases SendBudget(n, to)
  {
    hide OfKind, MaybeSendAppend;
    AppendKinds(n, to, false, kind);
    var (n', sent) := MaybeSendAppend(n, to, false);
    if sent && SendBudget(n', to) < SendBudget(n, to) { LoopKinds(n', to, kind); }
  }

  /** The nodes the leader has heard from since it last checked, itself among them. */
  ghost function HeardFrom(n: Node): set<NodeId> {
    set p | p in n.cfg.peers && (p == n.cfg.id || Pr(n, p).recentActive)
  }

  /** A leader steps down if and only if it has heard from at most half of the voters; if it stays, it
      starts to listen anew. */
  lemma QuorumChecked(n: Node, m: Message)
    requires n.role.Leader? && m.kind.MsgCheckQuorum? && m.term == 0
    ensures var n' := Step(n, m);
      && n'.term == n.term && n'.log == n.log && n'.committed == n.committed && n'.msgs == n.msgs
      && (Most(n.cfg, |HeardFrom(n)|) ==>
            && n'.role.Leader? && n'.prs.Keys == n.prs.Keys
            && forall p {:trigger n'.prs[p]} :: p in n.prs ==>
                 n'.prs[p] == if p == n.cfg.id then n.prs[p] else n.prs[p].(recentActive := false))
      && (!Most(n.cfg, |HeardFrom(n)|) ==> n'.role.Follower? && n'.lead == NONE)
  {
    hide FreshPeers;
    assert Active(n) == HeardFrom(n);
    MajorityIs(n, |HeardFrom(n)|);
  }

  // ---------------------------------------------------------------- hearing from a leader

  /** The message comes from a leader, of the node's term or a later one. */
  predicate Led(n: Node, m: Message) {
    m.term > n.term || (m.term == n.term && !n.role.Leader?)
  }

  /** The node follows the sender, in its term, and waits a whole timeout again. */
  ghost predicate Follows(n: Node, m: Message, n': Node) {
    && n'.role.Follower? && n'.lead == m.from && n'.term == m.term && n'.electionElapsed == 0
    && n'.vote == if m.term > n.term then NONE else n.vote
  }

  /** A node that gets the heartbeat of a leader follows it; its commit index moves, never back, and it
      answers with the context. */
  lemma HeartbeatTaken(n: Node, m: Message)
    requires Led(n, m) && m.kind.MsgHeartbeat? && m.term > 0 && n.committed <= |n.log| && m.commit <= |n.log|
    ensures var n' := Step(n, m);
      && Follows(n, m, n') && n'.log == n.log && n'.committed == Max(n.committed, m.commit)
      && Sends(n, n', [Message(MsgHeartbeatResp, m.from, n.cfg.id, m.term, 0, 0, [], 0, false, 0, m.context)])
  {
    hide FreshPeers, HandleHeartbeat;
    var f := BecomeFollower(n, m.term, m.from);
    BeatHandled(n.(electionElapsed := 0, lead := m.from), m);
    BeatHandled(f, m);
    BeatHandled(f.(electionElapsed := 0, lead := m.from), m);
  }

  lemma BeatHandled(n: Node, m: Message)
    requires n.committed <= |n.log| && m.commit <= |n.log|
    ensures HandleHeartbeat(n, m) ==
      n.(committed := Max(n.committed, m.commit),
         msgs := n.msgs + [Message(MsgHeartbeatResp, m.from, n.cfg.id, n.term, 0, 0, [], 0, false, 0, m.context)])
  {
  }

  /** So does one that is sent entries. */
  lemma AppendHeard(n: Node, m: Message)
    requires Led(n, m) && m.kind.MsgApp? && m.term > 0
    ensures Follows(n, m, Step(n, m))
  {
    hide FreshPeers, HandleAppendEntries;
    var f := BecomeFollower(n, m.term, m.from);
    AppendFrame(n.(electionElapsed := 0, lead := m.from), m);
    AppendFrame(f, m);
    AppendFrame(f.(electionElapsed := 0, lead := m.from), m);
  }

  lemma AppendFrame(n: Node, m: Message)
    ensures var n' := HandleAppendEntries(n, m);
      n' == n.(log := n'.log, committed := n'.committed, msgs := n'.msgs, panicked := n'.panicked)
  {
    hide MaybeAppend, Send;
    var r := MaybeAppend(n.log, n.committed, m.index, m.logTerm, m.commit, m.entries);
    var n1 := (if r.panic then Panic(n) else n).(log := r.log, committed := r.committed);
    SendFrame(n, Blank(MsgAppResp, m.from).(index := n.committed));
    SendFrame(n1, Blank(MsgAppResp, m.from).(index := r.last));
    SendFrame(n1, Blank(MsgAppResp, m.from).(index := m.index, reject := true, rejectHint := LastIndex(n)));
  }

  lemma SendFrame(n: Node, m: Message)
    ensures var n' := Send(n, m); n' == n.(msgs := n'.msgs, panicked := n'.panicked)
  {
  }

  // ---------------------------------------------------------------- what a leader sends

  /** What a leader has for a peer: the entries from its next index on, within the size limit, what comes
      before them, and the commit index. */
  function Offer(n: Node, p: NodeId): Message
    requires p in n.prs && 1 <= n.prs[p].next <= |n.log| + 1
  {
    var next := n.prs[p].next;
    Message(MsgApp, p, n.cfg.id, n.term, if next == 1 then 0 else n.log[next - 2].term, next - 1,
            if next > |n.log| then [] else LimitSize(n.cfg.maxMsgSize, n.log[next - 1..]), n.committed, false, 0, "")
  }

  /** The peer owes an answer before it is sent more. */
  predicate Waiting(n: Node, p: NodeId)
    requires p in n.prs
  {
    var pr := n.prs[p];
    pr.state.Snapshot? || (pr.state.Probe? && pr.paused) || (pr.state.Replicate? && |pr.inflights| == n.cfg.maxInflight)
  }

  lemma OfferSent(n: Node, p: NodeId)
    requires p in n.prs && 1 <= n.prs[p].next <= |n.log| + 1 && !Waiting(n, p)
    ensures var n' := SendAppend(n, p);
      && n' == n.(prs := n'.prs, msgs := n.msgs + [Offer(n, p)])
      && (n.prs[p].state.Probe? && n.prs[p].next <= |n.log| ==> n'.prs == n.prs[p := n.prs[p].(paused := true)])
  {
    hide AppendMsg, Offer;
    OfferIs(n, p);
  }

  lemma OfferIs(n: Node, p: NodeId)
    requires p in n.prs && 1 <= n.prs[p].next <= |n.log| + 1
    ensures var m := AppendMsg(n, p);
      && m.kind.MsgApp? && m.term == 0 && m.(from := n.cfg.id, term := n.term) == Offer(n, p)
      && (m.entries == [] <==> n.prs[p].next > |n.log|)
  {
    hide LimitSize;
    if n.prs[p].next <= |n.log| { LimitSizeSome(n, p); }
  }

  lemma LimitSizeSome(n: Node, p: NodeId)
    requires p in n.prs && 1 <= n.prs[p].next <= |n.log|
    ensures LimitSize(n.cfg.maxMsgSize, n.log[n.prs[p].next - 1..]) != []
  {
  }

  /** The answer to a heartbeat gets a peer that is probed and behind going again. */
  lemma BehindIsSent(n: Node, m: Message)
    requires Local(n) && n.role.Leader? && m.kind.MsgHeartbeatResp? && m.term == n.term && m.context == ""
    requires m.from in n.prs && var pr := n.prs[m.from]; pr.state.Probe? && pr.matched < |n.log| && 1 <= pr.next <= |n.log|
    ensures var n' := Step(n, m);
      && Sends(n, n', [Offer(n, m.from)])
      && n'.prs == n.prs[m.from := n.prs[m.from].(recentActive := true, paused := true)]
  {
    hide Local, MaybeSendAppend, Offer, IsFull, FreeFirstOne;
    var n1 := SetPr(n, m.from, n.prs[m.from].(recentActive := true, paused := false));
    OfferSent(n1, m.from);
    SameOffer(n, n1, m.from);
  }

  /** Where a leader goes back to when a peer refuses: behind what is matched if it was streaming, otherwise
      to the index refused or just after the end of the peer's log, whichever is lower, but not below 1. */
  function Retry(pr: Progress, m: Message): nat {
    if pr.state.Replicate? then pr.matched + 1 else Max(1, Min(m.index, m.rejectHint + 1))
  }

  /** The refusal concerns what was sent last. */
  predicate Timely(pr: Progress, m: Message) {
    if pr.state.Replicate? then m.index > pr.matched else pr.next == m.index + 1
  }

  /** The peer is probed from here, and what there is for it is on its way. */
  ghost predicate Retries(n: Node, n': Node, p: NodeId, next: nat)
    requires p in n.prs && 1 <= next <= |n.log| + 1
  {
    && Sends(n, n', [Offer(n.(prs := n.prs[p := n.prs[p].(next := next)]), p)])
    && p in n'.prs && n'.prs[p].state.Probe? && n'.prs[p].matched == n.prs[p].matched && n'.prs[p].next == next
  }

  /** A refusal of what was sent last makes the leader go back and try again from there; any other is stale
      and changes nothing but that the peer was heard from. */
  lemma RefusalTaken(n: Node, m: Message)
    requires Local(n) && n.role.Leader? && m.kind.MsgAppResp? && m.reject && m.term == n.term && m.from in n.prs
    ensures var n', pr := Step(n, m), n.prs[m.from];
      && (!Timely(pr, m) ==> n' == n.(prs := n.prs[m.from := pr.(recentActive := true)]))
      && (Timely(pr, m) && Retry(pr, m) <= |n.log| + 1 ==> Retries(n, n', m.from, Retry(pr, m)))
  {
    hide Local, HandleRejection, Offer;
    PeerWindow(n, m.from);
    var pr, pr0 := n.prs[m.from], n.prs[m.from].(recentActive := true);
    var n0 := SetPr(n, m.from, pr0);
    if Timely(pr, m) {
      if Retry(pr, m) <= |n.log| + 1 {
        Refused(n0, m);
        SameOffer(n.(prs := n.prs[m.from := pr.(next := Retry(pr, m))]),
                  n0.(prs := n0.prs[m.from := pr0.(next := Retry(pr, m))]), m.from);
      }
    } else {
      StaleRefusal(n0, m);
    }
  }

  lemma StaleRefusal(n: Node, m: Message)
    requires m.from in n.prs && !n.prs[m.from].state.Snapshot? && !Timely(n.prs[m.from], m)
    ensures HandleRejection(n, m) == n
  {
    hide MaybeSendAppend;
    assert n.prs[m.from := n.prs[m.from]] == n.prs;
  }

  lemma Refused(n: Node, m: Message)
    requires m.from in n.prs && !n.prs[m.from].state.Snapshot? && Timely(n.prs[m.from], m)
    requires Retry(n.prs[m.from], m) <= |n.log| + 1
    ensures Retries(n, HandleRejection(n, m), m.from, Retry(n.prs[m.from], m))
  {
    hide MaybeSendAppend, Offer;
    var pr := n.prs[m.from];
    var pr1 := MaybeDecrTo(pr, m.index, m.rejectHint).0;
    var n1 := SetPr(n, m.from, if pr1.state.Replicate? then BecomeProbe(pr1) else pr1);
    OfferSent(n1, m.from);
    SameOffer(n.(prs := n.prs[m.from := pr.(next := Retry(pr, m))]), n1, m.from);
    SentProgress(n1, m.from);
  }

  lemma SentProgress(n: Node, p: NodeId)
    requires p in n.prs && n.prs[p].state.Probe?
    ensures var n' := SendAppend(n, p);
      p in n'.prs && n'.prs[p].state.Probe? && n'.prs[p].matched == n.prs[p].matched && n'.prs[p].next == n.prs[p].next
  {
    hide EntriesFrom, TermAt;
  }

  /** A peer that cannot be reached is probed again, from behind what is matched. */
  lemma LinkLost(n: Node, m: Message)
    requires n.role.Leader? && m.kind.MsgUnreachable? && (m.term == 0 || m.term == n.term) && m.from in n.prs
    ensures var pr := n.prs[m.from];
      Step(n, m) ==
      if pr.state.Replicate? then
        n.(prs := n.prs[m.from := Progress(pr.matched, pr.matched + 1, Probe, false, 0, pr.recentActive, [])])
      else n
  {
  }

  /** So is one that was sent a snapshot, from behind it unless that failed, once it answers. */
  lemma SnapshotReported(n: Node, m: Message)
    requires n.role.Leader? && m.kind.MsgSnapStatus? && (m.term == 0 || m.term == n.term) && m.from in n.prs
    ensures var pr := n.prs[m.from];
      var next := if m.reject then pr.matched + 1 else Max(pr.matched, pr.pendingSnapshot) + 1;
      Step(n, m) ==
      if pr.state.Snapshot? then n.(prs := n.prs[m.from := Progress(pr.matched, next, Probe, true, 0, pr.recentActive, [])])
      else n
  {
  }

  /** Sending to one peer leaves what there is for the others. */
  lemma SendOther(n: Node, q: NodeId, p: NodeId)
    ensures var n' := SendAppend(n, q);
      && n' == n.(prs := n'.prs, msgs := n'.msgs, panicked := n'.panicked) && n.msgs <= n'.msgs
      && (p in n.prs && p != q ==> p in n'.prs && n'.prs[p] == n.prs[p])
  {
    hide EntriesFrom, IsPaused, TermAt, ProgressSent;
  }

  lemma {:induction false} BcastOnly(n: Node, ps: seq<NodeId>)
    ensures var n' := BcastAppend(n, ps);
      n' == n.(prs := n'.prs, msgs := n'.msgs, panicked := n'.panicked) && n.msgs <= n'.msgs
    decreases |ps|
  {
    hide MaybeSendAppend;
    if ps != [] {
      if ps[0] == n.cfg.id {
        BcastOnly(n, ps[1..]);
      } else {
        SendOther(n, ps[0], ps[0]);
        BcastOnly(SendAppend(n, ps[0]), ps[1..]);
      }
    }
  }

  /** The message is among those sent since n. */
  ghost predicate Told(n: Node, n': Node, m: Message) {
    n.msgs <= n'.msgs && m in n'.msgs[|n.msgs|..]
  }

  lemma {:induction false} BcastTells(n: Node, ps: seq<NodeId>, p: NodeId)
    requires p in ps && p != n.cfg.id && p in n.prs && 1 <= n.prs[p].next <= |n.log| + 1 && !Waiting(n, p)
    ensures Told(n, BcastAppend(n, ps), Offer(n, p))
    decreases |ps|
  {
    hide MaybeSendAppend, Offer;
    if ps[0] == n.cfg.id {
      BcastTells(n, ps[1..], p);
    } else {
      var n1 := SendAppend(n, ps[0]);
      var n2 := BcastAppend(n1, ps[1..]);
      SendOther(n, ps[0], p);
      if ps[0] == p {
        OfferSent(n, p);
        BcastOnly(n1, ps[1..]);
        assert n2.msgs[|n.msgs|] == n1.msgs[|n.msgs|] == Offer(n, p);
      } else {
        BcastTells(n1, ps[1..], p);
        SameOffer(n, n1, p);
        assert n2.msgs[|n1.msgs|..] == n2.msgs[|n.msgs|..][|n1.msgs| - |n.msgs|..];
      }
    }
  }

  lemma SameOffer(n: Node, n1: Node, p: NodeId)
    requires p in n.prs && p in n1.prs && n1.prs[p].next == n.prs[p].next && 1 <= n.prs[p].next <= |n.log| + 1
    requires n1.cfg == n.cfg && n1.log == n.log && n1.term == n.term && n1.committed == n.committed
    ensures Offer(n1, p) == Offer(n, p)
  {
    hide LimitSize;
  }

  /** What is proposed goes out at once to every voter that is not waiting, with the commit index as it
      then is. */
  lemma ProposalSent(n: Node, m: Message, p: NodeId)
    requires Local(n) && n.role.Leader? && m.kind.MsgProp? && m.term == 0 && m.entries != [] && n.leadTransferee == NONE
    requires p in n.prs && p != n.cfg.id && n.prs[p].next <= |n.log| + 1 && !Waiting(n, p)
    ensures var n' := Step(n, m);
      |n'.log| == |n.log| + |m.entries| && 1 <= n.prs[p].next <= |n'.log| && Told(n, n', Offer(n'.(prs := n.prs), p))
  {
    hide Local, FilterConf, AppendEntry, BcastAppend, Stamp, Offer, Waiting, Told;
    PeerWindow(n, p);
    HasPeers(n);
    Cursors(n);
    var (es, pending) := FilterConf(m.entries, n.pendingConfIndex, n.applied, |n.log| + 1);
    var n0 := n.(pendingConfIndex := pending);
    var n1 := AppendEntry(n0, es);
    ProposeLog(n, m);
    SameStamp(n, pending, es);
    FilterLength(m.entries, n.pendingConfIndex, n.applied, |n.log| + 1);
    Appends(n0, es, p);
    var n' := BcastAppend(n1, n1.cfg.peers);
    BcastOnly(n1, n1.cfg.peers);
    StillNotWaiting(n, n1, p);
    BcastTells(n1, n1.cfg.peers, p);
    OfferBefore(n, n1, n', p);
  }

  lemma Appends(n: Node, es: seq<Entry>, p: NodeId)
    requires n.committed <= |n.log|
    ensures var n1 := AppendEntry(n, es);
      && n1 == n.(log := n.log + Stamp(n, es), prs := n1.prs, committed := n1.committed, panicked := n1.panicked)
      && (p in n.prs && p != n.cfg.id ==> p in n1.prs && n1.prs[p] == n.prs[p])
  {
    hide MaybeCommit, Stamp;
    AppendEntryFrame(n, es);
    CommitFrame(Grown(n, es));
  }

  lemma StillNotWaiting(n: Node, n1: Node, p: NodeId)
    requires p in n.prs && p in n1.prs && n1.prs[p] == n.prs[p] && n1.cfg == n.cfg && !Waiting(n, p)
    ensures !Waiting(n1, p)
  {
  }

  lemma OfferBefore(n: Node, n1: Node, n': Node, p: NodeId)
    requires p in n.prs && p in n1.prs && n1.prs[p] == n.prs[p] && 1 <= n.prs[p].next <= |n1.log| + 1 && n1.msgs == n.msgs
    requires n' == n1.(prs := n'.prs, msgs := n'.msgs, panicked := n'.panicked) && Told(n1, n', Offer(n1, p))
    ensures Told(n, n', Offer(n'.(prs := n.prs), p))
  {
    hide Offer;
    SameOffer(n1, n'.(prs := n.prs), p);
  }

  /** A leader that has just been elected tells every other voter, with the entry that opens its term. */
  lemma OfficeAnnounced(n: Node, m: Message, p: NodeId)
    requires Local(n) && n.role.Candidate? && m.kind.MsgVoteResp? && !m.reject && m.term == n.term && m.from !in n.votes
    requires !Most(n.cfg, |Voted(n)|) && Most(n.cfg, |Voted(n)| + 1) && p in n.cfg.peers && p != n.cfg.id
    ensures var n' := Step(n, m);
      Told(n, n', Message(MsgApp, p, n.cfg.id, n.term, LastOf(n.log), |n.log|,
                          [Entry(n.term, |n.log| + 1, EntryNormal, "")], n'.committed, false, 0, ""))
  {
    hide Local, BecomeLeader, BcastAppend, Poll, Campaign, Told, Most;
    HasPeers(n);
    Cursors(n);
    VoteCounted(n, m.from);
    FirstMajority(n, |Voted(n)|);
    var n1 := n.(votes := n.votes[m.from := true]);
    var n2 := BecomeLeader(n1);
    Opens(n1, p);
    BcastOnly(n2, n2.cfg.peers);
    BcastTells(n2, n2.cfg.peers, p);
    SameTold(n, n2, BcastAppend(n2, n2.cfg.peers), Offer(n2, p));
  }

  lemma SameTold(n: Node, n2: Node, n': Node, m: Message)
    requires n2.msgs == n.msgs && Told(n2, n', m)
    ensures Told(n, n', m)
  {
  }

  lemma Opens(n: Node, p: NodeId)
    requires !n.role.Follower? && n.committed <= |n.log| && p in n.cfg.peers && p != n.cfg.id
    ensures var n' := BecomeLeader(n);
      && n'.cfg == n.cfg && n'.msgs == n.msgs && p in n'.prs && !Waiting(n', p) && 1 <= n'.prs[p].next <= |n'.log| + 1
      && Offer(n', p) == Message(MsgApp, p, n.cfg.id, n.term, LastOf(n.log), |n.log|,
                                 [Entry(n.term, |n.log| + 1, EntryNormal, "")], n'.committed, false, 0, "")
  {
    hide AppendEntry, LimitSize;
    var r := Reset(n, n.term).(lead := n.cfg.id, role := Leader, pendingConfIndex := LastIndex(n));
    var es := [Entry(0, 0, EntryNormal, "")];
    var e := Entry(n.term, |n.log| + 1, EntryNormal, "");
    Appends(r, es, p);
    assert Stamp(r, es) == [e];
    assert (n.log + [e])[|n.log|..] == [e];
    OneFits(n.cfg.maxMsgSize, e);
  }

  lemma OneFits(max: nat, e: Entry)
    ensures LimitSize(max, [e]) == [e]
  {
  }
}
