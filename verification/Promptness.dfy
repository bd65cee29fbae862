/** Commitment is prompt (src/raft.cc, `Raft::maybeCommit` and its callers): what more than half of the
    voters are known to have is committed by the very step in which the leader learns of it. */
module Promptness {
  import opened Types
  import opened Logs
  import opened Progresses
  import opened ReadQueues
  import opened Commitment
  import opened Nodes
  import opened NodeLocal
  import opened History
  import opened Invariants
  import opened Steps
  import opened Laws
  import C = Cluster

  // ---------------------------------------------------------------- counting voters

  /** The voters that are known to have the leader's log up to k. */
  ghost function Reached(n: Node, k: nat): set<NodeId> {
    set p | p in n.prs && n.prs[p].matched >= k
  }

  /** k is the last index that more than half of the voters are known to have. */
  ghost predicate Frontier(n: Node, k: nat) {
    Most(n.cfg, |Reached(n, k)|) && !Most(n.cfg, |Reached(n, k + 1)|)
  }

  /** The leader would commit k if it knew that a majority has it. */
  predicate OwnTerm(n: Node, k: nat) {
    0 < k <= |n.log| && n.log[k - 1].term == n.term
  }

  /** The leader's record of itself. */
  predicate SelfKnown(n: Node) {
    n.cfg.id in n.prs && n.prs[n.cfg.id].matched == |n.log|
  }

  /** What a leader could commit it has committed. */
  ghost predicate Prompt(n: Node) {
    n.role.Leader? ==>
      && SelfKnown(n)
      && forall k: nat {:trigger Frontier(n, k)} :: Frontier(n, k) && OwnTerm(n, k) ==> k <= n.committed
  }

  /** Every voter has a record and nobody else. */
  ghost predicate Enrolled(n: Node) {
    Ascending(n.cfg.peers) && n.cfg.peers != [] && n.prs.Keys == Members(n.cfg.peers)
  }

  lemma LocalEnrolled(n: Node)
    requires Local(n)
    ensures Enrolled(n) && (n.role.Leader? ==> n.term > 0)
  {
  }

  ghost function Among(ps: seq<NodeId>, prs: map<NodeId, Progress>, k: nat): set<NodeId> {
    set p | p in ps && p in prs && prs[p].matched >= k
  }

  lemma AmongOne(ps: seq<NodeId>, prs: map<NodeId, Progress>, k: nat)
    requires ps != [] && ps[0] in prs && ps[0] !in ps[1..]
    ensures |Among(ps, prs, k)| == |Among(ps[1..], prs, k)| + if prs[ps[0]].matched >= k then 1 else 0
  {
    var t := Among(ps[1..], prs, k);
    assert ps == [ps[0]] + ps[1..];
    assert Among(ps, prs, k) == if prs[ps[0]].matched >= k then t + {ps[0]} else t;
  }

  lemma {:induction false} ReachingCount(ps: seq<NodeId>, ms: seq<nat>, prs: map<NodeId, Progress>, k: nat)
    requires Ascending(ps) && |ms| == |ps|
    requires forall i :: 0 <= i < |ps| ==> ps[i] in prs && ms[i] == prs[ps[i]].matched
    ensures Reaching(ms, k) == |Among(ps, prs, k)|
  {
    if ps == [] {
      assert Among(ps, prs, k) == {};
    } else {
      hide Among;
      ReachingCount(ps[1..], ms[1..], prs, k);
      AmongOne(ps, prs, k);
    }
  }

  lemma ReachedCount(n: Node, k: nat)
    requires Enrolled(n)
    ensures Reaching(MatchIndexes(n), k) == |Reached(n, k)|
  {
    var ms := MatchIndexes(n);
    forall i | 0 <= i < |n.cfg.peers|
      ensures n.cfg.peers[i] in n.prs && ms[i] == n.prs[n.cfg.peers[i]].matched
    {
      assert n.cfg.peers[i] in Members(n.cfg.peers);
    }
    ReachingCount(n.cfg.peers, ms, n.prs, k);
    assert Reached(n, k) == Among(n.cfg.peers, n.prs, k);
  }

  /** The last index of a majority is the one `maybeCommit` picks. */
  lemma FrontierPicked(n: Node, k: nat)
    requires Enrolled(n) && Frontier(n, k)
    ensures 1 <= Quorum(n) <= |MatchIndexes(n)| && QuorumIndex(MatchIndexes(n), Quorum(n)) == k
  {
    hide Reached, Enrolled, MatchIndexes, QuorumIndex;
    MatchCount(n);
    assert 1 <= Quorum(n) <= |n.cfg.peers| by { assert Enrolled(n) ==> n.cfg.peers != [] by { EnrolledSome(n); } }
    ReachedCount(n, k);
    ReachedCount(n, k + 1);
    QuorumIndexExact(MatchIndexes(n), Quorum(n), k);
    QuorumIndexExact(MatchIndexes(n), Quorum(n), k + 1);
  }

  lemma EnrolledSome(n: Node)
    ensures Enrolled(n) ==> n.cfg.peers != []
  {
  }

  /** `maybeCommit` commits it if and only if the entry is new and of the leader's own term. */
  lemma CommitsFrontier(n: Node, k: nat)
    requires Enrolled(n) && Frontier(n, k) && n.term > 0 && n.committed <= |n.log|
    ensures MaybeCommit(n) == if n.committed < k && OwnTerm(n, k) then (n.(committed := k), true) else (n, false)
  {
    hide Enrolled, Frontier, Quorum, MatchIndexes, QuorumIndex;
    FrontierPicked(n, k);
  }

  lemma CommitPrompt(n: Node)
    requires Enrolled(n) && n.term > 0 && n.committed <= |n.log| && SelfKnown(n)
    ensures Prompt(MaybeCommit(n).0)
  {
    hide Enrolled, MaybeCommit, OwnTerm, Most;
    var n' := MaybeCommit(n).0;
    CommitFrame(n);
    forall k: nat | Frontier(n', k) && OwnTerm(n', k)
      ensures k <= n'.committed
    {
      SameFrontier(n, n', k);
      CommitsFrontier(n, k);
    }
  }

  lemma SameFrontier(n: Node, n': Node, k: nat)
    requires SameMatch(n, n') && n'.cfg == n.cfg
    ensures Frontier(n', k) == Frontier(n, k) && (n'.log == n.log && n'.term == n.term ==> OwnTerm(n', k) == OwnTerm(n, k))
  {
    assert Reached(n', k) == Reached(n, k);
    assert Reached(n', k + 1) == Reached(n, k + 1);
  }

  // ---------------------------------------------------------------- what keeps the records

  /** The records, the log and the commit index are as they were. */
  ghost predicate Unmoved(n: Node, n': Node) {
    && SameMatch(n, n') && n'.cfg == n.cfg && n'.log == n.log && n'.term == n.term && n'.committed == n.committed
    && n'.role == n.role
  }

  lemma UnmovedPrompt(n: Node, n': Node)
    requires Unmoved(n, n') && Prompt(n)
    ensures Prompt(n')
  {
    hide Frontier, OwnTerm, SameMatch, SelfKnown;
    if n.role.Leader? { SameSelf(n, n'); }
    forall k: nat | n'.role.Leader? && Frontier(n', k) && OwnTerm(n', k)
      ensures k <= n'.committed
    {
      SameFrontier(n, n', k);
    }
  }

  lemma SameSelf(n: Node, n': Node)
    requires Unmoved(n, n') && SelfKnown(n)
    ensures SelfKnown(n')
  {
  }

  lemma UnmovedTwice(a: Node, b: Node, c: Node)
    requires Unmoved(a, b) && Unmoved(b, c)
    ensures Unmoved(a, c)
  {
  }

  lemma SetKeeps(n: Node, p: NodeId, pr: Progress)
    requires p in n.prs && pr.matched == n.prs[p].matched
    ensures Unmoved(n, SetPr(n, p, pr))
  {
  }

  lemma SendingKeeps(n: Node, m: Message)
    ensures Unmoved(n, Send(n, m))
  {
  }

  lemma AppendKeeps(n: Node, to: NodeId, e: bool)
    requires to in n.prs
    ensures Unmoved(n, MaybeSendAppend(n, to, e).0)
  {
    hide EntriesFrom, IsPaused, TermAt, Unmoved, SetPr;
    var pr := ProgressSent(Pr(n, to), AppendMsg(n, to).entries);
    SetKeeps(n, to, pr);
    SetKeeps(n, to, n.prs[to]);
    SendingKeeps(SetPr(n, to, pr), AppendMsg(n, to));
    UnmovedTwice(n, SetPr(n, to, pr), Send(SetPr(n, to, pr), AppendMsg(n, to)));
    assert Unmoved(n, n) && Unmoved(n, Panic(n)) by { UnmovedSelf(n); }
  }

  lemma UnmovedSelf(n: Node)
    ensures Unmoved(n, n) && Unmoved(n, Panic(n))
  {
  }

  lemma {:induction false} LoopKeeps(n: Node, to: NodeId)
    requires to in n.prs
    ensures Unmoved(n, SendLoop(n, to))
    decreases SendBudget(n, to)
  {
    hide MaybeSendAppend, Unmoved;
    AppendKeeps(n, to, false);
    var (n', sent) := MaybeSendAppend(n, to, false);
    UnmovedKeys(n, n');
    UnmovedSelf(n');
    if sent && SendBudget(n', to) < SendBudget(n, to) {
      LoopKeeps(n', to);
      UnmovedTwice(n, n', SendLoop(n', to));
    }
    UnmovedTwice(n, n', Panic(n'));
  }

  lemma UnmovedKeys(n: Node, n': Node)
    requires Unmoved(n, n')
    ensures n'.prs.Keys == n.prs.Keys && n'.cfg == n.cfg && n'.role == n.role
  {
  }

  lemma {:induction false} BcastKeeps(n: Node, ps: seq<NodeId>)
    requires forall i :: 0 <= i < |ps| ==> ps[i] in n.prs
    ensures Unmoved(n, BcastAppend(n, ps))
    decreases |ps|
  {
    hide MaybeSendAppend, Unmoved;
    UnmovedSelf(n);
    if ps != [] {
      if ps[0] == n.cfg.id {
        BcastKeeps(n, ps[1..]);
      } else {
        var n1 := SendAppend(n, ps[0]);
        AppendKeeps(n, ps[0], true);
        UnmovedKeys(n, n1);
        BcastKeeps(n1, ps[1..]);
        UnmovedTwice(n, n1, BcastAppend(n1, ps[1..]));
      }
    }
  }

  /** The append messages of a leader to all. */
  lemma AllKeep(n: Node)
    requires Enrolled(n)
    ensures Unmoved(n, BcastAppend(n, n.cfg.peers))
  {
    hide BcastAppend, Unmoved;
    forall i | 0 <= i < |n.cfg.peers|
      ensures n.cfg.peers[i] in n.prs
    {
      assert n.cfg.peers[i] in Members(n.cfg.peers);
    }
    BcastKeeps(n, n.cfg.peers);
  }

  lemma {:induction false} BeatKeeps(n: Node, ps: seq<NodeId>, ctx: string)
    ensures Unmoved(n, BcastHeartbeat(n, ps, ctx))
    decreases |ps|
  {
    hide Unmoved;
    UnmovedSelf(n);
    if ps != [] {
      if ps[0] == n.cfg.id {
        BeatKeeps(n, ps[1..], ctx);
      } else {
        var n1 := SendHeartbeat(n, ps[0], ctx);
        SendingKeeps(n, Blank(MsgHeartbeat, ps[0]).(commit := Min(Pr(n, ps[0]).matched, n.committed), context := ctx));
        BeatKeeps(n1, ps[1..], ctx);
        UnmovedTwice(n, n1, BcastHeartbeat(n1, ps[1..], ctx));
      }
    }
  }

  lemma {:induction false} ReleaseKeeps(n: Node, rss: seq<ReadStatus>)
    ensures Unmoved(n, Release(n, rss))
    decreases |rss|
  {
    hide Unmoved;
    UnmovedSelf(n);
    if rss != [] {
      var rs := rss[0];
      var n1 :=
        if rs.req.from == NONE || rs.req.from == n.cfg.id then
          n.(readStates := n.readStates + [ReadState(rs.index, Ctx(rs.req))])
        else Send(n, Blank(MsgReadIndexResp, rs.req.from).(index := rs.index, entries := rs.req.entries));
      assert Unmoved(n, n1) by {
        FieldsKept(n, n.(readStates := n.readStates + [ReadState(rs.index, Ctx(rs.req))]));
        SendingKeeps(n, Blank(MsgReadIndexResp, rs.req.from).(index := rs.index, entries := rs.req.entries));
      }
      ReleaseKeeps(n1, rss[1..]);
      UnmovedTwice(n, n1, Release(n1, rss[1..]));
    }
  }

  lemma FieldsKept(n: Node, n': Node)
    requires n'.prs == n.prs && n'.cfg == n.cfg && n'.log == n.log && n'.term == n.term && n'.committed == n.committed
    requires n'.role == n.role
    ensures Unmoved(n, n')
  {
  }

  // ---------------------------------------------------------------- the leader's steps

  lemma ProposePrompt(n: Node, m: Message)
    requires Local(n) && n.role.Leader? && Prompt(n)
    ensures Prompt(Propose(n, m))
  {
    hide Local, Prompt, Unmoved, FilterConf, AppendEntry, BcastAppend;
    UnmovedSelf(n);
    UnmovedPrompt(n, Panic(n));
    if m.entries != [] && !LeaderDrops(n) {
      var (es, pending) := FilterConf(m.entries, n.pendingConfIndex, n.applied, LastIndex(n) + 1);
      var n1 := n.(pendingConfIndex := pending);
      LocalEnrolled(n);
      Cursors(n);
      LeaderSelf(n);
      AppendPrompt(n1, es);
      AllKeep(AppendEntry(n1, es));
      UnmovedPrompt(AppendEntry(n1, es), Propose(n, m));
    }
  }

  lemma LeaderSelf(n: Node)
    requires Prompt(n) && n.role.Leader?
    ensures SelfKnown(n)
  {
  }

  /** A leader looks for a new commit index whenever its log grows. */
  lemma AppendPrompt(n: Node, es: seq<Entry>)
    requires Enrolled(n) && SelfKnown(n) && n.term > 0 && n.committed <= |n.log|
    ensures Prompt(AppendEntry(n, es)) && Enrolled(AppendEntry(n, es))
  {
    hide Prompt, MaybeCommit;
    AppendEntryFrame(n, es);
    CommitPrompt(Grown(n, es));
    CommitFrame(Grown(n, es));
  }

  lemma ReadPrompt(n: Node, m: Message)
    requires Prompt(n)
    ensures Prompt(ReadIndexReq(n, m))
  {
    hide Prompt, Unmoved, BcastHeartbeat, TermAt, AddRequest;
    UnmovedSelf(n);
    var n1 := n.(readOnly := AddRequest(n.readOnly, n.committed, m));
    BeatKeeps(n1, n.cfg.peers, Ctx(m));
    FieldsKept(n, n1);
    UnmovedTwice(n, n1, BcastHeartbeat(n1, n.cfg.peers, Ctx(m)));
    FieldsKept(n, n.(readStates := n.readStates + [ReadState(n.committed, Ctx(m))]));
    SendingKeeps(n, Blank(MsgReadIndexResp, m.from).(index := n.committed, entries := m.entries));
    UnmovedPrompt(n, ReadIndexReq(n, m));
  }

  lemma RejectionKeeps(n: Node, m: Message)
    requires m.from in n.prs
    ensures Unmoved(n, HandleRejection(n, m))
  {
    hide Unmoved, MaybeSendAppend;
    var (pr, changed) := MaybeDecrTo(Pr(n, m.from), m.index, m.rejectHint);
    SetKeeps(n, m.from, pr);
    var pr1 := if pr.state.Replicate? then BecomeProbe(pr) else pr;
    var n1 := SetPr(n, m.from, pr1);
    SetKeeps(n, m.from, pr1);
    AppendKeeps(n1, m.from, true);
    UnmovedTwice(n, n1, SendAppend(n1, m.from));
  }

  lemma AfterAckKeeps(n: Node, moved: bool, wasPaused: bool, from: NodeId)
    requires Enrolled(n) && from in n.prs
    ensures Unmoved(n, AfterAck(n, moved, wasPaused, from))
  {
    hide Unmoved, BcastAppend, MaybeSendAppend;
    UnmovedSelf(n);
    AllKeep(n);
    AppendKeeps(n, from, true);
  }

  lemma FinishKeeps(n: Node, from: NodeId)
    ensures Unmoved(n, FinishTransfer(n, from))
  {
    hide Unmoved;
    UnmovedSelf(n);
    SendingKeeps(n, Blank(MsgTimeoutNow, from));
  }

  /** After an answer that moves the record of a peer, the leader sends what it may, and no more. */
  lemma AckKeeps(n: Node, moved: bool, wasPaused: bool, from: NodeId)
    requires Enrolled(n) && from in n.prs
    ensures Unmoved(n, FinishTransfer(SendLoop(AfterAck(n, moved, wasPaused, from), from), from))
  {
    hide Unmoved, AfterAck, SendLoop, FinishTransfer;
    var n1 := AfterAck(n, moved, wasPaused, from);
    AfterAckKeeps(n, moved, wasPaused, from);
    UnmovedKeys(n, n1);
    LoopKeeps(n1, from);
    FinishKeeps(SendLoop(n1, from), from);
    UnmovedTwice(n, n1, SendLoop(n1, from));
    UnmovedTwice(n, SendLoop(n1, from), FinishTransfer(SendLoop(n1, from), from));
  }

  lemma AcceptancePrompt(n: Node, m: Message)
    requires Enrolled(n) && n.role.Leader? && m.from in n.prs && n.term > 0 && n.committed <= |n.log| && Prompt(n)
    requires m.from != n.cfg.id
    ensures Prompt(HandleAcceptance(n, m))
  {
    hide Prompt, Unmoved, MaybeCommit, AfterAck, SendLoop, FinishTransfer, Advanced, IsPaused;
    var (pr, updated) := MaybeUpdate(Pr(n, m.from), m.index);
    if updated {
      var n0 := SetPr(n, m.from, Advanced(pr, m.index));
      var (n1, moved) := MaybeCommit(n0);
      LeaderSelf(n);
      CommitPrompt(n0);
      CommitFrame(n0);
      AckKeeps(n1, moved, IsPaused(Pr(n, m.from), n.cfg.maxInflight), m.from);
      UnmovedPrompt(n1, HandleAcceptance(n, m));
    } else {
      SetKeeps(n, m.from, pr);
      UnmovedPrompt(n, HandleAcceptance(n, m));
    }
  }

  lemma AppRespPrompt(n: Node, m: Message)
    requires Enrolled(n) && n.role.Leader? && m.from in n.prs && n.term > 0 && n.committed <= |n.log| && Prompt(n)
    requires m.from != n.cfg.id
    ensures Prompt(HandleAppResp(n, m))
  {
    hide Prompt, Unmoved, HandleRejection, HandleAcceptance;
    var n1 := SetPr(n, m.from, Pr(n, m.from).(recentActive := true));
    SetKeeps(n, m.from, Pr(n, m.from).(recentActive := true));
    UnmovedPrompt(n, n1);
    if m.reject {
      RejectionKeeps(n1, m);
      UnmovedPrompt(n1, HandleRejection(n1, m));
    } else {
      AcceptancePrompt(n1, m);
    }
  }

  lemma ReadAckKeeps(n: Node, m: Message)
    ensures Unmoved(n, HandleReadAck(n, m))
  {
    hide Unmoved, Release, RecvAck, Advance, Backed;
    UnmovedSelf(n);
    var (q, acks) := RecvAck(n.readOnly, m.from, m.context);
    var n1 := n.(readOnly := q);
    FieldsKept(n, n1);
    FieldsKept(n, Panic(n1));
    if Backed(q) {
      var (q', rss) := Advance(q, m.context);
      FieldsKept(n, n1.(readOnly := q'));
      ReleaseKeeps(n1.(readOnly := q'), rss);
      UnmovedTwice(n, n1.(readOnly := q'), Release(n1.(readOnly := q'), rss));
    }
  }

  lemma HeartbeatRespKeeps(n: Node, m: Message)
    requires m.from in n.prs
    ensures Unmoved(n, HandleHeartbeatResp(n, m))
  {
    hide Unmoved, MaybeSendAppend, HandleReadAck, FreeFirstOne, IsFull;
    var pr := Pr(n, m.from).(recentActive := true, paused := false);
    var pr1 :=
      if pr.state.Replicate? && IsFull(pr, n.cfg.maxInflight) then pr.(inflights := FreeFirstOne(pr.inflights))
      else pr;
    var n1 := SetPr(n, m.from, pr1);
    SetKeeps(n, m.from, pr1);
    var n2 := if pr1.matched < LastIndex(n1) then SendAppend(n1, m.from) else n1;
    AppendKeeps(n1, m.from, true);
    UnmovedSelf(n1);
    UnmovedTwice(n, n1, n2);
    ReadAckKeeps(n2, m);
    UnmovedTwice(n, n2, HandleReadAck(n2, m));
  }

  lemma SnapStatusKeeps(n: Node, m: Message)
    requires m.from in n.prs
    ensures Unmoved(n, HandleSnapStatus(n, m)) && Unmoved(n, HandleUnreachable(n, m))
  {
    hide Unmoved;
    UnmovedSelf(n);
    var pr := Pr(n, m.from);
    SetKeeps(n, m.from, BecomeProbe(if m.reject then pr.(pendingSnapshot := 0) else pr).(paused := true));
    SetKeeps(n, m.from, BecomeProbe(pr));
  }

  lemma TransferKeeps(n: Node, m: Message)
    requires m.from in n.prs
    ensures Unmoved(n, HandleTransfer(n, m))
  {
    hide Unmoved, MaybeSendAppend;
    UnmovedSelf(n);
    FieldsKept(n, n.(leadTransferee := NONE));
    var n2 := n.(electionElapsed := 0, leadTransferee := m.from);
    FieldsKept(n, n2);
    AppendKeeps(n2, m.from, true);
    SendingKeeps(n2, Blank(MsgTimeoutNow, m.from));
    UnmovedTwice(n, n2, SendAppend(n2, m.from));
    UnmovedTwice(n, n2, SendTimeoutNow(n2, m.from));
  }

  lemma CheckPrompt(n: Node)
    requires Prompt(n)
    ensures Prompt(CheckQuorum(n))
  {
    hide Unmoved, FreshPeers;
    var n1 := n.(prs := Rested(n.cfg.id, n.prs));
    assert SameMatch(n, n1);
    RestedKept(n, n1);
    UnmovedPrompt(n, n1);
  }

  lemma RestedKept(n: Node, n1: Node)
    requires SameMatch(n, n1) && n1 == n.(prs := n1.prs)
    ensures Unmoved(n, n1)
  {
  }

  lemma LeaderPrompt(n: Node, m: Message)
    requires Local(n) && n.role.Leader? && Prompt(n) && Foreign(n, m)
    ensures Prompt(StepLeader(n, m))
  {
    hide Local, Prompt, Unmoved, Enrolled, BcastHeartbeat, CheckQuorum, Propose, ReadIndexReq, StepLeaderPeer;
    hide LastPendingCtx;
    BeatKeeps(n, n.cfg.peers, LastPendingCtx(n.readOnly));
    UnmovedPrompt(n, BcastHeartbeat(n, n.cfg.peers, LastPendingCtx(n.readOnly)));
    CheckPrompt(n);
    ProposePrompt(n, m);
    ReadPrompt(n, m);
    if m.from in n.prs { PeerPrompt(n, m); }
  }

  /** Nobody answers its own append messages. */
  predicate Foreign(n: Node, m: Message) {
    m.kind.MsgAppResp? ==> m.from != n.cfg.id
  }

  lemma PeerPrompt(n: Node, m: Message)
    requires Local(n) && n.role.Leader? && Prompt(n) && m.from in n.prs && Foreign(n, m)
    ensures Prompt(StepLeaderPeer(n, m))
  {
    hide Local, Prompt, Unmoved, Enrolled, HandleAppResp, HandleHeartbeatResp, HandleSnapStatus, HandleUnreachable;
    hide HandleTransfer;
    LocalEnrolled(n);
    Cursors(n);
    if m.kind.MsgAppResp? { AppRespPrompt(n, m); }
    HeartbeatRespKeeps(n, m);
    SnapStatusKeeps(n, m);
    TransferKeeps(n, m);
    UnmovedPrompt(n, HandleHeartbeatResp(n, m));
    UnmovedPrompt(n, HandleSnapStatus(n, m));
    UnmovedPrompt(n, HandleUnreachable(n, m));
    UnmovedPrompt(n, HandleTransfer(n, m));
  }

  // ---------------------------------------------------------------- coming to office

  lemma OfficePrompt(n: Node)
    requires Local(n) && n.term > 0
    ensures Prompt(BecomeLeader(n)) && (!n.role.Follower? ==> Enrolled(BecomeLeader(n)))
  {
    hide Prompt, AppendEntry;
    if !n.role.Follower? {
      var r := Reset(n, n.term).(lead := n.cfg.id, role := Leader, pendingConfIndex := LastIndex(n));
      LocalEnrolled(n);
      AppendPrompt(r, [Entry(0, 0, EntryNormal, "")]);
    } else {
      NotLeading(Panic(n));
    }
  }

  lemma NotLeading(n: Node)
    requires !n.role.Leader?
    ensures Prompt(n)
  {
  }

  lemma {:induction false} VotesKeepRole(n: Node, ps: seq<NodeId>, m: Message)
    ensures SendVotes(n, ps, m).role == n.role
    decreases |ps|
  {
    if ps != [] {
      VotesKeepRole(if ps[0] == n.cfg.id then n else Send(n, m.(to := ps[0])), ps[1..], m);
    }
  }

  lemma RunPrompt(n: Node, t: CampaignType)
    requires Local(n) && !t.PreElection? && !n.role.Leader?
    ensures Prompt(RunForOffice(n, t))
  {
    hide Local, Prompt, BecomeLeader, SendVotes, Reset, VoteRequest;
    var (n1, granted) := Poll(BecomeCandidate(n), n.cfg.id, true);
    CandidateLocal(n);
    OfficePrompt(n1);
    VotesKeepRole(n1, n1.cfg.peers, VoteRequest(n1, t));
    NotLeading(SendVotes(n1, n1.cfg.peers, VoteRequest(n1, t)));
  }

  lemma CandidateLocal(n: Node)
    requires Local(n) && !n.role.Leader?
    ensures var n1 := Poll(BecomeCandidate(n), n.cfg.id, true).0; Local(n1) && n1.role.Candidate? && n1.term > 0
  {
    ResetLocal(n.(role := Follower), n.term + 1);
    PollLocal(BecomeCandidate(n), n.cfg.id, true);
  }

  lemma CampaignPrompt(n: Node, t: CampaignType)
    requires Local(n) && !n.role.Leader?
    ensures Prompt(Campaign(n, t))
  {
    hide Local, Prompt, RunForOffice, SendVotes, VoteRequest;
    if t.PreElection? {
      var (n1, granted) := Poll(BecomePreCandidate(n), n.cfg.id, true);
      PreLocal(n);
      RunPrompt(n1, Election);
      VotesKeepRole(n1, n1.cfg.peers, VoteRequest(n1, t));
      NotLeading(SendVotes(n1, n1.cfg.peers, VoteRequest(n1, t)));
    } else {
      RunPrompt(n, t);
    }
  }

  lemma PreLocal(n: Node)
    requires Local(n) && !n.role.Leader?
    ensures Local(Poll(BecomePreCandidate(n), n.cfg.id, true).0)
  {
    PollLocal(BecomePreCandidate(n), n.cfg.id, true);
  }

  lemma VoteRespPrompt(n: Node, m: Message)
    requires Local(n) && (n.role.Candidate? || n.role.PreCandidate?)
    ensures Prompt(HandleVoteResp(n, m))
  {
    hide Local, Prompt, Unmoved, BecomeLeader, BcastAppend, Campaign, Enrolled, Reset;
    var n1 := Poll(n, m.from, !m.reject).0;
    PollLocal(n, m.from, !m.reject);
    NotLeading(n1);
    NotLeading(BecomeFollower(n1, n1.term, NONE));
    CampaignPrompt(n1, Election);
    CandidateTerm(n1);
    if n1.role.Candidate? {
      OfficePrompt(n1);
      AllKeep(BecomeLeader(n1));
      UnmovedPrompt(BecomeLeader(n1), BcastAppend(BecomeLeader(n1), BecomeLeader(n1).cfg.peers));
    }
  }

  /** A node that neither leads nor is elected in the step. */
  lemma OthersPrompt(n: Node, m: Message)
    requires Local(n) && !n.role.Leader?
    ensures Prompt(RoleStep(n, m))
  {
    hide Local, Prompt, HandleVoteResp, Campaign, Reset, HandleHeartbeat, HandleAppendEntries;
    if n.role.Follower? {
      CampaignPrompt(n, Transfer);
      if !m.kind.MsgTimeoutNow? { FollowerStays(n, m); NotLeading(StepFollower(n, m)); }
    } else {
      VoteRespPrompt(n, m);
      CandidateStays(n, m);
    }
    NotLeading(n);
  }

  lemma FollowerStays(n: Node, m: Message)
    requires n.role.Follower? && !m.kind.MsgTimeoutNow?
    ensures StepFollower(n, m).role.Follower?
  {
    hide HandleAppendEntries, HandleHeartbeat, Send;
    AppendFrame(n.(electionElapsed := 0, lead := m.from), m);
    BeatFrame(n.(electionElapsed := 0, lead := m.from), m);
    SendFrame(n, m.(to := n.lead));
  }

  lemma BeatFrame(n: Node, m: Message)
    ensures HandleHeartbeat(n, m).role == n.role
  {
    hide CommitTo;
  }

  lemma CandidateStays(n: Node, m: Message)
    requires n.role.Candidate? || n.role.PreCandidate?
    ensures !(m.kind.MsgPreVoteResp? || m.kind.MsgVoteResp?) ==> Prompt(StepCandidate(n, m))
  {
    hide HandleAppendEntries, HandleHeartbeat, FreshPeers, HandleVoteResp;
    AppendFrame(BecomeFollower(n, m.term, m.from), m);
    BeatFrame(BecomeFollower(n, m.term, m.from), m);
  }

  // ---------------------------------------------------------------- every step, every run

  /** Every step keeps commitment prompt. */
  lemma StepPrompt(n: Node, m: Message)
    requires Local(n) && Prompt(n) && Foreign(n, m)
    ensures Prompt(Step(n, m))
  {
    hide Local, Prompt, Dispatch, NoteHigher, NoteLower;
    if m.term == 0 || m.term == n.term {
      DispatchPrompt(n, m);
    } else if m.term > n.term {
      HigherPrompt(n, m);
      NoteHigherLocal(n, m);
      HigherConfig(n, m);
      if NoteHigher(n, m).Go? { DispatchPrompt(NoteHigher(n, m).n, m); }
    } else {
      LowerKept(n, m);
      UnmovedPrompt(n, NoteLower(n, m));
    }
  }

  lemma LowerKept(n: Node, m: Message)
    ensures Unmoved(n, NoteLower(n, m))
  {
  }

  lemma HigherConfig(n: Node, m: Message)
    ensures NoteHigher(n, m).n.cfg == n.cfg
  {
    hide FreshPeers;
  }

  lemma HigherPrompt(n: Node, m: Message)
    requires Prompt(n)
    ensures Prompt(NoteHigher(n, m).n)
  {
    hide Prompt, Reset;
    NotLeading(BecomeFollower(n, m.term, m.from));
    NotLeading(BecomeFollower(n, m.term, NONE));
  }

  lemma DispatchPrompt(n: Node, m: Message)
    requires Local(n) && Prompt(n) && Foreign(n, m)
    ensures Prompt(Dispatch(n, m))
  {
    hide Local, Prompt, Unmoved, Campaign, HandleVote, RoleStep, NumConf;
    Cursors(n);
    VoteKept(n, m);
    UnmovedPrompt(n, HandleVote(n, m));
    if n.role.Leader? {
      RoleLeader(n, m);
    } else {
      OthersPrompt(n, m);
      CampaignPrompt(n, if n.cfg.preVote then PreElection else Election);
    }
  }

  lemma RoleLeader(n: Node, m: Message)
    requires Local(n) && Prompt(n) && n.role.Leader? && Foreign(n, m)
    ensures Prompt(RoleStep(n, m))
  {
    hide Local, Prompt, StepLeader;
    LeaderPrompt(n, m);
  }

  lemma VoteKept(n: Node, m: Message)
    ensures Unmoved(n, HandleVote(n, m))
  {
    hide IsUpToDate;
  }

  lemma ActPrompt(n: Node, a: C.Action)
    requires Local(n) && Prompt(n) && (a.Deliver? || a.Request? ==> Foreign(n, a.m))
    ensures Prompt(C.Act(n, a)) && Prompt(C.Act(n, a).(msgs := []))
  {
    hide Local, Prompt, Unmoved, Step, Reset;
    if a.Deliver? || a.Request? {
      StepPrompt(n, a.m);
    } else if a.Restart? {
      NotLeading(C.Act(n, a));
    } else {
      FieldsKept(n, C.Act(n, a));
      UnmovedPrompt(n, C.Act(n, a));
    }
    FieldsKept(C.Act(n, a), C.Act(n, a).(msgs := []));
    UnmovedPrompt(C.Act(n, a), C.Act(n, a).(msgs := []));
  }

  lemma NewPrompt(cfg: Config)
    ensures Prompt(NewNode(cfg))
  {
  }

  lemma ComesForeign(c: C.System, h: Hist, i: NodeId, a: C.Action)
    requires C.Inv(c, h) && i in c.nodes && C.Enabled(c, i, a) && (a.Deliver? || a.Request?)
    ensures Foreign(c.nodes[i], a.m)
  {
    hide HistInv, Local, NodeInv;
    assert C.NodeOK(h, i, c.nodes[i]);
    if a.Deliver? { assert MsgInv(h, a.m); }
  }

  lemma {:induction false} RunStaysPrompt(cs: seq<C.System>, hs: seq<Hist>, k: nat, i: NodeId)
    requires C.Run(cs) && C.Chronicle(cs, hs) && k < |cs| && i in cs[k].nodes
    ensures Prompt(cs[k].nodes[i])
    decreases k
  {
    hide C.Inv, C.Enabled, ReignsGrow, NewNode, Prompt, C.Act, C.Sent, Local, NodeInv;
    if k == 0 {
      assert cs[0].nodes[i] == NewNode(cs[0].nodes[i].cfg);
      NewPrompt(cs[0].nodes[i].cfg);
    } else {
      var c := cs[k - 1];
      assert C.Inv(c, hs[k - 1]);
      assert C.Linked(cs, k - 1);
      var j, x :| j in c.nodes && C.Enabled(c, j, x) && cs[k] == C.After(c, j, x);
      RunStaysPrompt(cs, hs, k - 1, i);
      if j == i {
        C.GoodNode(hs[k - 1], c, i);
        if x.Deliver? || x.Request? { ComesForeign(c, hs[k - 1], i, x); }
        ActPrompt(c.nodes[i], x);
      }
    }
  }

  lemma NobodyBeyond(n: Node, k: nat, b: nat)
    requires b < k && forall p {:trigger n.prs[p]} :: p in n.prs ==> n.prs[p].matched <= b
    ensures |Reached(n, k)| == 0
  {
    assert Reached(n, k) == {};
  }

  /** A majority that has k has a last index in common, at or beyond k. */
  lemma {:induction false} FrontierFrom(n: Node, k: nat, b: nat) returns (q: nat)
    requires Most(n.cfg, |Reached(n, k)|) && forall p {:trigger n.prs[p]} :: p in n.prs ==> n.prs[p].matched <= b
    ensures k <= q <= b && Frontier(n, q)
    decreases b + 1 - k
  {
    if k > b {
      NobodyBeyond(n, k, b);
      assert false;
    }
    q := k;
    if Most(n.cfg, |Reached(n, k + 1)|) { q := FrontierFrom(n, k + 1, b); }
  }

  /** In a log whose terms only rise, up to the leader's, all that follows an entry of its term is of it. */
  lemma MajorityCommitted(n: Node, k: nat)
    requires n.role.Leader? && Prompt(n) && Sorted(n.log) && TermsUpTo(n.log, n.term)
    requires forall p {:trigger n.prs[p]} :: p in n.prs ==> n.prs[p].matched <= |n.log|
    requires Most(n.cfg, |Reached(n, k)|) && OwnTerm(n, k)
    ensures k <= n.committed
  {
    hide Frontier, Reached, Most;
    var q := FrontierFrom(n, k, |n.log|);
    assert n.log[k - 1].term <= n.log[q - 1].term <= n.term;
    assert OwnTerm(n, q);
  }

  /** In every run, a leader has committed every entry of its own term that more than half of the voters
      are known to have. */
  lemma CommitsPromptly(cs: seq<C.System>, k: nat, i: NodeId, x: nat)
    requires C.Run(cs) && k < |cs| && i in cs[k].nodes && cs[k].nodes[i].role.Leader?
    requires Most(cs[k].nodes[i].cfg, |Reached(cs[k].nodes[i], x)|) && OwnTerm(cs[k].nodes[i], x)
    ensures x <= cs[k].nodes[i].committed
  {
    hide C.Run, C.Inv, HistInv, Prompt, Reached, Most, OwnTerm, ReignsGrow, CommitInv, Matches;
    var hs := C.Chronicled(cs);
    RunStaysPrompt(cs, hs, k, i);
    C.NodeFacts(cs[k], hs[k], i);
    RecordsWithin(cs[k], hs[k], i);
    MajorityCommitted(cs[k].nodes[i], x);
  }

  /** In every run, a leader counts itself for all of its log. */
  lemma CountsItself(cs: seq<C.System>, k: nat, i: NodeId)
    requires C.Run(cs) && k < |cs| && i in cs[k].nodes && cs[k].nodes[i].role.Leader?
    ensures var n := cs[k].nodes[i]; i in n.prs && n.prs[i].matched == |n.log|
  {
    hide C.Run, C.Inv, Prompt, ReignsGrow, Local;
    var hs := C.Chronicled(cs);
    RunStaysPrompt(cs, hs, k, i);
    LeaderSelf(cs[k].nodes[i]);
    C.RunNodes(cs, k, i);
  }

  lemma RecordsWithin(c: C.System, h: Hist, i: NodeId)
    requires C.Inv(c, h) && i in c.nodes && c.nodes[i].role.Leader?
    ensures forall p {:trigger c.nodes[i].prs[p]} :: p in c.nodes[i].prs ==> c.nodes[i].prs[p].matched <= |c.nodes[i].log|
  {
    hide C.Inv, HistInv, Local, NodeInv, MsgsInv, PrsOK, ConfigOK;
    var n := c.nodes[i];
    C.GoodNode(h, c, i);
    C.InvHist(c, h);
    LeaderParts(h, n);
    forall p {:trigger n.prs[p]} | p in n.prs
      ensures n.prs[p].matched <= |n.log|
    {
      AckWithin(h, p, n.term);
    }
  }

  lemma AckWithin(h: Hist, j: NodeId, t: nat)
    requires HistInv(h)
    ensures Ack(h, j, t) > 0 ==> t in h.reign && Ack(h, j, t) <= |h.reign[t].log|
  {
    assert AckOK(h, j, t);
  }

  // ---------------------------------------------------------------- one acceptance

  /** The leader once it has noted that a peer has its log up to i. */
  function Recorded(n: Node, from: NodeId, i: nat): Node
    requires from in n.prs
  {
    n.(prs := n.prs[from := n.prs[from].(matched := i)])
  }

  /** The exact effect of an acceptance on the commit index, of any leader: it is moved to the last index
      that more than half of the voters are now known to have if that is further on and an entry of the
      leader's term, and stays otherwise. */
  lemma AcceptanceCommits(n: Node, m: Message, k: nat)
    requires Local(n) && n.role.Leader? && m.kind.MsgAppResp? && !m.reject && m.term == n.term
    requires m.from in n.prs && n.prs[m.from].matched < m.index && Frontier(Recorded(n, m.from, m.index), k)
    ensures var n' := Step(n, m);
      && SameMatch(Recorded(n, m.from, m.index), n') && n'.log == n.log && n'.role.Leader? && n'.term == n.term
      && n'.committed == if n.committed < k && OwnTerm(n, k) then k else n.committed
  {
    hide Local, Enrolled, Frontier, OwnTerm, HandleAcceptance, SameMatch;
    LocalEnrolled(n);
    Cursors(n);
    var n0 := SetPr(n, m.from, Pr(n, m.from).(recentActive := true));
    SetEnrolled(n, n0);
    HeardRecorded(n, n0, m.from, m.index, k);
    SameTerms(n, n0, k);
    Accepts(n0, m, k);
    SameMatchTwice(Recorded(n, m.from, m.index), Recorded(n0, m.from, m.index), HandleAcceptance(n0, m));
  }

  lemma HeardRecorded(n: Node, n0: Node, from: NodeId, i: nat, k: nat)
    requires from in n.prs && n0 == SetPr(n, from, n.prs[from].(recentActive := true))
    ensures SameMatch(Recorded(n, from, i), Recorded(n0, from, i))
    ensures Frontier(Recorded(n, from, i), k) == Frontier(Recorded(n0, from, i), k)
  {
    hide Frontier;
    SameFrontier(Recorded(n, from, i), Recorded(n0, from, i), k);
  }

  lemma SameMatchTwice(a: Node, b: Node, c: Node)
    requires SameMatch(a, b) && SameMatch(b, c)
    ensures SameMatch(a, c)
  {
  }

  lemma Accepts(n: Node, m: Message, k: nat)
    requires Enrolled(n) && n.role.Leader? && n.term > 0 && n.committed <= |n.log|
    requires m.from in n.prs && n.prs[m.from].matched < m.index && Frontier(Recorded(n, m.from, m.index), k)
    ensures var n' := HandleAcceptance(n, m);
      && SameMatch(Recorded(n, m.from, m.index), n') && n'.log == n.log && n'.role.Leader? && n'.term == n.term
      && n'.committed == if n.committed < k && OwnTerm(n, k) then k else n.committed
  {
    hide Enrolled, Unmoved, MaybeCommit, Frontier, OwnTerm, AfterAck, SendLoop, FinishTransfer, IsPaused, FreeTo;
    var pr := MaybeUpdate(Pr(n, m.from), m.index).0;
    var n1 := SetPr(n, m.from, Advanced(pr, m.index));
    var r := Recorded(n, m.from, m.index);
    assert SameMatch(r, n1);
    SameFrontier(r, n1, k);
    SameTerms(n, n1, k);
    SetEnrolled(n, n1);
    CommitsFrontier(n1, k);
    var (n2, moved) := MaybeCommit(n1);
    SetEnrolled(n, n2);
    AckKeeps(n2, moved, IsPaused(Pr(n, m.from), n.cfg.maxInflight), m.from);
    UnmovedParts(n2, HandleAcceptance(n, m));
  }

  lemma SameTerms(n: Node, n': Node, k: nat)
    requires n'.log == n.log && n'.term == n.term
    ensures OwnTerm(n', k) == OwnTerm(n, k)
  {
  }

  lemma SetEnrolled(n: Node, n': Node)
    requires Enrolled(n) && n'.cfg == n.cfg && n'.prs.Keys == n.prs.Keys
    ensures Enrolled(n')
  {
  }

  lemma UnmovedParts(n: Node, n': Node)
    requires Unmoved(n, n')
    ensures SameMatch(n, n') && n'.log == n.log && n'.term == n.term && n'.committed == n.committed && n'.role == n.role
  {
  }

  /** An acceptance that gives more than half of the voters an entry of the leader's term commits it. */
  lemma MajorityAccepted(n: Node, m: Message, k: nat)
    requires Local(n) && n.role.Leader? && m.kind.MsgAppResp? && !m.reject && m.term == n.term
    requires m.from in n.prs && n.prs[m.from].matched < m.index <= |n.log|
    requires Sorted(n.log) && TermsUpTo(n.log, n.term)
    requires forall p {:trigger n.prs[p]} :: p in n.prs ==> n.prs[p].matched <= |n.log|
    requires Most(n.cfg, |Reached(Recorded(n, m.from, m.index), k)|) && OwnTerm(n, k)
    ensures k <= Step(n, m).committed
  {
    hide Local, Step, Most, Reached, Frontier;
    var q := FrontierFrom(Recorded(n, m.from, m.index), k, |n.log|);
    assert n.log[k - 1].term <= n.log[q - 1].term <= n.term;
    AcceptanceCommits(n, m, q);
  }

  // ---------------------------------------------------------------- who was heard from

  /** The same voters count as heard from. */
  ghost predicate SameHeard(n: Node, n': Node) {
    && n'.prs.Keys == n.prs.Keys
    && forall p {:trigger n'.prs[p]} :: p in n.prs ==> n'.prs[p].recentActive == n.prs[p].recentActive
  }

  lemma OnceHeard(n: Node, to: NodeId, e: bool)
    requires to in n.prs
    ensures SameHeard(n, MaybeSendAppend(n, to, e).0) && MaybeSendAppend(n, to, e).0.cfg == n.cfg
  {
    hide EntriesFrom, IsPaused, TermAt;
  }

  lemma {:induction false} BcastHeard(n: Node, ps: seq<NodeId>)
    requires forall i :: 0 <= i < |ps| ==> ps[i] in n.prs
    ensures SameHeard(n, BcastAppend(n, ps))
    decreases |ps|
  {
    hide MaybeSendAppend;
    if ps != [] {
      if ps[0] == n.cfg.id {
        BcastHeard(n, ps[1..]);
      } else {
        OnceHeard(n, ps[0], true);
        BcastHeard(SendAppend(n, ps[0]), ps[1..]);
      }
    }
  }

  lemma {:induction false} LoopHeard(n: Node, to: NodeId)
    requires to in n.prs
    ensures SameHeard(n, SendLoop(n, to))
    decreases SendBudget(n, to)
  {
    hide MaybeSendAppend;
    var (n', sent) := MaybeSendAppend(n, to, false);
    OnceHeard(n, to, false);
    if sent && SendBudget(n', to) < SendBudget(n, to) { LoopHeard(n', to); }
  }

  lemma AfterAckHeard(n: Node, moved: bool, wasPaused: bool, from: NodeId)
    requires Enrolled(n) && from in n.prs
    ensures SameHeard(n, AfterAck(n, moved, wasPaused, from))
  {
    hide BcastAppend, MaybeSendAppend;
    forall i | 0 <= i < |n.cfg.peers|
      ensures n.cfg.peers[i] in n.prs
    {
      assert n.cfg.peers[i] in Members(n.cfg.peers);
    }
    BcastHeard(n, n.cfg.peers);
    OnceHeard(n, from, true);
  }

  lemma HeardTwice(a: Node, b: Node, c: Node)
    requires SameHeard(a, b) && SameHeard(b, c)
    ensures SameHeard(a, c)
  {
  }

  lemma SetHeard(n: Node, p: NodeId, pr: Progress, n': Node)
    requires p in n.prs && pr.recentActive == n.prs[p].recentActive && n'.prs == n.prs[p := pr]
    ensures SameHeard(n, n') && n'.prs.Keys == n.prs.Keys
  {
  }

  /** After an answer that moves the record of a peer. */
  lemma AckHeard(n: Node, moved: bool, wasPaused: bool, from: NodeId)
    requires Enrolled(n) && from in n.prs
    ensures SameHeard(n, FinishTransfer(SendLoop(AfterAck(n, moved, wasPaused, from), from), from))
  {
    hide Enrolled, AfterAck, SendLoop, FinishTransfer, SameHeard;
    var n1 := AfterAck(n, moved, wasPaused, from);
    var n2 := SendLoop(n1, from);
    AfterAckHeard(n, moved, wasPaused, from);
    HeardKeys(n, n1);
    LoopHeard(n1, from);
    HeardTwice(n, n1, n2);
    FinishOnly(n2, from);
    HeardAlike(n2, FinishTransfer(n2, from));
    HeardTwice(n, n2, FinishTransfer(n2, from));
  }

  lemma HeardKeys(n: Node, n': Node)
    requires SameHeard(n, n')
    ensures n'.prs.Keys == n.prs.Keys
  {
  }

  lemma HeardAlike(n: Node, n': Node)
    requires n'.prs == n.prs
    ensures SameHeard(n, n')
  {
  }

  lemma AcceptanceHeard(n: Node, m: Message)
    requires Enrolled(n) && m.from in n.prs
    ensures SameHeard(n, HandleAcceptance(n, m))
  {
    hide Enrolled, MaybeCommit, AfterAck, SendLoop, FinishTransfer, IsPaused, FreeTo, SameHeard;
    var (pr, updated) := MaybeUpdate(Pr(n, m.from), m.index);
    if updated {
      var n0 := SetPr(n, m.from, Advanced(pr, m.index));
      var (n1, moved) := MaybeCommit(n0);
      CommitFrame(n0);
      SetHeard(n, m.from, Advanced(pr, m.index), n1);
      SetEnrolled(n, n1);
      AckHeard(n1, moved, IsPaused(Pr(n, m.from), n.cfg.maxInflight), m.from);
      HeardTwice(n, n1, HandleAcceptance(n, m));
    } else {
      SetHeard(n, m.from, pr, HandleAcceptance(n, m));
    }
  }

  lemma RejectionHeard(n: Node, m: Message)
    requires m.from in n.prs
    ensures SameHeard(n, HandleRejection(n, m))
  {
    hide MaybeSendAppend;
    var pr := MaybeDecrTo(Pr(n, m.from), m.index, m.rejectHint).0;
    OnceHeard(SetPr(n, m.from, if pr.state.Replicate? then BecomeProbe(pr) else pr), m.from, true);
  }

  /** Every answer to an append message, accepting or not, counts its sender as heard from, and nobody else. */
  lemma AnswerHeard(n: Node, m: Message)
    requires Local(n) && n.role.Leader? && m.kind.MsgAppResp? && m.term == n.term && m.from in n.prs
    ensures SameHeard(n.(prs := n.prs[m.from := n.prs[m.from].(recentActive := true)]), Step(n, m))
  {
    hide Local, Enrolled, HandleAcceptance, HandleRejection;
    LocalEnrolled(n);
    var n0 := SetPr(n, m.from, Pr(n, m.from).(recentActive := true));
    SetEnrolled(n, n0);
    AcceptanceHeard(n0, m);
    RejectionHeard(n0, m);
  }

  // ---------------------------------------------------------------- telling the others

  lemma {:induction false} LoopOnly(n: Node, to: NodeId)
    ensures var n' := SendLoop(n, to);
      n' == n.(prs := n'.prs, msgs := n'.msgs, panicked := n'.panicked) && n.msgs <= n'.msgs
    decreases SendBudget(n, to)
  {
    hide MaybeSendAppend;
    var (n', sent) := MaybeSendAppend(n, to, false);
    OnceOnly(n, to);
    if sent && SendBudget(n', to) < SendBudget(n, to) { LoopOnly(n', to); }
  }

  lemma OnceOnly(n: Node, to: NodeId)
    ensures var n' := MaybeSendAppend(n, to, false).0;
      n' == n.(prs := n'.prs, msgs := n'.msgs, panicked := n'.panicked) && n.msgs <= n'.msgs
  {
    hide EntriesFrom, IsPaused, TermAt, ProgressSent;
  }

  lemma FinishOnly(n: Node, from: NodeId)
    ensures var n' := FinishTransfer(n, from); n' == n.(msgs := n'.msgs, panicked := n'.panicked) && n.msgs <= n'.msgs
  {
  }

  lemma ToldStill(n: Node, n1: Node, n': Node, m: Message)
    requires Told(n, n1, m) && n1.msgs <= n'.msgs
    ensures Told(n, n', m)
  {
    assert n1.msgs[|n.msgs|..] <= n'.msgs[|n.msgs|..];
  }

  /** An acceptance that moves the commit index is followed by a message with the new one to every other
      voter that is not waiting. */
  lemma CommitAnnounced(n: Node, m: Message, k: nat, p: NodeId)
    requires Local(n) && n.role.Leader? && m.kind.MsgAppResp? && !m.reject && m.term == n.term
    requires m.from in n.prs && n.prs[m.from].matched < m.index && Frontier(Recorded(n, m.from, m.index), k)
    requires n.committed < k && OwnTerm(n, k)
    requires p in n.prs && p !in {m.from, n.cfg.id} && 1 <= n.prs[p].next <= |n.log| + 1 && !Waiting(n, p)
    ensures Told(n, Step(n, m), Offer(n.(committed := k), p))
  {
    hide Local, Enrolled, Frontier, OwnTerm, HandleAcceptance, Told, Offer, SameMatch;
    LocalEnrolled(n);
    Cursors(n);
    var n0 := SetPr(n, m.from, Pr(n, m.from).(recentActive := true));
    SetEnrolled(n, n0);
    HeardRecorded(n, n0, m.from, m.index, k);
    SameTerms(n, n0, k);
    Announces(n0, m, k, p);
    SameOffer(n.(committed := k), n0.(committed := k), p);
    ToldFrom(n, n0, HandleAcceptance(n0, m), Offer(n.(committed := k), p));
  }

  lemma ToldFrom(n: Node, n0: Node, n': Node, m: Message)
    requires n0.msgs == n.msgs && Told(n0, n', m)
    ensures Told(n, n', m)
  {
  }

  lemma Announces(n: Node, m: Message, k: nat, p: NodeId)
    requires Enrolled(n) && n.term > 0 && n.committed < k && n.committed <= |n.log| && OwnTerm(n, k)
    requires m.from in n.prs && n.prs[m.from].matched < m.index && Frontier(Recorded(n, m.from, m.index), k)
    requires p in n.prs && p !in {m.from, n.cfg.id} && 1 <= n.prs[p].next <= |n.log| + 1 && !Waiting(n, p)
    ensures Told(n, HandleAcceptance(n, m), Offer(n.(committed := k), p))
  {
    hide Enrolled, MaybeCommit, Frontier, OwnTerm, SendLoop, FinishTransfer, IsPaused, FreeTo, Told, Offer, BcastAppend;
    var pr := MaybeUpdate(Pr(n, m.from), m.index).0;
    var n1 := SetPr(n, m.from, Advanced(pr, m.index));
    SameFrontier(Recorded(n, m.from, m.index), n1, k);
    SameTerms(n, n1, k);
    SetEnrolled(n, n1);
    CommitsFrontier(n1, k);
    var n2 := n1.(committed := k);
    EnrolledPeer(n, p);
    StillNotWaiting(n, n2, p);
    BcastTells(n2, n.cfg.peers, p);
    SameOffer(n.(committed := k), n2, p);
    var n3 := BcastAppend(n2, n.cfg.peers);
    ToldFrom(n, n2, n3, Offer(n2, p));
    LoopOnly(n3, m.from);
    var n4 := SendLoop(n3, m.from);
    FinishOnly(n4, m.from);
    ToldStill(n, n3, n4, Offer(n2, p));
    ToldStill(n, n4, FinishTransfer(n4, m.from), Offer(n2, p));
  }

  lemma EnrolledPeer(n: Node, p: NodeId)
    requires Enrolled(n) && p in n.prs
    ensures p in n.cfg.peers
  {
    assert p in Members(n.cfg.peers);
  }

  // ---------------------------------------------------------------- handing over

  /** The acceptance that completes the log of the transferee makes the leader tell it to campaign, once;
      no other does. */
  lemma TransferFinished(n: Node, m: Message)
    requires Local(n) && n.role.Leader? && m.kind.MsgAppResp? && !m.reject && m.term == n.term
    requires m.from in n.prs && n.prs[m.from].matched < m.index
    ensures OfKind(Step(n, m).msgs, MsgTimeoutNow) == OfKind(n.msgs, MsgTimeoutNow) +
      if m.from == n.leadTransferee && m.index == |n.log|
      then [Message(MsgTimeoutNow, m.from, n.cfg.id, n.term, 0, 0, [], 0, false, 0, "")] else []
  {
    hide Local, Enrolled, HandleAcceptance, OfKind;
    LocalEnrolled(n);
    var n0 := SetPr(n, m.from, Pr(n, m.from).(recentActive := true));
    SetEnrolled(n, n0);
    Finishes(n0, m);
  }

  lemma Finishes(n: Node, m: Message)
    requires Enrolled(n) && m.from in n.prs && n.prs[m.from].matched < m.index
    ensures OfKind(HandleAcceptance(n, m).msgs, MsgTimeoutNow) == OfKind(n.msgs, MsgTimeoutNow) +
      if m.from == n.leadTransferee && m.index == |n.log|
      then [Message(MsgTimeoutNow, m.from, n.cfg.id, n.term, 0, 0, [], 0, false, 0, "")] else []
  {
    hide Enrolled, Unmoved, MaybeCommit, AfterAck, SendLoop, IsPaused, FreeTo, OfKind;
    var pr := MaybeUpdate(Pr(n, m.from), m.index).0;
    var n1 := SetPr(n, m.from, Advanced(pr, m.index));
    var (n2, moved) := MaybeCommit(n1);
    CommitFrame(n1);
    SetEnrolled(n, n2);
    var n3 := AfterAck(n2, moved, IsPaused(Pr(n, m.from), n.cfg.maxInflight), m.from);
    AckKinds(n2, moved, IsPaused(Pr(n, m.from), n.cfg.maxInflight), m.from);
    AfterAckKeeps(n2, moved, IsPaused(Pr(n, m.from), n.cfg.maxInflight), m.from);
    UnmovedKeys(n2, n3);
    LoopKinds(n3, m.from, MsgTimeoutNow);
    LoopKeeps(n3, m.from);
    var n4 := SendLoop(n3, m.from);
    UnmovedTwice(n2, n3, n4);
    UnmovedParts(n2, n4);
    assert n4.prs[m.from].matched == m.index;
    KindOne(n4.msgs, Message(MsgTimeoutNow, m.from, n.cfg.id, n.term, 0, 0, [], 0, false, 0, ""), MsgTimeoutNow);
  }

  lemma AckKinds(n: Node, moved: bool, wasPaused: bool, from: NodeId)
    ensures var n' := AfterAck(n, moved, wasPaused, from);
      && n'.cfg == n.cfg && n'.term == n.term && n'.leadTransferee == n.leadTransferee
      && OfKind(n'.msgs, MsgTimeoutNow) == OfKind(n.msgs, MsgTimeoutNow)
  {
    hide BcastAppend, MaybeSendAppend, OfKind;
    BcastKinds(n, n.cfg.peers, MsgTimeoutNow);
    AppendKinds(n, from, true, MsgTimeoutNow);
  }
}
