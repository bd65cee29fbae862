/** What a step leaves alone: its configuration always, and its commit index never goes back; and,
    unless it deals with a heartbeat or a read request, its read states, its read queue and the
    messages that reads depend on. */
module Frames {
  import opened Types
  import opened Logs
  import opened Progresses
  import opened ReadQueues
  import opened Commitment
  import opened Nodes
  import opened NodeLocal

  /** The kinds of message that carry read contexts between nodes. */
  predicate Loud(k: MsgType) {
    k.MsgHeartbeat? || k.MsgHeartbeatResp? || k.MsgReadIndexResp? || k.MsgReadIndex?
  }

  /** Only messages that do not concern reads were added. */
  ghost predicate QuietMsgs(ms: seq<Message>, ms': seq<Message>) {
    ms <= ms' && forall i :: |ms| <= i < |ms'| ==> !Loud(ms'[i].kind)
  }

  /** The read queue is untouched, or the node left office and forgot it. */
  ghost predicate QuietQueue(n: Node, n': Node) {
    n'.readOnly == EmptyQueue() ||
    (n'.readOnly == n.readOnly && n'.term == n.term && (n'.role.Leader? <==> n.role.Leader?))
  }

  /** The log of a leader ends with an entry of its term, and a leader without peers has committed all
      it has. */
  ghost predicate Seated(n: Node) {
    n.role.Leader? ==> OwnLast(n) && (|n.cfg.peers| == 1 ==> n.committed == |n.log|)
  }

  predicate OwnLast(n: Node) {
    n.log != [] && n.log[|n.log| - 1].term == n.term
  }

  ghost predicate Still(n: Node, n': Node) {
    && n'.cfg == n.cfg && n'.readStates == n.readStates && QuietMsgs(n.msgs, n'.msgs) && QuietQueue(n, n')
    && n.committed <= n'.committed
  }

  ghost predicate Quiet(n: Node, n': Node) {
    Still(n, n') && (Seated(n) ==> Seated(n'))
  }

  /** What every node of a run satisfies: it is a voter, has its committed entries, and as leader
      knows no more of itself than it has. */
  ghost predicate Fit(n: Node) {
    && n.committed <= |n.log| && n.cfg.id in n.cfg.peers
    && (n.role.Leader? ==> n.cfg.id in n.prs && n.prs[n.cfg.id].matched <= |n.log|)
  }

  lemma StillTrans(n: Node, n1: Node, n2: Node)
    requires Still(n, n1) && Still(n1, n2)
    ensures Still(n, n2)
  {
  }

  lemma QuietTrans(n: Node, n1: Node, n2: Node)
    requires Quiet(n, n1) && Quiet(n1, n2)
    ensures Quiet(n, n2)
  {
  }

  lemma SendQuiet(n: Node, m: Message)
    requires !Loud(m.kind)
    ensures Quiet(n, Send(n, m))
  {
  }

  lemma MaybeSendAppendQuiet(n: Node, to: NodeId, sendIfEmpty: bool)
    ensures Quiet(n, MaybeSendAppend(n, to, sendIfEmpty).0)
  {
    hide EntriesFrom, ProgressSent;
    SendQuiet(SetPr(n, to, ProgressSent(Pr(n, to), AppendMsg(n, to).entries)), AppendMsg(n, to));
  }

  lemma {:induction false} SendLoopQuiet(n: Node, to: NodeId)
    ensures Quiet(n, SendLoop(n, to))
    decreases SendBudget(n, to)
  {
    hide Quiet, MaybeSendAppend;
    MaybeSendAppendQuiet(n, to, false);
    var (n', sent) := MaybeSendAppend(n, to, false);
    PanicQuiet(n, n');
    if sent && SendBudget(n', to) < SendBudget(n, to) {
      SendLoopQuiet(n', to);
      QuietTrans(n, n', SendLoop(n', to));
    }
  }

  lemma PanicQuiet(n: Node, n': Node)
    requires Quiet(n, n')
    ensures Quiet(n, Panic(n'))
  {
  }

  lemma {:induction false} BcastAppendQuiet(n: Node, ps: seq<NodeId>)
    ensures Quiet(n, BcastAppend(n, ps))
    decreases |ps|
  {
    if ps == [] {
    } else if ps[0] == n.cfg.id {
      BcastAppendQuiet(n, ps[1..]);
    } else {
      hide Quiet, MaybeSendAppend;
      MaybeSendAppendQuiet(n, ps[0], true);
      BcastAppendQuiet(SendAppend(n, ps[0]), ps[1..]);
      QuietTrans(n, SendAppend(n, ps[0]), BcastAppend(n, ps));
    }
  }

  lemma {:induction false} SendVotesQuiet(n: Node, ps: seq<NodeId>, m: Message)
    requires !Loud(m.kind)
    ensures Quiet(n, SendVotes(n, ps, m))
    decreases |ps|
  {
    if ps == [] {
    } else if ps[0] == n.cfg.id {
      SendVotesQuiet(n, ps[1..], m);
    } else {
      hide Quiet, Send;
      SendQuiet(n, m.(to := ps[0]));
      SendVotesQuiet(Send(n, m.(to := ps[0])), ps[1..], m);
      QuietTrans(n, Send(n, m.(to := ps[0])), SendVotes(n, ps, m));
    }
  }

  lemma MaybeCommitQuiet(n: Node)
    ensures Quiet(n, MaybeCommit(n).0)
  {
  }

  lemma AppendEntryStill(n: Node, es: seq<Entry>)
    ensures Still(n, AppendEntry(n, es))
  {
    hide MaybeCommit, Stamp, AppendTo;
    var (log, p) := AppendTo(n.log, n.committed, Stamp(n, es));
    var n1 := (if p then Panic(n) else n).(log := log);
    var n2 := SetPr(n1, n.cfg.id, MaybeUpdate(Pr(n1, n.cfg.id), |log|).0);
    MaybeCommitQuiet(n2);
    StillTrans(n, n2, MaybeCommit(n2).0);
  }

  /** What a leader appends is of its term, and a lone voter commits it at once. */
  lemma AppendEntryLone(n: Node, es: seq<Entry>)
    requires n.committed <= |n.log| && n.cfg.id in n.cfg.peers && n.cfg.id in n.prs && n.prs[n.cfg.id].matched <= |n.log|
    requires es != [] || Seated(n)
    ensures Seated(AppendEntry(n, es))
  {
    hide MaybeCommit, AppendEntry;
    AppendEntryFrame(n, es);
    GrownLast(n, es);
    if |n.cfg.peers| == 1 {
      assert n.cfg.peers == [n.cfg.id];
      LoneCommits(Grown(n, es), es == []);
    } else {
      MaybeCommitLast(Grown(n, es));
    }
  }

  lemma GrownLast(n: Node, es: seq<Entry>)
    requires es != [] || Seated(n)
    ensures n.role.Leader? ==> OwnLast(Grown(n, es))
    ensures es == [] ==> Grown(n, es).log == n.log
  {
    if es == [] { assert n.log + Stamp(n, es) == n.log; }
  }

  lemma MaybeCommitLast(n: Node)
    ensures var n' := MaybeCommit(n).0; n'.log == n.log && n'.term == n.term && n'.cfg == n.cfg && n'.role == n.role
  {
  }

  lemma LoneCommits(n: Node, nothing: bool)
    requires n.cfg.peers == [n.cfg.id] && n.cfg.id in n.prs && n.prs[n.cfg.id].matched == |n.log| && n.committed <= |n.log|
    requires n.role.Leader? ==> OwnLast(n)
    requires if nothing then Seated(n) else OwnLast(n)
    ensures Seated(MaybeCommit(n).0)
  {
    var ms := MatchIndexes(n);
    assert ms == [|n.log|];
    assert SortDescending(ms[1..]) == [];
    assert SortDescending(ms) == [|n.log|];
  }

  lemma BecomeLeaderQuiet(n: Node)
    requires n.committed <= |n.log| && n.cfg.id in n.cfg.peers
    ensures Quiet(n, BecomeLeader(n))
  {
    hide AppendEntry;
    var r := Reset(n, n.term).(lead := n.cfg.id, role := Leader, pendingConfIndex := LastIndex(n));
    AppendEntryStill(r, [Entry(0, 0, EntryNormal, "")]);
    StillTrans(n, r, AppendEntry(r, [Entry(0, 0, EntryNormal, "")]));
    AppendEntryLone(r, [Entry(0, 0, EntryNormal, "")]);
  }

  lemma RunForOfficeQuiet(n: Node, t: CampaignType)
    requires !t.PreElection? && n.committed <= |n.log| && n.cfg.id in n.cfg.peers
    ensures Quiet(n, RunForOffice(n, t))
  {
    hide BecomeLeader, SendVotes, Granted;
    var (n1, granted) := Poll(BecomeCandidate(n), n.cfg.id, true);
    BecomeLeaderQuiet(n1);
    SendVotesQuiet(n1, n1.cfg.peers, VoteRequest(n1, t));
    QuietTrans(n, n1, RunForOffice(n, t));
  }

  lemma CampaignQuiet(n: Node, t: CampaignType)
    requires n.committed <= |n.log| && n.cfg.id in n.cfg.peers
    ensures Quiet(n, Campaign(n, t))
  {
    hide RunForOffice, SendVotes, Granted;
    if t.PreElection? {
      var (n1, granted) := Poll(BecomePreCandidate(n), n.cfg.id, true);
      RunForOfficeQuiet(n1, Election);
      SendVotesQuiet(n1, n1.cfg.peers, VoteRequest(n1, t));
      QuietTrans(n, n1, Campaign(n, t));
    } else {
      RunForOfficeQuiet(n, t);
    }
  }

  lemma CommitNeverBack(log: Log, committed: nat, index: nat, logTerm: nat, commit: nat, ents: seq<Entry>)
    ensures MaybeAppend(log, committed, index, logTerm, commit, ents).committed >= committed
  {
    hide FindConflict, AppendTo;
  }

  lemma HandleAppendEntriesQuiet(n: Node, m: Message)
    requires !n.role.Leader?
    ensures Quiet(n, HandleAppendEntries(n, m))
  {
    hide MaybeAppend, Send, Quiet;
    SendQuiet(n, Blank(MsgAppResp, m.from).(index := n.committed));
    var r := MaybeAppend(n.log, n.committed, m.index, m.logTerm, m.commit, m.entries);
    var n1 := (if r.panic then Panic(n) else n).(log := r.log, committed := r.committed);
    CommitNeverBack(n.log, n.committed, m.index, m.logTerm, m.commit, m.entries);
    WrittenQuiet(n, r.log, r.committed, r.panic);
    var m1 := if r.ok then Blank(MsgAppResp, m.from).(index := r.last)
              else Blank(MsgAppResp, m.from).(index := m.index, reject := true, rejectHint := LastIndex(n));
    SendQuiet(n1, m1);
    QuietTrans(n, n1, Send(n1, m1));
  }

  lemma WrittenQuiet(n: Node, log: Log, committed: nat, panic: bool)
    requires !n.role.Leader? && n.committed <= committed
    ensures Quiet(n, (if panic then Panic(n) else n).(log := log, committed := committed))
  {
  }

  lemma StepFollowerQuiet(n: Node, m: Message)
    requires !Loud(m.kind) && n.role.Follower? && Fit(n)
    ensures Quiet(n, StepFollower(n, m))
  {
    hide Quiet, Send, HandleAppendEntries, HandleHeartbeat, Campaign;
    QuietRefl(n);
    match m.kind
    case MsgProp => SendQuiet(n, m.(to := n.lead));
    case MsgTransferLeader => SendQuiet(n, m.(to := n.lead));
    case MsgApp =>
      var n1 := n.(electionElapsed := 0, lead := m.from);
      LeadQuiet(n, m.from);
      HandleAppendEntriesQuiet(n1, m);
      QuietTrans(n, n1, HandleAppendEntries(n1, m));
    case MsgTimeoutNow => CampaignQuiet(n, Transfer);
    case MsgSnap => PanicQuiet(n, n);
    case _ =>
  }

  lemma LeadQuiet(n: Node, lead: NodeId)
    ensures Quiet(n, n.(electionElapsed := 0, lead := lead))
  {
  }

  lemma HandleVoteRespQuiet(n: Node, m: Message)
    requires Fit(n)
    ensures Quiet(n, HandleVoteResp(n, m))
  {
    hide Campaign, BecomeLeader, BcastAppend, Granted;
    var (n1, granted) := Poll(n, m.from, !m.reject);
    if Quorum(n1) == granted {
      if n1.role.PreCandidate? {
        CampaignQuiet(n1, Election);
        QuietTrans(n, n1, Campaign(n1, Election));
      } else {
        BecomeLeaderQuiet(n1);
        var n2 := BecomeLeader(n1);
        BcastAppendQuiet(n2, n2.cfg.peers);
        QuietTrans(n1, n2, BcastAppend(n2, n2.cfg.peers));
        QuietTrans(n, n1, BcastAppend(n2, n2.cfg.peers));
      }
    }
  }

  lemma FollowerFit(n: Node, term: nat, lead: NodeId)
    requires n.committed <= |n.log| && n.cfg.id in n.cfg.peers
    ensures Fit(BecomeFollower(n, term, lead)) && BecomeFollower(n, term, lead).role.Follower?
  {
  }

  lemma BecomeFollowerQuiet(n: Node, term: nat, lead: NodeId)
    ensures Quiet(n, BecomeFollower(n, term, lead))
  {
  }

  lemma StepCandidateQuiet(n: Node, m: Message)
    requires !Loud(m.kind) && Fit(n)
    ensures Quiet(n, StepCandidate(n, m))
  {
    hide Quiet, BecomeFollower, HandleAppendEntries, HandleHeartbeat, HandleVoteResp;
    QuietRefl(n);
    match m.kind
    case MsgApp =>
      var n1 := BecomeFollower(n, m.term, m.from);
      BecomeFollowerQuiet(n, m.term, m.from);
      FollowerFit(n, m.term, m.from);
      HandleAppendEntriesQuiet(n1, m);
      QuietTrans(n, n1, HandleAppendEntries(n1, m));
    case MsgSnap => PanicQuiet(n, n);
    case MsgPreVoteResp => HandleVoteRespQuiet(n, m);
    case MsgVoteResp => HandleVoteRespQuiet(n, m);
    case _ =>
  }

  lemma QuietCfg(n: Node, n': Node)
    requires Quiet(n, n')
    ensures n'.cfg == n.cfg && n.msgs <= n'.msgs
  {
  }

  lemma QuietRefl(n: Node)
    ensures Quiet(n, n)
  {
  }

  lemma ProposeQuiet(n: Node, m: Message)
    requires Fit(n) && n.role.Leader?
    ensures Quiet(n, Propose(n, m))
  {
    hide AppendEntry, BcastAppend, FilterConf;
    if m.entries != [] && !LeaderDrops(n) {
      var (es, pending) := FilterConf(m.entries, n.pendingConfIndex, n.applied, LastIndex(n) + 1);
      var n0 := n.(pendingConfIndex := pending);
      FilterLength(m.entries, n.pendingConfIndex, n.applied, LastIndex(n) + 1);
      AppendEntryStill(n0, es);
      AppendEntryLone(n0, es);
      var n1 := AppendEntry(n0, es);
      BcastAppendQuiet(n1, n1.cfg.peers);
      QuietTrans(n0, n1, BcastAppend(n1, n1.cfg.peers));
      QuietTrans(n, n0, BcastAppend(n1, n1.cfg.peers));
    }
  }

  lemma FilterLength(es: seq<Entry>, pending: nat, applied: nat, next: nat)
    ensures es != [] ==> FilterConf(es, pending, applied, next).0 != []
  {
  }

  lemma SetPrQuiet(n: Node, p: NodeId, pr: Progress)
    ensures Quiet(n, SetPr(n, p, pr))
  {
  }

  lemma HandleRejectionQuiet(n: Node, m: Message)
    ensures Quiet(n, HandleRejection(n, m))
  {
    hide Quiet, MaybeSendAppend, MaybeDecrTo, SetPr;
    var (pr, changed) := MaybeDecrTo(Pr(n, m.from), m.index, m.rejectHint);
    var pr1 := if changed && pr.state.Replicate? then BecomeProbe(pr) else pr;
    SetPrQuiet(n, m.from, pr1);
    if changed {
      var n1 := SetPr(n, m.from, pr1);
      MaybeSendAppendQuiet(n1, m.from, true);
      QuietTrans(n, n1, SendAppend(n1, m.from));
    }
  }

  lemma AfterAckQuiet(n: Node, moved: bool, wasPaused: bool, from: NodeId)
    ensures Quiet(n, AfterAck(n, moved, wasPaused, from))
  {
    hide Quiet, BcastAppend, MaybeSendAppend;
    QuietRefl(n);
    BcastAppendQuiet(n, n.cfg.peers);
    MaybeSendAppendQuiet(n, from, true);
  }

  lemma FinishTransferQuiet(n: Node, from: NodeId)
    ensures Quiet(n, FinishTransfer(n, from))
  {
  }

  lemma HandleAcceptanceQuiet(n: Node, m: Message)
    ensures Quiet(n, HandleAcceptance(n, m))
  {
    hide Quiet, MaybeCommit, AfterAck, SendLoop, FinishTransfer, MaybeUpdate, Advanced, SetPr;
    var (pr, updated) := MaybeUpdate(Pr(n, m.from), m.index);
    SetPrQuiet(n, m.from, pr);
    if updated {
      var n0 := SetPr(n, m.from, Advanced(pr, m.index));
      SetPrQuiet(n, m.from, Advanced(pr, m.index));
      MaybeCommitQuiet(n0);
      var (n1, moved) := MaybeCommit(n0);
      QuietTrans(n, n0, n1);
      var n2 := AfterAck(n1, moved, IsPaused(Pr(n, m.from), n.cfg.maxInflight), m.from);
      AfterAckQuiet(n1, moved, IsPaused(Pr(n, m.from), n.cfg.maxInflight), m.from);
      QuietTrans(n, n1, n2);
      SendLoopQuiet(n2, m.from);
      QuietTrans(n, n2, SendLoop(n2, m.from));
      FinishTransferQuiet(SendLoop(n2, m.from), m.from);
      QuietTrans(n, SendLoop(n2, m.from), FinishTransfer(SendLoop(n2, m.from), m.from));
    }
  }

  lemma HandleAppRespQuiet(n: Node, m: Message)
    ensures Quiet(n, HandleAppResp(n, m))
  {
    hide Quiet, HandleRejection, HandleAcceptance, SetPr;
    var n1 := SetPr(n, m.from, Pr(n, m.from).(recentActive := true));
    SetPrQuiet(n, m.from, Pr(n, m.from).(recentActive := true));
    HandleRejectionQuiet(n1, m);
    HandleAcceptanceQuiet(n1, m);
    QuietTrans(n, n1, HandleAppResp(n, m));
  }

  lemma HandleTransferQuiet(n: Node, m: Message)
    ensures Quiet(n, HandleTransfer(n, m))
  {
    hide MaybeSendAppend;
    var n2 := n.(electionElapsed := 0, leadTransferee := m.from);
    MaybeSendAppendQuiet(n2, m.from, true);
  }

  lemma StepLeaderPeerQuiet(n: Node, m: Message)
    requires !Loud(m.kind)
    ensures Quiet(n, StepLeaderPeer(n, m))
  {
    hide HandleAppResp, HandleHeartbeatResp, HandleTransfer;
    match m.kind
    case MsgAppResp => HandleAppRespQuiet(n, m);
    case MsgTransferLeader => HandleTransferQuiet(n, m);
    case _ =>
  }

  lemma StepLeaderQuiet(n: Node, m: Message)
    requires !Loud(m.kind) && !m.kind.MsgBeat? && Fit(n) && n.role.Leader?
    ensures Quiet(n, StepLeader(n, m))
  {
    hide Propose, StepLeaderPeer, ReadIndexReq, BcastHeartbeat, Rested, Active;
    match m.kind
    case MsgProp => ProposeQuiet(n, m);
    case MsgBeat =>
    case MsgReadIndex =>
    case MsgCheckQuorum =>
    case _ => if m.from in n.prs { StepLeaderPeerQuiet(n, m); }
  }

  lemma RoleStepQuiet(n: Node, m: Message)
    requires !Loud(m.kind) && (n.role.Leader? ==> !m.kind.MsgBeat?) && Fit(n)
    ensures Quiet(n, RoleStep(n, m))
  {
    hide Quiet, StepLeader, StepFollower, StepCandidate;
    match n.role
    case Leader => StepLeaderQuiet(n, m);
    case Follower => StepFollowerQuiet(n, m);
    case Candidate => StepCandidateQuiet(n, m);
    case PreCandidate => StepCandidateQuiet(n, m);
  }

  lemma HandleVoteQuiet(n: Node, m: Message)
    ensures Quiet(n, HandleVote(n, m))
  {
    hide IsUpToDate, Send, Quiet;
    var resp := Blank(if m.kind.MsgVote? then MsgVoteResp else MsgPreVoteResp, m.from);
    SendQuiet(n, resp.(term := m.term));
    SendQuiet(n, resp.(term := n.term, reject := true));
    VotedQuiet(n, Send(n, resp.(term := m.term)), m.from);
  }

  lemma VotedQuiet(n: Node, n': Node, vote: NodeId)
    requires Quiet(n, n')
    ensures Quiet(n, n'.(electionElapsed := 0, vote := vote))
  {
  }

  lemma DispatchQuiet(n: Node, m: Message)
    requires !Loud(m.kind) && (n.role.Leader? ==> !m.kind.MsgBeat?) && Fit(n)
    ensures Quiet(n, Dispatch(n, m))
  {
    hide HandleVote, RoleStep, Campaign, NumConf;
    match m.kind
    case MsgHup => CampaignQuiet(n, if n.cfg.preVote then PreElection else Election);
    case MsgVote => HandleVoteQuiet(n, m);
    case MsgPreVote => HandleVoteQuiet(n, m);
    case _ => RoleStepQuiet(n, m);
  }

  lemma NoteTermQuiet(n: Node, m: Message)
    ensures Quiet(n, NoteTerm(n, m).n)
  {
    hide Quiet, Send, BecomeFollower;
    QuietRefl(n);
    BecomeFollowerQuiet(n, m.term, m.from);
    BecomeFollowerQuiet(n, m.term, NONE);
    SendQuiet(n, Blank(MsgAppResp, m.from));
    SendQuiet(n, Blank(MsgPreVoteResp, m.from).(term := n.term, reject := true));
  }

  // ---------------------------------------------------------------- every step

  /** No read was sent on to another node. */
  ghost predicate NothingForwarded(n: Node, n': Node) {
    n.msgs <= n'.msgs && forall i :: |n.msgs| <= i < |n'.msgs| ==> !n'.msgs[i].kind.MsgReadIndex?
  }

  /** What all steps but those that take a read request leave alone. */
  ghost predicate Steady(n: Node, n': Node) {
    && n'.cfg == n.cfg && n.committed <= n'.committed && (Seated(n) ==> Seated(n'))
    && NothingForwarded(n, n') && n'.readOnly.pending.Keys <= n.readOnly.pending.Keys
  }

  lemma SteadyTrans(n: Node, n1: Node, n2: Node)
    requires Steady(n, n1) && Steady(n1, n2)
    ensures Steady(n, n2)
  {
  }

  lemma QuietSteady(n: Node, n': Node)
    requires Quiet(n, n')
    ensures Steady(n, n')
  {
  }

  lemma SendSteady(n: Node, m: Message)
    requires !m.kind.MsgReadIndex?
    ensures Steady(n, Send(n, m))
  {
  }

  lemma {:induction false} BcastHeartbeatSteady(n: Node, ps: seq<NodeId>, ctx: string)
    ensures Steady(n, BcastHeartbeat(n, ps, ctx))
    decreases |ps|
  {
    if ps == [] {
    } else if ps[0] == n.cfg.id {
      BcastHeartbeatSteady(n, ps[1..], ctx);
    } else {
      hide Steady, Send;
      var m := Blank(MsgHeartbeat, ps[0]).(commit := Min(Pr(n, ps[0]).matched, n.committed), context := ctx);
      SendSteady(n, m);
      BcastHeartbeatSteady(Send(n, m), ps[1..], ctx);
      SteadyTrans(n, Send(n, m), BcastHeartbeat(n, ps, ctx));
    }
  }

  lemma ReadStateSteady(n: Node, rs: seq<ReadState>, q: ReadQueue)
    requires q.pending.Keys <= n.readOnly.pending.Keys
    ensures Steady(n, n.(readStates := rs, readOnly := q))
  {
  }

  lemma {:induction false} ReleaseSteady(n: Node, rss: seq<ReadStatus>)
    ensures Steady(n, Release(n, rss))
    decreases |rss|
  {
    if rss != [] {
      hide Steady, Send;
      var rs := rss[0];
      if rs.req.from == NONE || rs.req.from == n.cfg.id {
        var n1 := n.(readStates := n.readStates + [ReadState(rs.index, Ctx(rs.req))]);
        ReadStateSteady(n, n1.readStates, n.readOnly);
        ReleaseSteady(n1, rss[1..]);
        SteadyTrans(n, n1, Release(n1, rss[1..]));
      } else {
        var m := Blank(MsgReadIndexResp, rs.req.from).(index := rs.index, entries := rs.req.entries);
        SendSteady(n, m);
        ReleaseSteady(Send(n, m), rss[1..]);
        SteadyTrans(n, Send(n, m), Release(Send(n, m), rss[1..]));
      }
    }
  }

  lemma PanicSteady(n: Node, n': Node)
    requires Steady(n, n')
    ensures Steady(n, Panic(n'))
  {
  }

  lemma AckKeys(q: ReadQueue, from: NodeId, ctx: string)
    ensures RecvAck(q, from, ctx).0.pending.Keys == q.pending.Keys
    ensures Backed(q) ==> Advance(q, ctx).0.pending.Keys <= q.pending.Keys
  {
  }

  lemma HandleReadAckSteady(n: Node, m: Message)
    ensures Steady(n, HandleReadAck(n, m))
  {
    hide Steady, Release, RecvAck, Advance, Backed;
    var (q, acks) := RecvAck(n.readOnly, m.from, m.context);
    AckKeys(n.readOnly, m.from, m.context);
    ReadStateSteady(n, n.readStates, n.readOnly);
    ReadStateSteady(n, n.readStates, q);
    PanicSteady(n, n.(readOnly := q));
    if Backed(q) {
      var (q', rss) := Advance(q, m.context);
      AckKeys(q, m.from, m.context);
      ReadStateSteady(n, n.readStates, q');
      ReleaseSteady(n.(readOnly := q'), rss);
      SteadyTrans(n, n.(readOnly := q'), Release(n.(readOnly := q'), rss));
    }
  }

  lemma HandleHeartbeatRespSteady(n: Node, m: Message)
    ensures Steady(n, HandleHeartbeatResp(n, m))
  {
    hide Quiet, Steady, MaybeSendAppend, HandleReadAck, FreeFirstOne, IsFull, SetPr;
    var pr := Pr(n, m.from).(recentActive := true, paused := false);
    var pr1 :=
      if pr.state.Replicate? && IsFull(pr, n.cfg.maxInflight) then pr.(inflights := FreeFirstOne(pr.inflights))
      else pr;
    var n1 := SetPr(n, m.from, pr1);
    SetPrQuiet(n, m.from, pr1);
    QuietSteady(n, n1);
    MaybeSendAppendQuiet(n1, m.from, true);
    QuietSteady(n1, SendAppend(n1, m.from));
    SteadyTrans(n, n1, SendAppend(n1, m.from));
    var n2 := if pr1.matched < LastIndex(n1) then SendAppend(n1, m.from) else n1;
    HandleReadAckSteady(n2, m);
    SteadyTrans(n, n2, HandleReadAck(n2, m));
  }

  /** A leader that takes a read request queues at most its context. */
  lemma ReadIndexReqKeeps(n: Node, m: Message)
    ensures var n' := ReadIndexReq(n, m);
      && n'.cfg == n.cfg && n.committed <= n'.committed && (Seated(n) ==> Seated(n')) && NothingForwarded(n, n')
      && n'.readOnly.pending.Keys <= n.readOnly.pending.Keys + {Ctx(m)}
  {
    hide BcastHeartbeat, AddRequest, Seated;
    var n1 := n.(readOnly := AddRequest(n.readOnly, n.committed, m));
    BcastHeartbeatSteady(n1, n1.cfg.peers, Ctx(m));
    AddKeys(n.readOnly, n.committed, m);
    ReadsSeated(n, n.readStates + [ReadState(n.committed, Ctx(m))], n.readOnly);
    ReadsSeated(n, n.readStates, n1.readOnly);
    SendSeated(n, Blank(MsgReadIndexResp, m.from).(index := n.committed, entries := m.entries));
  }

  lemma AddKeys(q: ReadQueue, index: nat, m: Message)
    ensures AddRequest(q, index, m).pending.Keys <= q.pending.Keys + {Ctx(m)}
  {
  }

  lemma ReadsSeated(n: Node, rs: seq<ReadState>, q: ReadQueue)
    ensures Seated(n.(readStates := rs, readOnly := q)) == Seated(n) && Seated(Panic(n)) == Seated(n)
  {
  }

  lemma SendSeated(n: Node, m: Message)
    ensures Seated(Send(n, m)) == Seated(n)
  {
  }

  lemma StepLeaderSteady(n: Node, m: Message)
    requires Fit(n) && n.role.Leader? && !m.kind.MsgReadIndex?
    ensures Steady(n, StepLeader(n, m))
  {
    hide Quiet, Steady, Propose, HandleAppResp, HandleHeartbeatResp, HandleTransfer, BcastHeartbeat, ReadIndexReq, CheckQuorum;
    ReadStateSteady(n, n.readStates, n.readOnly);
    match m.kind
    case MsgBeat => BcastHeartbeatSteady(n, n.cfg.peers, LastPendingCtx(n.readOnly));
    case MsgHeartbeatResp => HandleHeartbeatRespSteady(n, m);
    case MsgHeartbeat =>
    case MsgReadIndexResp =>
    case _ =>
      StepLeaderQuiet(n, m);
      QuietSteady(n, StepLeader(n, m));
  }

  lemma HandleHeartbeatSteady(n: Node, m: Message)
    requires !n.role.Leader?
    ensures Steady(n, HandleHeartbeat(n, m))
  {
  }

  /** A node that does not lead handles a heartbeat, an answer to one, or an answer to a read. */
  lemma FollowerLoudSteady(n: Node, m: Message)
    requires Fit(n) && !n.role.Leader? && Loud(m.kind) && !m.kind.MsgReadIndex?
    ensures Steady(n, RoleStep(n, m))
  {
    hide Steady, Quiet, HandleHeartbeat, BecomeFollower;
    ReadStateSteady(n, n.readStates, n.readOnly);
    if m.kind.MsgHeartbeat? {
      var n1 := if n.role.Follower? then n.(electionElapsed := 0, lead := m.from) else BecomeFollower(n, m.term, m.from);
      if n.role.Follower? { LeadQuiet(n, m.from); } else { BecomeFollowerQuiet(n, m.term, m.from); }
      FollowerFit(n, m.term, m.from);
      QuietSteady(n, n1);
      HandleHeartbeatSteady(n1, m);
      SteadyTrans(n, n1, HandleHeartbeat(n1, m));
    } else if m.kind.MsgReadIndexResp? && |m.entries| == 1 {
      ReadStateSteady(n, n.readStates + [ReadState(m.index, m.entries[0].data)], n.readOnly);
    }
  }

  /** A follower that knows a leader hands a read on; a candidate drops it. */
  lemma ForwardRead(n: Node, m: Message)
    requires !n.role.Leader? && m.kind.MsgReadIndex?
    ensures RoleStep(n, m) == if n.role.Follower? && n.lead != NONE then Send(n, m.(to := n.lead)) else n
  {
  }

  lemma RoleStepSteady(n: Node, m: Message)
    requires Fit(n) && !m.kind.MsgReadIndex?
    ensures Steady(n, RoleStep(n, m))
  {
    if n.role.Leader? {
      hide Steady, StepLeader;
      StepLeaderSteady(n, m);
    } else {
      hide Steady, Quiet, RoleStep;
      if Loud(m.kind) {
        FollowerLoudSteady(n, m);
      } else {
        RoleStepQuiet(n, m);
        QuietSteady(n, RoleStep(n, m));
      }
    }
  }

  lemma NoteTermFit(n: Node, m: Message)
    requires Fit(n)
    ensures Fit(NoteTerm(n, m).n)
  {
    hide BecomeFollower;
    FollowerFit(n, m.term, m.from);
    FollowerFit(n, m.term, NONE);
  }

  /** A step that is not about a read request queues no read and sends none on. */
  lemma StepSteady(n: Node, m: Message)
    requires Fit(n) && !m.kind.MsgReadIndex?
    ensures Steady(n, Step(n, m))
  {
    hide Fit, Quiet, Steady, NoteTerm, Hup, HandleVote, RoleStep;
    NoteTermQuiet(n, m);
    NoteTermFit(n, m);
    var n1 := NoteTerm(n, m).n;
    QuietSteady(n, n1);
    if NoteTerm(n, m).Go? {
      if m.kind.MsgHup? || m.kind.MsgVote? || m.kind.MsgPreVote? {
        DispatchQuiet(n1, m);
        QuietSteady(n1, Dispatch(n1, m));
      } else {
        RoleStepSteady(n1, m);
      }
      SteadyTrans(n, n1, Dispatch(n1, m));
    }
  }

  /** A step never changes the configuration, never takes the commit index back and keeps what is known
      of a leader's log. */
  lemma StepKeeps(n: Node, m: Message)
    requires Fit(n)
    ensures Step(n, m).cfg == n.cfg && n.committed <= Step(n, m).committed && (Seated(n) ==> Seated(Step(n, m)))
  {
    hide Fit, Quiet, Steady, NoteTerm, ReadIndexReq, RoleStep, Hup, HandleVote, Seated;
    var n1 := NoteTerm(n, m).n;
    if m.kind.MsgReadIndex? {
      NoteTermQuiet(n, m);
      QuietKeeps(n, n1);
      if n1.role.Leader? {
        ReadIndexReqKeeps(n1, m);
        LeaderReads(n1, m);
      } else {
        ForwardKeeps(n1, m);
      }
    } else {
      StepSteady(n, m);
      SteadyKeeps(n, Step(n, m));
    }
  }

  lemma LeaderReads(n: Node, m: Message)
    requires n.role.Leader? && m.kind.MsgReadIndex?
    ensures RoleStep(n, m) == ReadIndexReq(n, m)
  {
  }

  lemma SteadyKeeps(n: Node, n': Node)
    requires Steady(n, n')
    ensures n'.cfg == n.cfg && n.committed <= n'.committed && (Seated(n) ==> Seated(n'))
  {
  }

  lemma QuietKeeps(n: Node, n': Node)
    requires Quiet(n, n')
    ensures n'.cfg == n.cfg && n.committed <= n'.committed && (Seated(n) ==> Seated(n'))
  {
  }

  lemma ForwardKeeps(n: Node, m: Message)
    requires !n.role.Leader? && m.kind.MsgReadIndex?
    ensures var n' := Dispatch(n, m); n'.cfg == n.cfg && n.committed <= n'.committed && Seated(n')
  {
    hide RoleStep;
    ForwardRead(n, m);
  }
}
