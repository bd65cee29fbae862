/** What every step of a node keeps, whatever messages it is given: the pipelining window of
    every peer, the read queue, the position of entries and cursors, and the rule that at most
    one configuration change is pending. */
module NodeLocal {
  import opened Types
  import opened Logs
  import opened Progresses
  import opened ReadQueues
  import opened Commitment
  import opened Nodes

  // ---------------------------------------------------------------- the local invariant

  /** The configuration passes `Config::Validate` and lists the node among distinct voters. */
  ghost predicate ConfigOK(c: Config) {
    && c.id != NONE && c.maxInflight > 0
    && c.id in c.peers
    && (forall i :: 0 <= i < |c.peers| ==> c.peers[i] != NONE)
    && (forall i, j :: 0 <= i < j < |c.peers| ==> c.peers[i] < c.peers[j])
  }

  ghost predicate LogOK(log: Log, applied: nat, committed: nat) {
    WellIndexed(log) && applied <= committed <= |log|
  }

  /** Every peer has a progress and its window obeys the pipelining invariant; the node does not
      replicate to itself, and without compaction nobody waits for a snapshot. */
  ghost predicate PrsOK(c: Config, prs: map<NodeId, Progress>) {
    && (forall p :: p in prs <==> p in c.peers)
    && c.id in prs && prs[c.id].state.Probe?
    && (forall p {:trigger prs[p]} :: p in prs ==> Pipelined(prs[p], c.maxInflight) && !prs[p].state.Snapshot?)
  }

  ghost predicate ReadsOK(q: ReadQueue, committed: nat) {
    && Valid(q)
    && forall c {:trigger q.pending[c]} :: c in q.pending ==> q.pending[c].index <= committed
  }

  /** While a node leads, every configuration change in its log is at or below pendingConfIndex_. */
  ghost predicate ConfOK(log: Log, pendingConfIndex: nat) {
    && pendingConfIndex <= |log|
    && forall i :: 0 <= i < |log| && log[i].kind.EntryConfChange? ==> i + 1 <= pendingConfIndex
  }

  /** Compared with true so that the verifier carries it around as one fact. */
  ghost predicate Local(n: Node) {
    LocalParts(n) == true
  }

  ghost predicate LocalParts(n: Node) {
    && ConfigOK(n.cfg)
    && LogOK(n.log, n.applied, n.committed)
    && PrsOK(n.cfg, n.prs)
    && ReadsOK(n.readOnly, n.committed)
    && (n.role.Leader? ==> ConfOK(n.log, n.pendingConfIndex))
    && (n.role.Leader? || n.role.Candidate? ==> n.term > 0)
  }

  /** n' differs from n only in what sending changes. */
  ghost predicate OnlySent(n: Node, n': Node) {
    n' == n.(msgs := n'.msgs, prs := n'.prs, panicked := n'.panicked)
  }

  lemma OnlySentLocal(n: Node, n': Node)
    requires Local(n) && OnlySent(n, n') && PrsOK(n.cfg, n'.prs)
    ensures Local(n')
  {
  }

  // ---------------------------------------------------------------- sending

  lemma SendLocal(n: Node, m: Message)
    requires Local(n)
    ensures Local(Send(n, m)) && OnlySent(n, Send(n, m)) && Send(n, m).prs == n.prs
    ensures !BadTerm(m) ==> Send(n, m).panicked == n.panicked
  {
  }

  lemma SetPrsOK(c: Config, prs: map<NodeId, Progress>, p: NodeId, pr: Progress)
    requires PrsOK(c, prs) && p in prs && Pipelined(pr, c.maxInflight) && !pr.state.Snapshot? && (p == c.id ==> pr.state.Probe?)
    ensures PrsOK(c, prs[p := pr])
  {
  }

  lemma SetPrLocal(n: Node, p: NodeId, pr: Progress)
    requires Local(n) && p in n.prs && Pipelined(pr, n.cfg.maxInflight) && !pr.state.Snapshot? && (p == n.cfg.id ==> pr.state.Probe?)
    ensures Local(SetPr(n, p, pr)) && OnlySent(n, SetPr(n, p, pr))
    ensures Pr(SetPr(n, p, pr), p) == pr
  {
    SetPrsOK(n.cfg, n.prs, p, pr);
    OnlySentLocal(n, SetPr(n, p, pr));
  }

  lemma EntriesFromAt(n: Node, next: nat)
    requires 1 <= next <= |n.log|
    ensures var es := EntriesFrom(n, next);
      1 <= |es| <= |n.log| - (next - 1) && es == n.log[next - 1..next - 1 + |es|]
  {
  }

  /** What a send does, when it is not refused: it adds the append message and moves the peer. */
  lemma MaybeSendAppendFrame(n: Node, to: NodeId, sendIfEmpty: bool)
    requires Pr(n, to).next >= 1
    ensures var (n', sent) := MaybeSendAppend(n, to, sendIfEmpty);
      && (sent <==> !IsPaused(Pr(n, to), n.cfg.maxInflight) && (sendIfEmpty || EntriesFrom(n, Pr(n, to).next) != []))
      && (!sent ==> n' == n)
      && (sent ==> n' == n.(
            msgs := n.msgs + [Stamped(n, AppendMsg(n, to))],
            prs := n.prs[to := ProgressSent(Pr(n, to), EntriesFrom(n, Pr(n, to).next))]))
  {
    hide EntriesFrom, ProgressSent, TermAt, IsPaused, Pr;
  }

  lemma EntriesFromNone(n: Node, next: nat)
    requires next > |n.log|
    ensures EntriesFrom(n, next) == []
  {
  }

  lemma LastEntryFrom(n: Node, next: nat)
    requires WellIndexed(n.log) && 1 <= next <= |n.log|
    ensures var es := EntriesFrom(n, next);
      es != [] && next - 1 + |es| <= |n.log| && es[|es| - 1].index == next - 1 + |es|
  {
    hide EntriesFrom;
    EntriesFromAt(n, next);
    var es := EntriesFrom(n, next);
    assert es[|es| - 1] == n.log[next - 1 + |es| - 1];
  }

  lemma ProgressSentPipelined(n: Node, to: NodeId)
    requires WellIndexed(n.log) && Pipelined(Pr(n, to), n.cfg.maxInflight)
    requires !IsPaused(Pr(n, to), n.cfg.maxInflight)
    ensures var pr := Pr(n, to); var es := EntriesFrom(n, pr.next); var pr' := ProgressSent(pr, es);
      && Pipelined(pr', n.cfg.maxInflight) && pr'.state == pr.state
      && pr'.matched == pr.matched && pr.next <= pr'.next && (pr'.next > pr.next ==> pr'.next <= |n.log| + 1)
      && (es == [] <==> pr.next > |n.log|)
      && (es != [] ==> IsPaused(pr', n.cfg.maxInflight) || pr.next < pr'.next)
  {
    hide EntriesFrom;
    var pr := Pr(n, to);
    if pr.next <= |n.log| { LastEntryFrom(n, pr.next); } else { EntriesFromNone(n, pr.next); }
  }

  /** One send: it can only add a message and move the peer's own progress, the window stays
      within bounds, it never panics, and a send without `sendIfEmpty` uses up budget. */
  lemma MaybeSendAppendLocal(n: Node, to: NodeId, sendIfEmpty: bool)
    requires Local(n) && to in n.prs
    ensures var (n', sent) := MaybeSendAppend(n, to, sendIfEmpty);
      && Local(n') && OnlySent(n, n') && n'.panicked == n.panicked
      && (forall p :: p in n.prs && p != to ==> n'.prs[p] == n.prs[p])
      && Pr(n', to).matched == Pr(n, to).matched && Pr(n, to).next <= Pr(n', to).next
      && (Pr(n', to).next > Pr(n, to).next ==> Pr(n', to).next <= |n.log| + 1)
      && (sent && !sendIfEmpty ==> SendBudget(n', to) < SendBudget(n, to))
      && (!sent ==> n' == n && (IsPaused(Pr(n, to), n.cfg.maxInflight) || (!sendIfEmpty && Pr(n, to).next > |n.log|)))
  {
    hide Local, PrsOK, Pipelined, MaybeSendAppend, EntriesFrom, ProgressSent, AppendMsg;
    PeerWindow(n, to);
    MaybeSendAppendFrame(n, to, sendIfEmpty);
    var (n', sent) := MaybeSendAppend(n, to, sendIfEmpty);
    if !IsPaused(Pr(n, to), n.cfg.maxInflight) { ProgressSentPipelined(n, to); }
    if sent {
      SetPrsOK(n.cfg, n.prs, to, n'.prs[to]);
      OnlySentLocal(n, n');
    }
  }

  /** What is known of the window of one peer. */
  lemma PeerWindow(n: Node, p: NodeId)
    requires Local(n) && p in n.prs
    ensures PrsOK(n.cfg, n.prs) && WellIndexed(n.log)
    ensures Pipelined(n.prs[p], n.cfg.maxInflight) && !n.prs[p].state.Snapshot? && n.prs[p].next >= 1
    ensures p == n.cfg.id ==> n.prs[p].state.Probe?
  {
  }

  /** The send loop ends, never panics, and ends with the peer paused or with nothing left to send. */
  lemma {:induction false} SendLoopLocal(n: Node, to: NodeId)
    requires Local(n) && to in n.prs
    ensures var n' := SendLoop(n, to);
      && Local(n') && OnlySent(n, n')
      && n'.panicked == n.panicked
      && Pr(n', to).matched == Pr(n, to).matched
      && (IsPaused(Pr(n', to), n.cfg.maxInflight) || Pr(n', to).next > |n.log|)
    decreases SendBudget(n, to)
  {
    MaybeSendAppendLocal(n, to, false);
    var (n1, sent) := MaybeSendAppend(n, to, false);
    if sent {
      SendLoopLocal(n1, to);
      assert SendLoop(n, to) == SendLoop(n1, to);
    } else {
      assert SendLoop(n, to) == n;
    }
  }

  lemma {:induction false} BcastAppendLocal(n: Node, ps: seq<NodeId>)
    requires Local(n) && forall i :: 0 <= i < |ps| ==> ps[i] in n.cfg.peers
    ensures Local(BcastAppend(n, ps)) && OnlySent(n, BcastAppend(n, ps)) && BcastAppend(n, ps).panicked == n.panicked
    decreases |ps|
  {
    if ps != [] {
      if ps[0] == n.cfg.id {
        BcastAppendLocal(n, ps[1..]);
      } else {
        MaybeSendAppendLocal(n, ps[0], true);
        BcastAppendLocal(SendAppend(n, ps[0]), ps[1..]);
      }
    }
  }

  lemma {:induction false} BcastHeartbeatLocal(n: Node, ps: seq<NodeId>, ctx: string)
    requires Local(n)
    ensures Local(BcastHeartbeat(n, ps, ctx)) && OnlySent(n, BcastHeartbeat(n, ps, ctx))
    ensures BcastHeartbeat(n, ps, ctx).panicked == n.panicked
    decreases |ps|
  {
    if ps != [] {
      if ps[0] == n.cfg.id {
        BcastHeartbeatLocal(n, ps[1..], ctx);
      } else {
        SendLocal(n, Blank(MsgHeartbeat, ps[0]).(commit := Min(Pr(n, ps[0]).matched, n.committed), context := ctx));
        BcastHeartbeatLocal(SendHeartbeat(n, ps[0], ctx), ps[1..], ctx);
      }
    }
  }

  lemma {:induction false} SendVotesLocal(n: Node, ps: seq<NodeId>, m: Message)
    requires Local(n) && IsCampaignMsg(m.kind) && m.term > 0
    ensures Local(SendVotes(n, ps, m)) && OnlySent(n, SendVotes(n, ps, m))
    ensures SendVotes(n, ps, m).panicked == n.panicked
    decreases |ps|
  {
    if ps != [] {
      if ps[0] == n.cfg.id {
        SendVotesLocal(n, ps[1..], m);
      } else {
        SendLocal(n, m.(to := ps[0]));
        SendVotesLocal(Send(n, m.(to := ps[0])), ps[1..], m);
      }
    }
  }

  // ---------------------------------------------------------------- role changes

  lemma FreshPeersOK(c: Config, last: nat)
    requires ConfigOK(c)
    ensures PrsOK(c, FreshPeers(c.id, c.peers, last))
  {
  }

  lemma ResetLocal(n: Node, term: nat)
    requires Local(n) && (n.role.Leader? || n.role.Candidate? ==> term > 0)
    requires !n.role.Leader?
    ensures Local(Reset(n, term))
  {
    hide PrsOK, FreshPeers;
    FreshPeersOK(n.cfg, LastIndex(n));
  }

  lemma BecomeFollowerLocal(n: Node, term: nat, lead: NodeId)
    requires Local(n)
    ensures Local(BecomeFollower(n, term, lead)) && BecomeFollower(n, term, lead).panicked == n.panicked
    ensures BecomeFollower(n, term, lead).cfg == n.cfg
  {
    ResetLocal(n.(role := Follower), term);
  }

  lemma MaybeCommitLocal(n: Node)
    requires Local(n) && n.term > 0
    ensures var (n', moved) := MaybeCommit(n);
      && Local(n') && n' == n.(committed := n'.committed)
      && n.committed <= n'.committed
      && (moved <==> n.committed < n'.committed)
  {
    hide QuorumIndex, MatchIndexes, ConfigOK, PrsOK, ReadsOK;
    QuorumFits(n);
    MatchCount(n);
    ReadsLater(n.readOnly, n.committed, MaybeCommit(n).0.committed);
  }

  lemma MatchCount(n: Node)
    ensures |MatchIndexes(n)| == |n.cfg.peers|
  {
  }

  lemma QuorumFits(n: Node)
    requires Local(n)
    ensures Quorum(n) <= |n.cfg.peers|
  {
  }

  /** A leader's append is a plain extension of its log. */
  lemma AppendOwn(n: Node, es: seq<Entry>)
    requires n.committed <= |n.log|
    ensures AppendTo(n.log, n.committed, Stamp(n, es)) == (n.log + Stamp(n, es), false)
  {
    assert n.log + [] == n.log;
    assert n.log[..|n.log|] == n.log;
  }

  /** The leader once its log has grown, before it looks for a new commit index. */
  function Grown(n: Node, es: seq<Entry>): Node {
    var log := n.log + Stamp(n, es);
    n.(log := log, prs := n.prs[n.cfg.id := MaybeUpdate(Pr(n, n.cfg.id), |log|).0])
  }

  lemma AppendEntryFrame(n: Node, es: seq<Entry>)
    requires n.committed <= |n.log|
    ensures AppendEntry(n, es) == MaybeCommit(Grown(n, es)).0
  {
    AppendOwn(n, es);
  }

  /** All of Local except that pendingConfIndex_ may already point at an entry to come. */
  ghost predicate NearlyLocal(n: Node) {
    && ConfigOK(n.cfg) && LogOK(n.log, n.applied, n.committed) && PrsOK(n.cfg, n.prs)
    && ReadsOK(n.readOnly, n.committed) && n.term > 0
  }

  lemma GrownLocal(n: Node, es: seq<Entry>)
    requires NearlyLocal(n) && ConfOK(n.log + Stamp(n, es), n.pendingConfIndex)
    ensures Local(Grown(n, es))
  {
  }

  lemma AppendEntryLocal(n: Node, es: seq<Entry>)
    requires NearlyLocal(n) && ConfOK(n.log + Stamp(n, es), n.pendingConfIndex)
    ensures var n' := AppendEntry(n, es);
      && Local(n') && n' == Grown(n, es).(committed := n'.committed)
      && n.committed <= n'.committed
  {
    AppendEntryFrame(n, es);
    GrownLocal(n, es);
    MaybeCommitLocal(Grown(n, es));
  }

  /** Acknowledging beyond the window: only safe on a window that is empty or fully covered. */
  lemma MaybeUpdatePipelined(pr: Progress, i: nat, cap: nat)
    requires Pipelined(pr, cap)
    ensures var pr' := MaybeUpdate(pr, i).0;
      Pipelined(pr'.(inflights := FreeTo(pr.inflights, i)), cap) && (pr.inflights == [] ==> Pipelined(pr', cap))
  {
    hide FreeTo;
    FreeToExact(pr.inflights, i);
    FreeToTail(pr.inflights, i);
  }

  lemma FreeToTail(ins: seq<nat>, i: nat)
    ensures |FreeTo(ins, i)| <= |ins| && FreeTo(ins, i) == ins[|ins| - |FreeTo(ins, i)|..]
    ensures ins == [] ==> FreeTo(ins, i) == []
  {
  }

  lemma BecomeLeaderLocal(n: Node)
    requires Local(n) && !n.role.Follower? && n.term > 0
    ensures Local(BecomeLeader(n)) && BecomeLeader(n).panicked == n.panicked && BecomeLeader(n).cfg == n.cfg
  {
    hide Local, NearlyLocal, ConfOK, AppendEntry, FreshPeers;
    var r := Reset(n, n.term).(lead := n.cfg.id, role := Leader, pendingConfIndex := LastIndex(n));
    var es := [Entry(0, 0, EntryNormal, "")];
    InOffice(n);
    AppendEntryLocal(r, es);
  }

  /** A node that has just taken office, before its first entry. */
  lemma InOffice(n: Node)
    requires Local(n) && n.term > 0
    ensures var r := Reset(n, n.term).(lead := n.cfg.id, role := Leader, pendingConfIndex := LastIndex(n));
      NearlyLocal(r) && ConfOK(r.log + Stamp(r, [Entry(0, 0, EntryNormal, "")]), r.pendingConfIndex)
  {
    ResetLocal(n.(role := Follower), n.term);
  }

  lemma PollLocal(n: Node, id: NodeId, v: bool)
    requires Local(n)
    ensures Local(Poll(n, id, v).0)
  {
  }

  lemma RunForOfficeLocal(n: Node, t: CampaignType)
    requires Local(n) && !t.PreElection? && !n.role.Leader?
    ensures Local(RunForOffice(n, t)) && RunForOffice(n, t).panicked == n.panicked
  {
    ResetLocal(n.(role := Follower), n.term + 1);
    var c := BecomeCandidate(n);
    PollLocal(c, n.cfg.id, true);
    var (n1, granted) := Poll(c, n.cfg.id, true);
    if Quorum(n1) == granted {
      BecomeLeaderLocal(n1);
    } else {
      SendVotesLocal(n1, n1.cfg.peers, VoteRequest(n1, t));
    }
  }

  lemma CampaignLocal(n: Node, t: CampaignType)
    requires Local(n) && !n.role.Leader?
    ensures Local(Campaign(n, t)) && Campaign(n, t).panicked == n.panicked
  {
    if t.PreElection? {
      var c := BecomePreCandidate(n);
      PollLocal(c, n.cfg.id, true);
      var (n1, granted) := Poll(c, n.cfg.id, true);
      if Quorum(n1) == granted {
        RunForOfficeLocal(n1, Election);
      } else {
        SendVotesLocal(n1, n1.cfg.peers, VoteRequest(n1, t));
      }
    } else {
      RunForOfficeLocal(n, t);
    }
  }

  // ---------------------------------------------------------------- handlers

  lemma HandleAppendEntriesLocal(n: Node, m: Message)
    requires Local(n) && !n.role.Leader? && ProperAppend(m.index, m.logTerm, m.entries)
    ensures Local(HandleAppendEntries(n, m)) && HandleAppendEntries(n, m).panicked == n.panicked
  {
    if m.index < n.committed {
      SendLocal(n, Blank(MsgAppResp, m.from).(index := n.committed));
    } else {
      MaybeAppendCorrect(n.log, n.committed, m.index, m.logTerm, m.commit, m.entries);
      if TermAt(n.log, m.index) == m.logTerm { ConflictPoint(n.log, m.entries, m.index); }
      var r := MaybeAppend(n.log, n.committed, m.index, m.logTerm, m.commit, m.entries);
      var n1 := n.(log := r.log, committed := r.committed);
      ReadsLater(n.readOnly, n.committed, r.committed);
      SendLocal(n1, Blank(MsgAppResp, m.from).(index := r.last));
      SendLocal(n1, Blank(MsgAppResp, m.from).(index := m.index, reject := true, rejectHint := LastIndex(n)));
    }
  }

  lemma ReadsLater(q: ReadQueue, committed: nat, committed': nat)
    requires ReadsOK(q, committed) && committed <= committed'
    ensures ReadsOK(q, committed')
  {
  }

  lemma HandleHeartbeatLocal(n: Node, m: Message)
    requires Local(n)
    ensures Local(HandleHeartbeat(n, m))
    ensures m.commit <= |n.log| ==> HandleHeartbeat(n, m).panicked == n.panicked
  {
    var (c, p) := CommitTo(n.log, n.committed, m.commit);
    ReadsLater(n.readOnly, n.committed, c);
    SendLocal((if p then Panic(n) else n).(committed := c), Blank(MsgHeartbeatResp, m.from).(context := m.context));
  }

  /** The inputs a node relies on its peers and its application to respect. */
  ghost predicate Sane(n: Node, m: Message) {
    && (m.kind.MsgApp? ==> ProperAppend(m.index, m.logTerm, m.entries))
    && (m.kind.MsgAppResp? ==> m.from != n.cfg.id)
  }

  /** Beyond that, what keeps the message from running into one of the node's panics, once the
      node has taken note of the message's term. */
  ghost predicate Fine(n: Node, m: Message) {
    && (m.kind.MsgSnap? ==> n.role.Leader?)
    && (m.kind.MsgHeartbeat? ==> n.role.Leader? || m.commit <= |n.log|)
    && (m.kind.MsgProp? || m.kind.MsgReadIndex? ==> m.entries != [] && m.term == 0)
    && (m.kind.MsgTransferLeader? ==> m.term == 0 || !n.role.Follower? || n.lead == NONE)
    && (m.kind.MsgVote? || m.kind.MsgPreVote? ==> m.term > 0 && (n.term > 0 || n.log == []))
  }

  lemma StepFollowerLocal(n: Node, m: Message)
    requires Local(n) && Sane(n, m) && n.role.Follower?
    ensures Local(StepFollower(n, m))
    ensures Fine(n, m) ==> StepFollower(n, m).panicked == n.panicked
  {
    match m.kind
    case MsgProp => SendLocal(n, m.(to := n.lead));
    case MsgApp => HandleAppendEntriesLocal(n.(electionElapsed := 0, lead := m.from), m);
    case MsgHeartbeat => HandleHeartbeatLocal(n.(electionElapsed := 0, lead := m.from), m);
    case MsgTransferLeader => SendLocal(n, m.(to := n.lead));
    case MsgTimeoutNow => CampaignLocal(n, Transfer);
    case MsgReadIndex => SendLocal(n, m.(to := n.lead));
    case _ =>
  }

  lemma CandidateTerm(n: Node)
    requires Local(n)
    ensures n.role.Candidate? ==> n.term > 0
    ensures forall p :: p in n.cfg.peers <==> p in n.prs
  {
  }

  lemma HandleVoteRespLocal(n: Node, m: Message)
    requires Local(n) && (n.role.Candidate? || n.role.PreCandidate?)
    ensures Local(HandleVoteResp(n, m)) && HandleVoteResp(n, m).panicked == n.panicked
  {
    hide Campaign, BecomeLeader, BcastAppend, BecomeFollower, Local, Granted;
    CandidateTerm(n);
    PollLocal(n, m.from, !m.reject);
    var (n1, granted) := Poll(n, m.from, !m.reject);
    if Quorum(n1) == granted {
      if n1.role.PreCandidate? {
        CampaignLocal(n1, Election);
        assert HandleVoteResp(n, m) == Campaign(n1, Election);
      } else {
        BecomeLeaderLocal(n1);
        BcastAppendLocal(BecomeLeader(n1), n1.cfg.peers);
        assert HandleVoteResp(n, m) == BcastAppend(BecomeLeader(n1), n1.cfg.peers);
      }
    } else {
      BecomeFollowerLocal(n1, n1.term, NONE);
    }
  }

  lemma StepCandidateLocal(n: Node, m: Message)
    requires Local(n) && Sane(n, m) && (n.role.Candidate? || n.role.PreCandidate?)
    ensures Local(StepCandidate(n, m))
    ensures Fine(n, m) ==> StepCandidate(n, m).panicked == n.panicked
  {
    match m.kind
    case MsgApp =>
      BecomeFollowerLocal(n, m.term, m.from);
      HandleAppendEntriesLocal(BecomeFollower(n, m.term, m.from), m);
    case MsgHeartbeat =>
      BecomeFollowerLocal(n, m.term, m.from);
      HandleHeartbeatLocal(BecomeFollower(n, m.term, m.from), m);
    case MsgPreVoteResp => if n.role.PreCandidate? { HandleVoteRespLocal(n, m); }
    case MsgVoteResp => if n.role.Candidate? { HandleVoteRespLocal(n, m); }
    case _ =>
  }

  // ---------------------------------------------------------------- one pending configuration change

  /** Of a batch at most one configuration change is let through, only if none was pending,
      and pendingConfIndex_ then points at it. */
  lemma {:induction false} FilterConfOne(es: seq<Entry>, pending: nat, applied: nat, next: nat)
    requires applied < next
    ensures var (es', p) := FilterConf(es, pending, applied, next);
      && |es'| == |es|
      && (forall i :: 0 <= i < |es'| && es'[i].kind.EntryConfChange? ==> pending <= applied && p == next + i)
      && (p == pending || next <= p < next + |es|)
      && (pending > applied ==> p == pending)
    decreases |es|
  {
    if es != [] {
      var keep := es[0].kind.EntryConfChange? && pending <= applied;
      FilterConfOne(es[1..], if keep then next else pending, applied, next + 1);
    }
  }

  lemma ProposeConf(n: Node, m: Message)
    requires LogOK(n.log, n.applied, n.committed) && ConfOK(n.log, n.pendingConfIndex)
    ensures var (es, pending) := FilterConf(m.entries, n.pendingConfIndex, n.applied, LastIndex(n) + 1);
      && |es| == |m.entries|
      && ConfOK(n.log + Stamp(n.(pendingConfIndex := pending), es), pending)
      && forall i :: 0 <= i < |es| && es[i].kind.EntryConfChange? ==> n.pendingConfIndex <= n.applied && pending == |n.log| + 1 + i
  {
    FilterConfOne(m.entries, n.pendingConfIndex, n.applied, LastIndex(n) + 1);
    var (es, pending) := FilterConf(m.entries, n.pendingConfIndex, n.applied, LastIndex(n) + 1);
    var log := n.log + Stamp(n.(pendingConfIndex := pending), es);
    forall i | 0 <= i < |log| && log[i].kind.EntryConfChange?
      ensures i + 1 <= pending
    {
      if i >= |n.log| { assert es[i - |n.log|].kind.EntryConfChange?; }
    }
  }

  /** What a proposal does to the leader's log. */
  lemma ProposeLog(n: Node, m: Message)
    requires Local(n) && n.role.Leader? && m.entries != [] && !LeaderDrops(n)
    ensures var (es, pending) := FilterConf(m.entries, n.pendingConfIndex, n.applied, LastIndex(n) + 1);
      Propose(n, m).log == n.log + Stamp(n.(pendingConfIndex := pending), es)
    ensures Local(Propose(n, m)) && Propose(n, m).panicked == n.panicked
    ensures Propose(n, m).role == n.role && Propose(n, m).term == n.term
  {
    hide FilterConf, AppendEntry, BcastAppend;
    ProposeConf(n, m);
    var (es, pending) := FilterConf(m.entries, n.pendingConfIndex, n.applied, LastIndex(n) + 1);
    var n0 := n.(pendingConfIndex := pending);
    AppendEntryLocal(n0, es);
    BcastAppendLocal(AppendEntry(n0, es), n.cfg.peers);
  }

  /** A leader appends a configuration change only when every earlier one in its log is applied. */
  lemma OnePendingConf(n: Node, m: Message, i: nat, j: nat)
    requires Local(n) && n.role.Leader? && m.entries != [] && !LeaderDrops(n)
    requires |n.log| <= i < |Propose(n, m).log| && Propose(n, m).log[i].kind.EntryConfChange?
    requires j < i && Propose(n, m).log[j].kind.EntryConfChange?
    ensures j < |n.log| && j + 1 <= n.applied
  {
    ProposeLog(n, m);
    OnlyConf(n, m, i, j);
  }

  lemma OnlyConf(n: Node, m: Message, i: nat, j: nat)
    requires LogOK(n.log, n.applied, n.committed) && ConfOK(n.log, n.pendingConfIndex)
    requires var (es, pending) := FilterConf(m.entries, n.pendingConfIndex, n.applied, LastIndex(n) + 1);
      var log := n.log + Stamp(n.(pendingConfIndex := pending), es);
      |n.log| <= i < |log| && log[i].kind.EntryConfChange? && j < i && log[j].kind.EntryConfChange?
    ensures j < |n.log| && j + 1 <= n.applied
  {
    ProposeConf(n, m);
    var (es, pending) := FilterConf(m.entries, n.pendingConfIndex, n.applied, LastIndex(n) + 1);
    assert es[i - |n.log|].kind.EntryConfChange?;
    assert j < |n.log|;
  }

  lemma ProposeLocal(n: Node, m: Message)
    requires Local(n) && n.role.Leader?
    ensures Local(Propose(n, m))
    ensures m.entries != [] ==> Propose(n, m).panicked == n.panicked
  {
    if m.entries != [] && !LeaderDrops(n) { ProposeLog(n, m); }
  }

  // ---------------------------------------------------------------- the leader

  lemma AddRequestOK(q: ReadQueue, committed: nat, m: Message)
    requires ReadsOK(q, committed)
    ensures ReadsOK(AddRequest(q, committed, m), committed)
  {
  }

  lemma ReadIndexReqLocal(n: Node, m: Message)
    requires Local(n)
    ensures Local(ReadIndexReq(n, m))
    ensures m.entries != [] ==> ReadIndexReq(n, m).panicked == n.panicked
  {
    if m.entries != [] && Quorum(n) > 1 && TermAt(n.log, n.committed) == n.term {
      if n.cfg.leaseRead {
        SendLocal(n, Blank(MsgReadIndexResp, m.from).(index := n.committed, entries := m.entries));
      } else {
        AddRequestOK(n.readOnly, n.committed, m);
        BcastHeartbeatLocal(n.(readOnly := AddRequest(n.readOnly, n.committed, m)), n.cfg.peers, Ctx(m));
      }
    }
  }

  lemma HandleRejectionLocal(n: Node, m: Message)
    requires Local(n) && m.from in n.prs && m.from != n.cfg.id
    ensures Local(HandleRejection(n, m)) && HandleRejection(n, m).panicked == n.panicked
  {
    var (pr, changed) := MaybeDecrTo(Pr(n, m.from), m.index, m.rejectHint);
    assert Pipelined(n.prs[m.from], n.cfg.maxInflight);
    if changed {
      var pr1 := if pr.state.Replicate? then BecomeProbe(pr) else pr;
      SetPrLocal(n, m.from, pr1);
      MaybeSendAppendLocal(SetPr(n, m.from, pr1), m.from, true);
    } else {
      SetPrLocal(n, m.from, pr);
    }
  }

  lemma AdvancedPipelined(pr: Progress, i: nat, cap: nat)
    requires Pipelined(pr, cap) && MaybeUpdate(pr, i).1
    ensures var pr' := MaybeUpdate(pr, i).0; Pipelined(Advanced(pr', i), cap) && Advanced(pr', i).matched == i
  {
    var pr' := MaybeUpdate(pr, i).0;
    if pr.state.Replicate? {
      MaybeUpdatePipelined(pr, i, cap);
      assert Advanced(pr', i) == pr'.(inflights := FreeTo(pr.inflights, i));
    } else {
      assert Advanced(pr', i).inflights == [];
    }
  }

  lemma NotUpdatedPipelined(pr: Progress, i: nat, cap: nat)
    requires Pipelined(pr, cap) && !MaybeUpdate(pr, i).1
    ensures var pr' := MaybeUpdate(pr, i).0; Pipelined(pr', cap) && pr'.matched == pr.matched && pr'.state == pr.state
  {
  }

  lemma AfterAckLocal(n: Node, moved: bool, wasPaused: bool, from: NodeId)
    requires Local(n) && from in n.prs
    ensures var n' := AfterAck(n, moved, wasPaused, from);
      Local(n') && OnlySent(n, n') && n'.panicked == n.panicked
  {
    if moved { BcastAppendLocal(n, n.cfg.peers); } else { MaybeSendAppendLocal(n, from, true); }
  }

  lemma FinishTransferLocal(n: Node, from: NodeId)
    requires Local(n)
    ensures Local(FinishTransfer(n, from)) && OnlySent(n, FinishTransfer(n, from))
    ensures FinishTransfer(n, from).panicked == n.panicked
  {
    SendLocal(n, Blank(MsgTimeoutNow, from));
  }

  lemma HandleAcceptanceLocal(n: Node, m: Message)
    requires Local(n) && n.role.Leader? && m.from in n.prs && m.from != n.cfg.id
    ensures Local(HandleAcceptance(n, m)) && HandleAcceptance(n, m).panicked == n.panicked
  {
    assert Pipelined(n.prs[m.from], n.cfg.maxInflight);
    var (pr, updated) := MaybeUpdate(Pr(n, m.from), m.index);
    if updated {
      AdvancedPipelined(n.prs[m.from], m.index, n.cfg.maxInflight);
      AckedLocal(n, m.from, Advanced(pr, m.index), IsPaused(Pr(n, m.from), n.cfg.maxInflight));
    } else {
      NotUpdatedPipelined(n.prs[m.from], m.index, n.cfg.maxInflight);
      SetPrLocal(n, m.from, pr);
    }
  }

  lemma AckedLocal(n: Node, from: NodeId, pr: Progress, wasPaused: bool)
    requires Local(n) && n.role.Leader? && from in n.prs && from != n.cfg.id
    requires Pipelined(pr, n.cfg.maxInflight) && !pr.state.Snapshot?
    ensures var (n1, moved) := MaybeCommit(SetPr(n, from, pr));
      var n' := FinishTransfer(SendLoop(AfterAck(n1, moved, wasPaused, from), from), from);
      Local(n') && n'.panicked == n.panicked
  {
    hide MaybeCommit, AfterAck, SendLoop, FinishTransfer;
    SetPrLocal(n, from, pr);
    MaybeCommitLocal(SetPr(n, from, pr));
    var (n1, moved) := MaybeCommit(SetPr(n, from, pr));
    AfterAckLocal(n1, moved, wasPaused, from);
    var n2 := AfterAck(n1, moved, wasPaused, from);
    SendLoopLocal(n2, from);
    FinishTransferLocal(SendLoop(n2, from), from);
  }

  lemma HandleAppRespLocal(n: Node, m: Message)
    requires Local(n) && n.role.Leader? && m.from in n.prs && m.from != n.cfg.id
    ensures Local(HandleAppResp(n, m)) && HandleAppResp(n, m).panicked == n.panicked
  {
    assert Pipelined(n.prs[m.from], n.cfg.maxInflight);
    var n1 := SetPr(n, m.from, Pr(n, m.from).(recentActive := true));
    SetPrLocal(n, m.from, Pr(n, m.from).(recentActive := true));
    if m.reject { HandleRejectionLocal(n1, m); } else { HandleAcceptanceLocal(n1, m); }
  }

  lemma {:induction false} ReleaseLocal(n: Node, rss: seq<ReadStatus>)
    requires Local(n)
    ensures Local(Release(n, rss)) && Release(n, rss).panicked == n.panicked
    ensures Release(n, rss) == n.(msgs := Release(n, rss).msgs, readStates := Release(n, rss).readStates)
    decreases |rss|
  {
    if rss != [] {
      var rs := rss[0];
      if rs.req.from == NONE || rs.req.from == n.cfg.id {
        ReleaseLocal(n.(readStates := n.readStates + [ReadState(rs.index, Ctx(rs.req))]), rss[1..]);
      } else {
        var m := Blank(MsgReadIndexResp, rs.req.from).(index := rs.index, entries := rs.req.entries);
        SendLocal(n, m);
        ReleaseLocal(Send(n, m), rss[1..]);
      }
    }
  }

  lemma HandleReadAckLocal(n: Node, m: Message)
    requires Local(n)
    ensures Local(HandleReadAck(n, m)) && HandleReadAck(n, m).panicked == n.panicked
  {
    if !n.cfg.leaseRead && m.context != "" {
      RecvAckValid(n.readOnly, m.from, m.context);
      var (q, acks) := RecvAck(n.readOnly, m.from, m.context);
      assert ReadsOK(q, n.committed);
      if acks >= Quorum(n) {
        AdvanceValid(q, m.context);
        var (q', rss) := Advance(q, m.context);
        assert ReadsOK(q', n.committed);
        ReleaseLocal(n.(readOnly := q'), rss);
      }
    }
  }

  /** Hearing back from a peer frees a slot of a full window. */
  lemma HeartbeatRespWindow(n: Node, m: Message)
    requires Local(n) && m.from in n.prs
    ensures var pr := Pr(n, m.from).(recentActive := true, paused := false);
      var pr1 :=
        if pr.state.Replicate? && IsFull(pr, n.cfg.maxInflight) then pr.(inflights := FreeFirstOne(pr.inflights))
        else pr;
      Pipelined(pr1, n.cfg.maxInflight) && !pr1.state.Snapshot? && (m.from == n.cfg.id ==> pr1.state.Probe?)
  {
    assert Pipelined(n.prs[m.from], n.cfg.maxInflight);
    var pr := Pr(n, m.from).(recentActive := true, paused := false);
    if pr.inflights != [] { FreeToExact(pr.inflights, pr.inflights[0]); }
  }

  lemma HandleHeartbeatRespLocal(n: Node, m: Message)
    requires Local(n) && m.from in n.prs
    ensures Local(HandleHeartbeatResp(n, m)) && HandleHeartbeatResp(n, m).panicked == n.panicked
  {
    hide Local, MaybeSendAppend, HandleReadAck, FreeFirstOne, IsFull, Pipelined;
    HeartbeatRespWindow(n, m);
    var pr := Pr(n, m.from).(recentActive := true, paused := false);
    var pr1 :=
      if pr.state.Replicate? && IsFull(pr, n.cfg.maxInflight) then pr.(inflights := FreeFirstOne(pr.inflights))
      else pr;
    var n1 := SetPr(n, m.from, pr1);
    SetPrLocal(n, m.from, pr1);
    MaybeSendAppendLocal(n1, m.from, true);
    var n2 := if pr1.matched < LastIndex(n1) then SendAppend(n1, m.from) else n1;
    HandleReadAckLocal(n2, m);
  }

  lemma HandleTransferLocal(n: Node, m: Message)
    requires Local(n) && m.from in n.prs
    ensures Local(HandleTransfer(n, m)) && HandleTransfer(n, m).panicked == n.panicked
  {
    var n2 := n.(electionElapsed := 0, leadTransferee := m.from);
    if Pr(n2, m.from).matched == LastIndex(n2) {
      SendLocal(n2, Blank(MsgTimeoutNow, m.from));
    } else {
      MaybeSendAppendLocal(n2, m.from, true);
    }
  }

  lemma RestedLocal(n: Node)
    requires Local(n)
    ensures Local(n.(prs := Rested(n.cfg.id, n.prs)))
  {
  }

  lemma CheckQuorumLocal(n: Node)
    requires Local(n)
    ensures Local(CheckQuorum(n)) && CheckQuorum(n).panicked == n.panicked
  {
    hide Local, Rested, Active;
    RestedLocal(n);
    BecomeFollowerLocal(n.(prs := Rested(n.cfg.id, n.prs)), n.term, NONE);
  }

  lemma StepLeaderLocal(n: Node, m: Message)
    requires Local(n) && Sane(n, m) && n.role.Leader?
    ensures Local(StepLeader(n, m))
    ensures Fine(n, m) ==> StepLeader(n, m).panicked == n.panicked
  {
    hide BcastHeartbeat, CheckQuorum, Propose, ReadIndexReq, StepLeaderPeer;
    match m.kind
    case MsgBeat =>
      BcastHeartbeatLocal(n, n.cfg.peers, LastPendingCtx(n.readOnly));
    case MsgCheckQuorum =>
      assert StepLeader(n, m) == CheckQuorum(n);
      CheckQuorumLocal(n);
    case MsgProp =>
      assert StepLeader(n, m) == Propose(n, m);
      ProposeLocal(n, m);
    case MsgReadIndex =>
      assert StepLeader(n, m) == ReadIndexReq(n, m);
      ReadIndexReqLocal(n, m);
    case _ =>
      assert StepLeader(n, m) == if m.from in n.prs then StepLeaderPeer(n, m) else n;
      if m.from in n.prs { StepLeaderPeerLocal(n, m); }
  }

  lemma StepLeaderPeerLocal(n: Node, m: Message)
    requires Local(n) && Sane(n, m) && n.role.Leader? && m.from in n.prs
    ensures Local(StepLeaderPeer(n, m)) && StepLeaderPeer(n, m).panicked == n.panicked
  {
    hide HandleAppResp, HandleHeartbeatResp, HandleSnapStatus, HandleUnreachable, HandleTransfer, Local;
    match m.kind
    case MsgAppResp => HandleAppRespLocal(n, m);
    case MsgHeartbeatResp => HandleHeartbeatRespLocal(n, m);
    case MsgSnapStatus => SnapStatusLocal(n, m);
    case MsgUnreachable => UnreachableLocal(n, m);
    case MsgTransferLeader => HandleTransferLocal(n, m);
    case _ =>
  }

  lemma SnapStatusLocal(n: Node, m: Message)
    requires Local(n) && m.from in n.prs
    ensures Local(HandleSnapStatus(n, m)) && HandleSnapStatus(n, m).panicked == n.panicked
  {
  }

  lemma UnreachableLocal(n: Node, m: Message)
    requires Local(n) && m.from in n.prs
    ensures Local(HandleUnreachable(n, m)) && HandleUnreachable(n, m).panicked == n.panicked
  {
    if Pr(n, m.from).state.Replicate? { SetPrLocal(n, m.from, BecomeProbe(Pr(n, m.from))); }
  }

  // ---------------------------------------------------------------- Step

  lemma HupLocal(n: Node)
    requires Local(n)
    ensures Local(Hup(n)) && Hup(n).panicked == n.panicked
  {
    if !n.role.Leader? { CampaignLocal(n, if n.cfg.preVote then PreElection else Election); }
  }

  lemma HandleVoteLocal(n: Node, m: Message)
    requires Local(n) && (m.kind.MsgVote? || m.kind.MsgPreVote?)
    ensures Local(HandleVote(n, m))
    ensures m.term > 0 && (n.term > 0 || (n.log == [] && m.term > n.term && m.kind.MsgPreVote?)) ==>
      HandleVote(n, m).panicked == n.panicked
  {
    var resp := Blank(if m.kind.MsgVote? then MsgVoteResp else MsgPreVoteResp, m.from);
    SendLocal(n, resp.(term := m.term));
    SendLocal(n, resp.(term := n.term, reject := true));
  }

  lemma NoteHigherLocal(n: Node, m: Message)
    requires Local(n)
    ensures Local(NoteHigher(n, m).n) && NoteHigher(n, m).n.panicked == n.panicked && NoteHigher(n, m).n.cfg == n.cfg
  {
    hide BecomeFollower, Local;
    BecomeFollowerLocal(n, m.term, if m.kind.MsgApp? || m.kind.MsgHeartbeat? || m.kind.MsgSnap? then m.from else NONE);
  }

  lemma NoteLowerLocal(n: Node, m: Message)
    requires Local(n) && m.term < n.term
    ensures Local(NoteLower(n, m)) && NoteLower(n, m).panicked == n.panicked
  {
    if m.kind.MsgPreVote? {
      SendLocal(n, Blank(MsgPreVoteResp, m.from).(term := n.term, reject := true));
    } else {
      SendLocal(n, Blank(MsgAppResp, m.from));
    }
  }

  lemma NoteTermLocal(n: Node, m: Message)
    requires Local(n)
    ensures Local(NoteTerm(n, m).n) && NoteTerm(n, m).n.panicked == n.panicked
    ensures NoteTerm(n, m).Go? ==> NoteTerm(n, m).n.cfg == n.cfg
  {
    hide NoteHigher, NoteLower, Local;
    if m.term > n.term { NoteHigherLocal(n, m); } else if 0 < m.term < n.term { NoteLowerLocal(n, m); }
  }

  lemma RoleStepLocal(n: Node, m: Message)
    requires Local(n) && Sane(n, m)
    ensures Local(RoleStep(n, m))
    ensures Fine(n, m) ==> RoleStep(n, m).panicked == n.panicked
  {
    hide StepLeader, StepFollower, StepCandidate, Local;
    match n.role
    case Leader => StepLeaderLocal(n, m);
    case Follower => StepFollowerLocal(n, m);
    case Candidate => StepCandidateLocal(n, m);
    case PreCandidate => StepCandidateLocal(n, m);
  }

  /** The message is in the node's own term, or carries none, or belongs to a pre-vote. */
  ghost predicate Current(n: Node, m: Message) {
    m.term == 0 || m.term == n.term || (m.term > n.term && (m.kind.MsgPreVote? || m.kind.MsgPreVoteResp?))
  }

  lemma DispatchLocal(n: Node, m: Message)
    requires Local(n) && Sane(n, m)
    ensures Local(Dispatch(n, m))
    ensures Fine(n, m) && Current(n, m) ==> Dispatch(n, m).panicked == n.panicked
  {
    hide Hup, HandleVote, RoleStep, Local;
    match m.kind
    case MsgHup => HupLocal(n);
    case MsgVote => HandleVoteLocal(n, m);
    case MsgPreVote => HandleVoteLocal(n, m);
    case _ => RoleStepLocal(n, m);
  }

  /** Every step keeps the local invariant, and runs into no panic on a message that is fine. */
  lemma StepLocal(n: Node, m: Message)
    requires Local(n) && Sane(n, m)
    ensures Local(Step(n, m))
    ensures (NoteTerm(n, m).Go? ==> Fine(NoteTerm(n, m).n, m)) ==> Step(n, m).panicked == n.panicked
  {
    hide Dispatch, Local;
    NoteTermLocal(n, m);
    if NoteTerm(n, m).Go? { DispatchLocal(NoteTerm(n, m).n, m); }
  }
}
