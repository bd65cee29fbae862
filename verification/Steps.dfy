/** Every step of a node keeps the invariant that relates it to the history: for each part of
    `Step`, the history after it and the proof that node and messages fit it. */
module Steps {
  import opened Types
  import opened Quorums
  import opened Logs
  import opened Progresses
  import opened ReadQueues
  import opened Commitment
  import opened Nodes
  import opened NodeLocal
  import opened History
  import opened Invariants

  // ---------------------------------------------------------------- sending

  lemma SendGood(h: Hist, n: Node, m: Message)
    requires Good(h, n) && !BadTerm(m) && MsgInv(h, Stamped(n, m))
    ensures Good(h, Send(n, m)) && OnlySent(n, Send(n, m)) && Send(n, m).prs == n.prs
  {
    SendLocal(n, m);
  }

  /** Nothing but messages and progress changed, and the progress is in order. */
  lemma OnlySentNode(h: Hist, n: Node, n': Node)
    requires NodeInv(h, n) && OnlySent(n, n') && (n.role.Leader? ==> PeersInv(h, n.term, |n.log|, n'.prs))
    ensures NodeInv(h, n')
  {
  }

  lemma SetPrGood(h: Hist, n: Node, p: NodeId, pr: Progress)
    requires Good(h, n) && p in n.prs && Pipelined(pr, n.cfg.maxInflight) && !pr.state.Snapshot? && (p == n.cfg.id ==> pr.state.Probe?)
    requires n.role.Leader? ==> pr.matched <= Ack(h, p, n.term) && pr.next <= |n.log| + 1
    ensures Good(h, SetPr(n, p, pr)) && OnlySent(n, SetPr(n, p, pr))
  {
    hide HistInv, Local, NodeInv, MsgsInv, PeersInv, Pipelined;
    SetPrLocal(n, p, pr);
    if n.role.Leader? {
      LeaderParts(h, n);
      SetPeersInv(h, n.term, |n.log|, n.prs, p, pr);
    }
    OnlySentNode(h, n, SetPr(n, p, pr));
  }

  lemma SetPeersInv(h: Hist, term: nat, last: nat, prs: map<NodeId, Progress>, p: NodeId, pr: Progress)
    requires PeersInv(h, term, last, prs) && pr.matched <= Ack(h, p, term) && pr.next <= last + 1
    ensures PeersInv(h, term, last, prs[p := pr])
  {
  }

  lemma CommitOKFromNode(h: Hist, n: Node, c: nat)
    requires NodeInv(h, n) && c <= n.committed
    ensures CommitOK(h, n.term, c)
  {
  }

  /** An append message sent by a leader is a slice of its log. */
  lemma AppendMsgInv(h: Hist, n: Node, to: NodeId)
    requires NodeInv(h, n) && n.role.Leader? && to in n.prs && to != n.cfg.id && Pr(n, to).next >= 1
    ensures !BadTerm(AppendMsg(n, to)) && MsgInv(h, Stamped(n, AppendMsg(n, to)))
  {
    var next := Pr(n, to).next;
    assert n.prs[to].next <= |n.log| + 1;
    if next <= |n.log| { EntriesFromAt(n, next); }
    CommitOKFromNode(h, n, n.committed);
  }

  lemma MaybeSendAppendGood(h: Hist, n: Node, to: NodeId, sendIfEmpty: bool)
    requires Good(h, n) && n.role.Leader? && to in n.prs && to != n.cfg.id
    ensures var n' := MaybeSendAppend(n, to, sendIfEmpty).0;
      Good(h, n') && OnlySent(n, n')
  {
    MaybeSendAppendLocal(n, to, sendIfEmpty);
    MaybeSendAppendNode(h, n, to, sendIfEmpty);
  }

  lemma MaybeSendAppendNode(h: Hist, n: Node, to: NodeId, sendIfEmpty: bool)
    requires Local(n) && NodeInv(h, n) && MsgsInv(h, n.msgs) && n.role.Leader? && to in n.prs && to != n.cfg.id
    ensures var n' := MaybeSendAppend(n, to, sendIfEmpty).0; NodeInv(h, n') && MsgsInv(h, n'.msgs)
  {
    var (n', sent) := MaybeSendAppend(n, to, sendIfEmpty);
    assert Pipelined(n.prs[to], n.cfg.maxInflight);
    MaybeSendAppendFrame(n, to, sendIfEmpty);
    if sent {
      AppendMsgInv(h, n, to);
      ProgressSentPipelined(n, to);
      SentPeers(h, n, to);
      OnlySentNode(h, n, n');
    }
  }

  lemma SentPeers(h: Hist, n: Node, to: NodeId)
    requires PeersInv(h, n.term, |n.log|, n.prs) && to in n.prs
    requires WellIndexed(n.log) && Pipelined(Pr(n, to), n.cfg.maxInflight) && !IsPaused(Pr(n, to), n.cfg.maxInflight)
    ensures PeersInv(h, n.term, |n.log|, n.prs[to := ProgressSent(Pr(n, to), EntriesFrom(n, Pr(n, to).next))])
  {
  }

  lemma {:induction false} BcastAppendGood(h: Hist, n: Node, ps: seq<NodeId>)
    requires Good(h, n) && n.role.Leader? && forall i :: 0 <= i < |ps| ==> ps[i] in n.cfg.peers
    ensures Good(h, BcastAppend(n, ps)) && OnlySent(n, BcastAppend(n, ps))
    decreases |ps|
  {
    if ps != [] {
      if ps[0] == n.cfg.id {
        BcastAppendGood(h, n, ps[1..]);
      } else {
        MaybeSendAppendGood(h, n, ps[0], true);
        BcastAppendGood(h, SendAppend(n, ps[0]), ps[1..]);
      }
    }
  }

  lemma {:induction false} SendLoopGood(h: Hist, n: Node, to: NodeId)
    requires Good(h, n) && n.role.Leader? && to in n.prs && to != n.cfg.id
    ensures Good(h, SendLoop(n, to)) && OnlySent(n, SendLoop(n, to))
    decreases SendBudget(n, to)
  {
    MaybeSendAppendGood(h, n, to, false);
    MaybeSendAppendLocal(n, to, false);
    var (n1, sent) := MaybeSendAppend(n, to, false);
    if sent {
      SendLoopGood(h, n1, to);
      assert SendLoop(n, to) == SendLoop(n1, to);
    } else {
      assert SendLoop(n, to) == n;
    }
  }

  lemma SendHeartbeatGood(h: Hist, n: Node, to: NodeId, ctx: string)
    requires Good(h, n) && n.role.Leader? && to in n.prs && to != n.cfg.id
    ensures Good(h, SendHeartbeat(n, to, ctx)) && OnlySent(n, SendHeartbeat(n, to, ctx))
    ensures SendHeartbeat(n, to, ctx).prs == n.prs
  {
    var c := Min(Pr(n, to).matched, n.committed);
    assert n.prs[to].matched <= Ack(h, to, n.term);
    CommitOKFromNode(h, n, c);
    SendGood(h, n, Blank(MsgHeartbeat, to).(commit := c, context := ctx));
  }

  lemma {:induction false} BcastHeartbeatGood(h: Hist, n: Node, ps: seq<NodeId>, ctx: string)
    requires Good(h, n) && n.role.Leader? && forall i :: 0 <= i < |ps| ==> ps[i] in n.cfg.peers
    ensures Good(h, BcastHeartbeat(n, ps, ctx)) && OnlySent(n, BcastHeartbeat(n, ps, ctx))
    decreases |ps|
  {
    if ps != [] {
      if ps[0] == n.cfg.id {
        BcastHeartbeatGood(h, n, ps[1..], ctx);
      } else {
        SendHeartbeatGood(h, n, ps[0], ctx);
        BcastHeartbeatGood(h, SendHeartbeat(n, ps[0], ctx), ps[1..], ctx);
      }
    }
  }

  // ---------------------------------------------------------------- role changes

  /** A node that moves to a later term keeps its log and has not voted there. */
  lemma CoreNewTerm(h: Hist, j: NodeId, term: nat, vote: NodeId, log: Log, committed: nat, term': nat)
    requires HistInv(h) && Core(h, j, term, vote, log, committed) && term < term'
    ensures var h' := SetTerm(h, j, term');
      HistInv(h') && Grows(h, h', j) && Core(h', j, term', NONE, log, committed)
  {
    var h' := SetTerm(h, j, term');
    SetTermInv(h, j, term');
    assert (j, term') in h.votes ==> VoteOK(h, j, term', h.votes[(j, term')]);
    LogInvGrows(h, h', log);
    CommitInvGrows(h, h', term, log, committed);
    assert CommitInv(h', term', log, committed);
    assert AckOK(h, j, term');
    KeepsLater(h, h', j, log, term, term');
  }

  lemma KeepsLater(h: Hist, h': Hist, j: NodeId, log: Log, term: nat, term': nat)
    requires Grows(h, h', j) && AckInv(h) && j in h.term && h.term[j] == term && h'.acks == h.acks && h'.reign == h.reign
    requires Keeps(h, j, log, term + 1)
    ensures Keeps(h', j, log, term' + 1)
  {
    forall t, k | t in h'.reign && t < term' + 1 && h'.reign[t].base < k <= Ack(h', j, t)
      ensures Kept(h', log, t, k)
    {
      assert Ack(h', j, t) == Ack(h, j, t);
      assert AckOK(h, j, t);
      assert Kept(h, log, t, k);
      KeptGrows(h, h', j, log, t, k);
    }
  }

  lemma FollowerNode(h: Hist, n: Node, lead: NodeId)
    requires NodeInv(h, n)
    requires lead != NONE ==> n.term in h.reign && h.reign[n.term].leader == lead && lead != n.cfg.id
    ensures NodeInv(h, BecomeFollower(n, n.term, lead))
  {
  }

  lemma FollowerTerm(h: Hist, n: Node, term: nat, lead: NodeId)
    requires HistInv(h) && NodeInv(h, n) && n.term < term
    requires lead != NONE ==> term in h.reign && h.reign[term].leader == lead && lead != n.cfg.id
    ensures var h' := SetTerm(h, n.cfg.id, term);
      HistInv(h') && Grows(h, h', n.cfg.id) && NodeInv(h', BecomeFollower(n, term, lead))
  {
    CoreNewTerm(h, n.cfg.id, n.term, n.vote, n.log, n.committed, term);
  }

  lemma BecomeFollowerGood(h: Hist, n: Node, term: nat, lead: NodeId) returns (h': Hist)
    requires Good(h, n) && n.term <= term
    requires lead != NONE ==> term in h.reign && h.reign[term].leader == lead && lead != n.cfg.id
    ensures Good(h', BecomeFollower(n, term, lead)) && Grows(h, h', n.cfg.id)
  {
    hide HistInv, Local, NodeInv, MsgsInv, Grows;
    BecomeFollowerLocal(n, term, lead);
    if term == n.term {
      h' := h;
      GrowsRefl(h, n.cfg.id);
      FollowerNode(h, n, lead);
    } else {
      h' := SetTerm(h, n.cfg.id, term);
      FollowerTerm(h, n, term, lead);
      MsgsInvGrow(h, h', n.cfg.id, n.msgs);
    }
  }

  // ---------------------------------------------------------------- the leader's log

  function Members(ps: seq<NodeId>): set<NodeId> {
    set p | p in ps
  }

  ghost predicate Ascending(ps: seq<NodeId>) {
    forall i, j :: 0 <= i < j < |ps| ==> ps[i] < ps[j]
  }

  /** If every peer whose record reaches k is in `good`, then `good` has that many members. */
  lemma {:induction false} ReachingSet(ps: seq<NodeId>, ms: seq<nat>, good: set<NodeId>, k: nat)
    requires |ps| == |ms| && Ascending(ps)
    requires forall i :: 0 <= i < |ps| && ms[i] >= k ==> ps[i] in good
    ensures |good * Members(ps)| >= Reaching(ms, k)
  {
    if ps != [] {
      ReachingSet(ps[1..], ms[1..], good, k);
      var a := good * Members(ps[1..]);
      var b := good * Members(ps);
      assert ps[0] !in Members(ps[1..]);
      assert a <= b;
      if ms[0] >= k { SubsetSize(a + {ps[0]}, b); } else { SubsetSize(a, b); }
    }
  }

  lemma {:induction false} MembersSize(ps: seq<NodeId>)
    requires Ascending(ps)
    ensures |Members(ps)| == |ps|
  {
    if ps != [] {
      var rest := Members(ps[1..]);
      MembersSize(ps[1..]);
      assert ps[0] !in rest;
      assert Members(ps) == rest + {ps[0]};
    }
  }

  lemma VotersSize(h: Hist, n: Node)
    requires ConfigOK(n.cfg) && (forall p :: p in n.cfg.peers <==> p in h.voters)
    ensures Members(n.cfg.peers) == h.voters && |h.voters| == |n.cfg.peers|
  {
    MembersSize(n.cfg.peers);
    assert Members(n.cfg.peers) == h.voters;
  }

  /** More than half of the voters reach k, and not more than half reach beyond it. */
  ghost predicate LastOfMost(ms: seq<nat>, k: nat) {
    2 * Reaching(ms, k) > |ms| && 2 * Reaching(ms, k + 1) <= |ms|
  }

  lemma QuorumIsMost(n: Node, k: nat)
    requires n.cfg.peers != []
    ensures 1 <= Quorum(n) <= |MatchIndexes(n)|
    ensures LastOfMost(MatchIndexes(n), k) <==> k == QuorumIndex(MatchIndexes(n), Quorum(n))
  {
    hide QuorumIndex, MatchIndexes;
    MatchCount(n);
    QuorumIndexExact(MatchIndexes(n), Quorum(n), k);
    QuorumIndexExact(MatchIndexes(n), Quorum(n), k + 1);
  }

  /** Counting replicas is sound: the index found by `maybeCommit` is on a majority. */
  lemma QuorumIndexChosen(h: Hist, n: Node, k: nat)
    requires ConfigOK(n.cfg) && (forall p :: p in n.cfg.peers <==> p in h.voters)
    requires PrsOK(n.cfg, n.prs) && PeersInv(h, n.term, |n.log|, n.prs)
    requires 0 < k && Quorum(n) <= |n.cfg.peers| && k == QuorumIndex(MatchIndexes(n), Quorum(n))
    ensures Chosen(h, n.term, k) && LastOfMost(MatchIndexes(n), k)
  {
    QuorumIndexExact(MatchIndexes(n), Quorum(n), k);
    QuorumIsMost(n, k);
    forall i | 0 <= i < |n.cfg.peers| && MatchIndexes(n)[i] >= k
      ensures n.cfg.peers[i] in Ackers(h, n.term, k)
    {
      assert n.prs[n.cfg.peers[i]].matched <= Ack(h, n.cfg.peers[i], n.term);
    }
    ReachingSet(n.cfg.peers, MatchIndexes(n), Ackers(h, n.term, k), k);
    VotersSize(h, n);
    SubsetSize(Ackers(h, n.term, k) * Members(n.cfg.peers), Ackers(h, n.term, k));
  }

  /** An entry of the leader's own term lies above the log it was elected with. */
  lemma OwnTermAboveBase(h: Hist, t: nat, k: nat)
    requires CampInv(h) && t in h.reign && ReignShape(h, t, h.reign[t])
    requires 1 <= k <= |h.reign[t].log| && h.reign[t].log[k - 1].term == t
    ensures h.reign[t].base < k
  {
  }

  /** What `maybeCommit` does. */
  lemma MaybeCommitFrame(n: Node)
    requires Local(n) && n.role.Leader?
    ensures var (n', moved) := MaybeCommit(n);
      if moved then
        && n' == n.(committed := n'.committed) && n.committed < n'.committed <= |n.log|
        && n.log[n'.committed - 1].term == n.term
        && Quorum(n) <= |n.cfg.peers| && n'.committed == QuorumIndex(MatchIndexes(n), Quorum(n))
        && LastOfMost(MatchIndexes(n), n'.committed)
      else n' == n && forall k: nat :: LastOfMost(MatchIndexes(n), k) && k > n.committed ==> TermAt(n.log, k) != n.term
  {
    hide QuorumIndex, MatchIndexes, LastOfMost;
    assert n.cfg.peers != [];
    MatchCount(n);
    forall k: nat
      ensures LastOfMost(MatchIndexes(n), k) <==> k == QuorumIndex(MatchIndexes(n), Quorum(n))
    {
      QuorumIsMost(n, k);
    }
  }

  lemma CountHist(h: Hist, n: Node, k: nat)
    requires HistInv(h) && LeaderInv(h, n.cfg.id, n.term, n.log, n.committed) && Chosen(h, n.term, k)
    requires n.committed < k <= |n.log| && n.log[k - 1].term == n.term
    ensures HistInv(Count(h, n.term, k)) && Grows(h, Count(h, n.term, k), n.cfg.id)
  {
    assert ReignShape(h, n.term, h.reign[n.term]);
    OwnTermAboveBase(h, n.term, k);
    CountInvStep(h, n.term, k);
  }

  lemma CountNode(h: Hist, n: Node, k: nat)
    requires NodeInv(h, n) && n.role.Leader? && k <= |n.log| && Grows(h, Count(h, n.term, k), n.cfg.id)
    ensures NodeInv(Count(h, n.term, k), n.(committed := k))
  {
    CountCore(h, n, k);
    PeersInvGrows(h, Count(h, n.term, k), n.cfg.id, n.term, |n.log|, n.prs);
  }

  lemma LeaderParts(h: Hist, n: Node)
    requires Local(n) && NodeInv(h, n) && n.role.Leader?
    ensures ConfigOK(n.cfg) && PrsOK(n.cfg, n.prs) && n.term > 0
    ensures forall p :: p in n.cfg.peers <==> p in h.voters
    ensures LeaderInv(h, n.cfg.id, n.term, n.log, n.committed) && PeersInv(h, n.term, |n.log|, n.prs)
  {
  }

  lemma MaybeCommitGood(h: Hist, n: Node) returns (h': Hist)
    requires Good(h, n) && n.role.Leader?
    ensures Good(h', MaybeCommit(n).0) && Grows(h, h', n.cfg.id)
  {
    hide MaybeCommit, HistInv, Local, NodeInv, MsgsInv, Grows, PrsOK, ConfigOK, PeersInv, QuorumIndex;
    LeaderParts(h, n);
    MaybeCommitLocal(n);
    MaybeCommitFrame(n);
    var (n', moved) := MaybeCommit(n);
    if moved {
      h' := Count(h, n.term, n'.committed);
      QuorumIndexChosen(h, n, n'.committed);
      CountHist(h, n, n'.committed);
      CountNode(h, n, n'.committed);
      MsgsInvGrow(h, h', n.cfg.id, n.msgs);
    } else {
      h' := h;
      GrowsRefl(h, n.cfg.id);
    }
  }

  lemma CountCore(h: Hist, n: Node, k: nat)
    requires NodeInv(h, n) && n.role.Leader? && k <= |n.log| && Grows(h, Count(h, n.term, k), n.cfg.id)
    ensures Core(Count(h, n.term, k), n.cfg.id, n.term, n.vote, n.log, k)
  {
    var h' := Count(h, n.term, k);
    LogInvGrows(h, h', n.log);
    assert CommittedBy(h', n.term, n.log, k);
    forall t, x | t in h'.reign && t < n.term + 1 && h'.reign[t].base < x <= Ack(h', n.cfg.id, t)
      ensures Kept(h', n.log, t, x)
    {
      assert Ack(h', n.cfg.id, t) == Ack(h, n.cfg.id, t);
      assert Kept(h, n.log, t, x);
      if Blocked(h, t, x) { BlockedGrows(h, h', n.cfg.id, t, x); }
    }
  }

  lemma StampTerms(n: Node, es: seq<Entry>)
    ensures forall i :: 0 <= i < |Stamp(n, es)| ==> Stamp(n, es)[i].term == n.term
  {
  }

  lemma ExtendHist(h: Hist, n: Node, es: seq<Entry>)
    requires HistInv(h) && NodeInv(h, n) && n.role.Leader? && WellIndexed(n.log + Stamp(n, es))
    ensures HistInv(Extend(h, n.term, Stamp(n, es))) && Grows(h, Extend(h, n.term, Stamp(n, es)), n.cfg.id)
  {
    StampTerms(n, es);
    ExtendInv(h, n.term, Stamp(n, es));
  }

  /** The leader's own log after an append still fits. */
  lemma ExtendCore(h: Hist, n: Node, ents: seq<Entry>)
    requires NodeInv(h, n) && n.role.Leader? && AckInv(h) && Grows(h, Extend(h, n.term, ents), n.cfg.id)
    requires LogInv(Extend(h, n.term, ents), n.log + ents)
    requires forall i :: 0 <= i < |ents| ==> ents[i].term == n.term
    ensures Core(Extend(h, n.term, ents), n.cfg.id, n.term, n.vote, n.log + ents, n.committed)
  {
    var h' := Extend(h, n.term, ents);
    var log := n.log + ents;
    CommitInvGrows(h, h', n.term, n.log, n.committed);
    CommitInvLonger(h', n.term, n.log, ents, n.committed);
    forall t, k | t in h'.reign && t < n.term + 1 && h'.reign[t].base < k <= Ack(h', n.cfg.id, t)
      ensures Kept(h', log, t, k)
    {
      if t < n.term {
        assert Ack(h', n.cfg.id, t) == Ack(h, n.cfg.id, t);
        assert AckOK(h, n.cfg.id, t);
        assert Kept(h, n.log, t, k);
        KeptGrows(h, h', n.cfg.id, n.log, t, k);
      }
    }
  }

  lemma CommitInvLonger(h: Hist, term: nat, log: Log, ents: seq<Entry>, c: nat)
    requires CommitInv(h, term, log, c)
    ensures CommitInv(h, term, log + ents, c)
  {
    if c > 0 {
      var t: nat :| t <= term && CommittedBy(h, t, log, c);
      assert CommittedBy(h, t, log + ents, c);
    }
  }

  lemma ExtendPeers(h: Hist, n: Node, es: seq<Entry>)
    requires PeersInv(h, n.term, |n.log|, n.prs) && n.cfg.id in n.prs && n.term in h.reign
    requires h.reign[n.term].leader == n.cfg.id && h.reign[n.term].log == n.log
    requires Grows(h, Extend(h, n.term, Stamp(n, es)), n.cfg.id)
    ensures PeersInv(Extend(h, n.term, Stamp(n, es)), n.term, |Grown(n, es).log|, Grown(n, es).prs)
  {
    var h' := Extend(h, n.term, Stamp(n, es));
    PeersInvGrows(h, h', n.cfg.id, n.term, |n.log|, n.prs);
    assert Ack(h', n.cfg.id, n.term) == |n.log + Stamp(n, es)|;
    assert n.prs[n.cfg.id].matched <= Ack(h', n.cfg.id, n.term);
  }

  lemma ExtendNode(h: Hist, n: Node, es: seq<Entry>)
    requires HistInv(h) && NodeInv(h, n) && n.role.Leader? && n.cfg.id in n.prs
    requires HistInv(Extend(h, n.term, Stamp(n, es))) && Grows(h, Extend(h, n.term, Stamp(n, es)), n.cfg.id)
    ensures NodeInv(Extend(h, n.term, Stamp(n, es)), Grown(n, es))
  {
    var h' := Extend(h, n.term, Stamp(n, es));
    assert ReignShape(h', n.term, h'.reign[n.term]);
    StampTerms(n, es);
    ExtendCore(h, n, Stamp(n, es));
    ExtendPeers(h, n, es);
  }

  lemma NearlyParts(h: Hist, n: Node, es: seq<Entry>)
    requires NearlyLocal(n) && NodeInv(h, n) && n.role.Leader?
    ensures WellIndexed(n.log + Stamp(n, es)) && n.cfg.id in n.prs && n.committed <= |n.log| && n.term in h.reign
  {
  }

  lemma AppendEntryGood(h: Hist, n: Node, es: seq<Entry>) returns (h': Hist)
    requires HistInv(h) && NodeInv(h, n) && MsgsInv(h, n.msgs) && n.role.Leader?
    requires NearlyLocal(n) && ConfOK(n.log + Stamp(n, es), n.pendingConfIndex)
    ensures Good(h', AppendEntry(n, es)) && Grows(h, h', n.cfg.id)
  {
    hide HistInv, Local, NodeInv, MsgsInv, Grows, NearlyLocal, ConfOK, MaybeCommit, AppendEntry;
    NearlyParts(h, n, es);
    GrownLocal(n, es);
    AppendEntryFrame(n, es);
    var h1 := Extend(h, n.term, Stamp(n, es));
    ExtendHist(h, n, es);
    ExtendNode(h, n, es);
    MsgsInvGrow(h, h1, n.cfg.id, n.msgs);
    h' := MaybeCommitGood(h1, Grown(n, es));
    GrowsTrans(h, h1, h', n.cfg.id);
  }

  // ---------------------------------------------------------------- elections

  /** Election Safety: a candidate with a majority of votes is the first leader of its term. */
  lemma NoOtherLeader(h: Hist, c: NodeId, q: set<NodeId>)
    requires HistInv(h) && Wins(h, c, q)
    requires h.term[c] in h.reign ==> h.reign[h.term[c]].leader != c
    ensures h.term[c] !in h.reign
  {
    var t := h.term[c];
    if t in h.reign {
      assert Elected(h, t, h.reign[t]);
      QuorumsMeet(h.voters, h.reign[t].quorum, q);
    }
  }

  lemma CandidateWins(h: Hist, n: Node)
    requires HistInv(h) && NodeInv(h, n) && n.role.Candidate? && ConfigOK(n.cfg)
    requires |Granted(n.votes)| == Quorum(n)
    ensures Wins(h, n.cfg.id, Granted(n.votes))
    ensures n.term in h.reign ==> h.reign[n.term].leader != n.cfg.id
  {
    var q := Granted(n.votes);
    VotersSize(h, n);
    forall p | p in q
      ensures p in h.voters
    {
      assert VoteOK(h, p, n.term, h.votes[(p, n.term)]);
    }
  }

  /** A node about to lead: the state in which it appends its first entry. */
  function TakingOffice(n: Node): Node {
    Reset(n, n.term).(lead := n.cfg.id, role := Leader, pendingConfIndex := LastIndex(n))
  }

  lemma ElectNode(h: Hist, n: Node)
    requires HistInv(h) && NodeInv(h, n) && n.role.Candidate? && n.term !in h.reign
    requires (n.cfg.id, n.term) in h.camp && Grows(h, Elect(h, n.cfg.id, Granted(n.votes)), n.cfg.id)
    ensures NodeInv(Elect(h, n.cfg.id, Granted(n.votes)), TakingOffice(n))
  {
    hide Granted, FreshPeers;
    var h' := Elect(h, n.cfg.id, Granted(n.votes));
    ElectCore(h, n);
    ElectPeers(h, n);
  }

  lemma ElectPeers(h: Hist, n: Node)
    requires HistInv(h) && (n.cfg.id, n.term) in h.camp && n.cfg.id in h.term && h.term[n.cfg.id] == n.term
    requires h.camp[(n.cfg.id, n.term)] == n.log
    ensures PeersInv(Elect(h, n.cfg.id, Granted(n.votes)), n.term, |n.log|, FreshPeers(n.cfg.id, n.cfg.peers, |n.log|))
  {
  }

  lemma ElectCore(h: Hist, n: Node)
    requires HistInv(h) && NodeInv(h, n) && n.role.Candidate? && n.term !in h.reign
    requires (n.cfg.id, n.term) in h.camp && Grows(h, Elect(h, n.cfg.id, Granted(n.votes)), n.cfg.id)
    ensures Core(Elect(h, n.cfg.id, Granted(n.votes)), n.cfg.id, n.term, n.vote, n.log, n.committed)
  {
    hide Granted;
    var h' := Elect(h, n.cfg.id, Granted(n.votes));
    LogInvGrows(h, h', n.log);
    CommitInvGrows(h, h', n.term, n.log, n.committed);
    forall t, k | t in h'.reign && t < n.term + 1 && h'.reign[t].base < k <= Ack(h', n.cfg.id, t)
      ensures Kept(h', n.log, t, k)
    {
      if t < n.term {
        assert Ack(h', n.cfg.id, t) == Ack(h, n.cfg.id, t);
        assert AckOK(h, n.cfg.id, t);
        assert Kept(h, n.log, t, k);
        KeptGrows(h, h', n.cfg.id, n.log, t, k);
      }
    }
    assert h'.votes == h.votes;
  }

  lemma ElectLocal(n: Node)
    requires Local(n) && n.term > 0
    ensures NearlyLocal(TakingOffice(n))
    ensures ConfOK(TakingOffice(n).log + Stamp(TakingOffice(n), [Entry(0, 0, EntryNormal, "")]), TakingOffice(n).pendingConfIndex)
  {
    ResetLocal(n.(role := Follower), n.term);
  }

  lemma CandidateParts(h: Hist, n: Node)
    requires Local(n) && NodeInv(h, n) && n.role.Candidate?
    ensures n.term > 0 && ConfigOK(n.cfg) && (n.cfg.id, n.term) in h.camp && n.cfg.id in h.term && h.term[n.cfg.id] == n.term
  {
  }

  lemma BecomeLeaderGood(h: Hist, n: Node) returns (h': Hist)
    requires Good(h, n) && n.role.Candidate? && |Granted(n.votes)| == Quorum(n)
    ensures Good(h', BecomeLeader(n)) && Grows(h, h', n.cfg.id)
    ensures BecomeLeader(n).role.Leader? && BecomeLeader(n).cfg == n.cfg
  {
    hide HistInv, Local, NodeInv, MsgsInv, Grows, NearlyLocal, ConfOK, AppendEntry, Wins, ConfigOK, Granted;
    CandidateParts(h, n);
    CandidateWins(h, n);
    NoOtherLeader(h, n.cfg.id, Granted(n.votes));
    var h1 := Elect(h, n.cfg.id, Granted(n.votes));
    ElectInvStep(h, n.cfg.id, Granted(n.votes));
    ElectNode(h, n);
    ElectLocal(n);
    MsgsInvGrow(h, h1, n.cfg.id, n.msgs);
    h' := AppendEntryGood(h1, TakingOffice(n), [Entry(0, 0, EntryNormal, "")]);
    GrowsTrans(h, h1, h', n.cfg.id);
    BecomeLeaderFrame(n);
  }

  lemma BecomeLeaderFrame(n: Node)
    requires !n.role.Follower?
    ensures BecomeLeader(n) == AppendEntry(TakingOffice(n), [Entry(0, 0, EntryNormal, "")])
    ensures BecomeLeader(n).role.Leader? && BecomeLeader(n).cfg == n.cfg
  {
    hide AppendEntry, FreshPeers;
    AppendEntryRole(TakingOffice(n), [Entry(0, 0, EntryNormal, "")]);
  }

  // ---------------------------------------------------------------- campaigns

  lemma StandCore(h: Hist, j: NodeId, term: nat, vote: NodeId, log: Log, committed: nat)
    requires HistInv(h) && Core(h, j, term, vote, log, committed) && j != NONE
    ensures var h' := Stand(h, j, log);
      && HistInv(h') && Grows(h, h', j)
      && Core(h', j, term + 1, j, log, committed)
      && (term + 1 in h'.reign ==> h'.reign[term + 1].leader != j)
  {
    var h' := Stand(h, j, log);
    StandInv(h, j, log);
    LogInvGrows(h, h', log);
    CommitInvGrows(h, h', term, log, committed);
    assert CommitInv(h', term + 1, log, committed);
    assert AckOK(h, j, term + 1);
    KeepsLater(h, h', j, log, term, term + 1);
    if term + 1 in h.reign { assert ReignShape(h, term + 1, h.reign[term + 1]); }
  }

  /** The node as a candidate, having voted for itself. */
  function Standing(n: Node): Node {
    Poll(BecomeCandidate(n), n.cfg.id, true).0
  }

  lemma StandingFrame(n: Node)
    requires !n.role.Leader? && n.cfg.id != NONE
    ensures var s := Standing(n);
      && s.cfg == n.cfg && s.term == n.term + 1 && s.vote == n.cfg.id && s.role == Candidate && s.log == n.log
      && s.committed == n.committed && s.lead == NONE && s.votes == map[n.cfg.id := true] && s.msgs == n.msgs
      && Poll(BecomeCandidate(n), n.cfg.id, true) == (s, 1) && |Granted(s.votes)| == 1
  {
    assert Granted(map[n.cfg.id := true]) == {n.cfg.id};
  }

  lemma StandingNode(h: Hist, n: Node)
    requires HistInv(h) && NodeInv(h, n) && !n.role.Leader? && n.cfg.id != NONE
    ensures n.cfg.id in h.term
    ensures var h' := Stand(h, n.cfg.id, n.log);
      HistInv(h') && Grows(h, h', n.cfg.id) && NodeInv(h', Standing(n))
  {
    StandCore(h, n.cfg.id, n.term, n.vote, n.log, n.committed);
    StandingFrame(n);
  }

  lemma StandingLocal(n: Node)
    requires Local(n) && !n.role.Leader?
    ensures Local(Standing(n)) && n.cfg.id != NONE
  {
    ResetLocal(n.(role := Follower), n.term + 1);
    PollLocal(BecomeCandidate(n), n.cfg.id, true);
  }

  lemma VoteRequestInv(h: Hist, n: Node, t: CampaignType, to: NodeId)
    requires Local(n) && NodeInv(h, n) && (t.PreElection? || n.role.Candidate?)
    ensures !BadTerm(VoteRequest(n, t)) && MsgInv(h, Stamped(n, VoteRequest(n, t).(to := to)))
  {
  }

  lemma {:induction false} SendVotesGood(h: Hist, n: Node, ps: seq<NodeId>, m: Message)
    requires Good(h, n) && IsCampaignMsg(m.kind) && !BadTerm(m)
    requires forall to :: MsgInv(h, Stamped(n, m.(to := to)))
    ensures Good(h, SendVotes(n, ps, m))
    decreases |ps|
  {
    hide Good;
    if ps != [] {
      if ps[0] == n.cfg.id {
        SendVotesGood(h, n, ps[1..], m);
      } else {
        SendGood(h, n, m.(to := ps[0]));
        var n1 := Send(n, m.(to := ps[0]));
        forall to
          ensures MsgInv(h, Stamped(n1, m.(to := to)))
        {
          assert Stamped(n1, m.(to := to)) == Stamped(n, m.(to := to));
        }
        SendVotesGood(h, n1, ps[1..], m);
      }
    }
  }

  lemma RequestVotesGood(h: Hist, n: Node, t: CampaignType)
    requires Good(h, n) && (t.PreElection? || n.role.Candidate?)
    ensures Good(h, SendVotes(n, n.cfg.peers, VoteRequest(n, t)))
  {
    hide HistInv, Local, NodeInv, MsgsInv, MsgInv, VoteRequest;
    forall to
      ensures MsgInv(h, Stamped(n, VoteRequest(n, t).(to := to)))
    {
      VoteRequestInv(h, n, t, to);
    }
    VoteRequestInv(h, n, t, NONE);
    VoteRequestKind(n, t);
    SendVotesGood(h, n, n.cfg.peers, VoteRequest(n, t));
  }

  lemma VoteRequestKind(n: Node, t: CampaignType)
    ensures IsCampaignMsg(VoteRequest(n, t).kind)
  {
  }

  lemma RunForOfficeGood(h: Hist, n: Node, t: CampaignType) returns (h': Hist)
    requires Good(h, n) && !t.PreElection? && !n.role.Leader?
    ensures Good(h', RunForOffice(n, t)) && Grows(h, h', n.cfg.id)
  {
    hide HistInv, Local, NodeInv, MsgsInv, Grows, BecomeLeader, SendVotes, VoteRequest, BecomeCandidate, Poll, Granted;
    StandingLocal(n);
    StandingFrame(n);
    StandingNode(h, n);
    var n1 := Standing(n);
    var h1 := Stand(h, n.cfg.id, n.log);
    MsgsInvGrow(h, h1, n.cfg.id, n.msgs);
    if Quorum(n1) == 1 {
      h' := BecomeLeaderGood(h1, n1);
      GrowsTrans(h, h1, h', n.cfg.id);
    } else {
      h' := h1;
      RequestVotesGood(h1, n1, t);
    }
  }

  lemma PreCandidateGood(h: Hist, n: Node)
    requires Good(h, n) && !n.role.Leader?
    ensures var p := Poll(BecomePreCandidate(n), n.cfg.id, true).0;
      Good(h, p) && p.role.PreCandidate? && p.cfg == n.cfg
  {
    PollLocal(BecomePreCandidate(n), n.cfg.id, true);
  }

  lemma CampaignGood(h: Hist, n: Node, t: CampaignType) returns (h': Hist)
    requires Good(h, n) && !n.role.Leader?
    ensures Good(h', Campaign(n, t)) && Grows(h, h', n.cfg.id)
  {
    hide Good, Grows, RunForOffice, SendVotes, VoteRequest, BecomePreCandidate, Granted;
    h' := h;
    if t.PreElection? {
      PreCandidateGood(h, n);
      var (n1, granted) := Poll(BecomePreCandidate(n), n.cfg.id, true);
      if Quorum(n1) == granted {
        h' := RunForOfficeGood(h, n1, Election);
      } else {
        GrowsRefl(h, n.cfg.id);
        RequestVotesGood(h, n1, t);
      }
    } else {
      h' := RunForOfficeGood(h, n, t);
    }
  }

  // ---------------------------------------------------------------- acknowledging

  /** A node may acknowledge whatever it shares with the leader of its term. */
  lemma AckCore(h: Hist, j: NodeId, term: nat, vote: NodeId, log: Log, committed: nat, k: nat)
    requires HistInv(h) && Core(h, j, term, vote, log, committed)
    requires term in h.reign && Agree(h.reign[term].log, log, k)
    ensures var h' := Acknowledge(h, j, k);
      HistInv(h') && Grows(h, h', j) && Core(h', j, term, vote, log, committed) && k <= Ack(h', j, term)
      && h'.reign == h.reign
  {
    var h' := Acknowledge(h, j, k);
    AcknowledgeInv(h, j, k);
    LogInvGrows(h, h', log);
    CommitInvGrows(h, h', term, log, committed);
    forall t, x | t in h'.reign && t < term + 1 && h'.reign[t].base < x <= Ack(h', j, t)
      ensures Kept(h', log, t, x)
    {
      if t < term {
        assert Ack(h', j, t) == Ack(h, j, t);
        assert AckOK(h, j, t);
        assert Kept(h, log, t, x);
        KeptGrows(h, h', j, log, t, x);
      }
    }
  }

  /** Logs that agree in the term at an index agree up to it. */
  lemma SameTermAgree(h: Hist, a: Log, b: Log, i: nat)
    requires LogInv(h, a) && LogInv(h, b) && ReignInv(h)
    requires i <= |b| && TermAt(a, i) == TermAt(b, i)
    ensures Agree(a, b, i)
  {
    if i > 0 {
      assert MatchAt(h, b, i - 1);
      assert ReignShape(h, b[i - 1].term, h.reign[b[i - 1].term]);
      assert MatchAt(h, a, i - 1);
    }
  }

  /** Entries of a known log carry real terms. */
  lemma TermsPositive(h: Hist, log: Log)
    requires LogInv(h, log) && ReignInv(h)
    ensures forall i :: 0 <= i < |log| ==> log[i].term > 0
  {
    forall i | 0 <= i < |log|
      ensures log[i].term > 0
    {
      assert MatchAt(h, log, i);
      assert ReignShape(h, log[i].term, h.reign[log[i].term]);
    }
  }

  lemma SliceProper(h: Hist, log: Log, index: nat, logTerm: nat, ents: seq<Entry>)
    requires LogInv(h, log) && ReignInv(h) && SliceOf(log, index, logTerm, ents)
    ensures ProperAppend(index, logTerm, ents)
  {
    TermsPositive(h, log);
  }

  /** What an accepted append from the leader leaves: the old log, which then has everything the
      message carries, or the leader's log up to the end of the message. */
  ghost predicate CaughtUp(log: Log, lead: Log, last: nat, r: Log) {
    && Agree(lead, r, last)
    && (r == log || (|r| == last && forall k: nat {:trigger Agree(log, r, k)} :: Agree(log, lead, k) ==> Agree(log, r, k)))
  }

  lemma AcceptedLog(h: Hist, log: Log, committed: nat, lead: Log, m: Message)
    requires LogInv(h, log) && LogInv(h, lead) && ReignInv(h)
    requires SliceOf(lead, m.index, m.logTerm, m.entries) && committed <= m.index && committed <= |log|
    requires MaybeAppend(log, committed, m.index, m.logTerm, m.commit, m.entries).ok
    ensures var r := MaybeAppend(log, committed, m.index, m.logTerm, m.commit, m.entries);
      && r.last == m.index + |m.entries| && CaughtUp(log, lead, r.last, r.log)
      && Agree(log, r.log, committed) && r.committed == Max(committed, Min(m.commit, r.last))
  {
    hide FindConflict;
    SliceProper(h, lead, m.index, m.logTerm, m.entries);
    MaybeAppendCorrect(log, committed, m.index, m.logTerm, m.commit, m.entries);
    ConflictPoint(log, m.entries, m.index);
    SameTermAgree(h, log, lead, m.index);
    var r := MaybeAppend(log, committed, m.index, m.logTerm, m.commit, m.entries);
    if FindConflict(log, m.entries) == 0 {
      MatchedIsLeaders(h, log, lead, m.index, m.entries, |m.entries|);
    } else {
      ConflictInReach(log, m.index, m.entries);
      CutIsLeaders(h, log, committed, lead, m);
    }
  }

  /** The part of the message the log has already, by its terms, is what the leader has. */
  lemma {:induction false} MatchedIsLeaders(h: Hist, log: Log, lead: Log, index: nat, ents: seq<Entry>, n: nat)
    requires LogInv(h, log) && LogInv(h, lead) && ReignInv(h) && Agree(log, lead, index)
    requires index + |ents| <= |lead| && (forall i :: 0 <= i < |ents| ==> ents[i] == lead[index + i])
    requires n <= |ents| && MatchesFirst(log, ents, index, n)
    ensures Agree(log, lead, index + n)
  {
    if n > 0 {
      assert TermAt(log, index + n) == ents[n - 1].term;
      assert ents[n - 1] == lead[index + (n - 1)];
      SameTermAgree(h, log, lead, index + n);
    }
  }

  lemma CutIsLeaders(h: Hist, log: Log, committed: nat, lead: Log, m: Message)
    requires LogInv(h, log) && LogInv(h, lead) && ReignInv(h) && Agree(log, lead, m.index)
    requires SliceOf(lead, m.index, m.logTerm, m.entries) && committed <= m.index
    requires TermAt(log, m.index) == m.logTerm && Follows(m.entries, m.index)
    requires 0 < FindConflict(log, m.entries) <= |log| + 1
    ensures var r := MaybeAppend(log, committed, m.index, m.logTerm, m.commit, m.entries);
      r.last == m.index + |m.entries| && CaughtUp(log, lead, r.last, r.log)
  {
    hide MaybeAppend, FindConflict, Spliced, LogInv, ReignInv, CaughtUp;
    ConflictPoint(log, m.entries, m.index);
    var ci := FindConflict(log, m.entries);
    var x := ci - (m.index + 1);
    MaybeAppendCuts(log, committed, m.index, m.logTerm, m.commit, m.entries, x);
    MatchedIsLeaders(h, log, lead, m.index, m.entries, x);
    SplicedIsLeaders(log, lead, m.index, m.entries, x);
  }

  lemma SplicedIsLeaders(log: Log, lead: Log, index: nat, ents: seq<Entry>, x: nat)
    requires index + |ents| <= |lead| && (forall i :: 0 <= i < |ents| ==> ents[i] == lead[index + i])
    requires x < |ents| && Agree(log, lead, index + x) && TermAt(log, index + 1 + x) != ents[x].term
    ensures CaughtUp(log, lead, index + |ents|, Spliced(log, index, ents, x))
  {
  }

  /** A log that has caught up with the leader of its term still fits the history. */
  lemma AcceptedCore(h: Hist, j: NodeId, term: nat, vote: NodeId, log: Log, committed: nat, last: nat, r: Log, commit: nat)
    requires HistInv(h) && Core(h, j, term, vote, log, committed)
    requires term in h.reign && CaughtUp(log, h.reign[term].log, last, r) && Agree(log, r, committed)
    requires last <= |h.reign[term].log| && CommitOK(h, term, commit)
    ensures Core(h, j, term, vote, r, Max(committed, Min(commit, last)))
  {
    var lead := h.reign[term].log;
    assert ReignShape(h, term, h.reign[term]);
    assert LogInv(h, r) && TermsUpTo(r, term) by {
      if r != log { PrefixInv(h, term, last, r); }
    }
    assert Keeps(h, j, r, term + 1) && Holds(h, j, term, r) by {
      if r != log { CaughtUpKeeps(h, j, term, log, last, r); }
    }
    CommitInvMoves(h, term, log, committed, last, r, commit);
  }

  /** A prefix of the leader's log fits the history. */
  lemma PrefixInv(h: Hist, term: nat, last: nat, r: Log)
    requires HistInv(h) && term in h.reign && Agree(h.reign[term].log, r, last) && |r| == last
    ensures LogInv(h, r) && TermsUpTo(r, term)
  {
    var lead := h.reign[term];
    assert ReignShape(h, term, lead);
    assert CampOK(h, lead.leader, term, h.camp[(lead.leader, term)]);
    forall i | 0 <= i < |r|
      ensures MatchAt(h, r, i) && r[i].term <= term
    {
      assert MatchAt(h, lead.log, i);
      if i < lead.base { assert r[i] == h.camp[(lead.leader, term)][i]; }
    }
  }

  lemma CaughtUpKeeps(h: Hist, j: NodeId, term: nat, log: Log, last: nat, r: Log)
    requires HistInv(h) && term in h.reign && CaughtUp(log, h.reign[term].log, last, r) && r != log
    requires Keeps(h, j, log, term + 1) && Holds(h, j, term, log)
    ensures Keeps(h, j, r, term + 1) && Holds(h, j, term, r)
  {
    var lead := h.reign[term].log;
    forall t, k | t in h.reign && t < term + 1 && h.reign[t].base < k <= Ack(h, j, t)
      ensures Kept(h, r, t, k)
    {
      assert Kept(h, log, t, k);
      assert AckOK(h, j, t);
      if t < term { assert Kept(h, lead, t, k); }
      if Agree(h.reign[t].log, log, k) && Agree(h.reign[t].log, lead, k) {
        assert Agree(log, lead, k);
        assert Agree(log, r, k);
      }
    }
    var a := Ack(h, j, term);
    if a > 0 {
      assert Agree(log, lead, a);
      assert Agree(log, r, a);
    }
  }

  lemma CommitInvMoves(h: Hist, term: nat, log: Log, committed: nat, last: nat, r: Log, commit: nat)
    requires HistInv(h) && CommitInv(h, term, log, committed) && Agree(log, r, committed)
    requires term in h.reign && Agree(h.reign[term].log, r, last) && CommitOK(h, term, commit)
    ensures CommitInv(h, term, r, Max(committed, Min(commit, last)))
  {
    var c := Min(commit, last);
    if c > committed {
      var t :| t <= term && t in h.reign && commit <= h.reign[t].counted;
      LeaderCompleteness(h, t, term);
      assert CommittedBy(h, t, r, c);
    } else if committed > 0 {
      var t: nat :| t <= term && CommittedBy(h, t, log, committed);
      assert CommittedBy(h, t, r, committed);
    }
  }

  /** What a follower has committed, the leader of its term has too. */
  lemma CommittedIsLeaders(h: Hist, n: Node)
    requires HistInv(h) && NodeInv(h, n) && n.term in h.reign && n.committed <= |n.log|
    ensures Agree(h.reign[n.term].log, n.log, n.committed)
  {
    if n.committed > 0 {
      var t: nat :| t <= n.term && CommittedBy(h, t, n.log, n.committed);
      LeaderCompleteness(h, t, n.term);
    }
  }

  /** The node after the log part of an accepted append. */
  function Accepted(n: Node, m: Message): Node {
    var r := MaybeAppend(n.log, n.committed, m.index, m.logTerm, m.commit, m.entries);
    n.(log := r.log, committed := r.committed)
  }

  ghost predicate FromMyLeader(h: Hist, n: Node, m: Message) {
    && n.role.Follower? && m.term == n.term && m.to == n.cfg.id
    && m.term in h.reign && m.from in h.voters && MsgInv(h, m)
  }

  lemma AcceptedNode(h: Hist, n: Node, m: Message)
    requires HistInv(h) && NodeInv(h, n) && n.committed <= |n.log| && FromMyLeader(h, n, m) && m.kind.MsgApp?
    requires n.committed <= m.index
    requires MaybeAppend(n.log, n.committed, m.index, m.logTerm, m.commit, m.entries).ok
    ensures NodeInv(h, Accepted(n, m))
    ensures Agree(h.reign[n.term].log, Accepted(n, m).log, m.index + |m.entries|)
    ensures MaybeAppend(n.log, n.committed, m.index, m.logTerm, m.commit, m.entries).last == m.index + |m.entries|
  {
    var lead := h.reign[n.term].log;
    assert ReignShape(h, n.term, h.reign[n.term]);
    AcceptedLog(h, n.log, n.committed, lead, m);
    var r := MaybeAppend(n.log, n.committed, m.index, m.logTerm, m.commit, m.entries);
    AcceptedCore(h, n.cfg.id, n.term, n.vote, n.log, n.committed, r.last, r.log, m.commit);
  }

  lemma AckNode(h: Hist, n: Node, k: nat)
    requires HistInv(h) && NodeInv(h, n) && n.role.Follower? && n.term in h.reign
    requires Agree(h.reign[n.term].log, n.log, k)
    ensures n.cfg.id in h.term
    ensures var h' := Acknowledge(h, n.cfg.id, k);
      HistInv(h') && Grows(h, h', n.cfg.id) && NodeInv(h', n) && k <= Ack(h', n.cfg.id, n.term)
  {
    AckCore(h, n.cfg.id, n.term, n.vote, n.log, n.committed, k);
  }

  /** Acknowledging k to the leader. */
  lemma AckGood(h: Hist, n: Node, to: NodeId, k: nat) returns (h': Hist)
    requires Good(h, n) && n.role.Follower? && n.term in h.reign && n.term > 0 && to != n.cfg.id
    requires Agree(h.reign[n.term].log, n.log, k)
    ensures Good(h', Send(n, Blank(MsgAppResp, to).(index := k))) && Grows(h, h', n.cfg.id)
  {
    hide HistInv, Local, NodeInv, MsgsInv, Grows, Agree;
    AckNode(h, n, k);
    h' := Acknowledge(h, n.cfg.id, k);
    MsgsInvGrow(h, h', n.cfg.id, n.msgs);
    NodeVoter(h', n);
    SendGood(h', n, Blank(MsgAppResp, to).(index := k));
  }

  lemma NodeVoter(h: Hist, n: Node)
    requires NodeInv(h, n)
    ensures n.cfg.id in h.voters
  {
  }

  lemma AppendInputs(h: Hist, n: Node, m: Message)
    requires HistInv(h) && Local(n) && FromMyLeader(h, n, m) && m.kind.MsgApp?
    ensures ProperAppend(m.index, m.logTerm, m.entries) && n.term > 0 && m.from != n.cfg.id && n.committed <= |n.log|
    ensures n.term in h.reign
  {
    assert ReignShape(h, m.term, h.reign[m.term]);
    SliceProper(h, h.reign[m.term].log, m.index, m.logTerm, m.entries);
  }

  lemma AcceptedLocal(n: Node, m: Message)
    requires Local(n) && !n.role.Leader? && ProperAppend(m.index, m.logTerm, m.entries) && n.committed <= m.index
    requires MaybeAppend(n.log, n.committed, m.index, m.logTerm, m.commit, m.entries).ok
    ensures Local(Accepted(n, m))
    ensures !MaybeAppend(n.log, n.committed, m.index, m.logTerm, m.commit, m.entries).panic
  {
    MaybeAppendCorrect(n.log, n.committed, m.index, m.logTerm, m.commit, m.entries);
    ConflictPoint(n.log, m.entries, m.index);
    var r := MaybeAppend(n.log, n.committed, m.index, m.logTerm, m.commit, m.entries);
    ReadsLater(n.readOnly, n.committed, r.committed);
  }

  lemma RejectedFrame(n: Node, m: Message)
    requires !(m.index < n.committed)
    requires !MaybeAppend(n.log, n.committed, m.index, m.logTerm, m.commit, m.entries).ok
    ensures HandleAppendEntries(n, m) ==
      Send(n, Blank(MsgAppResp, m.from).(index := m.index, reject := true, rejectHint := LastIndex(n)))
  {
  }

  lemma AcceptedFrame(n: Node, m: Message)
    requires !(m.index < n.committed)
    requires var r := MaybeAppend(n.log, n.committed, m.index, m.logTerm, m.commit, m.entries);
      r.ok && !r.panic && r.last == m.index + |m.entries|
    ensures HandleAppendEntries(n, m) == Send(Accepted(n, m), Blank(MsgAppResp, m.from).(index := m.index + |m.entries|))
  {
  }

  lemma HandleAppendEntriesGood(h: Hist, n: Node, m: Message) returns (h': Hist)
    requires Good(h, n) && FromMyLeader(h, n, m) && m.kind.MsgApp?
    ensures Good(h', HandleAppendEntries(n, m)) && Grows(h, h', n.cfg.id)
  {
    hide HistInv, Local, NodeInv, MsgsInv, MsgInv, Grows, Agree, MaybeAppend, ProperAppend;
    AppendInputs(h, n, m);
    if m.index < n.committed {
      CommittedIsLeaders(h, n);
      h' := AckGood(h, n, m.from, n.committed);
    } else if MaybeAppend(n.log, n.committed, m.index, m.logTerm, m.commit, m.entries).ok {
      AcceptedNode(h, n, m);
      AcceptedLocal(n, m);
      AcceptedFrame(n, m);
      h' := AckGood(h, Accepted(n, m), m.from, m.index + |m.entries|);
    } else {
      h' := h;
      GrowsRefl(h, n.cfg.id);
      RejectedFrame(n, m);
      RejectGood(h, n, m);
    }
  }

  lemma RejectGood(h: Hist, n: Node, m: Message)
    requires Good(h, n) && n.term > 0 && m.from != n.cfg.id
    ensures Good(h, Send(n, Blank(MsgAppResp, m.from).(index := m.index, reject := true, rejectHint := LastIndex(n))))
  {
    hide HistInv, Local, NodeInv, MsgsInv;
    NodeVoter(h, n);
    SendGood(h, n, Blank(MsgAppResp, m.from).(index := m.index, reject := true, rejectHint := LastIndex(n)));
  }

  // ---------------------------------------------------------------- heartbeats

  lemma CommittedFits(n: Node)
    requires Local(n)
    ensures n.committed <= |n.log|
  {
  }

  lemma HeartbeatInputs(h: Hist, n: Node, m: Message)
    requires HistInv(h) && Local(n) && NodeInv(h, n) && FromMyLeader(h, n, m) && m.kind.MsgHeartbeat?
    ensures m.commit <= |n.log| && n.committed <= |n.log| && n.role.Follower? && n.term > 0 && m.from != n.cfg.id
    ensures Core(h, n.cfg.id, n.term, n.vote, n.log, Max(n.committed, m.commit))
  {
    hide HistInv, LogInv, Keeps, TermsUpTo, CommitInv;
    ReignTerm(h, m.term);
    CommittedFits(n);
    var lead := h.reign[n.term].log;
    assert m.commit > 0 ==> Agree(lead, n.log, m.commit);
    CommitInvMoves(h, n.term, n.log, n.committed, m.commit, n.log, m.commit);
  }

  lemma HandleHeartbeatGood(h: Hist, n: Node, m: Message)
    requires Good(h, n) && FromMyLeader(h, n, m) && m.kind.MsgHeartbeat?
    ensures Good(h, HandleHeartbeat(n, m))
  {
    hide HistInv, Local, NodeInv, MsgsInv, FromMyLeader, Core, Send, HandleHeartbeat;
    HeartbeatInputs(h, n, m);
    var c := Max(n.committed, m.commit);
    var n1 := n.(committed := c);
    CommittedLocal(n, c);
    CommittedNode(h, n, c);
    HeartbeatFrame(n, m);
    NodeVoter(h, n1);
    SendGood(h, n1, Blank(MsgHeartbeatResp, m.from).(context := m.context));
  }

  lemma CommittedLocal(n: Node, c: nat)
    requires Local(n) && n.committed <= c <= |n.log|
    ensures Local(n.(committed := c))
  {
  }

  lemma CommittedNode(h: Hist, n: Node, c: nat)
    requires NodeInv(h, n) && n.role.Follower? && Core(h, n.cfg.id, n.term, n.vote, n.log, c)
    ensures NodeInv(h, n.(committed := c))
  {
  }

  lemma HeartbeatFrame(n: Node, m: Message)
    requires m.commit <= |n.log|
    ensures HandleHeartbeat(n, m) ==
            Send(n.(committed := Max(n.committed, m.commit)), Blank(MsgHeartbeatResp, m.from).(context := m.context))
  {
  }

  // ---------------------------------------------------------------- followers and candidates

  /** A message the application or the clock hands to its own node. */
  ghost predicate LocalMsg(m: Message) {
    && m.term == 0
    && (m.kind.MsgHup? || m.kind.MsgBeat? || m.kind.MsgProp? || m.kind.MsgCheckQuorum? || m.kind.MsgReadIndex?
        || m.kind.MsgUnreachable? || m.kind.MsgSnapStatus? || m.kind.MsgTransferLeader?)
    && (m.kind.MsgProp? || m.kind.MsgReadIndex? ==> m.entries != [])
  }

  /** A message that may be dispatched: a local one, or one from the network once its term is noted. */
  ghost predicate Due(h: Hist, n: Node, m: Message) {
    LocalMsg(m) || (MsgInv(h, m) && m.to == n.cfg.id && Current(n, m))
  }

  lemma ReignTerm(h: Hist, t: nat)
    requires HistInv(h) && t in h.reign
    ensures t > 0
  {
    assert ReignShape(h, t, h.reign[t]);
  }

  lemma LeadIsLeader(h: Hist, n: Node)
    requires NodeInv(h, n)
    ensures n.cfg.id in h.voters
    ensures n.lead != NONE ==> n.term in h.reign && h.reign[n.term].leader == n.lead
    ensures !n.role.Leader? && n.term in h.reign && h.reign[n.term].leader == n.cfg.id ==> n.lead == NONE
  {
  }

  /** Handing a request on to the leader. */
  lemma ForwardGood(h: Hist, n: Node, m: Message)
    requires Good(h, n) && Due(h, n, m) && n.role.Follower? && n.lead != NONE
    requires m.kind.MsgProp? || m.kind.MsgReadIndex? || m.kind.MsgTransferLeader?
    ensures Good(h, Send(n, m.(to := n.lead)))
  {
    hide HistInv, Local, NodeInv, MsgsInv;
    LeadIsLeader(h, n);
    if MsgInv(h, m) && m.kind.MsgTransferLeader? { ReignTerm(h, m.term); }
    SendGood(h, n, m.(to := n.lead));
  }

  lemma HeardGood(h: Hist, n: Node, m: Message)
    requires Good(h, n) && n.role.Follower? && Due(h, n, m) && (m.kind.MsgApp? || m.kind.MsgHeartbeat?)
    ensures var n1 := n.(electionElapsed := 0, lead := m.from); Good(h, n1) && FromMyLeader(h, n1, m)
  {
    hide HistInv, MsgsInv;
    ReignTerm(h, m.term);
  }

  lemma StepFollowerGood(h: Hist, n: Node, m: Message) returns (h': Hist)
    requires Good(h, n) && Due(h, n, m) && n.role.Follower?
    ensures Good(h', StepFollower(n, m)) && Grows(h, h', n.cfg.id)
  {
    hide HistInv, Local, NodeInv, MsgsInv, MsgInv, Due, Grows, Send, HandleAppendEntries, HandleHeartbeat, Campaign, FromMyLeader;
    h' := h;
    GrowsRefl(h, n.cfg.id);
    var n1 := n.(electionElapsed := 0, lead := m.from);
    match m.kind
    case MsgProp => if n.lead != NONE { ForwardGood(h, n, m); }
    case MsgReadIndex => if n.lead != NONE { ForwardGood(h, n, m); }
    case MsgTransferLeader => if n.lead != NONE { ForwardGood(h, n, m); }
    case MsgApp =>
      HeardGood(h, n, m);
      h' := HandleAppendEntriesGood(h, n1, m);
    case MsgHeartbeat =>
      HeardGood(h, n, m);
      HandleHeartbeatGood(h, n1, m);
    case MsgTimeoutNow =>
      if n.cfg.id in n.prs { h' := CampaignGood(h, n, Transfer); }
    case MsgReadIndexResp =>
      if |m.entries| == 1 { ReadStatesGood(h, n, n.readStates + [ReadState(m.index, m.entries[0].data)]); }
    case MsgSnap => PanicGood(h, n);
    case _ =>
  }

  lemma ReadStatesGood(h: Hist, n: Node, rs: seq<ReadState>)
    requires Good(h, n)
    ensures Good(h, n.(readStates := rs))
  {
  }

  lemma PanicGood(h: Hist, n: Node)
    requires Good(h, n)
    ensures Good(h, Panic(n))
  {
  }

  lemma CandidateHears(h: Hist, n: Node, m: Message)
    requires Good(h, n) && !n.role.Leader? && Due(h, n, m) && (m.kind.MsgApp? || m.kind.MsgHeartbeat?)
    ensures m.term == n.term && m.term in h.reign && h.reign[m.term].leader == m.from && m.from != n.cfg.id
  {
    hide HistInv, Local, NodeInv, MsgsInv;
    ReignTerm(h, m.term);
  }

  lemma HeardByFollower(h: Hist, n: Node, m: Message)
    requires MsgInv(h, m) && n.role.Follower? && n.term == m.term && m.to == n.cfg.id
    requires m.kind.MsgApp? || m.kind.MsgHeartbeat?
    ensures FromMyLeader(h, n, m)
  {
  }

  lemma CandidateYields(h: Hist, n: Node, m: Message) returns (h': Hist)
    requires Good(h, n) && !n.role.Leader? && Due(h, n, m) && (m.kind.MsgApp? || m.kind.MsgHeartbeat?)
    ensures var n1 := BecomeFollower(n, m.term, m.from);
      Good(h', n1) && Grows(h, h', n.cfg.id) && FromMyLeader(h', n1, m) && n1.cfg == n.cfg
  {
    hide HistInv, Local, NodeInv, MsgsInv, Grows, FromMyLeader, MsgInv;
    CandidateHears(h, n, m);
    h' := BecomeFollowerGood(h, n, m.term, m.from);
    MsgInvGrows(h, h', n.cfg.id, m);
    HeardByFollower(h', BecomeFollower(n, m.term, m.from), m);
  }

  lemma PollGood(h: Hist, n: Node, m: Message)
    requires Good(h, n) && Due(h, n, m)
    requires (m.kind.MsgVoteResp? && n.role.Candidate?) || n.role.PreCandidate?
    ensures Good(h, Poll(n, m.from, !m.reject).0)
    ensures Poll(n, m.from, !m.reject).1 == |Granted(Poll(n, m.from, !m.reject).0.votes)|
  {
    hide HistInv, Local, MsgsInv;
    PollLocal(n, m.from, !m.reject);
  }

  lemma HandleVoteRespGood(h: Hist, n: Node, m: Message) returns (h': Hist)
    requires Good(h, n) && Due(h, n, m)
    requires (m.kind.MsgVoteResp? && n.role.Candidate?) || n.role.PreCandidate?
    ensures Good(h', HandleVoteResp(n, m)) && Grows(h, h', n.cfg.id)
  {
    hide HistInv, Local, NodeInv, MsgsInv, Due, Grows, Campaign, BecomeLeader, BcastAppend, BecomeFollower, Granted;
    PollGood(h, n, m);
    var (n1, granted) := Poll(n, m.from, !m.reject);
    if Quorum(n1) == granted {
      if n1.role.PreCandidate? {
        h' := CampaignGood(h, n1, Election);
      } else {
        h' := BecomeLeaderGood(h, n1);
        BcastAppendGood(h', BecomeLeader(n1), n1.cfg.peers);
      }
    } else if Quorum(n1) == |n1.votes| - granted {
      h' := BecomeFollowerGood(h, n1, n1.term, NONE);
    } else {
      h' := h;
      GrowsRefl(h, n.cfg.id);
    }
  }

  lemma StepCandidateGood(h: Hist, n: Node, m: Message) returns (h': Hist)
    requires Good(h, n) && Due(h, n, m) && (n.role.Candidate? || n.role.PreCandidate?)
    ensures Good(h', StepCandidate(n, m)) && Grows(h, h', n.cfg.id)
  {
    hide HistInv, Local, NodeInv, MsgsInv, MsgInv, Due, Grows, HandleAppendEntries, HandleHeartbeat, HandleVoteResp,
         BecomeFollower, FromMyLeader;
    h' := h;
    GrowsRefl(h, n.cfg.id);
    match m.kind
    case MsgApp =>
      var h1 := CandidateYields(h, n, m);
      h' := HandleAppendEntriesGood(h1, BecomeFollower(n, m.term, m.from), m);
      GrowsTrans(h, h1, h', n.cfg.id);
    case MsgHeartbeat =>
      h' := CandidateYields(h, n, m);
      HandleHeartbeatGood(h', BecomeFollower(n, m.term, m.from), m);
    case MsgSnap => PanicGood(h, n);
    case MsgPreVoteResp => if n.role.PreCandidate? { h' := HandleVoteRespGood(h, n, m); }
    case MsgVoteResp => if n.role.Candidate? { h' := HandleVoteRespGood(h, n, m); }
    case _ =>
  }

  // ---------------------------------------------------------------- leaders

  lemma ProposeInputs(n: Node, m: Message)
    requires Local(n) && n.role.Leader?
    ensures var (es, pending) := FilterConf(m.entries, n.pendingConfIndex, n.applied, LastIndex(n) + 1);
      var n0 := n.(pendingConfIndex := pending);
      NearlyLocal(n0) && ConfOK(n0.log + Stamp(n0, es), pending)
  {
    ProposeConf(n, m);
  }

  lemma SameNode(h: Hist, n: Node, pending: nat)
    requires NodeInv(h, n)
    ensures NodeInv(h, n.(pendingConfIndex := pending))
  {
  }

  lemma ProposeGood(h: Hist, n: Node, m: Message) returns (h': Hist)
    requires Good(h, n) && n.role.Leader?
    ensures Good(h', Propose(n, m)) && Grows(h, h', n.cfg.id)
  {
    hide HistInv, Local, NodeInv, MsgsInv, Grows, FilterConf, NearlyLocal, ConfOK, AppendEntry, BcastAppend;
    if m.entries != [] && !LeaderDrops(n) {
      ProposeInputs(n, m);
      var (es, pending) := FilterConf(m.entries, n.pendingConfIndex, n.applied, LastIndex(n) + 1);
      var n0 := n.(pendingConfIndex := pending);
      SameNode(h, n, pending);
      h' := AppendEntryGood(h, n0, es);
      AppendEntryRole(n0, es);
      BcastAppendGood(h', AppendEntry(n0, es), n.cfg.peers);
    } else {
      h' := h;
      GrowsRefl(h, n.cfg.id);
      PanicGood(h, n);
    }
  }

  lemma AppendEntryRole(n: Node, es: seq<Entry>)
    ensures AppendEntry(n, es).role == n.role && AppendEntry(n, es).cfg == n.cfg
  {
  }

  lemma ReadIndexReqGood(h: Hist, n: Node, m: Message)
    requires Good(h, n) && n.role.Leader?
    ensures Good(h, ReadIndexReq(n, m))
  {
    hide HistInv, NodeInv, MsgsInv, BcastHeartbeat, AddRequest, Local;
    if m.entries == [] {
      PanicGood(h, n);
    } else if Quorum(n) <= 1 {
      ReadStatesGood(h, n, n.readStates + [ReadState(n.committed, Ctx(m))]);
    } else if TermAt(n.log, n.committed) == n.term {
      if n.cfg.leaseRead {
        ReadStatesGood(h, n, n.readStates + [ReadState(n.committed, Ctx(m))]);
        ReadRespGood(h, n, m.from, n.committed, m.entries);
      } else {
        var n1 := n.(readOnly := AddRequest(n.readOnly, n.committed, m));
        AddRequestGood(h, n, m);
        BcastHeartbeatGood(h, n1, n1.cfg.peers, Ctx(m));
      }
    }
  }

  lemma AddRequestGood(h: Hist, n: Node, m: Message)
    requires Good(h, n)
    ensures Good(h, n.(readOnly := AddRequest(n.readOnly, n.committed, m)))
  {
    AddRequestOK(n.readOnly, n.committed, m);
  }

  lemma ReadRespGood(h: Hist, n: Node, to: NodeId, index: nat, ents: seq<Entry>)
    requires Good(h, n) && n.role.Leader?
    ensures Good(h, Send(n, Blank(MsgReadIndexResp, to).(index := index, entries := ents)))
    ensures OnlySent(n, Send(n, Blank(MsgReadIndexResp, to).(index := index, entries := ents)))
  {
    SendGood(h, n, Blank(MsgReadIndexResp, to).(index := index, entries := ents));
  }

  lemma TimeoutNowGood(h: Hist, n: Node, to: NodeId)
    requires Good(h, n) && n.role.Leader?
    ensures Good(h, SendTimeoutNow(n, to))
  {
    SendGood(h, n, Blank(MsgTimeoutNow, to));
  }

  lemma HandleRejectionGood(h: Hist, n: Node, m: Message)
    requires Good(h, n) && n.role.Leader? && m.from in n.prs && m.from != n.cfg.id
    ensures Good(h, HandleRejection(n, m))
  {
    hide Good, MaybeSendAppend, MaybeDecrTo;
    var (pr, changed) := MaybeDecrTo(Pr(n, m.from), m.index, m.rejectHint);
    PeerParts(h, n, m.from);
    DecrPipelined(n.prs[m.from], m.index, m.rejectHint, n.cfg.maxInflight, |n.log|);
    var pr1 := if changed && pr.state.Replicate? then BecomeProbe(pr) else pr;
    SetPrGood(h, n, m.from, pr1);
    if changed { MaybeSendAppendGood(h, SetPr(n, m.from, pr1), m.from, true); }
  }

  /** A rejection leaves the window in order and the next index within the log. */
  lemma DecrPipelined(pr: Progress, rejected: nat, hint: nat, cap: nat, last: nat)
    requires Pipelined(pr, cap) && !pr.state.Snapshot? && pr.next <= last + 1 && pr.matched <= last
    ensures var (pr', changed) := MaybeDecrTo(pr, rejected, hint);
      var pr1 := if changed && pr'.state.Replicate? then BecomeProbe(pr') else pr';
      Pipelined(pr1, cap) && !pr1.state.Snapshot? && pr1.matched == pr.matched && pr1.next <= last + 1
  {
  }

  /** What a leader knows about the progress of one of its peers. */
  lemma PeerParts(h: Hist, n: Node, p: NodeId)
    requires Good(h, n) && n.role.Leader? && p in n.prs
    ensures Pipelined(n.prs[p], n.cfg.maxInflight) && !n.prs[p].state.Snapshot?
    ensures n.prs[p].matched <= Ack(h, p, n.term) <= |n.log| && n.prs[p].next <= |n.log| + 1
  {
    AckBound(h, n, p);
  }

  /** A leader's record of a peer stays within the leader's own log. */
  lemma AckBound(h: Hist, n: Node, p: NodeId)
    requires HistInv(h) && NodeInv(h, n) && n.role.Leader? && p in n.prs
    ensures Ack(h, p, n.term) <= |n.log| && n.prs[p].matched <= |n.log|
  {
    assert AckOK(h, p, n.term);
  }

  lemma UpdatedGood(h: Hist, n: Node, m: Message)
    requires Good(h, n) && n.role.Leader? && m.from in n.prs && m.from != n.cfg.id && m.index <= Ack(h, m.from, n.term)
    ensures var (pr, updated) := MaybeUpdate(Pr(n, m.from), m.index);
      Good(h, SetPr(n, m.from, if updated then Advanced(pr, m.index) else pr))
  {
    hide Good;
    PeerParts(h, n, m.from);
    var (pr, updated) := MaybeUpdate(Pr(n, m.from), m.index);
    if updated {
      AdvancedPipelined(n.prs[m.from], m.index, n.cfg.maxInflight);
      SetPrGood(h, n, m.from, Advanced(pr, m.index));
    } else {
      NotUpdatedPipelined(n.prs[m.from], m.index, n.cfg.maxInflight);
      SetPrGood(h, n, m.from, pr);
    }
  }

  lemma AfterAckGood(h: Hist, n: Node, moved: bool, wasPaused: bool, from: NodeId)
    requires Good(h, n) && n.role.Leader? && from in n.prs && from != n.cfg.id
    ensures var n' := AfterAck(n, moved, wasPaused, from); Good(h, n') && OnlySent(n, n') && from in n'.prs
  {
    hide Good, BcastAppend, MaybeSendAppend;
    if moved { BcastAppendGood(h, n, n.cfg.peers); } else { MaybeSendAppendGood(h, n, from, true); }
    PeersIn(h, n, from);
    PeersIn(h, AfterAck(n, moved, wasPaused, from), from);
  }

  lemma PeersIn(h: Hist, n: Node, p: NodeId)
    requires Good(h, n)
    ensures p in n.prs <==> p in n.cfg.peers
  {
  }

  lemma FinishTransferGood(h: Hist, n: Node, from: NodeId)
    requires Good(h, n) && n.role.Leader?
    ensures Good(h, FinishTransfer(n, from))
  {
    hide Good;
    TimeoutNowGood(h, n, from);
  }

  lemma MaybeCommitKeeps(n: Node)
    ensures var n' := MaybeCommit(n).0; n'.role == n.role && n'.cfg == n.cfg && n'.prs == n.prs
  {
  }

  lemma HandleAcceptanceGood(h: Hist, n: Node, m: Message) returns (h': Hist)
    requires Good(h, n) && n.role.Leader? && m.from in n.prs && m.from != n.cfg.id && m.index <= Ack(h, m.from, n.term)
    ensures Good(h', HandleAcceptance(n, m)) && Grows(h, h', n.cfg.id)
  {
    hide HistInv, Local, NodeInv, MsgsInv, Grows, MaybeCommit, AfterAck, SendLoop, FinishTransfer, MaybeUpdate, Advanced;
    UpdatedGood(h, n, m);
    var (pr, updated) := MaybeUpdate(Pr(n, m.from), m.index);
    if updated {
      var n0 := SetPr(n, m.from, Advanced(pr, m.index));
      h' := MaybeCommitGood(h, n0);
      MaybeCommitKeeps(n0);
      var (n1, moved) := MaybeCommit(n0);
      var wasPaused := IsPaused(Pr(n, m.from), n.cfg.maxInflight);
      AfterAckGood(h', n1, moved, wasPaused, m.from);
      var n2 := AfterAck(n1, moved, wasPaused, m.from);
      SendLoopGood(h', n2, m.from);
      FinishTransferGood(h', SendLoop(n2, m.from), m.from);
    } else {
      h' := h;
      GrowsRefl(h, n.cfg.id);
    }
  }

  lemma ActiveGood(h: Hist, n: Node, p: NodeId)
    requires Good(h, n) && p in n.prs
    ensures Good(h, SetPr(n, p, Pr(n, p).(recentActive := true)))
  {
    hide HistInv, MsgsInv;
    assert Pipelined(n.prs[p], n.cfg.maxInflight) && (n.role.Leader? ==> n.prs[p].next <= |n.log| + 1);
    SetPrGood(h, n, p, Pr(n, p).(recentActive := true));
  }

  lemma HandleAppRespGood(h: Hist, n: Node, m: Message) returns (h': Hist)
    requires Good(h, n) && n.role.Leader? && m.from in n.prs && m.from != n.cfg.id
    requires !m.reject ==> m.index <= Ack(h, m.from, n.term)
    ensures Good(h', HandleAppResp(n, m)) && Grows(h, h', n.cfg.id)
  {
    hide Good, Grows, HandleRejection, HandleAcceptance;
    ActiveGood(h, n, m.from);
    var n1 := SetPr(n, m.from, Pr(n, m.from).(recentActive := true));
    if m.reject {
      h' := h;
      GrowsRefl(h, n.cfg.id);
      HandleRejectionGood(h, n1, m);
    } else {
      h' := HandleAcceptanceGood(h, n1, m);
    }
  }

  lemma {:induction false} ReleaseGood(h: Hist, n: Node, rss: seq<ReadStatus>)
    requires Good(h, n) && n.role.Leader?
    ensures Good(h, Release(n, rss))
    decreases |rss|
  {
    hide Good;
    if rss != [] {
      var rs := rss[0];
      if rs.req.from == NONE || rs.req.from == n.cfg.id {
        var n1 := n.(readStates := n.readStates + [ReadState(rs.index, Ctx(rs.req))]);
        ReadStatesGood(h, n, n1.readStates);
        ReleaseGood(h, n1, rss[1..]);
      } else {
        ReadRespGood(h, n, rs.req.from, rs.index, rs.req.entries);
        ReleaseGood(h, Send(n, Blank(MsgReadIndexResp, rs.req.from).(index := rs.index, entries := rs.req.entries)), rss[1..]);
      }
    }
  }

  lemma QueueGood(h: Hist, n: Node, q: ReadQueue)
    requires Good(h, n) && ReadsOK(q, n.committed)
    ensures Good(h, n.(readOnly := q))
  {
  }

  lemma ReadAckQueue(n: Node, from: NodeId, ctx: string)
    requires Local(n)
    ensures var q := RecvAck(n.readOnly, from, ctx).0;
      ReadsOK(q, n.committed) && Backed(q) && ReadsOK(Advance(q, ctx).0, n.committed)
  {
    RecvAckValid(n.readOnly, from, ctx);
    var q := RecvAck(n.readOnly, from, ctx).0;
    assert ReadsOK(q, n.committed);
    AdvanceValid(q, ctx);
  }

  lemma HandleReadAckGood(h: Hist, n: Node, m: Message)
    requires Good(h, n) && n.role.Leader?
    ensures Good(h, HandleReadAck(n, m))
  {
    hide HistInv, Local, NodeInv, MsgsInv, ReadsOK, Backed, RecvAck, Advance, Release;
    if !n.cfg.leaseRead && m.context != "" {
      ReadAckQueue(n, m.from, m.context);
      var (q, acks) := RecvAck(n.readOnly, m.from, m.context);
      QueueGood(h, n, q);
      if acks >= Quorum(n) {
        var (q', rss) := Advance(q, m.context);
        QueueGood(h, n, q');
        ReleaseGood(h, n.(readOnly := q'), rss);
      }
    }
  }

  lemma HeartbeatRespPr(h: Hist, n: Node, m: Message)
    requires Good(h, n) && n.role.Leader? && m.from in n.prs && m.from != n.cfg.id
    ensures var pr := Pr(n, m.from).(recentActive := true, paused := false);
      var pr1 := if pr.state.Replicate? && IsFull(pr, n.cfg.maxInflight) then pr.(inflights := FreeFirstOne(pr.inflights)) else pr;
      Good(h, SetPr(n, m.from, pr1))
  {
    hide Good;
    PeerParts(h, n, m.from);
    var pr := Pr(n, m.from).(recentActive := true, paused := false);
    if pr.inflights != [] { FreeToExact(pr.inflights, pr.inflights[0]); }
    var pr1 := if pr.state.Replicate? && IsFull(pr, n.cfg.maxInflight) then pr.(inflights := FreeFirstOne(pr.inflights)) else pr;
    assert Pipelined(pr1, n.cfg.maxInflight);
    SetPrGood(h, n, m.from, pr1);
  }

  lemma HandleHeartbeatRespGood(h: Hist, n: Node, m: Message)
    requires Good(h, n) && n.role.Leader? && m.from in n.prs && m.from != n.cfg.id
    ensures Good(h, HandleHeartbeatResp(n, m))
  {
    hide Good, HandleReadAck, MaybeSendAppend, FreeFirstOne, IsFull;
    HeartbeatRespPr(h, n, m);
    var pr := Pr(n, m.from).(recentActive := true, paused := false);
    var pr1 := if pr.state.Replicate? && IsFull(pr, n.cfg.maxInflight) then pr.(inflights := FreeFirstOne(pr.inflights)) else pr;
    var n1 := SetPr(n, m.from, pr1);
    MaybeSendAppendGood(h, n1, m.from, true);
    var n2 := if pr1.matched < LastIndex(n1) then SendAppend(n1, m.from) else n1;
    HandleReadAckGood(h, n2, m);
  }

  lemma UnreachableGood(h: Hist, n: Node, m: Message)
    requires Good(h, n) && n.role.Leader? && m.from in n.prs
    ensures Good(h, HandleUnreachable(n, m))
  {
    hide Good;
    PeerParts(h, n, m.from);
    if Pr(n, m.from).state.Replicate? {
      SetPrGood(h, n, m.from, BecomeProbe(Pr(n, m.from)));
    }
  }

  lemma TransferFieldsGood(h: Hist, n: Node, to: NodeId, e: nat)
    requires Good(h, n)
    ensures Good(h, n.(leadTransferee := to)) && Good(h, n.(electionElapsed := e, leadTransferee := to))
  {
  }

  lemma HandleTransferGood(h: Hist, n: Node, m: Message)
    requires Good(h, n) && n.role.Leader? && m.from in n.prs
    ensures Good(h, HandleTransfer(n, m))
  {
    hide Good, MaybeSendAppend, SendTimeoutNow;
    TransferFieldsGood(h, n, NONE, 0);
    if m.from != n.cfg.id {
      TransferFieldsGood(h, n, m.from, 0);
      var n2 := n.(electionElapsed := 0, leadTransferee := m.from);
      TimeoutNowGood(h, n2, m.from);
      MaybeSendAppendGood(h, n2, m.from, true);
    }
  }

  lemma RestedPeers(h: Hist, term: nat, last: nat, id: NodeId, prs: map<NodeId, Progress>)
    requires PeersInv(h, term, last, prs)
    ensures PeersInv(h, term, last, Rested(id, prs))
  {
  }

  lemma RestedGood(h: Hist, n: Node)
    requires Good(h, n)
    ensures Good(h, n.(prs := Rested(n.cfg.id, n.prs)))
  {
    hide HistInv, Local, NodeInv, MsgsInv, PrsOK, PeersInv, Rested;
    RestedLocal(n);
    if n.role.Leader? {
      LeaderParts(h, n);
      RestedPeers(h, n.term, |n.log|, n.cfg.id, n.prs);
    }
    OnlySentNode(h, n, n.(prs := Rested(n.cfg.id, n.prs)));
  }

  lemma CheckQuorumGood(h: Hist, n: Node) returns (h': Hist)
    requires Good(h, n)
    ensures Good(h', CheckQuorum(n)) && Grows(h, h', n.cfg.id)
  {
    hide Good, Grows, BecomeFollower, Active, Rested;
    RestedGood(h, n);
    if |Active(n)| >= Quorum(n) {
      h' := h;
      GrowsRefl(h, n.cfg.id);
    } else {
      h' := BecomeFollowerGood(h, n.(prs := Rested(n.cfg.id, n.prs)), n.term, NONE);
    }
  }

  lemma PeerInputs(h: Hist, n: Node, m: Message)
    requires Good(h, n) && n.role.Leader? && Due(h, n, m) && (m.kind.MsgAppResp? || m.kind.MsgHeartbeatResp?)
    ensures m.from != n.cfg.id && (m.kind.MsgAppResp? && !m.reject ==> m.index <= Ack(h, m.from, n.term))
  {
    hide HistInv, Local, NodeInv, MsgsInv;
  }

  lemma SnapStatusGood(h: Hist, n: Node, m: Message)
    requires Good(h, n) && m.from in n.prs
    ensures Good(h, HandleSnapStatus(n, m))
  {
  }

  lemma StepLeaderPeerGood(h: Hist, n: Node, m: Message) returns (h': Hist)
    requires Good(h, n) && Due(h, n, m) && n.role.Leader? && m.from in n.prs
    ensures Good(h', StepLeaderPeer(n, m)) && Grows(h, h', n.cfg.id)
  {
    hide Good, Due, Grows, HandleAppResp, HandleHeartbeatResp, HandleSnapStatus, HandleUnreachable, HandleTransfer;
    h' := h;
    GrowsRefl(h, n.cfg.id);
    match m.kind
    case MsgAppResp =>
      PeerInputs(h, n, m);
      h' := HandleAppRespGood(h, n, m);
    case MsgHeartbeatResp =>
      PeerInputs(h, n, m);
      HandleHeartbeatRespGood(h, n, m);
    case MsgSnapStatus => SnapStatusGood(h, n, m);
    case MsgUnreachable => UnreachableGood(h, n, m);
    case MsgTransferLeader => HandleTransferGood(h, n, m);
    case _ =>
  }

  lemma StepLeaderGood(h: Hist, n: Node, m: Message) returns (h': Hist)
    requires Good(h, n) && Due(h, n, m) && n.role.Leader?
    ensures Good(h', StepLeader(n, m)) && Grows(h, h', n.cfg.id)
  {
    hide Good, Due, Grows, BcastHeartbeat, CheckQuorum, Propose, ReadIndexReq, StepLeaderPeer;
    h' := h;
    GrowsRefl(h, n.cfg.id);
    match m.kind
    case MsgBeat => BcastHeartbeatGood(h, n, n.cfg.peers, LastPendingCtx(n.readOnly));
    case MsgCheckQuorum => h' := CheckQuorumGood(h, n);
    case MsgProp => h' := ProposeGood(h, n, m);
    case MsgReadIndex => ReadIndexReqGood(h, n, m);
    case _ => if m.from in n.prs { h' := StepLeaderPeerGood(h, n, m); }
  }

  // ---------------------------------------------------------------- votes

  lemma CastCore(h: Hist, j: NodeId, term: nat, log: Log, committed: nat, cand: NodeId)
    requires HistInv(h) && Core(h, j, term, NONE, log, committed) && cand != NONE
    requires (cand, term) in h.camp && UpToDate(h.camp[(cand, term)], log)
    ensures var h' := CastVote(h, j, cand, log);
      HistInv(h') && Grows(h, h', j) && Core(h', j, term, cand, log, committed) && h'.reign == h.reign
  {
    var h' := CastVote(h, j, cand, log);
    assert Keeps(h, j, log, term);
    CastVoteInv(h, j, cand, log);
    LogInvGrows(h, h', log);
    CommitInvGrows(h, h', term, log, committed);
    KeepsLater(h, h', j, log, term, term);
  }

  lemma CastNode(h: Hist, n: Node, m: Message)
    requires HistInv(h) && Local(n) && NodeInv(h, n) && n.vote == NONE && m.kind.MsgVote?
    requires MsgInv(h, m) && m.term == n.term && m.from != NONE && IsUpToDate(n.log, m.index, m.logTerm)
    ensures n.cfg.id in h.term
    ensures var h' := CastVote(h, n.cfg.id, m.from, n.log);
      && HistInv(h') && Grows(h, h', n.cfg.id) && NodeInv(h', n.(electionElapsed := 0, vote := m.from))
      && (n.cfg.id, n.term) in h'.votes && h'.votes[(n.cfg.id, n.term)].cand == m.from
  {
    hide HistInv;
    CastCore(h, n.cfg.id, n.term, n.log, n.committed, m.from);
    if n.role.Leader? { PeersInvGrows(h, CastVote(h, n.cfg.id, m.from, n.log), n.cfg.id, n.term, |n.log|, n.prs); }
  }

  lemma VotedBefore(h: Hist, n: Node, m: Message)
    requires Good(h, n) && n.vote == m.from && m.from != NONE
    ensures (n.cfg.id, n.term) in h.votes && h.votes[(n.cfg.id, n.term)].cand == m.from
    ensures Good(h, n.(electionElapsed := 0, vote := m.from))
  {
  }

  lemma VoterParts(h: Hist, n: Node, m: Message)
    requires Good(h, n) && Due(h, n, m) && (m.kind.MsgVote? || m.kind.MsgPreVote?)
    ensures m.term > 0 && m.from != NONE && MsgInv(h, m)
    ensures m.kind.MsgVote? ==> m.term == n.term
  {
    VoterIds(h, n, m.from);
  }

  lemma VoterIds(h: Hist, n: Node, p: NodeId)
    requires Local(n) && NodeInv(h, n) && p in h.voters
    ensures p != NONE
  {
  }

  lemma VoteSent(h: Hist, n: Node, m: Message, reject: bool, term: nat)
    requires Good(h, n) && (m.kind.MsgVote? || m.kind.MsgPreVote?) && term > 0
    requires m.kind.MsgVote? && !reject ==> term == n.term && (n.cfg.id, n.term) in h.votes && h.votes[(n.cfg.id, n.term)].cand == m.from
    ensures Good(h, Send(n, Blank(if m.kind.MsgVote? then MsgVoteResp else MsgPreVoteResp, m.from).(term := term, reject := reject)))
  {
    hide HistInv, Local, NodeInv, MsgsInv;
    NodeVoter(h, n);
    SendGood(h, n, Blank(if m.kind.MsgVote? then MsgVoteResp else MsgPreVoteResp, m.from).(term := term, reject := reject));
  }

  /** The vote is sent before it is recorded; the order makes no difference. */
  lemma VoteFrame(n: Node, m: Message)
    requires m.kind.MsgVote? && CanVote(n, m) && IsUpToDate(n.log, m.index, m.logTerm)
    ensures HandleVote(n, m) == Send(n.(electionElapsed := 0, vote := m.from), Blank(MsgVoteResp, m.from).(term := m.term, reject := false))
  {
  }

  lemma VotedLocal(n: Node, m: Message)
    requires Local(n)
    ensures Local(n.(electionElapsed := 0, vote := m.from))
  {
  }

  lemma GrantGood(h: Hist, n: Node, m: Message) returns (h': Hist)
    requires Good(h, n) && Due(h, n, m) && m.kind.MsgVote? && CanVote(n, m) && IsUpToDate(n.log, m.index, m.logTerm)
    ensures Good(h', HandleVote(n, m)) && Grows(h, h', n.cfg.id)
  {
    hide HistInv, Local, NodeInv, MsgsInv, Grows, MsgInv, Due, HandleVote, Send, IsUpToDate;
    VoterParts(h, n, m);
    VoteFrame(n, m);
    if n.vote == m.from {
      h' := h;
      GrowsRefl(h, n.cfg.id);
      VotedBefore(h, n, m);
    } else {
      CastNode(h, n, m);
      h' := CastVote(h, n.cfg.id, m.from, n.log);
      MsgsInvGrow(h, h', n.cfg.id, n.msgs);
      VotedLocal(n, m);
    }
    VoteSent(h', n.(electionElapsed := 0, vote := m.from), m, false, m.term);
  }

  lemma HandleVoteGood(h: Hist, n: Node, m: Message) returns (h': Hist)
    requires Good(h, n) && Due(h, n, m) && (m.kind.MsgVote? || m.kind.MsgPreVote?)
    ensures Good(h', HandleVote(n, m)) && Grows(h, h', n.cfg.id)
  {
    hide Good, Grows, MsgInv, Due, IsUpToDate;
    h' := h;
    GrowsRefl(h, n.cfg.id);
    VoterParts(h, n, m);
    if CanVote(n, m) && IsUpToDate(n.log, m.index, m.logTerm) {
      if m.kind.MsgVote? { h' := GrantGood(h, n, m); } else { VoteSent(h, n, m, false, m.term); }
    } else if n.term > 0 {
      VoteSent(h, n, m, true, n.term);
    } else {
      PanicGood(h, n);
    }
  }

  // ---------------------------------------------------------------- whole steps

  lemma HupGood(h: Hist, n: Node) returns (h': Hist)
    requires Good(h, n)
    ensures Good(h', Hup(n)) && Grows(h, h', n.cfg.id)
  {
    hide Good, Grows, Campaign, NumConf;
    h' := h;
    GrowsRefl(h, n.cfg.id);
    PanicGood(h, n);
    if !n.role.Leader? { h' := CampaignGoodIf(h, n); }
  }

  lemma CampaignGoodIf(h: Hist, n: Node) returns (h': Hist)
    requires Good(h, n) && !n.role.Leader?
    ensures Good(h', Hup(n)) && Grows(h, h', n.cfg.id)
  {
    hide Good, Grows, Campaign, NumConf;
    if n.applied > n.committed || n.committed > LastIndex(n) {
      h' := h;
      GrowsRefl(h, n.cfg.id);
      PanicGood(h, n);
    } else if NumConf(n.log[n.applied..n.committed]) != 0 && n.committed > n.applied {
      h' := h;
      GrowsRefl(h, n.cfg.id);
    } else {
      h' := CampaignGood(h, n, if n.cfg.preVote then PreElection else Election);
    }
  }

  lemma RoleStepGood(h: Hist, n: Node, m: Message) returns (h': Hist)
    requires Good(h, n) && Due(h, n, m)
    ensures Good(h', RoleStep(n, m)) && Grows(h, h', n.cfg.id)
  {
    hide Good, Due, Grows, StepLeader, StepFollower, StepCandidate;
    match n.role
    case Leader => h' := StepLeaderGood(h, n, m);
    case Follower => h' := StepFollowerGood(h, n, m);
    case Candidate => h' := StepCandidateGood(h, n, m);
    case PreCandidate => h' := StepCandidateGood(h, n, m);
  }

  lemma DispatchGood(h: Hist, n: Node, m: Message) returns (h': Hist)
    requires Good(h, n) && Due(h, n, m)
    ensures Good(h', Dispatch(n, m)) && Grows(h, h', n.cfg.id)
  {
    hide Good, Due, Grows, Hup, HandleVote, RoleStep;
    match m.kind
    case MsgHup => h' := HupGood(h, n);
    case MsgVote => h' := HandleVoteGood(h, n, m);
    case MsgPreVote => h' := HandleVoteGood(h, n, m);
    case _ => h' := RoleStepGood(h, n, m);
  }

  /** What a node may be given: a local message, or one that is in the network for it. */
  ghost predicate Input(h: Hist, n: Node, m: Message) {
    LocalMsg(m) || (MsgInv(h, m) && m.to == n.cfg.id)
  }

  lemma NoteHigherGood(h: Hist, n: Node, m: Message) returns (h': Hist)
    requires Good(h, n) && MsgInv(h, m) && m.to == n.cfg.id && m.term > n.term
    ensures Good(h', NoteHigher(n, m).n) && Grows(h, h', n.cfg.id) && NoteHigher(n, m).n.cfg == n.cfg
    ensures NoteHigher(n, m).Go? ==> Current(NoteHigher(n, m).n, m)
  {
    hide HistInv, Local, NodeInv, MsgsInv, Grows;
    GrowsRefl(h, n.cfg.id);
    if NoteHigher(n, m).n == n {
      h' := h;
    } else if m.kind.MsgApp? || m.kind.MsgHeartbeat? {
      h' := BecomeFollowerGood(h, n, m.term, m.from);
    } else {
      h' := BecomeFollowerGood(h, n, m.term, NONE);
    }
  }

  lemma NoteLowerGood(h: Hist, n: Node, m: Message)
    requires Good(h, n) && MsgInv(h, m) && m.to == n.cfg.id && m.term < n.term
    ensures Good(h, NoteLower(n, m)) && NoteLower(n, m).cfg == n.cfg
  {
    hide HistInv, Local, NodeInv, MsgsInv;
    NodeVoter(h, n);
    if (n.cfg.checkQuorum || n.cfg.preVote) && (m.kind.MsgHeartbeat? || m.kind.MsgApp?) {
      SendGood(h, n, Blank(MsgAppResp, m.from));
    } else if m.kind.MsgPreVote? {
      SendGood(h, n, Blank(MsgPreVoteResp, m.from).(term := n.term, reject := true));
    }
  }

  lemma LocalTerm(n: Node, m: Message)
    requires LocalMsg(m)
    ensures NoteTerm(n, m) == Go(n)
  {
  }

  lemma NoteTermGood(h: Hist, n: Node, m: Message) returns (h': Hist)
    requires Good(h, n) && Input(h, n, m)
    ensures Good(h', NoteTerm(n, m).n) && Grows(h, h', n.cfg.id) && NoteTerm(n, m).n.cfg == n.cfg
    ensures NoteTerm(n, m).Go? ==> Due(h', NoteTerm(n, m).n, m)
  {
    hide Good, Grows, NoteHigher, NoteLower, MsgInv, LocalMsg;
    h' := h;
    GrowsRefl(h, n.cfg.id);
    if LocalMsg(m) {
      LocalTerm(n, m);
    } else if m.term > n.term {
      h' := NoteHigherGood(h, n, m);
      MsgInvGrows(h, h', n.cfg.id, m);
    } else if m.term < n.term && m.term != 0 {
      NoteLowerGood(h, n, m);
    }
  }

  lemma DueSane(h: Hist, n: Node, m: Message)
    requires Good(h, n) && Input(h, n, m)
    ensures Sane(n, m)
  {
    hide Local, NodeInv, MsgsInv;
    if m.kind.MsgApp? {
      assert ReignShape(h, m.term, h.reign[m.term]);
      SliceProper(h, h.reign[m.term].log, m.index, m.logTerm, m.entries);
    }
  }

  /** A heartbeat never commits beyond the log of a node that takes it. */
  lemma HeartbeatFits(h: Hist, n: Node, m: Message)
    requires Good(h, n) && Due(h, n, m) && m.kind.MsgHeartbeat?
    ensures m.commit <= |n.log|
  {
    hide HistInv, Local, MsgsInv;
    ReignTerm(h, m.term);
    assert Holds(h, n.cfg.id, n.term, n.log);
  }

  lemma DueFine(h: Hist, n: Node, m: Message)
    requires Good(h, n) && Due(h, n, m)
    ensures Fine(n, m)
  {
    hide HistInv, Local, NodeInv, MsgsInv;
    if n.log != [] { TermPositive(h, n); }
    LeadIsLeader(h, n);
    if m.kind.MsgHeartbeat? { HeartbeatFits(h, n, m); }
    if m.kind.MsgTransferLeader? && !LocalMsg(m) { ReignTerm(h, m.term); }
  }

  lemma TermPositive(h: Hist, n: Node)
    requires HistInv(h) && NodeInv(h, n) && n.log != []
    ensures n.term > 0
  {
    TermsPositive(h, n.log);
    assert 0 < n.log[0].term <= n.term;
  }

  /** One step of one node keeps everything: the history continues, the node agrees with it, every
      message it sent is true, and it does not panic. */
  lemma StepGood(h: Hist, n: Node, m: Message) returns (h': Hist)
    requires Good(h, n) && Input(h, n, m)
    ensures Good(h', Step(n, m)) && Grows(h, h', n.cfg.id) && Step(n, m).panicked == n.panicked
  {
    hide HistInv, Local, NodeInv, MsgsInv, Due, Input, Grows, NoteTerm, Dispatch, Fine, Sane;
    DueSane(h, n, m);
    StepLocal(n, m);
    var h1 := NoteTermGood(h, n, m);
    var noted := NoteTerm(n, m);
    if noted.Go? {
      DueFine(h1, noted.n, m);
      h' := DispatchGood(h1, noted.n, m);
      GrowsTrans(h, h1, h', n.cfg.id);
    } else {
      h' := h1;
    }
  }
}
