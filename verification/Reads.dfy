/** ReadIndex linearizability (section 6.4 of the Raft thesis): in safe mode, a read is answered
    with an index at least as high as anything committed anywhere when the leader accepted it. */
module Reads {
  import opened Types
  import opened Quorums
  import opened Logs
  import opened ReadQueues
  import opened Progresses
  import opened Nodes
  import opened NodeLocal
  import opened History
  import opened Invariants
  import opened Steps
  import opened Frames
  import opened Cluster

  // ---------------------------------------------------------------- what is claimed

  /** In step a of the run, leader j takes a read request with this context. */
  ghost predicate Accepts(cs: seq<System>, a: nat, j: NodeId, ctx: string) {
    && a + 1 < |cs| && j in cs[a].nodes && cs[a].nodes[j].role.Leader?
    && exists m :: TakesRead(cs[a], cs[a + 1], j, m) && Ctx(m) == ctx
  }

  ghost predicate TakesRead(c: System, c': System, j: NodeId, m: Message)
    requires j in c.nodes
  {
    && m.kind.MsgReadIndex? && m.entries != []
    && ((Enabled(c, j, Deliver(m)) && c' == After(c, j, Deliver(m)))
        || (Enabled(c, j, Request(m)) && c' == After(c, j, Request(m))))
  }

  /** Nobody has committed more than this up to a point of the run. */
  ghost predicate NobodyAbove(cs: seq<System>, a: nat, index: nat)
    requires a < |cs|
  {
    forall b, p {:trigger cs[b].nodes[p]} :: 0 <= b <= a && p in cs[b].nodes ==> cs[b].nodes[p].committed <= index
  }

  /** Leader j accepted the request in step a with this index, and nobody had ever committed more. */
  ghost predicate ReadPoint(cs: seq<System>, a: nat, j: NodeId, index: nat, ctx: string) {
    Accepts(cs, a, j, ctx) && index == cs[a].nodes[j].committed && NobodyAbove(cs, a, index)
  }

  ghost predicate SafeMode(c: System) {
    forall i {:trigger c.nodes[i]} :: i in c.nodes ==> !c.nodes[i].cfg.leaseRead
  }

  /** In step a, the leader of the term puts the context on its queue of pending reads. */
  ghost predicate Registered(cs: seq<System>, a: nat, term: nat, ctx: string) {
    && a + 1 < |cs|
    && exists i :: i in cs[a].nodes && i in cs[a + 1].nodes
         && cs[a].nodes[i].role.Leader? && cs[a].nodes[i].term == term
         && ctx !in cs[a].nodes[i].readOnly.pending && ctx in cs[a + 1].nodes[i].readOnly.pending
  }

  /** No context is queued twice in one term. */
  ghost predicate UniqueReads(cs: seq<System>) {
    forall a, b, term, ctx {:trigger Registered(cs, a, term, ctx), Registered(cs, b, term, ctx)} ::
      Registered(cs, a, term, ctx) && Registered(cs, b, term, ctx) ==> a == b
  }

  /** The context has been queued twice in the term before a point of the run. */
  ghost predicate QueuedTwice(cs: seq<System>, now: nat, term: nat, ctx: string) {
    exists p: nat, q: nat :: p < q < now && Registered(cs, p, term, ctx) && Registered(cs, q, term, ctx)
  }

  /** In this step leader j is handed an answer to a heartbeat that carried the context. */
  ghost predicate Answers(c: System, c': System, j: NodeId, ctx: string)
    requires j in c.nodes
  {
    exists m: Message ::
      m.kind.MsgHeartbeatResp? && m.context == ctx && Enabled(c, j, Deliver(m)) && c' == After(c, j, Deliver(m))
  }

  /** The read with context ctx stands in the queue of leader j with this index, at or before the
      context whose answer j is handed in step a. */
  ghost predicate ReleasedBy(cs: seq<System>, a: nat, j: NodeId, answered: string, index: nat, ctx: string) {
    && a + 1 < |cs| && j in cs[a].nodes && cs[a].nodes[j].role.Leader? && Answers(cs[a], cs[a + 1], j, answered)
    && InQueue(cs[a].nodes[j].readOnly, answered, index, ctx)
  }

  ghost predicate InQueue(q: ReadQueue, answered: string, index: nat, ctx: string) {
    && ctx in q.pending && q.pending[ctx].index == index
    && exists x, y :: 0 <= x <= y < |q.queue| && q.queue[x] == ctx && q.queue[y] == answered
  }

  /** The read may have been released by the answer to a context that was queued twice. */
  ghost predicate Excused(cs: seq<System>, k: nat, index: nat, ctx: string) {
    exists a: nat, j: NodeId, answered: string ::
      a < k && ReleasedBy(cs, a, j, answered, index, ctx) && QueuedTwice(cs, a + 1, cs[a].nodes[j].term, answered)
  }

  // ---------------------------------------------------------------- bookkeeping

  datatype Mark = Mark(pos: nat, leader: NodeId)

  /** The run, the current state, and where in the run each (term, context) was last queued. */
  datatype Ledger = Ledger(cs: seq<System>, now: nat, book: map<(nat, string), Mark>)

  /** The nodes that had left the term behind. */
  function Late(c: System, term: nat): set<NodeId> {
    set j | j in c.nodes && c.nodes[j].term > term
  }

  ghost predicate MarkOK(l: Ledger, term: nat, ctx: string) {
    && (term, ctx) in l.book
    && var k := l.book[(term, ctx)];
       && k.pos < l.now < |l.cs| && k.leader in l.cs[k.pos].nodes
       && l.cs[k.pos].nodes.Keys == l.cs[l.now].nodes.Keys
       && l.cs[k.pos].nodes[k.leader].role.Leader? && l.cs[k.pos].nodes[k.leader].term == term
       && TermAt(l.cs[k.pos].nodes[k.leader].log, l.cs[k.pos].nodes[k.leader].committed) == term
       && Accepts(l.cs, k.pos, k.leader, ctx)
  }

  ghost function LateAt(l: Ledger, term: nat, ctx: string): set<NodeId>
    requires MarkOK(l, term, ctx)
  {
    Late(l.cs[l.book[(term, ctx)].pos], term)
  }

  ghost predicate BookAt(l: Ledger, term: nat, ctx: string) {
    && MarkOK(l, term, ctx)
    && LateAt(l, term, ctx) <= Late(l.cs[l.now], term)
    && Registered(l.cs, l.book[(term, ctx)].pos, term, ctx)
  }

  ghost predicate BookOK(l: Ledger) {
    && l.now < |l.cs|
    && forall term, ctx {:trigger BookAt(l, term, ctx)} :: (term, ctx) in l.book ==> BookAt(l, term, ctx)
  }

  ghost predicate Extends(l: Ledger, l': Ledger) {
    && l'.cs == l.cs && l.now <= l'.now < |l.cs|
    && l.cs[l'.now].nodes.Keys == l.cs[l.now].nodes.Keys
    && forall term, ctx {:trigger MarkKept(l, l', term, ctx)} :: MarkOK(l, term, ctx) ==> MarkKept(l, l', term, ctx)
  }

  /** A mark stays, unless its context is queued again. */
  ghost predicate MarkKept(l: Ledger, l': Ledger, term: nat, ctx: string) {
    && MarkOK(l', term, ctx)
    && (SameMark(l, l', term, ctx) || Twice(l', term, ctx))
  }

  ghost predicate SameMark(l: Ledger, l': Ledger, term: nat, ctx: string) {
    (term, ctx) in l.book && (term, ctx) in l'.book && l'.book[(term, ctx)] == l.book[(term, ctx)]
  }

  ghost predicate Twice(l: Ledger, term: nat, ctx: string) {
    QueuedTwice(l.cs, l.now, term, ctx)
  }

  ghost predicate Sound(l: Ledger, index: nat, ctx: string) {
    || (exists a: nat, j: NodeId :: a < l.now && ReadPoint(l.cs, a, j, index, ctx))
    || Excused(l.cs, l.now, index, ctx)
  }

  /** A pending read: accepted by this leader, acknowledged only by nodes that had not moved on. */
  ghost predicate PendingOK(l: Ledger, i: NodeId, term: nat, ctx: string, s: ReadStatus) {
    && MarkOK(l, term, ctx)
    && var k := l.book[(term, ctx)];
       && k.leader == i && s.index == l.cs[k.pos].nodes[i].committed
       && i !in s.acks && s.acks <= l.cs[k.pos].nodes.Keys
       && (ctx != "" ==> Twice(l, term, ctx) || s.acks !! LateAt(l, term, ctx))
  }

  ghost predicate AllPendingOK(l: Ledger, i: NodeId, term: nat, q: ReadQueue) {
    forall c {:trigger q.pending[c]} :: c in q.pending ==> PendingOK(l, i, term, c, q.pending[c])
  }

  /** Along the queue, ever more nodes have moved on. */
  ghost predicate LateInOrder(l: Ledger, term: nat, queue: seq<string>) {
    forall x, y {:trigger LateBefore(l, term, queue[x], queue[y])} :: 0 <= x < y < |queue| ==>
      LateBefore(l, term, queue[x], queue[y])
  }

  ghost predicate LateBefore(l: Ledger, term: nat, c: string, d: string) {
    MarkOK(l, term, c) && MarkOK(l, term, d) && LateAt(l, term, c) <= LateAt(l, term, d)
  }

  ghost predicate StatesOK(l: Ledger, rs: seq<ReadState>) {
    forall x {:trigger rs[x]} :: 0 <= x < |rs| ==> Sound(l, rs[x].index, rs[x].ctx)
  }

  ghost predicate NodeReads(l: Ledger, i: NodeId, n: Node) {
    && n.cfg.id == i && !n.cfg.leaseRead
    && (n.readOnly != EmptyQueue() ==> n.role.Leader?)
    && AllPendingOK(l, i, n.term, n.readOnly) && LateInOrder(l, n.term, n.readOnly.queue)
    && StatesOK(l, n.readStates)
  }

  ghost predicate MsgReads(l: Ledger, m: Message) {
    match m.kind
    case MsgHeartbeat => m.context != "" ==> MarkOK(l, m.term, m.context)
    case MsgHeartbeatResp => m.context != "" ==> Answerable(l, m.term, m.context, m.from)
    case MsgReadIndexResp => m.entries != [] ==> Sound(l, m.index, m.entries[0].data)
    case _ => true
  }

  /** An answer in the term comes from a node that had not moved on, if the context was queued once. */
  ghost predicate Answerable(l: Ledger, term: nat, ctx: string, from: NodeId) {
    MarkOK(l, term, ctx) && (Twice(l, term, ctx) || from !in LateAt(l, term, ctx))
  }

  ghost predicate MsgsReads(l: Ledger, ms: seq<Message>) {
    forall x {:trigger ms[x]} :: 0 <= x < |ms| ==> MsgReads(l, ms[x])
  }

  ghost predicate Reading(l: Ledger, i: NodeId, n: Node) {
    NodeReads(l, i, n) && MsgsReads(l, n.msgs)
  }

  // ---------------------------------------------------------------- later ledgers

  lemma TwiceGrows(l: Ledger, l': Ledger, term: nat, ctx: string)
    requires l'.cs == l.cs && l.now <= l'.now && Twice(l, term, ctx)
    ensures Twice(l', term, ctx)
  {
    var p: nat, q: nat :| p < q < l.now && Registered(l.cs, p, term, ctx) && Registered(l.cs, q, term, ctx);
    assert p < q < l'.now && Registered(l'.cs, p, term, ctx) && Registered(l'.cs, q, term, ctx);
  }

  lemma MarkExtends(l: Ledger, l': Ledger, term: nat, ctx: string)
    requires Extends(l, l') && MarkOK(l, term, ctx)
    ensures MarkOK(l', term, ctx) && l'.cs == l.cs && l.now <= l'.now
    ensures Twice(l', term, ctx) || SameMark(l, l', term, ctx)
  {
    assert MarkKept(l, l', term, ctx);
  }

  lemma SameLate(l: Ledger, l': Ledger, term: nat, ctx: string)
    requires MarkOK(l, term, ctx) && MarkOK(l', term, ctx) && l'.cs == l.cs && SameMark(l, l', term, ctx)
    ensures LateAt(l', term, ctx) == LateAt(l, term, ctx)
  {
  }

  lemma SoundExtends(l: Ledger, l': Ledger, index: nat, ctx: string)
    requires Extends(l, l') && Sound(l, index, ctx)
    ensures Sound(l', index, ctx)
  {
    hide ReadPoint, Answers, InQueue, QueuedTwice;
    if a: nat, j: NodeId :| a < l.now && ReadPoint(l.cs, a, j, index, ctx) {
      assert a < l'.now && ReadPoint(l'.cs, a, j, index, ctx);
    } else {
      var a: nat, j: NodeId, answered: string :| a < l.now && ReleasedBy(l.cs, a, j, answered, index, ctx)
        && QueuedTwice(l.cs, a + 1, l.cs[a].nodes[j].term, answered);
      assert a < l'.now && ReleasedBy(l'.cs, a, j, answered, index, ctx);
    }
  }

  /** None of the node's pending contexts has been queued again. */
  ghost predicate Fixed(l: Ledger, l': Ledger, n: Node) {
    forall c {:trigger SameMark(l, l', n.term, c)} ::
      c in n.readOnly.pending && (n.term, c) in l.book ==> SameMark(l, l', n.term, c)
  }

  lemma PendingExtends(l: Ledger, l': Ledger, i: NodeId, term: nat, ctx: string, s: ReadStatus)
    requires Extends(l, l') && PendingOK(l, i, term, ctx, s) && SameMark(l, l', term, ctx)
    ensures PendingOK(l', i, term, ctx, s)
  {
    hide Extends, Twice, Accepts, LateAt;
    MarkExtends(l, l', term, ctx);
    SameLate(l, l', term, ctx);
    if Twice(l, term, ctx) { TwiceGrows(l, l', term, ctx); }
  }

  lemma SameRun(l: Ledger, l': Ledger)
    requires Extends(l, l')
    ensures l'.cs == l.cs && l.now <= l'.now
  {
  }

  lemma LateExtends(l: Ledger, l': Ledger, term: nat, queue: seq<string>)
    requires Extends(l, l') && LateInOrder(l, term, queue)
    requires forall x :: 0 <= x < |queue| && (term, queue[x]) in l.book ==> SameMark(l, l', term, queue[x])
    ensures LateInOrder(l', term, queue)
  {
    hide Extends, LateAt, Twice, Accepts;
    forall x, y | 0 <= x < y < |queue|
      ensures LateBefore(l', term, queue[x], queue[y])
    {
      assert LateBefore(l, term, queue[x], queue[y]);
      MarkExtends(l, l', term, queue[x]);
      MarkExtends(l, l', term, queue[y]);
      SameLate(l, l', term, queue[x]);
      SameLate(l, l', term, queue[y]);
    }
  }

  lemma NodeExtends(l: Ledger, l': Ledger, i: NodeId, n: Node)
    requires Extends(l, l') && NodeReads(l, i, n) && Fixed(l, l', n) && Backed(n.readOnly)
    ensures NodeReads(l', i, n)
  {
    hide Extends, PendingOK, LateInOrder, Sound;
    forall c | c in n.readOnly.pending
      ensures PendingOK(l', i, n.term, c, n.readOnly.pending[c])
    {
      PendingMarked(l, i, n.term, c, n.readOnly.pending[c]);
      assert SameMark(l, l', n.term, c);
      PendingExtends(l, l', i, n.term, c, n.readOnly.pending[c]);
    }
    forall x | 0 <= x < |n.readOnly.queue| && (n.term, n.readOnly.queue[x]) in l.book
      ensures SameMark(l, l', n.term, n.readOnly.queue[x])
    {
      assert n.readOnly.queue[x] in n.readOnly.pending;
    }
    LateExtends(l, l', n.term, n.readOnly.queue);
    forall x | 0 <= x < |n.readStates|
      ensures Sound(l', n.readStates[x].index, n.readStates[x].ctx)
    {
      SoundExtends(l, l', n.readStates[x].index, n.readStates[x].ctx);
    }
  }

  lemma MsgExtends(l: Ledger, l': Ledger, m: Message)
    requires Extends(l, l') && MsgReads(l, m)
    ensures MsgReads(l', m)
  {
    hide Extends, MarkOK, LateAt, Sound, Twice;
    if m.kind.MsgHeartbeat? && m.context != "" {
      MarkExtends(l, l', m.term, m.context);
    } else if m.kind.MsgHeartbeatResp? && m.context != "" {
      AnswerExtends(l, l', m.term, m.context, m.from);
    } else if m.kind.MsgReadIndexResp? && m.entries != [] {
      SoundExtends(l, l', m.index, m.entries[0].data);
    }
  }

  lemma AnswerExtends(l: Ledger, l': Ledger, term: nat, ctx: string, from: NodeId)
    requires Extends(l, l') && Answerable(l, term, ctx, from)
    ensures Answerable(l', term, ctx, from)
  {
    hide Extends, MarkOK, LateAt, Twice;
    MarkExtends(l, l', term, ctx);
    if Twice(l, term, ctx) {
      TwiceGrows(l, l', term, ctx);
    } else if !Twice(l', term, ctx) {
      SameLate(l, l', term, ctx);
    }
  }

  lemma ReadingExtends(l: Ledger, l': Ledger, i: NodeId, n: Node)
    requires Extends(l, l') && Reading(l, i, n) && Fixed(l, l', n) && Backed(n.readOnly)
    ensures Reading(l', i, n)
  {
    hide Extends, NodeReads, MsgReads, Fixed, Backed;
    NodeExtends(l, l', i, n);
    forall x | 0 <= x < |n.msgs|
      ensures MsgReads(l', n.msgs[x])
    {
      MsgExtends(l, l', n.msgs[x]);
    }
  }

  // ---------------------------------------------------------------- steps that do not concern reads

  lemma QuietReads(l: Ledger, i: NodeId, n: Node, n': Node)
    requires Reading(l, i, n) && Quiet(n, n')
    ensures Reading(l, i, n')
  {
    hide PendingOK, LateBefore, MarkOK, LateAt, Sound;
    forall x | 0 <= x < |n'.msgs|
      ensures MsgReads(l, n'.msgs[x])
    {
      if x < |n.msgs| { assert n'.msgs[x] == n.msgs[x]; }
    }
  }

  // ---------------------------------------------------------------- heartbeats

  lemma SentReads(l: Ledger, i: NodeId, n: Node, m: Message)
    requires Reading(l, i, n) && !BadTerm(m) && MsgReads(l, Stamped(n, m))
    ensures Reading(l, i, Send(n, m))
  {
    hide AllPendingOK, LateInOrder, StatesOK, MsgReads;
  }

  lemma {:induction false} BcastHeartbeatReads(l: Ledger, i: NodeId, n: Node, ps: seq<NodeId>, ctx: string)
    requires Reading(l, i, n) && (ctx == "" || MarkOK(l, n.term, ctx))
    ensures Reading(l, i, BcastHeartbeat(n, ps, ctx))
    decreases |ps|
  {
    hide Reading, MarkOK;
    if ps == [] {
    } else if ps[0] == n.cfg.id {
      BcastHeartbeatReads(l, i, n, ps[1..], ctx);
    } else {
      SentReads(l, i, n, Blank(MsgHeartbeat, ps[0]).(commit := Min(Pr(n, ps[0]).matched, n.committed), context := ctx));
      BcastHeartbeatReads(l, i, SendHeartbeat(n, ps[0], ctx), ps[1..], ctx);
    }
  }

  lemma LastPendingMarked(l: Ledger, i: NodeId, n: Node)
    requires Reading(l, i, n) && Local(n)
    ensures LastPendingCtx(n.readOnly) == "" || MarkOK(l, n.term, LastPendingCtx(n.readOnly))
  {
    hide MarkOK, LateAt;
    var q := n.readOnly;
    if q.queue != [] {
      var c := q.queue[|q.queue| - 1];
      assert c in q.pending;
      assert PendingOK(l, i, n.term, c, q.pending[c]);
    }
  }

  /** Answering a heartbeat: the node is still in the leader's term, so it had not moved on when
      the read was accepted. */
  lemma HeartbeatReads(l: Ledger, i: NodeId, n: Node, m: Message)
    requires Reading(l, i, n) && m.kind.MsgHeartbeat? && MsgReads(l, m) && m.term == n.term
    requires m.context != "" && MarkOK(l, m.term, m.context) ==> i !in LateAt(l, m.term, m.context)
    ensures Reading(l, i, HandleHeartbeat(n, m))
  {
    hide MarkOK, LateAt, Sound, Twice, AllPendingOK, LateInOrder, StatesOK, CommitTo;
    var (c, p) := CommitTo(n.log, n.committed, m.commit);
    var n1 := (if p then Panic(n) else n).(committed := c);
    assert Reading(l, i, n1);
    SentReads(l, i, n1, Blank(MsgHeartbeatResp, m.from).(context := m.context));
  }

  // ---------------------------------------------------------------- acknowledgements

  lemma {:induction false} ReleaseReads(l: Ledger, i: NodeId, n: Node, rss: seq<ReadStatus>)
    requires Reading(l, i, n)
    requires forall x :: 0 <= x < |rss| ==> Sound(l, rss[x].index, Ctx(rss[x].req))
    ensures Reading(l, i, Release(n, rss))
    decreases |rss|
  {
    hide Reading, Sound;
    if rss != [] {
      var rs := rss[0];
      assert Sound(l, rs.index, Ctx(rs.req));
      if rs.req.from == NONE || rs.req.from == n.cfg.id {
        StateReads(l, i, n, rs.index, Ctx(rs.req));
        ReleaseReads(l, i, n.(readStates := n.readStates + [ReadState(rs.index, Ctx(rs.req))]), rss[1..]);
      } else {
        var m := Blank(MsgReadIndexResp, rs.req.from).(index := rs.index, entries := rs.req.entries);
        SentReads(l, i, n, m);
        ReleaseReads(l, i, Send(n, m), rss[1..]);
      }
    }
  }

  lemma StateReads(l: Ledger, i: NodeId, n: Node, index: nat, ctx: string)
    requires Reading(l, i, n) && Sound(l, index, ctx)
    ensures Reading(l, i, n.(readStates := n.readStates + [ReadState(index, ctx)]))
  {
    hide AllPendingOK, LateInOrder, MsgReads, Sound;
  }

  lemma QueueReads(l: Ledger, i: NodeId, n: Node, q: ReadQueue)
    requires Reading(l, i, n) && n.role.Leader? && AllPendingOK(l, i, n.term, q) && LateInOrder(l, n.term, q.queue)
    ensures Reading(l, i, n.(readOnly := q))
  {
    hide AllPendingOK, LateInOrder, StatesOK, MsgReads;
  }

  lemma AckedReads(l: Ledger, i: NodeId, term: nat, ctx: string, s: ReadStatus, from: NodeId)
    requires PendingOK(l, i, term, ctx, s) && from != i
    requires from in l.cs[l.now].nodes && (Twice(l, term, ctx) || from !in LateAt(l, term, ctx))
    ensures PendingOK(l, i, term, ctx, s.(acks := s.acks + {from}))
  {
    hide LateAt, Accepts, Twice;
  }

  lemma RecvAckReads(l: Ledger, i: NodeId, term: nat, q: ReadQueue, from: NodeId, ctx: string)
    requires AllPendingOK(l, i, term, q) && ctx != "" && from != i
    requires Answerable(l, term, ctx, from) && l.now < |l.cs| && from in l.cs[l.now].nodes
    ensures AllPendingOK(l, i, term, RecvAck(q, from, ctx).0)
  {
    hide PendingOK, MarkOK, LateAt, Twice;
    var q' := RecvAck(q, from, ctx).0;
    forall c | c in q'.pending
      ensures PendingOK(l, i, term, c, q'.pending[c])
    {
      assert PendingOK(l, i, term, c, q.pending[c]);
      if c == ctx { AckedReads(l, i, term, ctx, q.pending[c], from); }
    }
  }

  lemma RestReads(l: Ledger, i: NodeId, term: nat, q: ReadQueue, k: nat)
    requires AllPendingOK(l, i, term, q) && LateInOrder(l, term, q.queue) && k <= |q.queue|
    ensures AllPendingOK(l, i, term, Rest(q, k)) && LateInOrder(l, term, Rest(q, k).queue)
  {
    hide PendingOK, LateBefore;
    var r := Rest(q, k);
    forall x, y | 0 <= x < y < |r.queue|
      ensures LateBefore(l, term, r.queue[x], r.queue[y])
    {
      assert LateBefore(l, term, q.queue[k + x], q.queue[k + y]);
    }
  }

  /** If somebody has ever committed more than a leader that has committed in its own term, then a
      majority has left the leader's term behind. */
  lemma MajorityMovedOn(cs: seq<System>, hs: seq<Hist>, b: nat, p: NodeId, a: nat, i: NodeId)
    requires Chronicle(cs, hs) && b <= a < |cs| && i in cs[a].nodes && p in cs[b].nodes && cs[a].nodes[i].role.Leader?
    requires TermAt(cs[a].nodes[i].log, cs[a].nodes[i].committed) == cs[a].nodes[i].term
    requires cs[b].nodes[p].committed > cs[a].nodes[i].committed
    ensures IsQuorum(cs[a].nodes.Keys, Late(cs[a], cs[a].nodes[i].term))
  {
    hide Inv, HistInv, LogInv, TermsUpTo, ReignsGrow;
    var h := hs[a];
    NodeFacts(cs[a], h, i);
    NodeFacts(cs[b], hs[b], p);
    InvHist(cs[a], h);
    var n, m := cs[a].nodes[i], cs[b].nodes[p];
    Later(cs, hs, b, a);
    CommitInvGrows(hs[b], h, m.term, m.log, m.committed);
    var t: nat :| t <= m.term && CommittedBy(h, t, m.log, m.committed);
    if t < n.term {
      assert CommittedBy(h, t, h.reign[t].log, h.reign[t].counted) by { CountedFits(h, t); }
      CompletenessAt(h, t, h.reign[t].log, h.reign[t].counted, n.term);
      LeaderTermPositive(h, n.term);
      OwnTerm(h, n.term, n.committed);
    } else {
      assert t != n.term;
      ElectorsMovedOn(cs[a], h, t, n.term);
    }
  }

  lemma CountedFits(h: Hist, t: nat)
    requires HistInv(h) && t in h.reign
    ensures h.reign[t].counted <= |h.reign[t].log|
  {
    assert Counted(h, t, h.reign[t]);
  }

  lemma LeaderTermPositive(h: Hist, t: nat)
    requires HistInv(h) && t in h.reign
    ensures t > 0
  {
    assert ReignShape(h, t, h.reign[t]);
  }

  lemma OwnTerm(h: Hist, t: nat, k: nat)
    requires HistInv(h) && t in h.reign && t > 0 && TermAt(h.reign[t].log, k) == t
    ensures h.reign[t].base < k
  {
    assert ReignShape(h, t, h.reign[t]);
    OwnTermAboveBase(h, t, k);
  }

  lemma ElectorsMovedOn(c: System, h: Hist, t: nat, term: nat)
    requires Inv(c, h) && t in h.reign && t > term
    ensures IsQuorum(c.nodes.Keys, Late(c, term))
  {
    hide HistInv, NodesInv, NetInv;
    var q := h.reign[t].quorum;
    Electors(h, t);
    forall j | j in q
      ensures j in Late(c, term)
    {
      NodeTerm(c, h, j);
    }
    QuorumGrows(c.nodes.Keys, q, Late(c, term));
  }

  /** Whoever elected a leader of term t has reached it. */
  lemma Electors(h: Hist, t: nat)
    requires HistInv(h) && t in h.reign
    ensures IsQuorum(h.voters, h.reign[t].quorum)
    ensures forall j :: j in h.reign[t].quorum ==> j in h.term && h.term[j] >= t
  {
    assert Elected(h, t, h.reign[t]);
    forall j | j in h.reign[t].quorum
      ensures j in h.term && h.term[j] >= t
    {
      assert VoteOK(h, j, t, h.votes[(j, t)]);
    }
  }

  /** A read acknowledged by a majority is sound, and so is every read queued before it. */
  lemma Confirmed(l: Ledger, hs: seq<Hist>, i: NodeId, term: nat, c: string, s: ReadStatus, ctx: string, acks: set<NodeId>)
    requires PendingOK(l, i, term, c, s) && Chronicle(l.cs, hs)
    requires MarkOK(l, term, ctx) && l.book[(term, ctx)].leader == i && LateAt(l, term, c) <= LateAt(l, term, ctx)
    requires i !in acks && acks <= l.cs[l.now].nodes.Keys && acks !! LateAt(l, term, ctx)
    requires 2 * (|acks| + 1) > |l.cs[l.now].nodes|
    ensures Sound(l, s.index, c)
  {
    hide Chronicle, Accepts, Twice, Excused;
    var a := l.book[(term, c)].pos;
    var keys := l.cs[a].nodes.Keys;
    KeysSize(l.cs[l.now]);
    forall b, p | 0 <= b <= a && p in l.cs[b].nodes
      ensures l.cs[b].nodes[p].committed <= s.index
    {
      if l.cs[b].nodes[p].committed > s.index {
        MajorityMovedOn(l.cs, hs, b, p, a, i);
        var q := acks + {i};
        assert IsQuorum(keys, q);
        QuorumsMeet(keys, q, LateAt(l, term, c));
        assert false;
      }
    }
    assert ReadPoint(l.cs, a, i, s.index, c);
  }

  lemma KeysSize(c: System)
    ensures |c.nodes.Keys| == |c.nodes|
  {
  }

  lemma ReleasedSound(l: Ledger, hs: seq<Hist>, i: NodeId, term: nat, q: ReadQueue, ctx: string)
    requires AllPendingOK(l, i, term, q) && LateInOrder(l, term, q.queue) && Valid(q)
    requires ctx != "" && ctx in q.pending && Chronicle(l.cs, hs) && l.now < |l.cs|
    requires 2 * (|q.pending[ctx].acks| + 1) > |l.cs[l.now].nodes|
    requires Answering(l, i, term, q, ctx)
    ensures forall x :: 0 <= x < |Advance(q, ctx).1| ==> Sound(l, Advance(q, ctx).1[x].index, Ctx(Advance(q, ctx).1[x].req))
  {
    hide Inv, Sound, MarkOK, LateAt, Chronicle, Answering;
    var k := ScanTo(q.queue, ctx);
    assert ctx in q.queue;
    forall x | 0 <= x < k
      ensures Sound(l, Statuses(q, k)[x].index, Ctx(Statuses(q, k)[x].req))
    {
      ReleasedOne(l, hs, i, term, q, ctx, x, k - 1);
    }
  }

  /** The step to the current state hands the answer to leader i, whose queue is this one up to the
      acknowledgements. */
  ghost predicate Answering(l: Ledger, i: NodeId, term: nat, q: ReadQueue, ctx: string) {
    && 0 < l.now < |l.cs| && i in l.cs[l.now - 1].nodes
    && var n := l.cs[l.now - 1].nodes[i];
       && n.role.Leader? && n.term == term && Answers(l.cs[l.now - 1], l.cs[l.now], i, ctx)
       && q.queue == n.readOnly.queue && SameIndexes(n.readOnly, q)
  }

  ghost predicate SameIndexes(q: ReadQueue, q': ReadQueue) {
    forall c {:trigger q'.pending[c]} :: c in q'.pending ==> c in q.pending && q.pending[c].index == q'.pending[c].index
  }

  lemma ReleasedOne(l: Ledger, hs: seq<Hist>, i: NodeId, term: nat, q: ReadQueue, ctx: string, x: nat, y: nat)
    requires AllPendingOK(l, i, term, q) && LateInOrder(l, term, q.queue) && Valid(q)
    requires x <= y < |q.queue| && q.queue[y] == ctx && ctx != "" && Chronicle(l.cs, hs) && l.now < |l.cs|
    requires 2 * (|q.pending[ctx].acks| + 1) > |l.cs[l.now].nodes|
    requires Answering(l, i, term, q, ctx)
    ensures Sound(l, q.pending[q.queue[x]].index, Ctx(q.pending[q.queue[x]].req))
  {
    hide Sound, Accepts, LateAt, Chronicle, Answering, Twice;
    var c := q.queue[x];
    assert PendingOK(l, i, term, c, q.pending[c]) && PendingOK(l, i, term, ctx, q.pending[ctx]);
    assert x < y ==> LateBefore(l, term, c, ctx);
    if Twice(l, term, ctx) {
      ReleasedExcused(l, i, term, q, ctx, x, y);
    } else {
      Confirmed(l, hs, i, term, c, q.pending[c], ctx, q.pending[ctx].acks);
    }
  }

  lemma ReleasedExcused(l: Ledger, i: NodeId, term: nat, q: ReadQueue, ctx: string, x: nat, y: nat)
    requires Answering(l, i, term, q, ctx) && Twice(l, term, ctx) && x <= y < |q.queue| && q.queue[y] == ctx
    requires q.queue[x] in q.pending
    ensures Sound(l, q.pending[q.queue[x]].index, q.queue[x])
  {
    hide Answers, QueuedTwice, ReadPoint;
    var a := l.now - 1;
    var c := q.queue[x];
    assert q.pending[c].index == l.cs[a].nodes[i].readOnly.pending[c].index;
    assert InQueue(l.cs[a].nodes[i].readOnly, ctx, q.pending[c].index, c);
    assert ReleasedBy(l.cs, a, i, ctx, q.pending[c].index, c);
  }

  lemma HandleReadAckReads(l: Ledger, hs: seq<Hist>, i: NodeId, n: Node, m: Message)
    requires Reading(l, i, n) && Local(n) && n.role.Leader? && m.kind.MsgHeartbeatResp? && MsgReads(l, m)
    requires m.term == n.term
    requires Chronicle(l.cs, hs) && l.now < |l.cs| && m.from in l.cs[l.now].nodes && m.from != i
    requires |l.cs[l.now].nodes| == |n.cfg.peers| && Answering(l, i, n.term, n.readOnly, m.context)
    ensures Reading(l, i, HandleReadAck(n, m))
  {
    hide MarkOK, LateAt, LateInOrder, AllPendingOK, StatesOK, MsgsReads, Release, Chronicle, Advance, Answering, Answerable;
    if m.context != "" {
      var (q, acks) := RecvAck(n.readOnly, m.from, m.context);
      RecvAckReads(l, i, n.term, n.readOnly, m.from, m.context);
      ReadAckQueue(n, m.from, m.context);
      QueueReads(l, i, n, q);
      if acks >= Quorum(n) {
        var (q', rss) := Advance(q, m.context);
        AckAnswering(l, i, n.term, n.readOnly, m.from, m.context);
        ReleasedSound(l, hs, i, n.term, q, m.context);
        AdvanceReads(l, i, n.term, q, m.context);
        QueueReads(l, i, n, q');
        ReleaseReads(l, i, n.(readOnly := q'), rss);
      }
    }
  }

  lemma AckAnswering(l: Ledger, i: NodeId, term: nat, q: ReadQueue, from: NodeId, ctx: string)
    requires Answering(l, i, term, q, ctx)
    ensures Answering(l, i, term, RecvAck(q, from, ctx).0, ctx)
  {
    hide Answers;
    var n := l.cs[l.now - 1].nodes[i];
    var q' := RecvAck(q, from, ctx).0;
    forall c | c in q'.pending
      ensures c in n.readOnly.pending && n.readOnly.pending[c].index == q'.pending[c].index
    {
      assert q.pending[c].index == q'.pending[c].index;
    }
  }

  lemma AdvanceReads(l: Ledger, i: NodeId, term: nat, q: ReadQueue, ctx: string)
    requires AllPendingOK(l, i, term, q) && LateInOrder(l, term, q.queue) && Backed(q)
    ensures AllPendingOK(l, i, term, Advance(q, ctx).0) && LateInOrder(l, term, Advance(q, ctx).0.queue)
  {
    hide AllPendingOK, LateInOrder;
    RestReads(l, i, term, q, ScanTo(q.queue, ctx));
  }

  lemma HeartbeatRespReads(l: Ledger, hs: seq<Hist>, i: NodeId, n: Node, m: Message)
    requires Reading(l, i, n) && Local(n) && n.role.Leader? && m.kind.MsgHeartbeatResp? && MsgReads(l, m)
    requires m.term == n.term
    requires Chronicle(l.cs, hs) && l.now < |l.cs| && m.from in l.cs[l.now].nodes && m.from != i && m.from in n.prs
    requires |l.cs[l.now].nodes| == |n.cfg.peers| && Answering(l, i, n.term, n.readOnly, m.context)
    ensures Reading(l, i, HandleHeartbeatResp(n, m))
  {
    hide Reading, Local, MsgReads, Chronicle, Answering, MaybeSendAppend, HandleReadAck, FreeFirstOne, IsFull, Pipelined;
    var pr := Pr(n, m.from).(recentActive := true, paused := false);
    var pr1 :=
      if pr.state.Replicate? && IsFull(pr, n.cfg.maxInflight) then pr.(inflights := FreeFirstOne(pr.inflights))
      else pr;
    var n1 := SetPr(n, m.from, pr1);
    HeartbeatRespWindow(n, m);
    SetPrLocal(n, m.from, pr1);
    SetPrQuiet(n, m.from, pr1);
    QuietReads(l, i, n, n1);
    MaybeSendAppendLocal(n1, m.from, true);
    MaybeSendAppendQuiet(n1, m.from, true);
    QuietReads(l, i, n1, SendAppend(n1, m.from));
    var n2 := if pr1.matched < LastIndex(n1) then SendAppend(n1, m.from) else n1;
    HandleReadAckReads(l, hs, i, n2, m);
  }

  // ---------------------------------------------------------------- accepting a read

  /** The ledger with the context entered as queued in the step before. */
  function Entered(l: Ledger, term: nat, ctx: string, i: NodeId): Ledger
    requires l.now > 0
  {
    l.(book := l.book[(term, ctx) := Mark(l.now - 1, i)])
  }

  /** Entering a context that was entered before means that it is queued twice. */
  lemma EnteredTwice(l: Ledger, term: nat, ctx: string, i: NodeId)
    requires l.now > 0 && BookAt(l, term, ctx) && l.book[(term, ctx)].pos < l.now - 1
    requires Registered(l.cs, l.now - 1, term, ctx)
    ensures Twice(Entered(l, term, ctx, i), term, ctx)
  {
    hide Registered, Accepts, Late;
    var p := l.book[(term, ctx)].pos;
    var q: nat := l.now - 1;
    assert p < q < l.now && Registered(l.cs, p, term, ctx) && Registered(l.cs, q, term, ctx);
  }

  lemma EnteredMark(l: Ledger, term: nat, ctx: string, i: NodeId)
    requires 0 < l.now < |l.cs|
    requires var c := l.cs[l.now - 1];
      && i in c.nodes && c.nodes[i].role.Leader? && c.nodes[i].term == term
      && TermAt(c.nodes[i].log, c.nodes[i].committed) == term
      && c.nodes.Keys == l.cs[l.now].nodes.Keys && Late(c, term) <= Late(l.cs[l.now], term)
    requires Accepts(l.cs, l.now - 1, i, ctx) && Registered(l.cs, l.now - 1, term, ctx)
    ensures var l' := Entered(l, term, ctx, i);
      BookAt(l', term, ctx) && l'.book[(term, ctx)] == Mark(l.now - 1, i)
  {
    hide Accepts, Registered, Late;
  }

  lemma OtherMarks(l: Ledger, term: nat, ctx: string, i: NodeId, t: nat, c: string)
    requires l.now > 0 && (t, c) != (term, ctx)
    ensures var l' := Entered(l, term, ctx, i);
      && (MarkOK(l, t, c) ==> MarkOK(l', t, c) && SameMark(l, l', t, c))
      && (BookAt(l, t, c) ==> BookAt(l', t, c))
      && ((t, c) in l'.book ==> (t, c) in l.book)
  {
    hide Accepts, Registered, Late;
  }

  lemma EnteredOK(l: Ledger, term: nat, ctx: string, i: NodeId)
    requires BookOK(l) && OldBook(l) && l.now > 0
    requires var c := l.cs[l.now - 1];
      && i in c.nodes && c.nodes[i].role.Leader? && c.nodes[i].term == term
      && TermAt(c.nodes[i].log, c.nodes[i].committed) == term
      && c.nodes.Keys == l.cs[l.now].nodes.Keys && Late(c, term) <= Late(l.cs[l.now], term)
    requires Accepts(l.cs, l.now - 1, i, ctx) && Registered(l.cs, l.now - 1, term, ctx)
    ensures var l' := Entered(l, term, ctx, i);
      BookOK(l') && Extends(l, l') && MarkOK(l', term, ctx) && l'.book[(term, ctx)] == Mark(l.now - 1, i)
  {
    hide Accepts, Registered, Late, BookAt, MarkOK, SameMark, Twice, LateSoFar;
    var l' := Entered(l, term, ctx, i);
    EnteredMark(l, term, ctx, i);
    BookMark(l', term, ctx);
    forall t, c | (t, c) in l'.book
      ensures BookAt(l', t, c)
    {
      if (t, c) != (term, ctx) {
        OtherMarks(l, term, ctx, i, t, c);
        assert BookAt(l, t, c);
      }
    }
    forall t: nat, c: string | MarkOK(l, t, c)
      ensures MarkKept(l, l', t, c)
    {
      if (t, c) != (term, ctx) {
        OtherMarks(l, term, ctx, i, t, c);
      } else {
        MarkIn(l, term, ctx);
        assert BookAt(l, term, ctx) && LateSoFar(l, term, ctx);
        EnteredTwice(l, term, ctx, i);
      }
    }
  }

  lemma MarkIn(l: Ledger, term: nat, ctx: string)
    requires MarkOK(l, term, ctx)
    ensures (term, ctx) in l.book
  {
  }

  lemma BookMark(l: Ledger, term: nat, ctx: string)
    requires BookAt(l, term, ctx)
    ensures MarkOK(l, term, ctx)
  {
  }

  /** The new request goes to the end of the queue, where most nodes have moved on. */
  lemma EnqueuedReads(l: Ledger, i: NodeId, n: Node, m: Message)
    requires Reading(l, i, n) && n.role.Leader? && Valid(n.readOnly) && Ctx(m) !in n.readOnly.pending
    requires PendingOK(l, i, n.term, Ctx(m), ReadStatus(n.committed, m, {}))
    requires forall c :: c in n.readOnly.pending ==> LateBefore(l, n.term, c, Ctx(m))
    ensures Reading(l, i, n.(readOnly := AddRequest(n.readOnly, n.committed, m)))
  {
    hide PendingOK, LateBefore, StatesOK, MsgsReads;
    var q := n.readOnly;
    var q' := AddRequest(q, n.committed, m);
    forall x, y | 0 <= x < y < |q'.queue|
      ensures LateBefore(l, n.term, q'.queue[x], q'.queue[y])
    {
      if y < |q.queue| {
        assert LateBefore(l, n.term, q.queue[x], q.queue[y]);
      } else {
        assert q.queue[x] in q.pending;
      }
    }
  }

  /** Every read of the term was queued earlier, when no more nodes had moved on than now. */
  lemma NewestLate(l: Ledger, i: NodeId, n: Node, ctx: string, c: string)
    requires BookOK(l) && MarkOK(l, n.term, ctx) && Reading(l, i, n) && c in n.readOnly.pending
    requires l.now > 0 && l.book[(n.term, ctx)].pos == l.now - 1
    requires (n.term, c) in l.book ==> LateSoFar(l, n.term, c)
    ensures LateBefore(l, n.term, c, ctx)
  {
    hide Accepts, Late;
    assert PendingOK(l, i, n.term, c, n.readOnly.pending[c]);
  }

  /** Up to the state before the current one. */
  ghost predicate LateSoFar(l: Ledger, term: nat, c: string) {
    MarkOK(l, term, c) && 0 < l.now < |l.cs| && LateAt(l, term, c) <= Late(l.cs[l.now - 1], term)
  }

  /** What the handler of a read request does to the queue. */
  lemma ReadIndexFrame(n: Node, m: Message)
    requires m.entries != [] && Quorum(n) > 1 && TermAt(n.log, n.committed) == n.term && !n.cfg.leaseRead
    ensures ReadIndexReq(n, m).readOnly == AddRequest(n.readOnly, n.committed, m)
    ensures Ctx(m) in AddRequest(n.readOnly, n.committed, m).pending
  {
    hide BcastHeartbeat;
    var n1 := n.(readOnly := AddRequest(n.readOnly, n.committed, m));
    BcastHeartbeatQueue(n1, n1.cfg.peers, Ctx(m));
  }

  lemma {:induction false} BcastHeartbeatQueue(n: Node, ps: seq<NodeId>, ctx: string)
    ensures BcastHeartbeat(n, ps, ctx).readOnly == n.readOnly
    decreases |ps|
  {
    if ps == [] {
    } else if ps[0] == n.cfg.id {
      BcastHeartbeatQueue(n, ps[1..], ctx);
    } else {
      BcastHeartbeatQueue(SendHeartbeat(n, ps[0], ctx), ps[1..], ctx);
    }
  }

  /** Node i of the state before the current one takes the read request m. */
  ghost predicate TakingRead(l: Ledger, i: NodeId, m: Message) {
    && 0 < l.now < |l.cs| && i in l.cs[l.now - 1].nodes && i in l.cs[l.now].nodes
    && l.cs[l.now - 1].nodes[i].role.Leader? && m.entries != []
    && l.cs[l.now].nodes[i].readOnly == ReadIndexReq(l.cs[l.now - 1].nodes[i], m).readOnly
    && Accepts(l.cs, l.now - 1, i, Ctx(m))
    && l.cs[l.now - 1].nodes.Keys == l.cs[l.now].nodes.Keys
    && (forall term {:trigger Late(l.cs[l.now], term)} :: Late(l.cs[l.now - 1], term) <= Late(l.cs[l.now], term))
  }

  /** Every entry of the book was made before the current step. */
  ghost predicate OldBook(l: Ledger) {
    forall term, ctx {:trigger LateSoFar(l, term, ctx)} :: (term, ctx) in l.book ==>
      LateSoFar(l, term, ctx) && l.book[(term, ctx)].pos < l.now - 1
  }

  lemma QueuedNow(l: Ledger, i: NodeId, m: Message)
    requires TakingRead(l, i, m)
    requires var n := l.cs[l.now - 1].nodes[i];
      && Ctx(m) !in n.readOnly.pending && Quorum(n) > 1 && TermAt(n.log, n.committed) == n.term && !n.cfg.leaseRead
    ensures Registered(l.cs, l.now - 1, l.cs[l.now - 1].nodes[i].term, Ctx(m))
  {
    hide Accepts, Late, ReadIndexReq;
    ReadIndexFrame(l.cs[l.now - 1].nodes[i], m);
  }

  /** Accepting a read that is not pending yet. */
  lemma RegisterReads(l: Ledger, i: NodeId, m: Message) returns (l': Ledger)
    requires TakingRead(l, i, m) && BookOK(l) && OldBook(l)
    requires var n := l.cs[l.now - 1].nodes[i];
      && Ctx(m) !in n.readOnly.pending && Quorum(n) > 1 && TermAt(n.log, n.committed) == n.term && !n.cfg.leaseRead
      && Reading(l, i, n) && Valid(n.readOnly)
    ensures var n := l.cs[l.now - 1].nodes[i];
      && l' == Entered(l, n.term, Ctx(m), i) && Extends(l, l') && BookOK(l') && MarkOK(l', n.term, Ctx(m))
      && Reading(l', i, n.(readOnly := AddRequest(n.readOnly, n.committed, m)))
  {
    hide Accepts, Registered, ReadIndexReq, LateAt, Reading, BookOK, Extends, OldBook, Twice, LateBefore, Fixed, SameMark;
    var n := l.cs[l.now - 1].nodes[i];
    QueuedNow(l, i, m);
    l' := Entered(l, n.term, Ctx(m), i);
    assert Late(l.cs[l.now - 1], n.term) <= Late(l.cs[l.now], n.term);
    EnteredOK(l, n.term, Ctx(m), i);
    EnteredFixed(l, n.term, Ctx(m), i, n);
    ReadingExtends(l, l', i, n);
    forall c | c in n.readOnly.pending
      ensures LateBefore(l', n.term, c, Ctx(m))
    {
      OldStays(l, l', i, n, c);
      NewestLate(l', i, n, Ctx(m), c);
    }
    EnqueuedReads(l', i, n, m);
  }

  lemma EnteredFixed(l: Ledger, term: nat, ctx: string, i: NodeId, n: Node)
    requires l.now > 0 && (n.term == term ==> ctx !in n.readOnly.pending)
    ensures Fixed(l, Entered(l, term, ctx, i), n)
  {
  }

  lemma OldStays(l: Ledger, l': Ledger, i: NodeId, n: Node, c: string)
    requires Extends(l, l') && l'.now == l.now && OldBook(l) && Reading(l, i, n) && c in n.readOnly.pending
    requires Fixed(l, l', n)
    ensures LateSoFar(l', n.term, c)
  {
    hide MarkOK, LateAt, Late, Twice, Extends;
    assert PendingOK(l, i, n.term, c, n.readOnly.pending[c]);
    PendingMarked(l, i, n.term, c, n.readOnly.pending[c]);
    assert LateSoFar(l, n.term, c) && SameMark(l, l', n.term, c);
    MarkExtends(l, l', n.term, c);
    SameLate(l, l', n.term, c);
  }

  lemma PendingMarked(l: Ledger, i: NodeId, term: nat, c: string, s: ReadStatus)
    requires PendingOK(l, i, term, c, s)
    ensures (term, c) in l.book
  {
  }

  /** A lone voter answers at once; there is nobody who could know better, and it has committed all
      it has. */
  lemma LoneVoterSound(l: Ledger, hs: seq<Hist>, i: NodeId, m: Message)
    requires TakingRead(l, i, m) && |l.cs[l.now - 1].nodes| <= 1 && Run(l.cs) && Chronicle(l.cs, hs)
    requires |l.cs[l.now - 1].nodes[i].cfg.peers| == 1
    ensures Sound(l, l.cs[l.now - 1].nodes[i].committed, Ctx(m))
  {
    hide Accepts, ReadIndexReq, Late, Run, Chronicle, Excused;
    var a := l.now - 1;
    LoneLeaders(l.cs, hs, a, i);
    forall b, p | 0 <= b <= a && p in l.cs[b].nodes
      ensures l.cs[b].nodes[p].committed <= l.cs[a].nodes[i].committed
    {
      RunRises(l.cs, hs, b, a, p);
      SubsetSize({p, i}, l.cs[a].nodes.Keys);
      KeysSize(l.cs[a]);
      assert p == i;
      CommittedInReach(l.cs, hs, b, a, i);
    }
    assert ReadPoint(l.cs, a, i, l.cs[a].nodes[i].committed, Ctx(m));
  }

  /** What a node had committed when its term was no higher is in the log it leads with. */
  lemma CommittedInReach(cs: seq<System>, hs: seq<Hist>, b: nat, a: nat, i: NodeId)
    requires Chronicle(cs, hs) && b <= a < |cs| && i in cs[b].nodes && i in cs[a].nodes
    requires cs[a].nodes[i].role.Leader? && cs[b].nodes[i].term <= cs[a].nodes[i].term
    ensures cs[b].nodes[i].committed <= |cs[a].nodes[i].log|
  {
    hide Inv, HistInv, LogInv, TermsUpTo, ReignsGrow;
    var h := hs[a];
    NodeFacts(cs[a], h, i);
    NodeFacts(cs[b], hs[b], i);
    InvHist(cs[a], h);
    var n, m := cs[a].nodes[i], cs[b].nodes[i];
    Later(cs, hs, b, a);
    CommitInvGrows(hs[b], h, m.term, m.log, m.committed);
    if m.committed > 0 {
      var t: nat :| t <= m.term && CommittedBy(h, t, m.log, m.committed);
      LeaderCompleteness(h, t, n.term);
    }
  }

  lemma ReadIndexReads(l: Ledger, hs: seq<Hist>, i: NodeId, m: Message) returns (l': Ledger)
    requires TakingRead(l, i, m) && BookOK(l) && OldBook(l) && Run(l.cs) && Chronicle(l.cs, hs)
    requires var n := l.cs[l.now - 1].nodes[i];
      Reading(l, i, n) && Local(n) && |n.cfg.peers| == |l.cs[l.now - 1].nodes|
    ensures Extends(l, l') && BookOK(l')
    ensures EntersAt(l, l', l.cs[l.now - 1].nodes[i].term, i)
    ensures Reading(l', i, ReadIndexReq(l.cs[l.now - 1].nodes[i], m))
  {
    hide Accepts, Late, BookOK, OldBook, Reading, Extends, MarkOK, Local, BcastHeartbeat, AddRequest, Sound, Run, Chronicle;
    var n := l.cs[l.now - 1].nodes[i];
    LoneCount(n);
    ExtendsRefl(l);
    l' := l;
    NotLease(l, i, n);
    if Quorum(n) <= 1 {
      LoneVoterSound(l, hs, i, m);
      StateReads(l, i, n, n.committed, Ctx(m));
    } else if TermAt(n.log, n.committed) == n.term {
      var n1 := n.(readOnly := AddRequest(n.readOnly, n.committed, m));
      if Ctx(m) in n.readOnly.pending {
        PendingAgain(l, i, n, m);
      } else {
        QueueValid(n);
        l' := RegisterReads(l, i, m);
        assert Entering(l, l', n.term, Ctx(m), i);
      }
      BcastHeartbeatReads(l', i, n1, n1.cfg.peers, Ctx(m));
    }
  }

  /** Nothing was entered, or one context in the term. */
  ghost predicate EntersAt(l: Ledger, l': Ledger, term: nat, i: NodeId) {
    l' == l || exists ctx {:trigger Entering(l, l', term, ctx, i)} :: Entering(l, l', term, ctx, i)
  }

  ghost predicate Entering(l: Ledger, l': Ledger, term: nat, ctx: string, i: NodeId) {
    l.now > 0 && l' == Entered(l, term, ctx, i)
  }

  lemma LoneCount(n: Node)
    requires Local(n)
    ensures n.cfg.peers != []
  {
  }

  lemma ExtendsRefl(l: Ledger)
    requires l.now < |l.cs|
    ensures Extends(l, l)
  {
  }

  lemma NotLease(l: Ledger, i: NodeId, n: Node)
    requires Reading(l, i, n)
    ensures !n.cfg.leaseRead && n.cfg.id == i
  {
  }

  lemma QueueValid(n: Node)
    requires Local(n)
    ensures Valid(n.readOnly)
  {
  }

  lemma PendingAgain(l: Ledger, i: NodeId, n: Node, m: Message)
    requires Reading(l, i, n) && Ctx(m) in n.readOnly.pending
    ensures AddRequest(n.readOnly, n.committed, m) == n.readOnly && MarkOK(l, n.term, Ctx(m))
  {
    assert PendingOK(l, i, n.term, Ctx(m), n.readOnly.pending[Ctx(m)]);
  }

  // ---------------------------------------------------------------- whole steps

  /** The state before the current one, and what is known of it. */
  ghost predicate Before(l: Ledger, h: Hist, i: NodeId) {
    && 0 < l.now < |l.cs| && i in l.cs[l.now - 1].nodes && i in l.cs[l.now].nodes
    && Inv(l.cs[l.now - 1], h)
    && l.cs[l.now - 1].nodes.Keys == l.cs[l.now].nodes.Keys
  }

  lemma VoterCount(l: Ledger, h: Hist, i: NodeId)
    requires Before(l, h, i)
    ensures var n := l.cs[l.now - 1].nodes[i];
      |n.cfg.peers| == |l.cs[l.now - 1].nodes| && |n.cfg.peers| == |l.cs[l.now].nodes| && n.cfg.id == i && n.msgs == []
  {
    hide HistInv, MsgInv;
    GoodNode(h, l.cs[l.now - 1], i);
    VotersSize(h, l.cs[l.now - 1].nodes[i]);
    KeysSize(l.cs[l.now - 1]);
    KeysSize(l.cs[l.now]);
  }

  /** Handling a heartbeat once its term is noted: the node was not late in the state before. */
  lemma TakeHeartbeat(l: Ledger, i: NodeId, n: Node, m: Message)
    requires Reading(l, i, n) && m.kind.MsgHeartbeat? && MsgReads(l, m) && m.term == n.term && !n.role.Leader?
    requires OldBook(l) && 0 < l.now < |l.cs| && i in l.cs[l.now - 1].nodes && l.cs[l.now - 1].nodes[i].term <= m.term
    ensures Reading(l, i, RoleStep(n, m))
  {
    hide Reading, HandleHeartbeat, BecomeFollower, MarkOK, LateAt, Twice;
    assert m.context != "" && MarkOK(l, m.term, m.context) ==> i !in LateAt(l, m.term, m.context) by {
      if m.context != "" && MarkOK(l, m.term, m.context) { NotLateYet(l, i, m.term, m.context); }
    }
    var n1 := if n.role.Follower? then n.(electionElapsed := 0, lead := m.from) else BecomeFollower(n, m.term, m.from);
    if n.role.Follower? { LeadQuiet(n, m.from); } else { BecomeFollowerQuiet(n, m.term, m.from); }
    FollowerTermIs(n, m.term, m.from);
    QuietReads(l, i, n, n1);
    HeartbeatReads(l, i, n1, m);
  }

  lemma FollowerTermIs(n: Node, term: nat, lead: NodeId)
    ensures BecomeFollower(n, term, lead).term == term
  {
  }

  lemma NotLateYet(l: Ledger, i: NodeId, term: nat, ctx: string)
    requires MarkOK(l, term, ctx) && OldBook(l) && 0 < l.now < |l.cs|
    requires i in l.cs[l.now - 1].nodes && l.cs[l.now - 1].nodes[i].term <= term
    ensures i !in LateAt(l, term, ctx)
  {
    hide Accepts;
    assert LateSoFar(l, term, ctx);
  }

  lemma TakeHeartbeatResp(l: Ledger, hs: seq<Hist>, i: NodeId, n: Node, m: Message)
    requires Reading(l, i, n) && Local(n) && Chronicle(l.cs, hs) && l.now < |l.cs| && |l.cs[l.now].nodes| == |n.cfg.peers|
    requires m.kind.MsgHeartbeatResp? && MsgReads(l, m) && n.term == m.term && m.from in l.cs[l.now].nodes && m.from != i
    requires n.role.Leader? ==> Answering(l, i, n.term, n.readOnly, m.context)
    ensures Reading(l, i, RoleStep(n, m))
  {
    hide Reading, Local, HandleHeartbeatResp, MsgReads, Chronicle, Answering;
    if n.role.Leader? && m.from in n.prs { HeartbeatRespReads(l, hs, i, n, m); }
  }

  lemma TakeReadResp(l: Ledger, i: NodeId, n: Node, m: Message)
    requires Reading(l, i, n) && m.kind.MsgReadIndexResp? && MsgReads(l, m)
    ensures Reading(l, i, RoleStep(n, m))
  {
    hide Reading, Sound;
    if n.role.Follower? && |m.entries| == 1 { StateReads(l, i, n, m.index, m.entries[0].data); }
  }

  lemma RespSender(l: Ledger, h: Hist, i: NodeId, m: Message)
    requires Before(l, h, i) && MsgInv(h, m) && m.kind.MsgHeartbeatResp?
    ensures m.from in l.cs[l.now].nodes && m.from != m.to
  {
    hide HistInv, NodesInv, NetInv;
  }

  /** A message about reads once its term is noted. */
  lemma LoudReads(l: Ledger, hs: seq<Hist>, h: Hist, i: NodeId, n: Node, m: Message)
    requires Reading(l, i, n) && Local(n) && Chronicle(l.cs, hs) && OldBook(l) && Before(l, h, i)
    requires Loud(m.kind) && MsgInv(h, m) && MsgReads(l, m) && m.to == i && n.term == m.term
    requires l.cs[l.now - 1].nodes[i].term <= m.term && n.cfg == l.cs[l.now - 1].nodes[i].cfg
    requires !m.kind.MsgReadIndex?
    requires m.kind.MsgHeartbeatResp? && n.role.Leader? ==> Answering(l, i, n.term, n.readOnly, m.context)
    ensures Reading(l, i, RoleStep(n, m))
  {
    hide Reading, Local, RoleStep, Inv, OldBook, MsgReads, MsgInv, Chronicle, Answering;
    VoterCount(l, h, i);
    if m.kind.MsgHeartbeat? {
      if n.role.Leader? { LeaderIgnores(n, m); } else { TakeHeartbeat(l, i, n, m); }
    } else if m.kind.MsgHeartbeatResp? {
      RespSender(l, h, i, m);
      TakeHeartbeatResp(l, hs, i, n, m);
    } else {
      TakeReadResp(l, i, n, m);
    }
  }

  lemma LeaderIgnores(n: Node, m: Message)
    requires n.role.Leader? && m.kind.MsgHeartbeat?
    ensures RoleStep(n, m) == n
  {
  }

  lemma LoudTerm(h: Hist, n: Node, m: Message)
    requires HistInv(h) && MsgInv(h, m) && Loud(m.kind) && !m.kind.MsgReadIndex? && NoteTerm(n, m).Go?
    ensures m.term == NoteTerm(n, m).n.term && n.term <= m.term
  {
    hide HistInv;
    if m.kind.MsgHeartbeat? { ReignTerm(h, m.term); }
  }

  /** A step that is not about a read request, once its term is noted. */
  lemma NotedReads(l: Ledger, hs: seq<Hist>, h: Hist, i: NodeId, n: Node, m: Message)
    requires Chronicle(l.cs, hs) && OldBook(l) && Before(l, h, i) && Reading(l, i, n) && Local(n) && Fit(n)
    requires !m.kind.MsgReadIndex?
    requires Loud(m.kind) ==> MsgInv(h, m) && MsgReads(l, m) && m.to == i && n.term == m.term
    requires Loud(m.kind) ==> l.cs[l.now - 1].nodes[i].term <= m.term && n.cfg == l.cs[l.now - 1].nodes[i].cfg
    requires m.kind.MsgHeartbeatResp? && n.role.Leader? ==> Answering(l, i, n.term, n.readOnly, m.context)
    ensures Reading(l, i, Dispatch(n, m))
  {
    hide Reading, Local, Fit, Quiet, Before, OldBook, Chronicle, Dispatch, MsgInv, MsgReads, Answering;
    if Loud(m.kind) {
      LoudReads(l, hs, h, i, n, m);
      LoudDispatch(n, m);
    } else if m.kind.MsgBeat? && n.role.Leader? {
      BeatReads(l, i, n, m);
    } else {
      DispatchQuiet(n, m);
      QuietReads(l, i, n, Dispatch(n, m));
    }
  }

  lemma LocalNotLoud(m: Message)
    requires LocalMsg(m) && !m.kind.MsgReadIndex?
    ensures !Loud(m.kind)
  {
  }

  /** A leader in the message's term is as it was before the step. */
  lemma AnswerNoted(l: Ledger, i: NodeId, m: Message)
    requires 0 < l.now < |l.cs| && i in l.cs[l.now - 1].nodes && Answers(l.cs[l.now - 1], l.cs[l.now], i, m.context)
    requires m.kind.MsgHeartbeatResp?
    ensures var n1 := NoteTerm(l.cs[l.now - 1].nodes[i], m).n;
      NoteTerm(l.cs[l.now - 1].nodes[i], m).Go? && n1.role.Leader? ==> Answering(l, i, n1.term, n1.readOnly, m.context)
  {
    hide Answers;
  }

  /** A step that is not about a read request. */
  lemma OrdinaryReads(l: Ledger, hs: seq<Hist>, h: Hist, i: NodeId, m: Message)
    requires Chronicle(l.cs, hs) && OldBook(l) && Before(l, h, i) && !m.kind.MsgReadIndex?
    requires Reading(l, i, l.cs[l.now - 1].nodes[i])
    requires LocalMsg(m) || (MsgInv(h, m) && MsgReads(l, m) && m.to == i)
    requires m.kind.MsgHeartbeatResp? ==> Answers(l.cs[l.now - 1], l.cs[l.now], i, m.context)
    ensures Reading(l, i, Step(l.cs[l.now - 1].nodes[i], m))
  {
    hide Reading, Good, Inv, NodeOK, Local, Fit, Quiet, MsgInv, MsgReads, LocalMsg, OldBook, Chronicle, NoteTerm, Dispatch,
         Answering, Answers;
    var n := l.cs[l.now - 1].nodes[i];
    NodeBefore(l, h, i);
    NoteTermLocal(n, m);
    NoteTermQuiet(n, m);
    NoteTermFit(n, m);
    var n1 := NoteTerm(n, m).n;
    QuietReads(l, i, n, n1);
    QuietCfg(n, n1);
    if NoteTerm(n, m).Go? {
      if LocalMsg(m) { LocalNotLoud(m); } else if Loud(m.kind) { LoudTerm(h, n, m); }
      if m.kind.MsgHeartbeatResp? { AnswerNoted(l, i, m); }
      NotedReads(l, hs, h, i, n1, m);
    }
  }

  /** A node that does not lead hands a read request on, or drops it. */
  lemma ForwardReads(l: Ledger, h: Hist, i: NodeId, n: Node, m: Message)
    requires Reading(l, i, n) && !n.role.Leader? && m.kind.MsgReadIndex? && (LocalMsg(m) || MsgInv(h, m))
    ensures Reading(l, i, Step(n, m))
  {
    hide Reading, MsgInv, LocalMsg, RoleStep, Send, NoteTerm;
    ReadTerm(h, n, m);
    ForwardRead(n, m);
    ReadTermZero(h, m);
    if n.role.Follower? && n.lead != NONE { SentReads(l, i, n, m.(to := n.lead)); }
  }

  lemma ReadTermZero(h: Hist, m: Message)
    requires m.kind.MsgReadIndex? && (LocalMsg(m) || MsgInv(h, m))
    ensures m.term == 0
  {
  }

  lemma NodeBefore(l: Ledger, h: Hist, i: NodeId)
    requires Before(l, h, i)
    ensures Local(l.cs[l.now - 1].nodes[i]) && HistInv(h) && Fit(l.cs[l.now - 1].nodes[i])
  {
    hide HistInv, NetInv, Fit;
    GoodNode(h, l.cs[l.now - 1], i);
    GoodFit(h, l.cs[l.now - 1].nodes[i]);
  }

  lemma LoudDispatch(n: Node, m: Message)
    requires Loud(m.kind)
    ensures Dispatch(n, m) == RoleStep(n, m)
  {
  }

  lemma BeatReads(l: Ledger, i: NodeId, n: Node, m: Message)
    requires Reading(l, i, n) && Local(n) && n.role.Leader? && m.kind.MsgBeat?
    ensures Reading(l, i, Dispatch(n, m))
  {
    hide Reading, Local, BcastHeartbeat, MarkOK;
    LastPendingMarked(l, i, n);
    BcastHeartbeatReads(l, i, n, n.cfg.peers, LastPendingCtx(n.readOnly));
  }

  /** A read request has no term of its own. */
  lemma ReadTerm(h: Hist, n: Node, m: Message)
    requires LocalMsg(m) || MsgInv(h, m)
    ensures m.kind.MsgReadIndex? ==> m.entries != [] && NoteTerm(n, m) == Go(n)
  {
  }

  lemma TakenStep(h: Hist, n: Node, m: Message)
    requires LocalMsg(m) || MsgInv(h, m)
    requires n.role.Leader? && m.kind.MsgReadIndex?
    ensures m.entries != [] && Step(n, m) == ReadIndexReq(n, m)
  {
    hide NoteTerm, ReadIndexReq, LocalMsg, MsgInv;
    ReadTerm(h, n, m);
  }

  /** Actions that are not messages. */
  lemma SilentReads(l: Ledger, i: NodeId, n: Node, a: Action)
    requires Reading(l, i, n) && !a.Deliver? && !a.Request?
    ensures Reading(l, i, Act(n, a))
  {
    hide Quiet, AllPendingOK, LateInOrder, MsgsReads, Sound, BecomeFollower;
    match a
    case Apply(k) => AppliedQuiet(n, a);
    case Clock(e, abort) => AppliedQuiet(n, a);
    case TakeReads =>
    case Restart(applied, committed) =>
      var n1 := n.(readStates := [], committed := committed, applied := applied);
      assert Reading(l, i, n1);
      BecomeFollowerQuiet(n1, n.term, NONE);
      QuietReads(l, i, n1, BecomeFollower(n1, n.term, NONE));
    if a.Apply? || a.Clock? { QuietReads(l, i, n, Act(n, a)); }
  }

  lemma AppliedQuiet(n: Node, a: Action)
    requires a.Apply? || a.Clock?
    ensures Quiet(n, Act(n, a))
  {
  }

  // ---------------------------------------------------------------- runs

  ghost predicate NodesRead(l: Ledger, nodes: map<NodeId, Node>) {
    forall j {:trigger nodes[j]} :: j in nodes ==> NodeReads(l, j, nodes[j])
  }

  ghost predicate NetReads(l: Ledger, net: set<Message>) {
    forall m {:trigger m in net} :: m in net ==> MsgReads(l, m)
  }

  ghost predicate AllReads(l: Ledger) {
    BookOK(l) && NodesRead(l, l.cs[l.now].nodes) && NetReads(l, l.cs[l.now].net)
  }

  /** A node that was late stays late. */
  lemma LateGrows(c: System, h: Hist, i: NodeId, a: Action)
    requires Inv(c, h) && i in c.nodes && Enabled(c, i, a)
    ensures forall term {:trigger Late(After(c, i, a), term)} :: Late(c, term) <= Late(After(c, i, a), term)
    ensures After(c, i, a).nodes.Keys == c.nodes.Keys
  {
    hide Inv, Enabled, Act;
    var h' := AfterInv(c, h, i, a);
    var c' := After(c, i, a);
    forall term, j | j in Late(c, term)
      ensures j in Late(c', term)
    {
      NodeTerm(c, h, j);
      NodeTerm(c', h', j);
    }
  }

  lemma NodeTerm(c: System, h: Hist, i: NodeId)
    requires Inv(c, h) && i in c.nodes
    ensures i in h.term && h.term[i] == c.nodes[i].term
  {
    hide HistInv, Local, NetInv;
    assert NodeOK(h, i, c.nodes[i]);
  }

  /** The ledger in the next state, before anything is entered in it. */
  function Moved(l: Ledger): Ledger {
    l.(now := l.now + 1)
  }

  ghost predicate StepTo(l: Ledger, h: Hist, i: NodeId, a: Action) {
    && l.now + 1 < |l.cs| && Inv(l.cs[l.now], h) && i in l.cs[l.now].nodes
    && Enabled(l.cs[l.now], i, a) && l.cs[l.now + 1] == After(l.cs[l.now], i, a)
  }

  lemma MovedBook(l: Ledger, h: Hist, i: NodeId, a: Action)
    requires StepTo(l, h, i, a) && BookOK(l)
    ensures BookOK(Moved(l)) && OldBook(Moved(l)) && Extends(l, Moved(l)) && Before(Moved(l), h, i)
    ensures forall term {:trigger Late(l.cs[l.now + 1], term)} :: Late(l.cs[l.now], term) <= Late(l.cs[l.now + 1], term)
  {
    hide Inv, Enabled, After, Accepts, Registered, Late;
    LateGrows(l.cs[l.now], h, i, a);
    var l' := Moved(l);
    forall term: nat, ctx: string | MarkOK(l, term, ctx)
      ensures MarkKept(l, l', term, ctx)
    {
      assert SameMark(l, l', term, ctx);
    }
    forall term, ctx | (term, ctx) in l.book
      ensures BookAt(l', term, ctx) && LateSoFar(l', term, ctx) && l'.book[(term, ctx)].pos < l'.now - 1
    {
      assert BookAt(l, term, ctx);
      SameLate(l, l', term, ctx);
      assert Late(l.cs[l.now], term) <= Late(l.cs[l.now + 1], term);
    }
  }

  lemma TakingOne(l: Ledger, h: Hist, i: NodeId, a: Action)
    requires StepTo(l, h, i, a) && (a.Deliver? || a.Request?) && l.cs[l.now].nodes[i].role.Leader? && a.m.kind.MsgReadIndex?
    requires forall term {:trigger Late(l.cs[l.now + 1], term)} :: Late(l.cs[l.now], term) <= Late(l.cs[l.now + 1], term)
    requires LocalMsg(a.m) || MsgInv(h, a.m)
    ensures TakingRead(Moved(l), i, a.m)
    ensures Act(l.cs[l.now].nodes[i], a) == ReadIndexReq(l.cs[l.now].nodes[i], a.m)
  {
    hide Inv, Late, Step, ReadIndexReq;
    TakenStep(h, l.cs[l.now].nodes[i], a.m);
    assert TakesRead(l.cs[l.now], l.cs[l.now + 1], i, a.m);
  }

  /** What the acting node gets: a message of its own, or one from the network. */
  lemma MessageOf(l: Ledger, h: Hist, i: NodeId, a: Action)
    requires StepTo(l, h, i, a) && (a.Deliver? || a.Request?) && NetReads(l, l.cs[l.now].net) && Extends(l, Moved(l))
    ensures LocalMsg(a.m) || (MsgInv(h, a.m) && MsgReads(Moved(l), a.m) && a.m.to == i)
  {
    hide HistInv, NodesInv, MsgInv, MsgReads, LocalMsg, After, Extends;
    if a.Deliver? { MsgExtends(l, Moved(l), a.m); }
  }

  lemma ReadingNow(l: Ledger, h: Hist, i: NodeId, a: Action)
    requires StepTo(l, h, i, a) && NodesRead(l, l.cs[l.now].nodes) && Extends(l, Moved(l))
    ensures Reading(Moved(l), i, l.cs[l.now].nodes[i])
  {
    hide HistInv, NetInv, NodeReads, Local, NodeInv, Extends, Backed;
    var n := l.cs[l.now].nodes[i];
    assert NodeReads(l, i, n) && NodeOK(h, i, n);
    QueueBacked(n);
    assert Fixed(l, Moved(l), n);
    NodeExtends(l, Moved(l), i, n);
  }

  lemma QueueBacked(n: Node)
    requires Local(n)
    ensures Backed(n.readOnly)
  {
  }

  /** What the step may have entered in the ledger: a read the acting leader has queued. */
  ghost predicate EntersOnly(l: Ledger, l': Ledger, i: NodeId)
    requires l.now < |l.cs| && i in l.cs[l.now].nodes
  {
    l' == Moved(l) || (l.cs[l.now].nodes[i].role.Leader? && EntersAt(Moved(l), l', l.cs[l.now].nodes[i].term, i))
  }

  lemma HandsAnswer(l: Ledger, h: Hist, i: NodeId, a: Action)
    requires StepTo(l, h, i, a) && (a.Deliver? || a.Request?) && a.m.kind.MsgHeartbeatResp?
    ensures Answers(l.cs[l.now], l.cs[l.now + 1], i, a.m.context)
  {
    hide Inv, After;
  }

  lemma ActReads(l: Ledger, hs: seq<Hist>, i: NodeId, a: Action) returns (l': Ledger)
    requires l.now < |hs| && StepTo(l, hs[l.now], i, a) && AllReads(l) && Run(l.cs) && Chronicle(l.cs, hs)
    ensures Extends(Moved(l), l') && BookOK(l') && EntersOnly(l, l', i)
    ensures Reading(l', i, Act(l.cs[l.now].nodes[i], a))
  {
    hide Reading, Extends, BookOK, OldBook, NodesRead, NetReads, Run, Chronicle, Inv, MsgInv, MsgReads, LocalMsg,
         Step, After, Enabled, TakingRead, Rebooted, ReadIndexReq, Answers, Fit;
    var h := hs[l.now];
    MovedBook(l, h, i, a);
    ReadingNow(l, h, i, a);
    var l1 := Moved(l);
    l' := l1;
    ExtendsRefl(l1);
    var n := l.cs[l.now].nodes[i];
    if a.Deliver? || a.Request? {
      MessageOf(l, h, i, a);
      if a.m.kind.MsgReadIndex? {
        if n.role.Leader? {
          TakingOne(l, h, i, a);
          NodeBefore(l1, h, i);
          VoterCount(l1, h, i);
          l' := ReadIndexReads(l1, hs, i, a.m);
        } else {
          ForwardReads(l1, h, i, n, a.m);
        }
      } else {
        if a.m.kind.MsgHeartbeatResp? { HandsAnswer(l, h, i, a); }
        OrdinaryReads(l1, hs, h, i, a.m);
      }
    } else {
      SilentReads(l1, i, n, a);
    }
  }

  lemma ExtendsTrans(l: Ledger, l1: Ledger, l2: Ledger)
    requires Extends(l, l1) && Extends(l1, l2)
    ensures Extends(l, l2)
  {
    hide MarkOK, Twice;
    forall term: nat, ctx: string | MarkOK(l, term, ctx)
      ensures MarkKept(l, l2, term, ctx)
    {
      assert MarkKept(l, l1, term, ctx);
      assert MarkKept(l1, l2, term, ctx);
      if Twice(l1, term, ctx) { TwiceGrows(l1, l2, term, ctx); }
    }
  }

  lemma FlushReads(l: Ledger, i: NodeId, n: Node)
    requires Reading(l, i, n)
    ensures NodeReads(l, i, n.(msgs := []))
    ensures forall m :: m in Sent(n) ==> MsgReads(l, m)
  {
    hide AllPendingOK, LateInOrder, StatesOK, MsgReads;
    forall m | m in Sent(n)
      ensures MsgReads(l, m)
    {
      var x :| 0 <= x < |n.msgs| && n.msgs[x] == m;
    }
  }

  /** Nobody but the leader of a term has reads pending in it. */
  lemma OthersFixed(l: Ledger, h: Hist, l': Ledger, i: NodeId, j: NodeId)
    requires l.now < |l.cs| && Inv(l.cs[l.now], h) && i in l.cs[l.now].nodes && EntersOnly(l, l', i)
    requires j in l.cs[l.now].nodes && j != i && NodeReads(l, j, l.cs[l.now].nodes[j])
    ensures Fixed(l, l', l.cs[l.now].nodes[j]) && Backed(l.cs[l.now].nodes[j].readOnly)
  {
    hide HistInv, AllPendingOK, LateInOrder, StatesOK, Local, NetInv;
    var c := l.cs[l.now];
    GoodNode(h, c, i);
    GoodNode(h, c, j);
    QueueBacked(c.nodes[j]);
    if c.nodes[i].role.Leader? && c.nodes[j].role.Leader? && c.nodes[i].term == c.nodes[j].term { OneLeader(c, h, i, j); }
  }

  lemma OneLeader(c: System, h: Hist, i: NodeId, j: NodeId)
    requires Inv(c, h) && i in c.nodes && j in c.nodes && c.nodes[i].role.Leader? && c.nodes[j].role.Leader?
    requires c.nodes[i].term == c.nodes[j].term
    ensures i == j
  {
    hide Inv, HistInv, LogInv, TermsUpTo, CommitInv;
    NodeFacts(c, h, i);
    NodeFacts(c, h, j);
  }

  lemma OthersRead(l: Ledger, h: Hist, l': Ledger, i: NodeId)
    requires Extends(l, l') && l.now < |l.cs| && Inv(l.cs[l.now], h) && i in l.cs[l.now].nodes && EntersOnly(l, l', i)
    requires NodesRead(l, l.cs[l.now].nodes) && NetReads(l, l.cs[l.now].net)
    ensures forall j {:trigger l.cs[l.now].nodes[j]} ::
      j in l.cs[l.now].nodes && j != i ==> NodeReads(l', j, l.cs[l.now].nodes[j])
    ensures NetReads(l', l.cs[l.now].net)
  {
    hide NodeReads, MsgReads, Extends, Inv, EntersOnly, Fixed, Backed;
    var c := l.cs[l.now];
    forall j | j in c.nodes && j != i
      ensures NodeReads(l', j, c.nodes[j])
    {
      OthersFixed(l, h, l', i, j);
      NodeExtends(l, l', j, c.nodes[j]);
    }
    forall m | m in c.net
      ensures MsgReads(l', m)
    {
      MsgExtends(l, l', m);
    }
  }

  lemma NextReads(l: Ledger, hs: seq<Hist>, i: NodeId, a: Action) returns (l': Ledger)
    requires l.now < |hs| && StepTo(l, hs[l.now], i, a) && AllReads(l) && Run(l.cs) && Chronicle(l.cs, hs)
    ensures AllReads(l') && l'.cs == l.cs && l'.now == l.now + 1
  {
    hide Reading, Extends, BookOK, NodeReads, MsgReads, Run, Chronicle, Inv, Enabled, Act, Sent, Entered, EntersOnly;
    var c := l.cs[l.now];
    l' := ActReads(l, hs, i, a);
    MovedExtends(l, hs[l.now], i, a);
    ExtendsTrans(l, Moved(l), l');
    SameRun(l, l');
    EnteredNow(l, l', i);
    OthersRead(l, hs[l.now], l', i);
    FlushReads(l', i, Act(c.nodes[i], a));
  }

  lemma EnteredNow(l: Ledger, l': Ledger, i: NodeId)
    requires l.now < |l.cs| && i in l.cs[l.now].nodes && EntersOnly(l, l', i)
    ensures l'.now == l.now + 1
  {
  }

  lemma MovedExtends(l: Ledger, h: Hist, i: NodeId, a: Action)
    requires StepTo(l, h, i, a) && BookOK(l)
    ensures Extends(l, Moved(l))
  {
    hide BookOK, OldBook, Before;
    MovedBook(l, h, i, a);
  }

  lemma FirstReads(cs: seq<System>)
    requires Run(cs) && SafeMode(cs[0])
    ensures AllReads(Ledger(cs, 0, map[]))
  {
    var l := Ledger(cs, 0, map[]);
    forall j | j in cs[0].nodes
      ensures NodeReads(l, j, cs[0].nodes[j])
    {
      assert cs[0].nodes[j] == NewNode(cs[0].nodes[j].cfg);
    }
  }

  lemma {:induction false} ReadsUpTo(cs: seq<System>, hs: seq<Hist>, k: nat) returns (l: Ledger)
    requires Run(cs) && SafeMode(cs[0]) && Chronicle(cs, hs) && k < |cs|
    ensures AllReads(l) && l.cs == cs && l.now == k
    decreases k
  {
    hide AllReads, SafeMode, Inv, Enabled, After, Init, ReignsGrow;
    if k == 0 {
      FirstReads(cs);
      l := Ledger(cs, 0, map[]);
    } else {
      var l0 := ReadsUpTo(cs, hs, k - 1);
      assert Linked(cs, k - 1);
      var c := cs[k - 1];
      var i, a :| i in c.nodes && Enabled(c, i, a) && cs[k] == After(c, i, a);
      assert Inv(cs[k - 1], hs[k - 1]);
      l := NextReads(l0, hs, i, a);
    }
  }

  // ---------------------------------------------------------------- the theorems

  /** The context whose answer releases the read was queued once in the term, whichever it was. */
  ghost predicate ReleasedCleanly(cs: seq<System>, k: nat, index: nat, ctx: string) {
    forall a: nat, j: NodeId, answered: string {:trigger ReleasedBy(cs, a, j, answered, index, ctx)} ::
      a < k && ReleasedBy(cs, a, j, answered, index, ctx) ==> !QueuedTwice(cs, a + 1, cs[a].nodes[j].term, answered)
  }

  /** ReadIndex linearizability: in a run without lease reads, a read state that any node ever has was
      accepted by a leader in an earlier step, with that leader's commit index, and up to then no node
      had ever committed more, provided that the context whose answer released it was queued once in
      the term. */
  lemma ReadIndexLinearizable(cs: seq<System>, k: nat, i: NodeId, x: nat)
    requires Run(cs) && SafeMode(cs[0])
    requires k < |cs| && i in cs[k].nodes && x < |cs[k].nodes[i].readStates|
    requires var r := cs[k].nodes[i].readStates[x]; ReleasedCleanly(cs, k, r.index, r.ctx)
    ensures var r := cs[k].nodes[i].readStates[x];
      exists a: nat, j: NodeId :: a < k && ReadPoint(cs, a, j, r.index, r.ctx)
  {
    hide Run, SafeMode, BookOK, MsgReads, AllPendingOK, LateInOrder, ReadPoint, Chronicle, ReleasedBy, QueuedTwice;
    var hs := Chronicled(cs);
    var l := ReadsUpTo(cs, hs, k);
    assert NodeReads(l, i, cs[k].nodes[i]);
    assert Sound(l, cs[k].nodes[i].readStates[x].index, cs[k].nodes[i].readStates[x].ctx);
  }

  /** The same of every answer on its way to the node that asked. */
  lemma ReadAnswersLinearizable(cs: seq<System>, k: nat, m: Message)
    requires Run(cs) && SafeMode(cs[0])
    requires k < |cs| && m in cs[k].net && m.kind.MsgReadIndexResp? && m.entries != []
    requires ReleasedCleanly(cs, k, m.index, m.entries[0].data)
    ensures exists a: nat, j: NodeId :: a < k && ReadPoint(cs, a, j, m.index, m.entries[0].data)
  {
    hide Run, SafeMode, BookOK, NodesRead, ReadPoint, Chronicle, ReleasedBy, QueuedTwice;
    var hs := Chronicled(cs);
    var l := ReadsUpTo(cs, hs, k);
    assert MsgReads(l, m);
  }

  /** If no context is ever queued twice in a term, every read is released cleanly. */
  lemma UniqueIsClean(cs: seq<System>, k: nat, index: nat, ctx: string)
    requires UniqueReads(cs)
    ensures ReleasedCleanly(cs, k, index, ctx)
  {
    hide Answers, InQueue, QueuedTwice, UniqueReads;
    forall a: nat, j: NodeId, answered: string | a < k && ReleasedBy(cs, a, j, answered, index, ctx)
      ensures !QueuedTwice(cs, a + 1, cs[a].nodes[j].term, answered)
    {
      OnlyOnce(cs, a + 1, cs[a].nodes[j].term, answered);
    }
  }

  lemma OnlyOnce(cs: seq<System>, now: nat, term: nat, ctx: string)
    requires UniqueReads(cs)
    ensures !QueuedTwice(cs, now, term, ctx)
  {
    hide Registered;
    forall p: nat, q: nat | p < q < now
      ensures !(Registered(cs, p, term, ctx) && Registered(cs, q, term, ctx))
    {
    }
  }
}
