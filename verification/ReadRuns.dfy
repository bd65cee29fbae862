/** When reads are linearizable, in terms of what callers and the network do: every read is asked for
    under a context of its own, and no read request is delivered twice. */
module ReadRuns {
  import opened Types
  import opened ReadQueues
  import opened Nodes
  import opened NodeLocal
  import opened Frames
  import opened History
  import opened Invariants
  import opened Steps
  import opened Cluster
  import opened Reads

  // ---------------------------------------------------------------- what is asked of a run

  /** The run in which these actions are taken, one after the other. */
  ghost predicate RunBy(cs: seq<System>, acts: seq<(NodeId, Action)>) {
    && |cs| == |acts| + 1 && Init(cs[0])
    && forall k {:trigger ByStep(cs, acts, k)} :: 0 <= k < |acts| ==> ByStep(cs, acts, k)
  }

  ghost predicate ByStep(cs: seq<System>, acts: seq<(NodeId, Action)>, k: nat)
    requires k < |acts| && |cs| == |acts| + 1
  {
    var (i, a) := acts[k];
    i in cs[k].nodes && Enabled(cs[k], i, a) && cs[k + 1] == After(cs[k], i, a)
  }

  predicate Asks(a: Action, ctx: string) {
    a.Request? && a.m.kind.MsgReadIndex? && Ctx(a.m) == ctx
  }

  predicate Carries(m: Message, ctx: string) {
    m.kind.MsgReadIndex? && Ctx(m) == ctx
  }

  /** No two reads are asked for under the same context. */
  ghost predicate FreshRequests(acts: seq<(NodeId, Action)>) {
    forall a, b, ctx {:trigger Asks(acts[a].1, ctx), Asks(acts[b].1, ctx)} ::
      0 <= a < b < |acts| && Asks(acts[a].1, ctx) ==> !Asks(acts[b].1, ctx)
  }

  /** No read request is delivered twice. */
  ghost predicate NoReadTwice(acts: seq<(NodeId, Action)>) {
    forall a, b {:trigger acts[a], acts[b]} ::
      0 <= a < b < |acts| && acts[a].1.Deliver? && acts[a].1.m.kind.MsgReadIndex? ==>
      acts[b].1 != acts[a].1
  }

  // ---------------------------------------------------------------- where a context is

  ghost predicate Asked(acts: seq<(NodeId, Action)>, k: nat, ctx: string) {
    exists a {:trigger acts[a]} :: 0 <= a < k && a < |acts| && Asks(acts[a].1, ctx)
  }

  ghost predicate Delivered(acts: seq<(NodeId, Action)>, k: nat, m: Message) {
    exists a {:trigger acts[a]} :: 0 <= a < k && a < |acts| && acts[a].1 == Deliver(m)
  }

  ghost predicate EverQueued(cs: seq<System>, k: nat, ctx: string) {
    exists a: nat, term: nat :: a < k && Registered(cs, a, term, ctx)
  }

  /** Before it is asked for, a context is nowhere; then at most one request under way carries it, and
      none once a leader has queued it. */
  ghost predicate OnItsWay(cs: seq<System>, acts: seq<(NodeId, Action)>, k: nat, ctx: string)
    requires k < |cs|
  {
    && (!Asked(acts, k, ctx) ==> !EverQueued(cs, k, ctx) && forall m :: m in cs[k].net ==> !Carries(m, ctx))
    && (forall m, m' :: Waiting(cs, acts, k, ctx, m) && Waiting(cs, acts, k, ctx, m') ==> m == m')
    && (EverQueued(cs, k, ctx) ==> forall m :: !Waiting(cs, acts, k, ctx, m))
  }

  ghost predicate Waiting(cs: seq<System>, acts: seq<(NodeId, Action)>, k: nat, ctx: string, m: Message)
    requires k < |cs|
  {
    m in cs[k].net && Carries(m, ctx) && !Delivered(acts, k, m)
  }

  // ---------------------------------------------------------------- what one action does

  /** What an action of node n does to reads under a context: whether the node may queue it, and what
      request carrying it the node sends on. */
  ghost predicate Touches(n: Node, n': Node, ctx: string, queues: bool, sends: set<Message>) {
    && (ctx !in n.readOnly.pending && ctx in n'.readOnly.pending ==> queues)
    && (forall m :: m in Sent(n') && Carries(m, ctx) ==> m in sends)
  }

  lemma SteadyTouches(n: Node, n': Node, ctx: string)
    requires Steady(n, n') && n.msgs == []
    ensures Touches(n, n', ctx, false, {})
  {
  }

  lemma SilentTouches(n: Node, a: Action, ctx: string)
    requires n.msgs == [] && !a.Deliver? && !a.Request?
    ensures Touches(n, Act(n, a), ctx, false, {})
  {
  }

  lemma LeaderTouches(n: Node, m: Message, ctx: string)
    requires n.msgs == [] && n.role.Leader? && m.kind.MsgReadIndex?
    ensures Touches(n, ReadIndexReq(n, m), ctx, Ctx(m) == ctx, {})
  {
    hide ReadIndexReq;
    ReadIndexReqKeeps(n, m);
  }

  /** The request as a follower sends it on. */
  function Onward(n: Node, m: Message): Message {
    Stamped(n, m.(to := n.lead))
  }

  lemma ForwardTouches(n: Node, m: Message, ctx: string)
    requires n.msgs == [] && !n.role.Leader? && m.kind.MsgReadIndex?
    ensures Touches(n, RoleStep(n, m), ctx, false, if Ctx(m) == ctx then {Onward(n, m)} else {})
  {
    hide RoleStep;
    ForwardRead(n, m);
  }

  /** Whether an action is a read request under the context. */
  predicate Concerns(a: Action, ctx: string) {
    (a.Deliver? || a.Request?) && Carries(a.m, ctx)
  }

  lemma ActTouches(c: System, h: Hist, i: NodeId, a: Action, ctx: string)
    requires Inv(c, h) && i in c.nodes && Enabled(c, i, a)
    ensures var n := c.nodes[i];
      var about := Concerns(a, ctx);
      Touches(n, Act(n, a), ctx, about && n.role.Leader?, if about && !n.role.Leader? then {Onward(n, a.m)} else {})
  {
    hide Inv, Steady, Fit, Good, NodeOK, LocalMsg, MsgInv, NetInv, Step, RoleStep, ReadIndexReq, Rebooted, Onward, Touches;
    var n := c.nodes[i];
    GoodNode(h, c, i);
    Flushed(h, i, n);
    if !a.Deliver? && !a.Request? {
      SilentTouches(n, a, ctx);
    } else if !a.m.kind.MsgReadIndex? {
      GoodFit(h, n);
      StepSteady(n, a.m);
      SteadyTouches(n, Step(n, a.m), ctx);
    } else {
      MessageFacts(c, h, i, a);
      if n.role.Leader? {
        TakenStep(h, n, a.m);
        LeaderTouches(n, a.m, ctx);
      } else {
        PassedOn(h, n, a.m);
        ForwardTouches(n, a.m, ctx);
      }
    }
  }

  lemma Flushed(h: Hist, i: NodeId, n: Node)
    requires NodeOK(h, i, n)
    ensures n.msgs == []
  {
  }

  lemma MessageFacts(c: System, h: Hist, i: NodeId, a: Action)
    requires Inv(c, h) && i in c.nodes && Enabled(c, i, a) && (a.Deliver? || a.Request?)
    ensures LocalMsg(a.m) || MsgInv(h, a.m)
  {
    hide HistInv, NodesInv, LocalMsg, MsgInv;
  }

  lemma PassedOn(h: Hist, n: Node, m: Message)
    requires !n.role.Leader? && m.kind.MsgReadIndex? && (LocalMsg(m) || MsgInv(h, m))
    ensures Step(n, m) == RoleStep(n, m)
  {
    hide LocalMsg, MsgInv, NoteTerm, RoleStep;
    ReadTerm(h, n, m);
  }

  // ---------------------------------------------------------------- one step of a run

  /** What step k does to a context, seen in the whole system. */
  ghost predicate StepTouches(cs: seq<System>, k: nat, ctx: string, queues: bool, sends: set<Message>)
    requires k + 1 < |cs|
  {
    && (forall term :: Registered(cs, k, term, ctx) ==> queues)
    && (forall m :: m in cs[k + 1].net && Carries(m, ctx) ==> m in cs[k].net || m in sends)
    && cs[k].net <= cs[k + 1].net
  }

  lemma StepTouched(cs: seq<System>, h: Hist, acts: seq<(NodeId, Action)>, k: nat, ctx: string)
    returns (sends: set<Message>)
    requires RunBy(cs, acts) && k < |acts| && Inv(cs[k], h)
    ensures var (i, a) := acts[k];
      var about := Concerns(a, ctx);
      && i in cs[k].nodes
      && StepTouches(cs, k, ctx, about && cs[k].nodes[i].role.Leader?, sends)
      && (if about && !cs[k].nodes[i].role.Leader? then exists m1 :: sends == {m1} else sends == {})
  {
    hide Inv, Enabled, Act, Touches, Onward, Carries;
    assert ByStep(cs, acts, k);
    var (i, a) := acts[k];
    var n := cs[k].nodes[i];
    ActTouches(cs[k], h, i, a, ctx);
    sends := if Concerns(a, ctx) && !n.role.Leader? then {Onward(n, a.m)} else {};
    TouchesSystem(cs, k, i, a, ctx, Concerns(a, ctx) && n.role.Leader?, sends);
  }

  lemma TouchesSystem(cs: seq<System>, k: nat, i: NodeId, a: Action, ctx: string, queues: bool, sends: set<Message>)
    requires k + 1 < |cs| && i in cs[k].nodes && cs[k + 1] == After(cs[k], i, a)
    requires Touches(cs[k].nodes[i], Act(cs[k].nodes[i], a), ctx, queues, sends)
    ensures StepTouches(cs, k, ctx, queues, sends)
  {
    hide Act, Sent, Carries;
  }

  lemma DeliveredNext(acts: seq<(NodeId, Action)>, k: nat, m: Message)
    requires k < |acts|
    ensures Delivered(acts, k + 1, m) <==> Delivered(acts, k, m) || acts[k].1 == Deliver(m)
  {
    if Delivered(acts, k, m) {
      var a :| 0 <= a < k && a < |acts| && acts[a].1 == Deliver(m);
      assert 0 <= a < k + 1;
    }
    if acts[k].1 == Deliver(m) { assert 0 <= k < k + 1 && acts[k].1 == Deliver(m); }
  }

  lemma AskedNext(acts: seq<(NodeId, Action)>, k: nat, ctx: string)
    requires k < |acts|
    ensures Asked(acts, k + 1, ctx) <==> Asked(acts, k, ctx) || Asks(acts[k].1, ctx)
  {
    hide Asks;
    if Asked(acts, k, ctx) {
      var a :| 0 <= a < k && a < |acts| && Asks(acts[a].1, ctx);
      assert 0 <= a < k + 1;
    }
    if Asks(acts[k].1, ctx) { assert 0 <= k < k + 1 && Asks(acts[k].1, ctx); }
  }

  lemma QueuedNext(cs: seq<System>, k: nat, ctx: string)
    ensures EverQueued(cs, k + 1, ctx) <==> EverQueued(cs, k, ctx) || exists term: nat :: Registered(cs, k, term, ctx)
  {
    hide Registered;
    if EverQueued(cs, k, ctx) {
      var a: nat, term: nat :| a < k && Registered(cs, a, term, ctx);
      assert a < k + 1 && Registered(cs, a, term, ctx);
    }
    if term: nat :| Registered(cs, k, term, ctx) { assert k < k + 1 && Registered(cs, k, term, ctx); }
  }

  /** A read request that is asked for or delivered now was not on its way to anywhere else. */
  lemma ReadArrives(cs: seq<System>, acts: seq<(NodeId, Action)>, k: nat, ctx: string)
    requires RunBy(cs, acts) && k < |acts| && FreshRequests(acts) && NoReadTwice(acts) && OnItsWay(cs, acts, k, ctx)
    requires Concerns(acts[k].1, ctx)
    ensures !EverQueued(cs, k, ctx) && Asked(acts, k + 1, ctx)
    ensures forall m :: Waiting(cs, acts, k, ctx, m) ==> acts[k].1 == Deliver(m)
  {
    hide Init, After, Registered;
    assert ByStep(cs, acts, k);
    AskedNext(acts, k, ctx);
    var a := acts[k].1;
    if a.Request? {
      NotYetAsked(acts, k, ctx);
    } else {
      NotYetDelivered(acts, k, a.m);
      assert Waiting(cs, acts, k, ctx, a.m);
    }
  }

  lemma NotYetAsked(acts: seq<(NodeId, Action)>, k: nat, ctx: string)
    requires k < |acts| && FreshRequests(acts) && Asks(acts[k].1, ctx)
    ensures !Asked(acts, k, ctx)
  {
    hide Asks;
    forall a | 0 <= a < k
      ensures !Asks(acts[a].1, ctx)
    {
    }
  }

  lemma NotYetDelivered(acts: seq<(NodeId, Action)>, k: nat, m: Message)
    requires k < |acts| && NoReadTwice(acts) && acts[k].1 == Deliver(m) && m.kind.MsgReadIndex?
    ensures !Delivered(acts, k, m)
  {
    forall a | 0 <= a < k
      ensures acts[a].1 != Deliver(m)
    {
    }
  }

  /** Nothing more waits after a step than what it sends and what waited before it. */
  lemma WaitingNext(cs: seq<System>, acts: seq<(NodeId, Action)>, k: nat, ctx: string, queues: bool, sends: set<Message>)
    requires |cs| == |acts| + 1 && k < |acts| && StepTouches(cs, k, ctx, queues, sends)
    ensures forall m :: Waiting(cs, acts, k + 1, ctx, m) ==>
      m in sends || (Waiting(cs, acts, k, ctx, m) && acts[k].1 != Deliver(m))
  {
    hide Carries, Delivered, Registered;
    forall m | Waiting(cs, acts, k + 1, ctx, m)
      ensures m in sends || (Waiting(cs, acts, k, ctx, m) && acts[k].1 != Deliver(m))
    {
      DeliveredNext(acts, k, m);
    }
  }

  lemma UntouchedNext(cs: seq<System>, acts: seq<(NodeId, Action)>, k: nat, ctx: string)
    requires |cs| == |acts| + 1 && k < |acts| && StepTouches(cs, k, ctx, false, {}) && OnItsWay(cs, acts, k, ctx)
    requires !Asks(acts[k].1, ctx)
    ensures OnItsWay(cs, acts, k + 1, ctx)
  {
    AskedNext(acts, k, ctx);
    QueuedNext(cs, k, ctx);
    WaitingNext(cs, acts, k, ctx, false, {});
    hide Registered, Carries, Asked, Delivered, EverQueued, Asks, Waiting;
  }

  lemma TouchedNext(cs: seq<System>, acts: seq<(NodeId, Action)>, k: nat, ctx: string, queues: bool, sends: set<Message>)
    requires |cs| == |acts| + 1 && k < |acts| && StepTouches(cs, k, ctx, queues, sends)
    requires forall m :: Waiting(cs, acts, k, ctx, m) ==> acts[k].1 == Deliver(m)
    requires !EverQueued(cs, k, ctx) && Asked(acts, k + 1, ctx)
    requires sends == {} || (!queues && exists m1 :: sends == {m1})
    ensures OnItsWay(cs, acts, k + 1, ctx)
  {
    QueuedNext(cs, k, ctx);
    WaitingNext(cs, acts, k, ctx, queues, sends);
    hide Registered, Carries, Asked, Delivered, EverQueued, Waiting;
  }

  lemma OnItsWayNext(cs: seq<System>, h: Hist, acts: seq<(NodeId, Action)>, k: nat, ctx: string)
    requires RunBy(cs, acts) && k < |acts| && FreshRequests(acts) && NoReadTwice(acts) && Inv(cs[k], h)
    requires OnItsWay(cs, acts, k, ctx)
    ensures OnItsWay(cs, acts, k + 1, ctx)
    ensures EverQueued(cs, k, ctx) ==> forall term: nat :: !Registered(cs, k, term, ctx)
  {
    assert |cs| == |acts| + 1;
    hide RunBy, FreshRequests, NoReadTwice, Inv, Registered, Carries, Asked, Delivered, EverQueued, Waiting;
    hide Concerns, Asks, OnItsWay;
    var sends := StepTouched(cs, h, acts, k, ctx);
    AskedNext(acts, k, ctx);
    AsksReads(acts[k].1, ctx);
    if Concerns(acts[k].1, ctx) {
      ReadArrives(cs, acts, k, ctx);
      TouchedNext(cs, acts, k, ctx, cs[k].nodes[acts[k].0].role.Leader?, sends);
    } else {
      UntouchedNext(cs, acts, k, ctx);
    }
  }

  lemma AsksReads(a: Action, ctx: string)
    ensures Asks(a, ctx) ==> Concerns(a, ctx)
    ensures a.Request? && Concerns(a, ctx) ==> Asks(a, ctx)
  {
  }

  lemma {:induction false} AlwaysOnItsWay(cs: seq<System>, hs: seq<Hist>, acts: seq<(NodeId, Action)>, k: nat, ctx: string)
    requires RunBy(cs, acts) && FreshRequests(acts) && NoReadTwice(acts) && Chronicle(cs, hs) && k < |cs|
    ensures OnItsWay(cs, acts, k, ctx)
  {
    hide FreshRequests, NoReadTwice, Registered, Inv, Asked, Carries;
    if k > 0 {
      AlwaysOnItsWay(cs, hs, acts, k - 1, ctx);
      assert Inv(cs[k - 1], hs[k - 1]);
      OnItsWayNext(cs, hs[k - 1], acts, k - 1, ctx);
    }
  }

  lemma RunByRuns(cs: seq<System>, acts: seq<(NodeId, Action)>)
    requires RunBy(cs, acts)
    ensures Run(cs)
  {
    hide Init, Enabled, After;
    forall k | 0 <= k < |cs| - 1
      ensures Linked(cs, k)
    {
      assert ByStep(cs, acts, k);
      var (i, a) := acts[k];
      assert Enabled(cs[k], i, a) && cs[k + 1] == After(cs[k], i, a);
    }
  }

  // ---------------------------------------------------------------- the theorems

  /** If reads are asked for under contexts of their own and no read request is delivered twice, no
      context is ever queued twice. */
  lemma FreshReadsUnique(cs: seq<System>, acts: seq<(NodeId, Action)>)
    requires RunBy(cs, acts) && FreshRequests(acts) && NoReadTwice(acts)
    ensures UniqueReads(cs)
  {
    RunByRuns(cs, acts);
    assert |cs| == |acts| + 1;
    hide RunBy, Run, FreshRequests, NoReadTwice, Registered, Chronicle, OnItsWay, Inv;
    var hs := Chronicled(cs);
    forall a: nat, b: nat, term: nat, ctx: string | a < b && Registered(cs, a, term, ctx)
      ensures !Registered(cs, b, term, ctx)
    {
      QueuedOnce(cs, hs, acts, a, b, term, ctx);
    }
  }

  lemma QueuedOnce(cs: seq<System>, hs: seq<Hist>, acts: seq<(NodeId, Action)>, a: nat, b: nat, term: nat, ctx: string)
    requires RunBy(cs, acts) && FreshRequests(acts) && NoReadTwice(acts) && Chronicle(cs, hs)
    requires a < b && Registered(cs, a, term, ctx)
    ensures !Registered(cs, b, term, ctx)
  {
    assert |cs| == |acts| + 1;
    if b < |acts| {
      assert Inv(cs[b], hs[b]);
      hide RunBy, FreshRequests, NoReadTwice, Registered, Chronicle, OnItsWay, Inv;
      AlwaysOnItsWay(cs, hs, acts, b, ctx);
      OnItsWayNext(cs, hs[b], acts, b, ctx);
    }
  }

  /** Linearizability in terms of what callers and the network do. */
  lemma FreshReadsLinearizable(cs: seq<System>, acts: seq<(NodeId, Action)>, k: nat, i: NodeId, x: nat)
    requires RunBy(cs, acts) && FreshRequests(acts) && NoReadTwice(acts) && SafeMode(cs[0])
    requires k < |cs| && i in cs[k].nodes && x < |cs[k].nodes[i].readStates|
    ensures var r := cs[k].nodes[i].readStates[x];
      exists a: nat, j: NodeId :: a < k && ReadPoint(cs, a, j, r.index, r.ctx)
  {
    hide RunBy, Run, FreshRequests, NoReadTwice, SafeMode, ReadPoint, ReleasedCleanly, UniqueReads;
    RunByRuns(cs, acts);
    FreshReadsUnique(cs, acts);
    var r := cs[k].nodes[i].readStates[x];
    UniqueIsClean(cs, k, r.index, r.ctx);
    ReadIndexLinearizable(cs, k, i, x);
  }
}
