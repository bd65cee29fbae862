/** A cluster of fixed voters over a network that loses, repeats and reorders messages, and
    what is true of every run of it. Nodes may stop and come back with their log, term and vote. */
module Cluster {
  import opened Types
  import opened Logs
  import opened Progresses
  import opened ReadQueues
  import opened Commitment
  import opened Nodes
  import opened NodeLocal
  import opened History
  import opened Invariants
  import opened Steps
  import opened Frames
  import RaftLogs

  /** The nodes and every message ever sent. A message may be delivered at any time, any number
      of times, or never. */
  datatype System = System(nodes: map<NodeId, Node>, net: set<Message>)

  datatype Action =
    | Deliver(m: Message)
    | Request(m: Message)
    | Apply(k: nat)
    | Clock(elapsed: nat, abort: bool)
    | TakeReads
    | Restart(applied: nat, committed: nat)

  // ---------------------------------------------------------------- behaviour

  /** A node that comes back with its log, its term and its vote, and perhaps an older commit index. */
  function Rebooted(n: Node, applied: nat, committed: nat): Node {
    BecomeFollower(n.(readStates := [], committed := committed, applied := applied), n.term, NONE)
  }

  /** That is a node started from what was stored. */
  lemma RebootIsStart(n: Node, applied: nat, committed: nat)
    requires n.msgs == [] && !n.panicked && applied <= committed <= |n.log|
    ensures Rebooted(n, applied, committed) == Started(n.cfg, Stored(n.log, n.term, n.vote, committed, applied))
  {
  }

  function Act(n: Node, a: Action): Node {
    match a
    case Deliver(m) => Step(n, m)
    case Request(m) => Step(n, m)
    case Apply(k) => n.(applied := k)
    case Clock(e, abort) => n.(electionElapsed := e, leadTransferee := if abort then NONE else n.leadTransferee)
    case TakeReads => n.(readStates := [])
    case Restart(applied, committed) => Rebooted(n, applied, committed)
  }

  ghost predicate Enabled(c: System, i: NodeId, a: Action)
    requires i in c.nodes
  {
    match a
    case Deliver(m) => m in c.net && m.to == i
    case Request(m) => LocalMsg(m)
    case Apply(k) => c.nodes[i].applied <= k <= c.nodes[i].committed
    case Clock(_, _) => true
    case TakeReads => true
    case Restart(applied, committed) => applied <= committed <= c.nodes[i].committed
  }

  function Sent(n: Node): set<Message> {
    set x | x in n.msgs
  }

  /** The system after node i has acted and its messages are on their way. */
  function After(c: System, i: NodeId, a: Action): System
    requires i in c.nodes
  {
    var n := Act(c.nodes[i], a);
    System(c.nodes[i := n.(msgs := [])], c.net + Sent(n))
  }

  ghost predicate Init(c: System) {
    && c.net == {}
    && forall i {:trigger c.nodes[i]} :: i in c.nodes ==>
         var cfg := c.nodes[i].cfg;
         && cfg.id == i && ConfigOK(cfg) && (forall p :: p in cfg.peers <==> p in c.nodes)
         && c.nodes[i] == NewNode(cfg)
  }

  ghost predicate Next(c: System, c': System) {
    exists i, a :: i in c.nodes && Enabled(c, i, a) && c' == After(c, i, a)
  }

  /** A run: every state follows from the one before. */
  ghost predicate Run(cs: seq<System>) {
    && |cs| > 0 && Init(cs[0])
    && forall k {:trigger Linked(cs, k)} :: 0 <= k < |cs| - 1 ==> Linked(cs, k)
  }

  ghost predicate Linked(cs: seq<System>, k: nat)
    requires k < |cs| - 1
  {
    Next(cs[k], cs[k + 1])
  }

  // ---------------------------------------------------------------- the invariant

  ghost predicate NodeOK(h: Hist, i: NodeId, n: Node) {
    n.cfg.id == i && Local(n) && NodeInv(h, n) && n.msgs == [] && !n.panicked
  }

  ghost predicate NodesInv(h: Hist, nodes: map<NodeId, Node>) {
    forall i {:trigger nodes[i]} :: i in nodes ==> NodeOK(h, i, nodes[i])
  }

  ghost predicate NetInv(h: Hist, net: set<Message>) {
    forall m {:trigger m in net} :: m in net ==> MsgInv(h, m)
  }

  ghost predicate Inv(c: System, h: Hist) {
    HistInv(h) && h.voters == c.nodes.Keys && NodesInv(h, c.nodes) && NetInv(h, c.net)
  }

  /** The history of a cluster in which nothing has happened. */
  function NoHistory(voters: set<NodeId>): Hist {
    Hist(voters, map j | j in voters :: 0, map[], map[], map[], map[])
  }

  lemma NoHistoryInv(voters: set<NodeId>)
    ensures HistInv(NoHistory(voters))
  {
  }

  lemma NewNodeOK(h: Hist, cfg: Config)
    requires ConfigOK(cfg) && (forall p :: p in cfg.peers <==> p in h.voters) && h == NoHistory(h.voters)
    ensures NodeOK(h, cfg.id, NewNode(cfg))
  {
  }

  lemma InitInv(c: System) returns (h: Hist)
    requires Init(c)
    ensures Inv(c, h)
  {
    hide HistInv, NodeOK, NewNode;
    h := NoHistory(c.nodes.Keys);
    NoHistoryInv(c.nodes.Keys);
    forall i | i in c.nodes
      ensures NodeOK(h, i, c.nodes[i])
    {
      NewNodeOK(h, c.nodes[i].cfg);
    }
  }

  lemma AppliedGood(h: Hist, n: Node, k: nat)
    requires Good(h, n) && k <= n.committed
    ensures Good(h, n.(applied := k))
  {
  }

  /** A lower commit index is as true as the higher one. */
  lemma UncommitNode(h: Hist, n: Node, c: nat)
    requires NodeInv(h, n) && n.role.Follower? && c <= n.committed
    ensures NodeInv(h, n.(committed := c))
  {
    if c > 0 {
      var t: nat :| t <= n.term && CommittedBy(h, t, n.log, n.committed);
      assert CommittedBy(h, t, n.log, c);
    }
  }

  lemma RebootLocal(n: Node, applied: nat, committed: nat)
    requires Local(n) && n.role.Follower? && n.readOnly == EmptyQueue() && applied <= committed <= n.committed
    ensures Local(n.(readStates := [], committed := committed, applied := applied))
  {
  }

  lemma FieldsNode(h: Hist, n: Node, applied: nat, rs: seq<ReadState>)
    requires NodeInv(h, n)
    ensures NodeInv(h, n.(applied := applied, readStates := rs))
  {
  }

  /** Restarting and stepping down commute. */
  lemma RebootFrame(n: Node, applied: nat, committed: nat)
    ensures Rebooted(n, applied, committed) ==
            BecomeFollower(n, n.term, NONE).(readStates := [], committed := committed, applied := applied)
  {
  }

  lemma RestartGood(h: Hist, n: Node, applied: nat, committed: nat) returns (h': Hist)
    requires Good(h, n) && applied <= committed <= n.committed
    ensures Good(h', Rebooted(n, applied, committed)) && Grows(h, h', n.cfg.id)
  {
    hide HistInv, Local, NodeInv, MsgsInv, Grows;
    h' := BecomeFollowerGood(h, n, n.term, NONE);
    var n1 := BecomeFollower(n, n.term, NONE);
    RebootFrame(n, applied, committed);
    RebootLocal(n1, applied, committed);
    UncommitNode(h', n1, committed);
    FieldsNode(h', n1.(committed := committed), applied, []);
  }

  lemma ActGood(h: Hist, c: System, i: NodeId, a: Action) returns (h': Hist)
    requires i in c.nodes && Enabled(c, i, a) && NetInv(h, c.net)
    requires Good(h, c.nodes[i]) && c.nodes[i].cfg.id == i
    ensures Good(h', Act(c.nodes[i], a)) && Grows(h, h', i) && Act(c.nodes[i], a).panicked == c.nodes[i].panicked
  {
    hide Good, Grows, Step, LocalMsg, MsgInv, Rebooted;
    var n := c.nodes[i];
    GrowsRefl(h, i);
    h' := h;
    match a
    case Deliver(m) => h' := StepGood(h, n, m);
    case Request(m) => h' := StepGood(h, n, m);
    case Apply(k) => AppliedGood(h, n, k);
    case Clock(e, abort) => TransferFieldsGood(h, n, if abort then NONE else n.leadTransferee, e);
    case TakeReads => ReadStatesGood(h, n, []);
    case Restart(applied, committed) =>
      h' := RestartGood(h, n, applied, committed);
      RebootPanics(n, applied, committed);
  }

  lemma RebootPanics(n: Node, applied: nat, committed: nat)
    ensures Rebooted(n, applied, committed).panicked == n.panicked
  {
  }

  lemma GoodFit(h: Hist, n: Node)
    requires Good(h, n)
    ensures Fit(n)
  {
    hide HistInv, Local, NodeInv, MsgsInv;
    VoterFits(n);
    if n.role.Leader? {
      LeaderParts(h, n);
      PeerParts(h, n, n.cfg.id);
    }
  }

  lemma VoterFits(n: Node)
    requires Local(n)
    ensures n.committed <= |n.log| && n.cfg.id in n.cfg.peers
  {
  }

  /** Only a restart can take a commit index back. */
  lemma ActKeeps(n: Node, a: Action)
    requires Fit(n)
    ensures Act(n, a).cfg == n.cfg && (a.Restart? || n.committed <= Act(n, a).committed) && (Seated(n) ==> Seated(Act(n, a)))
  {
    hide Step, Fit;
    if a.Deliver? || a.Request? { StepKeeps(n, a.m); }
  }

  lemma NodesInvGrow(h: Hist, h': Hist, i: NodeId, nodes: map<NodeId, Node>, n: Node)
    requires NodesInv(h, nodes) && HistInv(h) && Grows(h, h', i) && NodeOK(h', i, n)
    ensures NodesInv(h', nodes[i := n])
  {
    forall j | j in nodes && j != i
      ensures NodeOK(h', j, nodes[j])
    {
      NodeInvGrows(h, h', i, nodes[j]);
    }
  }

  lemma NetInvGrow(h: Hist, h': Hist, i: NodeId, net: set<Message>, n: Node)
    requires NetInv(h, net) && Grows(h, h', i) && MsgsInv(h', n.msgs)
    ensures NetInv(h', net + Sent(n))
  {
    hide MsgInv, Grows;
    forall m | m in net + Sent(n)
      ensures MsgInv(h', m)
    {
      if m in net {
        MsgInvGrows(h, h', i, m);
      } else {
        var x :| 0 <= x < |n.msgs| && n.msgs[x] == m;
      }
    }
  }

  lemma FlushLocal(n: Node)
    requires Local(n)
    ensures Local(n.(msgs := []))
  {
  }

  lemma FlushNode(h: Hist, n: Node)
    requires NodeInv(h, n)
    ensures NodeInv(h, n.(msgs := []))
  {
  }

  lemma GoodNode(h: Hist, c: System, i: NodeId)
    requires Inv(c, h) && i in c.nodes
    ensures Good(h, c.nodes[i]) && NodeOK(h, i, c.nodes[i])
  {
    hide HistInv, Local, NodeInv, MsgInv;
    assert NodeOK(h, i, c.nodes[i]);
  }

  lemma GrowsVoters(h: Hist, h': Hist, i: NodeId)
    requires Grows(h, h', i)
    ensures h'.voters == h.voters && ReignsGrow(h, h')
  {
  }

  lemma AfterInv(c: System, h: Hist, i: NodeId, a: Action) returns (h': Hist)
    requires Inv(c, h) && i in c.nodes && Enabled(c, i, a)
    ensures Inv(After(c, i, a), h') && Grows(h, h', i)
  {
    hide HistInv, Local, NodeInv, MsgsInv, NetInv, NodesInv, Grows, Act, Enabled, Sent;
    GoodNode(h, c, i);
    h' := ActGood(h, c, i, a);
    var n := Act(c.nodes[i], a);
    GoodFit(h, c.nodes[i]);
    ActKeeps(c.nodes[i], a);
    FlushLocal(n);
    FlushNode(h', n);
    NodesInvGrow(h, h', i, c.nodes, n.(msgs := []));
    NetInvGrow(h, h', i, c.net, n);
    GrowsVoters(h, h', i);
  }

  // ---------------------------------------------------------------- runs

  /** One history per state of a run, each continuing the one before. */
  ghost predicate Chronicle(cs: seq<System>, hs: seq<Hist>) {
    && |hs| == |cs|
    && (forall k {:trigger hs[k]} :: 0 <= k < |cs| ==> Inv(cs[k], hs[k]))
    && (forall k {:trigger Continues(hs, k)} :: 0 <= k < |hs| - 1 ==> Continues(hs, k))
  }

  ghost predicate Continues(hs: seq<Hist>, k: nat)
    requires k < |hs| - 1
  {
    ReignsGrow(hs[k], hs[k + 1])
  }

  lemma RunPrefix(cs: seq<System>)
    requires Run(cs) && |cs| > 1
    ensures Run(cs[..|cs| - 1]) && Next(cs[|cs| - 2], cs[|cs| - 1])
  {
    hide Next, Init;
    assert Linked(cs, |cs| - 2);
    var ds := cs[..|cs| - 1];
    forall k {:trigger Linked(ds, k)} | 0 <= k < |ds| - 1
      ensures Linked(ds, k)
    {
      assert Linked(cs, k);
    }
  }

  /** A run goes on with whatever a node may do. */
  lemma RunExtends(us: seq<System>, j: NodeId, x: Action)
    requires Run(us) && j in us[|us| - 1].nodes && Enabled(us[|us| - 1], j, x)
    ensures Run(us + [After(us[|us| - 1], j, x)])
  {
    hide Init, Enabled, After;
    var vs := us + [After(us[|us| - 1], j, x)];
    forall k {:trigger Linked(vs, k)} | 0 <= k < |vs| - 1
      ensures Linked(vs, k)
    {
      if k < |us| - 1 { assert Linked(us, k); } else { assert vs[k] == us[|us| - 1] && vs[k + 1] == After(vs[k], j, x); }
    }
  }

  lemma {:induction false} Chronicled(cs: seq<System>) returns (hs: seq<Hist>)
    requires Run(cs)
    ensures Chronicle(cs, hs)
    decreases |cs|
  {
    hide Inv, Enabled, After, ReignsGrow, Init, Run;
    RunStart(cs);
    var last := |cs| - 1;
    if last == 0 {
      var h := InitInv(cs[0]);
      hs := [h];
    } else {
      RunPrefix(cs);
      var hs0 := Chronicled(cs[..last]);
      assert Inv(cs[last - 1], hs0[last - 1]);
      var i, a :| i in cs[last - 1].nodes && Enabled(cs[last - 1], i, a) && cs[last] == After(cs[last - 1], i, a);
      var h := AfterInv(cs[last - 1], hs0[last - 1], i, a);
      GrowsVoters(hs0[last - 1], h, i);
      hs := hs0 + [h];
      ChronicleGrows(cs, hs0, h);
    }
  }

  lemma RunStart(cs: seq<System>)
    requires Run(cs)
    ensures |cs| > 0 && Init(cs[0])
  {
  }

  lemma ChronicleGrows(cs: seq<System>, hs: seq<Hist>, h: Hist)
    requires |cs| > 1 && Chronicle(cs[..|cs| - 1], hs) && Inv(cs[|cs| - 1], h) && ReignsGrow(hs[|cs| - 2], h)
    ensures Chronicle(cs, hs + [h])
  {
    hide Inv, ReignsGrow;
    var last := |cs| - 1;
    var hs' := hs + [h];
    forall k | 0 <= k < |cs|
      ensures Inv(cs[k], hs'[k])
    {
      if k < last { assert Inv(cs[..last][k], hs[k]); }
    }
    forall k | 0 <= k < |cs| - 1
      ensures Continues(hs', k)
    {
      if k + 1 < last { assert Continues(hs, k); }
    }
  }

  /** What a history records about leaders stays in all later histories. */
  lemma {:induction false} Later(cs: seq<System>, hs: seq<Hist>, a: nat, b: nat)
    requires Chronicle(cs, hs) && a <= b < |cs|
    ensures ReignsGrow(hs[a], hs[b])
    decreases b - a
  {
    if a == b {
      ReignsGrowRefl(hs[a]);
    } else {
      hide ReignsGrow, Inv;
      Later(cs, hs, a, b - 1);
      assert Continues(hs, b - 1);
      ReignsGrowTrans(hs[a], hs[b - 1], hs[b]);
    }
  }

  lemma ReignsGrowRefl(h: Hist)
    ensures ReignsGrow(h, h)
  {
  }

  /** The histories at two points of a run, brought to a common later one. */
  lemma Meet(cs: seq<System>, a: nat, b: nat) returns (ha: Hist, hb: Hist, h: Hist)
    requires Run(cs) && a < |cs| && b < |cs|
    ensures Inv(cs[a], ha) && Inv(cs[b], hb) && HistInv(h) && ReignsGrow(ha, h) && ReignsGrow(hb, h)
    ensures a <= b ==> h == hb
    ensures b <= a ==> h == ha
  {
    hide Inv, ReignsGrow, Run, HistInv;
    var hs := Chronicled(cs);
    ha, hb := hs[a], hs[b];
    h := if a <= b then hb else ha;
    if a <= b { Later(cs, hs, a, b); ReignsGrowRefl(hb); } else { Later(cs, hs, b, a); ReignsGrowRefl(ha); }
    InvHist(cs[a], ha);
    InvHist(cs[b], hb);
  }

  lemma InvHist(c: System, h: Hist)
    requires Inv(c, h)
    ensures HistInv(h)
  {
  }

  // ---------------------------------------------------------------- what a node shows

  lemma NodeFacts(c: System, h: Hist, i: NodeId)
    requires Inv(c, h) && i in c.nodes
    ensures var n := c.nodes[i];
      && n.cfg.id == i && !n.panicked && n.applied <= n.committed <= |n.log|
      && LogInv(h, n.log) && TermsUpTo(n.log, n.term) && CommitInv(h, n.term, n.log, n.committed)
      && (n.role.Leader? ==> LeaderInv(h, i, n.term, n.log, n.committed))
  {
    hide HistInv, MsgInv, LogInv, TermsUpTo, CommitInv;
    GoodNode(h, c, i);
  }

  lemma RunNodes(cs: seq<System>, k: nat, i: NodeId)
    requires Run(cs) && k < |cs| && i in cs[k].nodes
    ensures var n := cs[k].nodes[i]; Local(n) && n.cfg.id == i && n.msgs == [] && !n.panicked
  {
    hide Run, HistInv, Local, NodeInv, NetInv;
    var hs := Chronicled(cs);
    GoodNode(hs[k], cs[k], i);
  }

  // ---------------------------------------------------------------- what only rises

  /** In step k something other than a restart of node i happens. */
  ghost predicate RunsOn(cs: seq<System>, k: nat, i: NodeId)
    requires k < |cs| - 1
  {
    exists j, a :: j in cs[k].nodes && Enabled(cs[k], j, a) && cs[k + 1] == After(cs[k], j, a) && (j == i ==> !a.Restart?)
  }

  /** Node i is not restarted between two points of a run. */
  ghost predicate NoRestart(cs: seq<System>, a: nat, b: nat, i: NodeId) {
    b < |cs| && forall k {:trigger RunsOn(cs, k, i)} :: a <= k < b ==> RunsOn(cs, k, i)
  }

  lemma AfterRises(c: System, h: Hist, j: NodeId, a: Action, i: NodeId)
    requires Inv(c, h) && j in c.nodes && i in c.nodes && Enabled(c, j, a)
    ensures var c' := After(c, j, a);
      && i in c'.nodes && c.nodes[i].term <= c'.nodes[i].term
      && (Seated(c.nodes[i]) ==> Seated(c'.nodes[i]))
      && ((j == i ==> !a.Restart?) ==> c.nodes[i].committed <= c'.nodes[i].committed)
  {
    hide Inv, Enabled, Act, Fit, Good, Grows;
    var h' := AfterInv(c, h, j, a);
    NodeTerms(c, h, i);
    NodeTerms(After(c, j, a), h', i);
    TermRises(h, h', j, i);
    GoodNode(h, c, j);
    GoodFit(h, c.nodes[j]);
    ActKeeps(c.nodes[j], a);
  }

  lemma NodeTerms(c: System, h: Hist, i: NodeId)
    requires Inv(c, h) && i in c.nodes
    ensures i in h.term && h.term[i] == c.nodes[i].term
  {
    hide HistInv, Local, NetInv;
    assert NodeOK(h, i, c.nodes[i]);
  }

  lemma TermRises(h: Hist, h': Hist, j: NodeId, i: NodeId)
    requires Grows(h, h', j) && i in h.term
    ensures i in h'.term && h.term[i] <= h'.term[i]
  {
  }

  /** Terms never go back, and without a restart neither does a commit index. */
  lemma {:induction false} RunRises(cs: seq<System>, hs: seq<Hist>, a: nat, b: nat, i: NodeId)
    requires Run(cs) && Chronicle(cs, hs) && a <= b < |cs| && i in cs[a].nodes
    ensures i in cs[b].nodes && cs[a].nodes[i].term <= cs[b].nodes[i].term
    ensures NoRestart(cs, a, b, i) ==> cs[a].nodes[i].committed <= cs[b].nodes[i].committed
    decreases b - a
  {
    hide Inv, Enabled, After, Init, ReignsGrow;
    if a < b {
      RunRises(cs, hs, a, b - 1, i);
      var c := cs[b - 1];
      assert Inv(c, hs[b - 1]);
      assert Linked(cs, b - 1);
      var j, x :| j in c.nodes && Enabled(c, j, x) && cs[b] == After(c, j, x);
      AfterRises(c, hs[b - 1], j, x, i);
      if NoRestart(cs, a, b, i) {
        assert RunsOn(cs, b - 1, i);
        var j', x' :| j' in c.nodes && Enabled(c, j', x') && cs[b] == After(c, j', x') && (j' == i ==> !x'.Restart?);
        AfterRises(c, hs[b - 1], j', x', i);
      }
    }
  }

  /** In every run, the log of a leader ends with an entry of its term, and a leader without peers has
      committed all of it. */
  lemma {:induction false} LoneLeaders(cs: seq<System>, hs: seq<Hist>, k: nat, i: NodeId)
    requires Run(cs) && Chronicle(cs, hs) && k < |cs| && i in cs[k].nodes
    ensures Seated(cs[k].nodes[i])
    decreases k
  {
    hide Inv, Enabled, ReignsGrow, NewNode, Seated, Act, Sent;
    if k == 0 {
      assert cs[0].nodes[i] == NewNode(cs[0].nodes[i].cfg);
      NewSeated(cs[0].nodes[i].cfg);
    } else {
      var c := cs[k - 1];
      assert Inv(c, hs[k - 1]);
      assert Linked(cs, k - 1);
      var j, x :| j in c.nodes && Enabled(c, j, x) && cs[k] == After(c, j, x);
      LoneLeaders(cs, hs, k - 1, i);
      AfterRises(c, hs[k - 1], j, x, i);
    }
  }

  lemma NewSeated(cfg: Config)
    ensures Seated(NewNode(cfg))
  {
  }

  // ---------------------------------------------------------------- the theorems

  /** No node ever runs into one of its panics. */
  lemma NeverPanics(cs: seq<System>, k: nat, i: NodeId)
    requires Run(cs) && k < |cs| && i in cs[k].nodes
    ensures !cs[k].nodes[i].panicked
  {
    hide Run, Inv;
    var hs := Chronicled(cs);
    NodeFacts(cs[k], hs[k], i);
  }

  /** Election Safety: a term has at most one leader, over the whole run. */
  lemma ElectionSafety(cs: seq<System>, a: nat, i: NodeId, b: nat, j: NodeId)
    requires Run(cs) && a < |cs| && b < |cs| && i in cs[a].nodes && j in cs[b].nodes
    requires cs[a].nodes[i].role.Leader? && cs[b].nodes[j].role.Leader?
    requires cs[a].nodes[i].term == cs[b].nodes[j].term
    ensures i == j
  {
    hide Run, Inv, HistInv, LogInv, TermsUpTo, CommitInv;
    var ha, hb, h := Meet(cs, a, b);
    NodeFacts(cs[a], ha, i);
    NodeFacts(cs[b], hb, j);
    var t := cs[a].nodes[i].term;
    assert ReignGrows(ha.reign[t], h.reign[t]) && ReignGrows(hb.reign[t], h.reign[t]);
  }

  lemma MatchingLogs(h: Hist, la: Log, lb: Log, x: nat)
    requires LogInv(h, la) && LogInv(h, lb) && 1 <= x <= |la| && x <= |lb| && la[x - 1].term == lb[x - 1].term
    ensures Agree(la, lb, x)
  {
    assert MatchAt(h, la, x - 1) && MatchAt(h, lb, x - 1);
  }

  /** Log Matching: two logs with the same term at an index agree up to it, whenever and wherever. */
  lemma LogMatching(cs: seq<System>, a: nat, i: NodeId, b: nat, j: NodeId, x: nat)
    requires Run(cs) && a < |cs| && b < |cs| && i in cs[a].nodes && j in cs[b].nodes
    requires 1 <= x <= |cs[a].nodes[i].log| && x <= |cs[b].nodes[j].log|
    requires cs[a].nodes[i].log[x - 1].term == cs[b].nodes[j].log[x - 1].term
    ensures Agree(cs[a].nodes[i].log, cs[b].nodes[j].log, x)
  {
    hide Run, Inv, HistInv, LogInv, TermsUpTo, CommitInv, ReignsGrow;
    var ha, hb, h := Meet(cs, a, b);
    NodeFacts(cs[a], ha, i);
    NodeFacts(cs[b], hb, j);
    LogInvGrows(ha, h, cs[a].nodes[i].log);
    LogInvGrows(hb, h, cs[b].nodes[j].log);
    MatchingLogs(h, cs[a].nodes[i].log, cs[b].nodes[j].log, x);
  }

  /** So a log that a node stored at one time and its log at another satisfy what declaring entries
      stable asks for, and so do the logs of a leader and a follower. */
  lemma LogsMatch(cs: seq<System>, a: nat, i: NodeId, b: nat, j: NodeId)
    requires Run(cs) && a < |cs| && b < |cs| && i in cs[a].nodes && j in cs[b].nodes
    ensures RaftLogs.Matching(cs[a].nodes[i].log, cs[b].nodes[j].log)
  {
    hide Run, Agree;
    var n, m := cs[a].nodes[i].log, cs[b].nodes[j].log;
    forall x | 1 <= x <= |n| && x <= |m| && TermAt(n, x) == TermAt(m, x)
      ensures Agree(n, m, x)
    {
      LogMatching(cs, a, i, b, j, x);
    }
  }

  /** A leader only appends: later in the same term its log has everything it had. */
  lemma LeaderAppendOnly(cs: seq<System>, a: nat, b: nat, i: NodeId)
    requires Run(cs) && a <= b < |cs| && i in cs[a].nodes && i in cs[b].nodes
    requires cs[a].nodes[i].role.Leader? && cs[b].nodes[i].role.Leader? && cs[a].nodes[i].term == cs[b].nodes[i].term
    ensures cs[a].nodes[i].log <= cs[b].nodes[i].log
  {
    hide Run, Inv, HistInv, LogInv, TermsUpTo, CommitInv;
    var ha, hb, h := Meet(cs, a, b);
    NodeFacts(cs[a], ha, i);
    NodeFacts(cs[b], hb, i);
    var t := cs[a].nodes[i].term;
    assert ReignGrows(ha.reign[t], h.reign[t]);
  }

  /** State Machine Safety: what any node has committed at any time agrees with what any other
      node has committed at any other time. */
  lemma StateMachineSafety(cs: seq<System>, a: nat, i: NodeId, b: nat, j: NodeId, x: nat)
    requires Run(cs) && a < |cs| && b < |cs| && i in cs[a].nodes && j in cs[b].nodes
    requires x <= cs[a].nodes[i].committed && x <= cs[b].nodes[j].committed
    ensures Agree(cs[a].nodes[i].log, cs[b].nodes[j].log, x)
  {
    hide Run, Inv, HistInv, LogInv, TermsUpTo, CommitInv, ReignsGrow, Agree;
    var ha, hb, h := Meet(cs, a, b);
    NodeFacts(cs[a], ha, i);
    NodeFacts(cs[b], hb, j);
    var n, m := cs[a].nodes[i], cs[b].nodes[j];
    CommitInvGrows(ha, h, n.term, n.log, n.committed);
    CommitInvGrows(hb, h, m.term, m.log, m.committed);
    CommittedAgree(h, n.term, n.log, n.committed, m.term, m.log, m.committed, x);
  }

  /** Until it is restarted, a node's commit index and term only rise and what it has committed stays. */
  lemma NodeEvolves(cs: seq<System>, a: nat, b: nat, i: NodeId)
    requires Run(cs) && a <= b && NoRestart(cs, a, b, i) && i in cs[a].nodes
    ensures i in cs[b].nodes
    ensures var n, m := cs[a].nodes[i], cs[b].nodes[i];
      && n.committed <= m.committed <= |m.log| && n.term <= m.term && WellIndexed(m.log)
      && n.committed <= |n.log| && n.log[..n.committed] == m.log[..n.committed]
  {
    hide Run, Inv, HistInv, TermsUpTo, CommitInv, NoRestart, Matches;
    var hs := Chronicled(cs);
    NoRestartEnds(cs, a, b, i);
    RunRises(cs, hs, a, b, i);
    NodeFacts(cs[a], hs[a], i);
    NodeFacts(cs[b], hs[b], i);
    StateMachineSafety(cs, a, i, b, i, cs[a].nodes[i].committed);
  }

  lemma NoRestartEnds(cs: seq<System>, a: nat, b: nat, i: NodeId)
    requires NoRestart(cs, a, b, i)
    ensures b < |cs|
  {
  }

  /** The applied commands of any two nodes at any two times: one sequence starts the other. */
  lemma AppliedPrefix(cs: seq<System>, a: nat, i: NodeId, b: nat, j: NodeId)
    requires Run(cs) && a < |cs| && b < |cs| && i in cs[a].nodes && j in cs[b].nodes
    requires cs[a].nodes[i].applied <= cs[b].nodes[j].applied
    ensures var n, m := cs[a].nodes[i], cs[b].nodes[j];
      n.applied <= |n.log| && m.applied <= |m.log| && n.log[..n.applied] <= m.log[..m.applied]
  {
    hide Run, Inv, HistInv, LogInv, TermsUpTo, CommitInv;
    var hs := Chronicled(cs);
    NodeFacts(cs[a], hs[a], i);
    NodeFacts(cs[b], hs[b], j);
    StateMachineSafety(cs, a, i, b, j, cs[a].nodes[i].applied);
  }

  /** What was committed up to term t is in the part a leader of a later term started with. */
  lemma CompletenessAt(h: Hist, t: nat, log: Log, c: nat, t': nat)
    requires HistInv(h) && CommitInv(h, t, log, c) && t < t' && t' in h.reign
    ensures c <= h.reign[t'].base <= |h.reign[t'].log| && Agree(log, h.reign[t'].log, c)
  {
    assert ReignShape(h, t', h.reign[t']);
    if c > 0 {
      var s: nat :| s <= t && CommittedBy(h, s, log, c);
      LeaderCompleteness(h, s, t');
      assert ReignShape(h, s, h.reign[s]) && Counted(h, s, h.reign[s]);
      assert h.reign[t'].log[h.reign[s].counted - 1].term == s;
    }
  }

  /** Leader Completeness: what any node has committed by some term is in the log of every leader
      of a higher term, from the moment it is elected. */
  lemma LaterLeaderHasAll(cs: seq<System>, a: nat, i: NodeId, b: nat, j: NodeId)
    requires Run(cs) && a < |cs| && b < |cs| && i in cs[a].nodes && j in cs[b].nodes
    requires cs[b].nodes[j].role.Leader? && cs[a].nodes[i].term < cs[b].nodes[j].term
    ensures cs[a].nodes[i].committed <= |cs[b].nodes[j].log|
    ensures Agree(cs[a].nodes[i].log, cs[b].nodes[j].log, cs[a].nodes[i].committed)
  {
    hide Run, Inv, LogInv, TermsUpTo, CommitInv, HistInv;
    var ha, hb, h := Meet(cs, a, b);
    NodeFacts(cs[a], ha, i);
    NodeFacts(cs[b], hb, j);
    var n, m := cs[a].nodes[i], cs[b].nodes[j];
    CommitInvGrows(ha, h, n.term, n.log, n.committed);
    assert ReignGrows(hb.reign[m.term], h.reign[m.term]);
    CompletenessAt(h, n.term, n.log, n.committed, m.term);
    InvHist(cs[b], hb);
    BaseInLog(hb, m.term);
  }

  lemma BaseInLog(h: Hist, t: nat)
    requires HistInv(h) && t in h.reign
    ensures h.reign[t].base <= |h.reign[t].log|
  {
    assert ReignShape(h, t, h.reign[t]);
  }

  /** What a node has committed is in the log of every leader of its term or a later one. */
  lemma LeaderHasCommitted(cs: seq<System>, k: nat, i: NodeId, j: NodeId)
    requires Run(cs) && k < |cs| && i in cs[k].nodes && j in cs[k].nodes
    requires cs[k].nodes[i].role.Leader? && cs[k].nodes[j].term <= cs[k].nodes[i].term
    ensures Agree(cs[k].nodes[i].log, cs[k].nodes[j].log, cs[k].nodes[j].committed)
  {
    hide Run, Inv, LogInv, TermsUpTo, HistInv;
    var hs := Chronicled(cs);
    var h := hs[k];
    NodeFacts(cs[k], h, i);
    NodeFacts(cs[k], h, j);
    InvHist(cs[k], h);
    var n := cs[k].nodes[j];
    if n.committed > 0 {
      var t: nat :| t <= n.term && CommittedBy(h, t, n.log, n.committed);
      LeaderCompleteness(h, t, cs[k].nodes[i].term);
    }
  }

  /** The terms of the entries in a log are real. */
  lemma TermsReal(cs: seq<System>, k: nat, i: NodeId)
    requires Run(cs) && k < |cs| && i in cs[k].nodes
    ensures WellIndexed(cs[k].nodes[i].log) && cs[k].nodes[i].committed <= |cs[k].nodes[i].log|
    ensures forall x :: 0 <= x < |cs[k].nodes[i].log| ==> cs[k].nodes[i].log[x].term > 0
  {
    hide Run, Inv, HistInv, TermsUpTo, CommitInv;
    var hs := Chronicled(cs);
    NodeFacts(cs[k], hs[k], i);
    InvHist(cs[k], hs[k]);
    RealTerms(hs[k], cs[k].nodes[i].log);
  }

  lemma RealTerms(h: Hist, log: Log)
    requires HistInv(h) && LogInv(h, log)
    ensures WellIndexed(log) && forall x :: 0 <= x < |log| ==> log[x].term > 0
  {
    TermsPositive(h, log);
  }

  /** Match soundness: until a peer moves on to a later term, it agrees with the leader's log up to
      the index the leader has recorded for it; so the commit index of a heartbeat is within reach. */
  lemma MatchSoundness(cs: seq<System>, k: nat, i: NodeId, j: NodeId)
    requires Run(cs) && k < |cs| && i in cs[k].nodes && j in cs[k].nodes
    requires cs[k].nodes[i].role.Leader? && cs[k].nodes[j].term <= cs[k].nodes[i].term
    ensures j in cs[k].nodes[i].prs
    ensures Agree(cs[k].nodes[i].log, cs[k].nodes[j].log, cs[k].nodes[i].prs[j].matched)
  {
    hide Run;
    var hs := Chronicled(cs);
    assert Inv(cs[k], hs[k]);
    MatchSound(cs[k], hs[k], i, j);
  }

  lemma MatchSound(c: System, h: Hist, i: NodeId, j: NodeId)
    requires Inv(c, h) && i in c.nodes && j in c.nodes
    requires c.nodes[i].role.Leader? && c.nodes[j].term <= c.nodes[i].term
    ensures j in c.nodes[i].prs
    ensures Agree(c.nodes[i].log, c.nodes[j].log, c.nodes[i].prs[j].matched)
  {
    hide Inv, HistInv, Local, NodeInv, MsgsInv, PrsOK, ConfigOK;
    GoodNode(h, c, i);
    GoodNode(h, c, j);
    LeaderParts(h, c.nodes[i]);
    VotersPeers(c, h, i, j);
    HoldsNow(h, c.nodes[j]);
    if c.nodes[j].term < c.nodes[i].term { NotBefore(c, h, j, c.nodes[i].term); }
    assert c.nodes[i].prs[j].matched <= Ack(h, j, c.nodes[i].term);
  }

  lemma VotersPeers(c: System, h: Hist, i: NodeId, j: NodeId)
    requires Inv(c, h) && i in c.nodes && j in c.nodes
    ensures j in c.nodes[i].prs && c.nodes[i].cfg.id == i && c.nodes[j].cfg.id == j
  {
    hide HistInv, MsgInv;
    assert NodeOK(h, i, c.nodes[i]) && NodeOK(h, j, c.nodes[j]);
  }

  lemma HoldsNow(h: Hist, n: Node)
    requires NodeInv(h, n)
    ensures Holds(h, n.cfg.id, n.term, n.log)
  {
  }

  /** A node acknowledges nothing in a term it has not reached. */
  lemma NotBefore(c: System, h: Hist, j: NodeId, t: nat)
    requires Inv(c, h) && j in c.nodes && c.nodes[j].term < t
    ensures Ack(h, j, t) == 0
  {
    hide NodesInv, NetInv;
    NodeTerms(c, h, j);
    assert AckOK(h, j, t);
  }

  /** What a leader records of the voters, and what it has, between two steps. */
  lemma LeaderRecord(cs: seq<System>, k: nat, i: NodeId, j: NodeId)
    requires Run(cs) && k < |cs| && i in cs[k].nodes && j in cs[k].nodes && cs[k].nodes[i].role.Leader?
    ensures var n := cs[k].nodes[i];
      && Local(n) && n.cfg.id == i && n.msgs == [] && n.term > 0 && j in n.prs && n.prs[j].next <= |n.log| + 1
      && cs[k].nodes[j].cfg.id == j && cs[k].nodes[j].msgs == []
  {
    hide Run, HistInv, Local, MsgInv, NetInv;
    var hs := Chronicled(cs);
    assert Inv(cs[k], hs[k]);
    GoodNode(hs[k], cs[k], i);
    GoodNode(hs[k], cs[k], j);
    LeaderParts(hs[k], cs[k].nodes[i]);
    PeerParts(hs[k], cs[k].nodes[i], j);
  }

  /** Nobody is ahead of a leader: a node whose term is not later has the leader's log, or lacks the
      last entry of it. */
  lemma NobodyAhead(cs: seq<System>, k: nat, i: NodeId, j: NodeId)
    requires Run(cs) && k < |cs| && i in cs[k].nodes && j in cs[k].nodes
    requires cs[k].nodes[i].role.Leader? && cs[k].nodes[j].term <= cs[k].nodes[i].term
    ensures var l, f := cs[k].nodes[i].log, cs[k].nodes[j].log; l != [] && (f == l || TermAt(f, |l|) != LastTerm(l))
  {
    hide Run, Inv, HistInv, CommitInv, ReignsGrow, Sorted;
    var hs := Chronicled(cs);
    var l, f := cs[k].nodes[i], cs[k].nodes[j];
    LoneLeaders(cs, hs, k, i);
    TermsReal(cs, k, i);
    NodeFacts(cs[k], hs[k], i);
    NodeFacts(cs[k], hs[k], j);
    if TermAt(f.log, |l.log|) == LastTerm(l.log) {
      LogMatching(cs, k, j, k, i, |l.log|);
      NoLonger(hs[k], l, f);
    }
  }

  lemma NoLonger(h: Hist, l: Node, f: Node)
    requires LeaderInv(h, l.cfg.id, l.term, l.log, l.committed) && OwnLast(l)
    requires LogInv(h, f.log) && TermsUpTo(f.log, f.term) && f.term <= l.term && Agree(f.log, l.log, |l.log|)
    ensures f.log == l.log
  {
    assert |f.log| > |l.log| ==> MatchAt(h, f.log, |l.log|);
  }

  /** Pipelining: a peer that is sent entries ahead of its answers has strictly increasing
      unacknowledged indexes between match and next, never more than the configured number. */
  lemma Pipelining(cs: seq<System>, k: nat, i: NodeId, p: NodeId)
    requires Run(cs) && k < |cs| && i in cs[k].nodes && p in cs[k].nodes[i].prs
    ensures Pipelined(cs[k].nodes[i].prs[p], cs[k].nodes[i].cfg.maxInflight)
  {
    hide Run, HistInv, MsgInv, NodeInv;
    var hs := Chronicled(cs);
    GoodNode(hs[k], cs[k], i);
    assert PrsOK(cs[k].nodes[i].cfg, cs[k].nodes[i].prs);
  }

  /** The read queue of every node lists exactly the pending requests, each once, in the order of
      their read indexes, none above the commit index. */
  lemma ReadQueueInOrder(cs: seq<System>, k: nat, i: NodeId)
    requires Run(cs) && k < |cs| && i in cs[k].nodes
    ensures ReadsOK(cs[k].nodes[i].readOnly, cs[k].nodes[i].committed)
  {
    hide Run, HistInv, MsgInv, NodeInv;
    var hs := Chronicled(cs);
    GoodNode(hs[k], cs[k], i);
  }

  /** While a node leads, every configuration change in its log is at or below the index it
      remembers as pending. */
  lemma ConfChangesKnown(cs: seq<System>, k: nat, i: NodeId)
    requires Run(cs) && k < |cs| && i in cs[k].nodes && cs[k].nodes[i].role.Leader?
    ensures ConfOK(cs[k].nodes[i].log, cs[k].nodes[i].pendingConfIndex)
  {
    hide Run, HistInv, MsgInv, NodeInv;
    var hs := Chronicled(cs);
    GoodNode(hs[k], cs[k], i);
  }

  lemma NewConfig(cfg: Config)
    ensures NewNode(cfg).cfg == cfg
  {
  }
}
