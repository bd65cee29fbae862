/** How heartbeats get log repair going again: a round is a heartbeat, its answer, and the exchange that
    the answer sets off, until nothing is under way (src/raft.cc, `MsgBeat` and `MsgHeartbeatResp`). */
module Heartbeats {
  import opened Types
  import opened Logs
  import opened Progresses
  import opened Nodes
  import opened NodeLocal
  import opened Repair
  import Q = ReadQueues

  /** The leader is told to send heartbeats. */
  function Beat(x: Link): Link {
    var l := Step(x.l, Blank(MsgBeat, x.l.cfg.id));
    Link(l.(msgs := []), x.f, x.toF + Out(l.msgs, x.f.cfg.id), x.toL)
  }

  /** A round of heartbeats from x ends in y. */
  ghost predicate RoundTo(x: Link, sched: nat -> bool, y: Link) {
    exists n: nat :: Ends(x, sched, y, n)
  }

  ghost predicate Ends(x: Link, sched: nat -> bool, y: Link, n: nat) {
    Idle(y) && y == Turns(Beat(x), sched, n)
  }

  // ---------------------------------------------------------------- the heartbeat

  function Heartbeat(c: Line, commit: nat, ctx: string): Message {
    Message(MsgHeartbeat, c.j, c.i, c.term, 0, 0, [], commit, false, 0, ctx)
  }

  function Echoed(c: Line, ctx: string): Message {
    Message(MsgHeartbeatResp, c.i, c.j, c.term, 0, 0, [], 0, false, 0, ctx)
  }

  /** A broadcast sends every other voter one heartbeat. */
  lemma {:induction false} BcastOut(c: Line, n: Node, ps: seq<NodeId>, ctx: string)
    requires n.cfg.id == c.i && n.term == c.term && c.i != c.j
    requires forall x, y :: 0 <= x < y < |ps| ==> ps[x] < ps[y]
    ensures var n' := BcastHeartbeat(n, ps, ctx);
      && n' == n.(msgs := n'.msgs)
      && Out(n'.msgs, c.j) ==
         Out(n.msgs, c.j) + if c.j in ps then [Heartbeat(c, Min(Pr(n, c.j).matched, n.committed), ctx)] else []
    decreases |ps|
  {
    hide Out;
    if ps != [] {
      var rest := ps[1..];
      if ps[0] == n.cfg.id {
        BcastOut(c, n, rest, ctx);
      } else {
        var m := Message(MsgHeartbeat, ps[0], c.i, c.term, 0, 0, [], Min(Pr(n, ps[0]).matched, n.committed), false, 0, ctx);
        var n1 := SendHeartbeat(n, ps[0], ctx);
        assert n1 == n.(msgs := n.msgs + [m]);
        OutOne(n.msgs, m, c.j);
        BcastOut(c, n1, rest, ctx);
      }
    }
  }

  lemma BeatOut(c: Line, x: Link)
    requires Ready(c, x)
    ensures Beat(x) == Link(x.l, x.f,
        [Heartbeat(c, Min(Pr(x.l, c.j).matched, x.l.committed), Q.LastPendingCtx(x.l.readOnly))], [])
  {
    hide Local, LeaderLog, Behind, Out, BcastHeartbeat;
    var ctx := Q.LastPendingCtx(x.l.readOnly);
    PeersSorted(x.l, c.j);
    BcastOut(c, x.l, x.l.cfg.peers, ctx);
    LeadsFlushed(c, x.l);
    assert Step(x.l, Blank(MsgBeat, c.i)) == BcastHeartbeat(x.l, x.l.cfg.peers, ctx);
  }

  lemma PeersSorted(n: Node, j: NodeId)
    requires Local(n) && j in n.prs
    ensures j in n.cfg.peers && forall x, y :: 0 <= x < y < |n.cfg.peers| ==> n.cfg.peers[x] < n.cfg.peers[y]
  {
  }

  /** The follower learns of what it has that is committed, follows the leader and answers. */
  lemma FollowerEchoes(c: Line, f: Node, commit: nat, ctx: string)
    requires Listens(c, f) && c.term > 0 && commit <= |f.log|
    ensures var f' := Step(f, Heartbeat(c, commit, ctx));
      && View(f') == Peer(f.log, Max(f.committed, commit)) && f'.cfg == f.cfg && f'.term == c.term && f'.role.Follower?
      && f'.msgs == [Echoed(c, ctx)]
  {
    hide Behind, Reset, HandleHeartbeat;
    FollowFrame(f, c.term, c.i);
    var n := if f.term == c.term && f.role.Follower? then f.(electionElapsed := 0, lead := c.i)
             else BecomeFollower(f, c.term, c.i);
    StepIsHandling(c, f, Heartbeat(c, commit, ctx), n);
    HandlesHeartbeat(n, Heartbeat(c, commit, ctx));
  }

  lemma StepIsHandling(c: Line, f: Node, m: Message, n: Node)
    requires m.kind.MsgHeartbeat? && m.from == c.i && m.term == c.term && c.term > 0
    requires f.term <= c.term && (f.term == c.term ==> !f.role.Leader?)
    requires n == if f.term == c.term && f.role.Follower? then f.(electionElapsed := 0, lead := c.i)
                  else BecomeFollower(f, c.term, c.i)
    ensures Step(f, m) == HandleHeartbeat(n, m)
  {
    hide HandleHeartbeat, Reset;
    FollowFrame(f, c.term, c.i);
    assert n.(electionElapsed := 0, lead := m.from) == n;
  }

  lemma HandlesHeartbeat(n: Node, m: Message)
    requires m.commit <= |n.log| && n.msgs == []
    ensures var n' := HandleHeartbeat(n, m);
      && View(n') == Peer(n.log, Max(n.committed, m.commit)) && n'.cfg == n.cfg && n'.term == n.term && n'.role == n.role
      && n'.msgs == [Message(MsgHeartbeatResp, m.from, n.cfg.id, n.term, 0, 0, [], 0, false, 0, m.context)]
  {
  }

  lemma EchoTurn(c: Line, x: Link, commit: nat, ctx: string)
    requires Linked(c, x) && c.term > 0 && x.toF == [Heartbeat(c, commit, ctx)] && x.toL == []
    requires commit <= Pr(x.l, c.j).matched
    ensures var x' := ToFollower(x);
      && Linked(c, x') && x'.l == x.l && x'.toF == [] && x'.toL == [Echoed(c, ctx)] && x'.f.log == x.f.log
  {
    hide Leads, Step, Behind;
    FollowerEchoes(c, x.f, commit, ctx);
    BehindStill(c.log, View(x.f), commit);
    var f' := Step(x.f, x.toF[0]);
    assert f'.msgs == [] + [Echoed(c, ctx)];
    OutOne([], Echoed(c, ctx), c.i);
    LeadsLog(c, x.l);
  }

  lemma BehindStill(log: Log, p: Peer, commit: nat)
    requires Behind(log, p) && Agree(log, p.log, commit)
    ensures Behind(log, Peer(p.log, Max(p.committed, commit)))
  {
  }

  // ---------------------------------------------------------------- its answer

  /** The record of a peer that has answered a heartbeat. */
  function Revived(pr: Progress, cap: nat): Progress {
    var q := pr.(recentActive := true, paused := false);
    if q.state.Replicate? && IsFull(q, cap) then q.(inflights := FreeFirstOne(q.inflights)) else q
  }

  /** It is not held back any more. */
  lemma RevivedFree(pr: Progress, cap: nat)
    requires Pipelined(pr, cap) && !pr.state.Snapshot? && cap > 0
    ensures var q := Revived(pr, cap);
      && Pipelined(q, cap) && !IsPaused(q, cap) && q.state == pr.state && q.matched == pr.matched && q.next == pr.next
  {
    if pr.state.Replicate? && IsFull(pr, cap) {
      FreeToExact(pr.inflights, pr.inflights[0]);
      FreeToPrefix(pr.inflights, pr.inflights[0]);
    }
  }

  /** Answering reads sends nothing that replication is made of. */
  lemma {:induction false} ReleaseOut(n: Node, rss: seq<Q.ReadStatus>, j: NodeId)
    ensures var n' := Release(n, rss);
      n' == n.(readStates := n'.readStates, msgs := n'.msgs) && Out(n'.msgs, j) == Out(n.msgs, j)
    decreases |rss|
  {
    hide Out;
    if rss != [] {
      var rs := rss[0];
      if rs.req.from == NONE || rs.req.from == n.cfg.id {
        ReleaseOut(n.(readStates := n.readStates + [ReadState(rs.index, Q.Ctx(rs.req))]), rss[1..], j);
      } else {
        var m := Blank(MsgReadIndexResp, rs.req.from).(index := rs.index, entries := rs.req.entries);
        OutOne(n.msgs, Stamped(n, m), j);
        ReleaseOut(Send(n, m), rss[1..], j);
      }
    }
  }

  lemma ReadAckOut(n: Node, m: Message, j: NodeId)
    requires Local(n)
    ensures var n' := HandleReadAck(n, m);
      && n' == n.(readOnly := n'.readOnly, readStates := n'.readStates, msgs := n'.msgs)
      && Out(n'.msgs, j) == Out(n.msgs, j) && Local(n')
  {
    hide Local, Out, Release, Q.RecvAck, Q.Advance, Q.Backed;
    HandleReadAckLocal(n, m);
    var (q, acks) := Q.RecvAck(n.readOnly, m.from, m.context);
    AckBacked(n, m);
    if Q.Backed(q) {
      var (q', rss) := Q.Advance(q, m.context);
      ReleaseOut(n.(readOnly := q'), rss, j);
    }
  }

  lemma AckBacked(n: Node, m: Message)
    requires Local(n)
    ensures Q.Backed(Q.RecvAck(n.readOnly, m.from, m.context).0)
  {
  }

  lemma SendReads(n: Node, to: NodeId, q: Q.ReadQueue, rs: seq<ReadState>)
    requires Pr(n, to).next >= 1
    ensures SendAppend(n.(readOnly := q, readStates := rs), to) == SendAppend(n, to).(readOnly := q, readStates := rs)
  {
    hide ProgressSent, IsPaused, AppendMsg, Stamped, MaybeSendAppend, EntriesFrom;
    SameAppend(n, to, q, rs);
    MaybeSendAppendFrame(n, to, true);
    MaybeSendAppendFrame(n.(readOnly := q, readStates := rs), to, true);
  }

  lemma SameAppend(n: Node, to: NodeId, q: Q.ReadQueue, rs: seq<ReadState>)
    ensures var n' := n.(readOnly := q, readStates := rs);
      && Stamped(n', AppendMsg(n', to)) == Stamped(n, AppendMsg(n, to)) && Pr(n', to) == Pr(n, to)
      && EntriesFrom(n', Pr(n, to).next) == EntriesFrom(n, Pr(n, to).next)
  {
    hide LimitSize, TermAt;
  }

  lemma OtherReads(n: Node, n': Node)
    requires Local(n) && Local(n') && n'.committed == n.committed
    ensures Local(n.(readOnly := n'.readOnly, readStates := n'.readStates))
  {
    hide ConfigOK, LogOK, PrsOK, ConfOK, ReadsOK;
  }

  /** The leader as the answer finds it once it has revived the follower, before it sends. */
  function Woken(c: Line, l: Node, ctx: string): Node {
    var l' := Step(l, Echoed(c, ctx));
    SetPr(l, c.j, Revived(Pr(l, c.j), l.cfg.maxInflight)).(readOnly := l'.readOnly, readStates := l'.readStates)
  }

  lemma WakesStep(c: Line, l: Node, ctx: string)
    requires Leads(c, l) && c.term > 0 && Pr(l, c.j).matched < |c.log|
    ensures Step(l, Echoed(c, ctx)) ==
            HandleReadAck(SendAppend(SetPr(l, c.j, Revived(Pr(l, c.j), l.cfg.maxInflight)), c.j), Echoed(c, ctx))
  {
    hide Local, LeaderLog, HandleReadAck, SendAppend, FreeFirstOne;
  }

  lemma Wakes(c: Line, l: Node, ctx: string)
    requires Leads(c, l) && c.term > 0 && Pr(l, c.j).matched < |c.log|
    ensures var l', w := Step(l, Echoed(c, ctx)), Woken(c, l, ctx);
      && Local(w) && l'.(msgs := []) == SendAppend(w, c.j).(msgs := [])
      && Out(l'.msgs, c.j) == Out(SendAppend(w, c.j).msgs, c.j)
      && w == l.(prs := w.prs, readOnly := w.readOnly, readStates := w.readStates)
      && c.j in w.prs && w.prs[c.j] == Revived(Pr(l, c.j), l.cfg.maxInflight)
  {
    hide Local, LeaderLog, HandleReadAck, MaybeSendAppend, Revived, Out, Step, Pipelined;
    PeerWindow(l, c.j);
    CommitInLog(l);
    var pr := Revived(Pr(l, c.j), l.cfg.maxInflight);
    RevivedFree(Pr(l, c.j), l.cfg.maxInflight);
    var n1 := SetPr(l, c.j, pr);
    SetPrLocal(l, c.j, pr);
    MaybeSendAppendLocal(n1, c.j, true);
    WakesStep(c, l, ctx);
    ReadAckOut(SendAppend(n1, c.j), Echoed(c, ctx), c.j);
    var l' := Step(l, Echoed(c, ctx));
    SendReads(n1, c.j, l'.readOnly, l'.readStates);
    OtherReads(n1, l');
  }

  /** The answer to a heartbeat is what kicks the exchange off. */
  lemma RevivedTurn(c: Line, x: Link, ctx: string) returns (x1: Link)
    requires Linked(c, x) && c.term > 0 && x.toF == [] && x.toL == [Echoed(c, ctx)] && Pr(x.l, c.j).matched < |c.log|
    ensures Ready(c, x1) && ToLeader(x) == Kick(x1) && x1.f == x.f
    ensures var pr, pr' := Pr(x.l, c.j), Pr(x1.l, c.j);
      && !IsPaused(pr', x1.l.cfg.maxInflight) && pr'.state == pr.state && pr'.matched == pr.matched && pr'.next == pr.next
  {
    hide Local, LeaderLog, Behind, Revived, Out, Step, SendAppend, Pipelined, Woken;
    PeerWindow(x.l, c.j);
    CommitInLog(x.l);
    RevivedFree(Pr(x.l, c.j), x.l.cfg.maxInflight);
    Wakes(c, x.l, ctx);
    x1 := Link(Woken(c, x.l, ctx), x.f, [], []);
  }

  // ---------------------------------------------------------------- one round

  lemma {:induction false} TurnsShift(x: Link, sched: nat -> bool, a: nat, n: nat)
    ensures Turns(x, sched, a + n) == Turns(Turns(x, sched, a), (k: nat) => sched(k + a), n)
    decreases n
  {
    hide Turn;
    if n > 0 { TurnsShift(x, sched, a, n - 1); }
  }

  /** A round ends, and at its end the follower is in line, or the leader knows more or probes further on. */
  lemma OneRound(c: Line, x: Link, sched: nat -> bool) returns (y: Link)
    requires Ready(c, x) && c.term > 0 && Pr(x.l, c.j).matched < |c.log|
    ensures RoundTo(x, sched, y) && (Repaired(c, y) || Gains(c, x, y))
  {
    hide Leads, Listens, Beat, ToFollower, ToLeader, Turns, Kick, Repaired, IsPaused;
    var ctx, commit := Q.LastPendingCtx(x.l.readOnly), Min(Pr(x.l, c.j).matched, x.l.committed);
    BeatOut(c, x);
    var x0 := Beat(x);
    EchoTurn(c, x0, commit, ctx);
    var x1 := RevivedTurn(c, ToFollower(x0), ctx);
    TwoTurns(x0, sched);
    var n := RepairExact(c, x1, (k: nat) => sched(k + 2));
    TurnsShift(x0, sched, 2, n);
    y := Turns(x0, sched, 2 + n);
    assert Ends(x, sched, y, 2 + n);
  }

  // ---------------------------------------------------------------- the theorem

  /** How far the leader can still be from knowing all and from probing at the end. */
  function Unmatched(c: Line, x: Link): nat {
    if Pr(x.l, c.j).matched <= |c.log| then |c.log| - Pr(x.l, c.j).matched else 0
  }

  function Ahead(c: Line, x: Link): nat {
    if Pr(x.l, c.j).state.Probe? && Pr(x.l, c.j).next <= |c.log| + 1 then |c.log| + 1 - Pr(x.l, c.j).next else 0
  }

  lemma GainsLess(c: Line, x: Link, y: Link)
    requires Ready(c, x) && Gains(c, x, y) && Pr(x.l, c.j).matched < |c.log|
    ensures Unmatched(c, y) < Unmatched(c, x) || (Unmatched(c, y) == Unmatched(c, x) && Ahead(c, y) < Ahead(c, x))
  {
    hide Local, LeaderLog, Behind;
  }

  /** Heartbeats repair: from wherever a leader and a follower are, with whatever order of deliveries,
      finitely many rounds of heartbeats bring the follower in line. */
  lemma {:induction false} HeartbeatsRepair(c: Line, x: Link, scheds: nat -> (nat -> bool), k: nat) returns (xs: seq<Link>)
    requires Ready(c, x) && c.term > 0
    ensures |xs| > 0 && xs[0] == x && Repaired(c, xs[|xs| - 1])
    ensures forall i :: 0 <= i < |xs| - 1 ==> RoundTo(xs[i], scheds(k + i), xs[i + 1])
    decreases Unmatched(c, x), Ahead(c, x)
  {
    hide Linked, Repaired, RoundTo, Unmatched, Ahead, Gains;
    if Pr(x.l, c.j).matched >= |c.log| {
      AllMatched(c, x);
      return [x];
    }
    var y := OneRound(c, x, scheds(k));
    if Repaired(c, y) {
      return [x, y];
    }
    GainsLess(c, x, y);
    GainsReady(c, x, y);
    var ys := HeartbeatsRepair(c, y, scheds, k + 1);
    xs := [x] + ys;
    forall i | 0 <= i < |xs| - 1
      ensures RoundTo(xs[i], scheds(k + i), xs[i + 1])
    {
      if i > 0 { assert RoundTo(ys[i - 1], scheds(k + 1 + (i - 1)), ys[i]); }
    }
  }

  lemma GainsReady(c: Line, x: Link, y: Link)
    requires Gains(c, x, y)
    ensures Ready(c, y)
  {
    hide Ready;
  }
}
