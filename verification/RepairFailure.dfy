/** Two runs of three voters in which a leader and a follower have heard all that was sent between them
    and the follower still lacks an entry: in the one the leader probes below what is matched, in the
    other it streams from below what the follower has committed. */
module RepairFailure {
  import opened Types
  import opened Logs
  import opened Progresses
  import opened ReadQueues
  import opened Commitment
  import opened Nodes
  import opened NodeLocal
  import opened Steps
  import opened Cluster
  import opened ReadRuns
  import opened ReadFailure
  import R = Repair

  // ---------------------------------------------------------------- the leader

  /** Voter 1 as leader of term 1, with these records of the others. */
  function Lead(log: Log, committed: nat, p2: Progress, p3: Progress): Node {
    Node(Cfg(1), 1, 1, 1, Leader, log, committed, 0, map[],
         map[1 := Fresh(|log| + 1, |log|), 2 := p2, 3 := p3], NONE, 0, EmptyQueue(), [], 0, [], false)
  }

  ghost predicate Plain(log: Log) {
    WellIndexed(log) && forall x :: 0 <= x < |log| ==> log[x].term == 1
  }

  /** The peer waits for the answer to a probe. */
  predicate Held(pr: Progress) {
    pr.state.Probe? && pr.paused
  }

  function Prop(data: string): Message {
    Blank(MsgProp, 1).(entries := [Entry(0, 0, EntryNormal, data)])
  }

  function AppTo(log: Log, to: NodeId, prev: nat, k: nat, commit: nat): Message
    requires prev + k <= |log|
  {
    Message(MsgApp, to, 1, 1, TermAt(log, prev), prev, log[prev..prev + k], commit, false, 0, "")
  }

  function Ack(from: NodeId, index: nat): Message {
    Message(MsgAppResp, 1, from, 1, 0, index, [], 0, false, 0, "")
  }

  function Refusal(from: NodeId, index: nat, hint: nat): Message {
    Message(MsgAppResp, 1, from, 1, 0, index, [], 0, true, hint, "")
  }

  /** What fits in a message from here. */
  ghost predicate Fits(log: Log, prev: nat, k: nat) {
    prev + k <= |log| && LimitSize(20, log[prev..]) == log[prev..prev + k] && (k == 0 ==> prev == |log|)
  }

  lemma LeadMatches(log: Log, c: nat, p2: Progress, p3: Progress)
    ensures MatchIndexes(Lead(log, c, p2, p3)) == [|log|, p2.matched, p3.matched]
  {
  }

  /** No majority beyond the commit index. */
  lemma NoCommit(log: Log, c: nat, p2: Progress, p3: Progress)
    requires p2.matched <= c && p3.matched <= c
    ensures MaybeCommit(Lead(log, c, p2, p3)) == (Lead(log, c, p2, p3), false)
  {
    hide MatchIndexes, QuorumIndex;
    LeadMatches(log, c, p2, p3);
    var ms := [|log|, p2.matched, p3.matched];
    ReachingThree(ms, c + 1);
    QuorumIndexExact(ms, 2, c + 1);
  }

  /** Voter 2 and the leader reach a, voter 3 does not. */
  lemma NewCommit(log: Log, c: nat, p2: Progress, p3: Progress, a: nat)
    requires Plain(log) && p2.matched == a && p3.matched <= c < a <= |log|
    ensures MaybeCommit(Lead(log, c, p2, p3)) == (Lead(log, a, p2, p3), true)
  {
    hide MatchIndexes, QuorumIndex;
    LeadMatches(log, c, p2, p3);
    var ms := [|log|, p2.matched, p3.matched];
    ReachingThree(ms, a);
    ReachingThree(ms, a + 1);
    Middle(ms, a);
  }

  // ---------------------------------------------------------------- what the leader sends

  lemma SetsPr(log: Log, c: nat, p2: Progress, p3: Progress, pr: Progress)
    ensures SetPr(Lead(log, c, p2, p3), 2, pr) == Lead(log, c, pr, p3)
    ensures SetPr(Lead(log, c, p2, p3), 3, pr) == Lead(log, c, p2, pr)
    ensures Pr(Lead(log, c, p2, p3), 2) == p2 && Pr(Lead(log, c, p2, p3), 3) == p3
  {
  }

  /** The peer's record once k entries are on their way to it. */
  function Loaded(pr: Progress, k: nat): Progress {
    if k == 0 then pr
    else if pr.state.Replicate? then pr.(next := pr.next + k, inflights := pr.inflights + [pr.next + k - 1])
    else pr.(paused := true)
  }

  lemma LoadedIs(log: Log, pr: Progress, k: nat)
    requires WellIndexed(log) && !pr.state.Snapshot? && pr.next >= 1 && pr.next - 1 + k <= |log|
    ensures ProgressSent(pr, log[pr.next - 1..pr.next - 1 + k]) == Loaded(pr, k)
  {
  }

  /** The message itself. */
  lemma AppendIs(log: Log, c: nat, p2: Progress, p3: Progress, to: NodeId, k: nat)
    requires to in {2, 3}
    requires var pr := if to == 2 then p2 else p3; pr.next >= 1 && Fits(log, pr.next - 1, k)
    ensures var pr, n := if to == 2 then p2 else p3, Lead(log, c, p2, p3);
      && EntriesFrom(n, pr.next) == log[pr.next - 1..pr.next - 1 + k]
      && Stamped(n, AppendMsg(n, to)) == AppTo(log, to, pr.next - 1, k, c)
  {
    hide LimitSize;
    SetsPr(log, c, p2, p3, p2);
  }

  lemma SendsTo(log: Log, c: nat, p2: Progress, p3: Progress, to: NodeId, k: nat)
    requires Plain(log) && to in {2, 3}
    requires var pr := if to == 2 then p2 else p3;
      !IsPaused(pr, 4) && !pr.state.Snapshot? && pr.next >= 1 && Fits(log, pr.next - 1, k)
    ensures SendAppend(Lead(log, c, p2, p3), to) ==
            Lead(log, c, if to == 2 then Loaded(p2, k) else p2, if to == 3 then Loaded(p3, k) else p3).(
              msgs := [AppTo(log, to, (if to == 2 then p2 else p3).next - 1, k, c)])
  {
    hide MaybeSendAppend, EntriesFrom, AppendMsg, ProgressSent, Fits, IsPaused, Loaded, AppTo, Stamped;
    var n, pr := Lead(log, c, p2, p3), if to == 2 then p2 else p3;
    SetsPr(log, c, p2, p3, Loaded(pr, k));
    FitsIn(log, pr.next - 1, k);
    AppendIs(log, c, p2, p3, to, k);
    LoadedIs(log, pr, k);
    MaybeSendAppendFrame(n, to, true);
    var m := AppTo(log, to, pr.next - 1, k, c);
    assert SendAppend(n, to) == SetPr(n, to, Loaded(pr, k)).(msgs := [] + [m]);
  }

  lemma FitsIn(log: Log, prev: nat, k: nat)
    requires Fits(log, prev, k)
    ensures prev + k <= |log|
  {
  }

  /** A peer that is held back is sent nothing. */
  lemma HoldsBack(n: Node, to: NodeId)
    requires IsPaused(Pr(n, to), n.cfg.maxInflight)
    ensures SendAppend(n, to) == n
  {
    hide IsPaused, AppendMsg;
  }

  /** The leader's announcement goes to voter 2 alone while voter 3 is held back. */
  lemma Announces2(log: Log, c: nat, p2: Progress, p3: Progress, k: nat)
    requires Plain(log) && Held(p3) && p2.state.Replicate? && |p2.inflights| < 4 && p2.next >= 1
    requires Fits(log, p2.next - 1, k)
    ensures BcastAppend(Lead(log, c, p2, p3), [1, 2, 3]) ==
            Lead(log, c, Loaded(p2, k), p3).(msgs := [AppTo(log, 2, p2.next - 1, k, c)])
  {
    hide SendAppend, Loaded, BcastAppend, AppTo, Fits;
    FitsIn(log, p2.next - 1, k);
    SendsTo(log, c, p2, p3, 2, k);
    SetsPr(log, c, Loaded(p2, k), p3, p3);
    HoldsBack(Lead(log, c, Loaded(p2, k), p3).(msgs := [AppTo(log, 2, p2.next - 1, k, c)]), 3);
    AppendsOut(Lead(log, c, p2, p3), 1);
  }

  // ---------------------------------------------------------------- what the leader does

  function NextEntry(log: Log, data: string): Entry {
    Entry(1, |log| + 1, EntryNormal, data)
  }

  lemma OneFits(log: Log, e: Entry)
    ensures Fits(log + [e], |log|, 1) && Fits(log, |log|, 0)
  {
    assert (log + [e])[|log|..] == [e];
    assert log[|log|..] == [];
  }

  lemma PlainGrows(log: Log, data: string)
    requires Plain(log)
    ensures Plain(log + [NextEntry(log, data)])
  {
  }

  /** A proposal is appended and sent to voter 2. */
  lemma Proposes(log: Log, c: nat, p2: Progress, p3: Progress, data: string)
    requires Plain(log) && Held(p3) && p2.state.Replicate? && |p2.inflights| < 4 && p2.next == |log| + 1
    requires p2.matched <= c <= |log| && p3.matched <= c
    ensures var log' := log + [NextEntry(log, data)];
      Becomes(Lead(log, c, p2, p3), Prop(data), Lead(log', c, Loaded(p2, 1), p3), [AppTo(log', 2, |log|, 1, c)])
  {
    hide BcastAppend, AppendEntry, Loaded, MaybeCommit;
    var n, log' := Lead(log, c, p2, p3), log + [NextEntry(log, data)];
    var es := [Entry(0, 0, EntryNormal, data)];
    PlainGrows(log, data);
    OneFits(log, NextEntry(log, data));
    FilterPlain(data, n);
    AppendEntryFrame(n, es);
    ProposedLog(log, c, p2, p3, data);
    NoCommit(log', c, p2, p3);
    Announces2(log', c, p2, p3, 1);
  }

  lemma FilterPlain(data: string, n: Node)
    ensures FilterConf([Entry(0, 0, EntryNormal, data)], n.pendingConfIndex, n.applied, |n.log| + 1) ==
            ([Entry(0, 0, EntryNormal, data)], n.pendingConfIndex)
  {
    var e := Entry(0, 0, EntryNormal, data);
    assert [e][1..] == [] && [e] + [] == [e];
    assert FilterConf([], n.pendingConfIndex, n.applied, |n.log| + 2) == ([], n.pendingConfIndex);
  }

  lemma ProposedLog(log: Log, c: nat, p2: Progress, p3: Progress, data: string)
    ensures Grown(Lead(log, c, p2, p3), [Entry(0, 0, EntryNormal, data)]) == Lead(log + [NextEntry(log, data)], c, p2, p3)
  {
    var n := Lead(log, c, p2, p3);
    assert Stamp(n, [Entry(0, 0, EntryNormal, data)]) == [NextEntry(log, data)];
  }

  /** What is recorded of a peer in Replicate that acknowledges something new. */
  function Told(pr: Progress, a: nat): Progress {
    pr.(matched := a, paused := false, recentActive := true, inflights := FreeTo(pr.inflights, a))
  }

  /** An acknowledgement of voter 2 that moves the commit index, when all has been sent. */
  lemma Acks2(log: Log, c: nat, p2: Progress, p3: Progress, a: nat)
    requires Plain(log) && Held(p3) && p2.state.Replicate? && p2.next == |log| + 1 && p3.matched <= c
    requires p2.matched < a <= |log| && c < a && |FreeTo(p2.inflights, a)| < 4
    ensures Becomes(Lead(log, c, p2, p3), Ack(2, a), Lead(log, a, Told(p2, a), p3), [AppTo(log, 2, |log|, 0, a)])
  {
    hide SendLoop, BcastAppend, MaybeCommit, FreeTo, AppTo;
    var n := Lead(log, c, p2, p3);
    SetsPr(log, c, p2, p3, p2.(recentActive := true));
    SetsPr(log, c, p2.(recentActive := true), p3, Told(p2, a));
    NewCommit(log, c, Told(p2, a), p3, a);
    OneFits(log, NextEntry(log, ""));
    Announces2(log, a, Told(p2, a), p3, 0);
    NothingLeft(Lead(log, a, Told(p2, a), p3).(msgs := [AppTo(log, 2, |log|, 0, a)]), 2);
    SetsPr(log, a, Told(p2, a), p3, p3);
  }

  lemma Unreaches(log: Log, c: nat, p2: Progress, p3: Progress)
    requires p2.state.Replicate?
    ensures Becomes(Lead(log, c, p2, p3), Blank(MsgUnreachable, 1).(from := 2), Lead(log, c, BecomeProbe(p2), p3), [])
  {
    SetsPr(log, c, p2, p3, BecomeProbe(p2));
  }

  /** What is recorded of a peer that refuses the probe before its next index, and is sent the next. */
  function Back(pr: Progress, index: nat, hint: nat): Progress {
    pr.(next := Max(Min(index, hint + 1), 1), paused := true, recentActive := true)
  }

  lemma Refuses(log: Log, c: nat, p2: Progress, p3: Progress, index: nat, hint: nat, k: nat)
    requires Plain(log) && p2.state.Probe? && p2.next == index + 1 && k > 0
    requires Fits(log, Back(p2, index, hint).next - 1, k)
    ensures Becomes(Lead(log, c, p2, p3), Refusal(2, index, hint), Lead(log, c, Back(p2, index, hint), p3),
                    [AppTo(log, 2, Back(p2, index, hint).next - 1, k, c)])
  {
    hide SendAppend, AppTo, Fits;
    FitsIn(log, Back(p2, index, hint).next - 1, k);
    var q := Back(p2, index, hint).(paused := false);
    SetsPr(log, c, p2, p3, p2.(recentActive := true));
    SetsPr(log, c, p2.(recentActive := true), p3, q);
    SendsTo(log, c, q, p3, 2, k);
  }

  lemma NotNew(log: Log, c: nat, p2: Progress, p3: Progress, a: nat)
    requires a <= p2.matched
    ensures Becomes(Lead(log, c, p2, p3), Ack(2, a),
        Lead(log, c, p2.(recentActive := true, next := Max(p2.next, a + 1)), p3), [])
  {
    SetsPr(log, c, p2, p3, p2.(recentActive := true));
    SetsPr(log, c, p2.(recentActive := true), p3, p2.(recentActive := true, next := Max(p2.next, a + 1)));
  }

  lemma Ignores(log: Log, c: nat, p2: Progress, p3: Progress, index: nat, hint: nat)
    requires p2.state.Probe? && p2.next != index + 1
    ensures Becomes(Lead(log, c, p2, p3), Refusal(2, index, hint), Lead(log, c, p2.(recentActive := true), p3), [])
  {
    SetsPr(log, c, p2, p3, p2.(recentActive := true));
    SetsPr(log, c, p2.(recentActive := true), p3, p2.(recentActive := true));
  }

  // ---------------------------------------------------------------- the follower

  /** A follower of voter 1 in term 1. */
  ghost predicate Follows1(f: Node) {
    f.role.Follower? && f.term == 1 && f.lead == 1 && f.electionElapsed == 0 && f.msgs == []
  }

  function Answered(f: Node, r: R.Reply): Message {
    Message(MsgAppResp, 1, f.cfg.id, 1, 0, r.index, [], 0, r.reject, r.hint, "")
  }

  lemma Handles(f: Node, m: Message)
    requires Follows1(f) && m.kind.MsgApp? && m.from == 1 && m.term == 1
    requires m.index >= f.committed ==> !MaybeAppend(f.log, f.committed, m.index, m.logTerm, m.commit, m.entries).panic
    ensures var (p, r) := R.Receive(R.View(f), m.index, m.logTerm, m.commit, m.entries);
      Becomes(f, m, f.(log := p.log, committed := p.committed), [Answered(f, r)])
  {
    hide MaybeAppend;
    assert f.(electionElapsed := 0, lead := 1) == f;
    R.RefusalKeeps(f.log, f.committed, m.index, m.logTerm, m.commit, m.entries);
  }

  /** A message whose start the follower does not have. */
  lemma TurnsDown(f: Node, m: Message)
    requires Follows1(f) && m.kind.MsgApp? && m.from == 1 && m.term == 1
    requires f.committed <= m.index && m.logTerm == 1 && m.index > |f.log|
    ensures Becomes(f, m, f, [Answered(f, R.Reply(m.index, true, |f.log|))])
  {
    Handles(f, m);
  }

  /** A message without entries from within the log. */
  lemma LearnsCommit(f: Node, m: Message)
    requires Follows1(f) && m.kind.MsgApp? && m.from == 1 && m.term == 1 && m.entries == []
    requires f.committed <= m.index == |f.log| && m.logTerm == TermAt(f.log, m.index) && f.committed <= m.commit <= m.index
    ensures Becomes(f, m, f.(committed := m.commit), [Answered(f, R.Reply(m.index, false, 0))])
  {
    Handles(f, m);
  }

  /** One more entry. */
  lemma TakesOne(f: Node, m: Message, e: Entry)
    requires Follows1(f) && m.kind.MsgApp? && m.from == 1 && m.term == 1 && m.entries == [e] && e.index == |f.log| + 1
    requires e.term == 1
    requires f.committed <= m.index == |f.log| && m.logTerm == TermAt(f.log, m.index) && f.committed <= m.commit <= m.index
    ensures Becomes(f, m, f.(log := f.log + [e], committed := m.commit), [Answered(f, R.Reply(m.index + 1, false, 0))])
  {
    assert FindConflict(f.log, [e]) == |f.log| + 1;
    assert [e][0..] == [e] && f.log[..|f.log|] == f.log;
    Handles(f, m);
  }

  /** The last entry once more. */
  lemma TakesAgain(f: Node, m: Message)
    requires Follows1(f) && m.kind.MsgApp? && m.from == 1 && m.term == 1 && WellIndexed(f.log) && f.log != []
    requires m.entries == [f.log[|f.log| - 1]] && m.index == |f.log| - 1 && m.logTerm == TermAt(f.log, m.index)
    requires f.committed <= m.index && f.committed <= m.commit <= |f.log|
    ensures Becomes(f, m, f.(committed := m.commit), [Answered(f, R.Reply(|f.log|, false, 0))])
  {
    assert m.entries[1..] == [];
    assert FindConflict(f.log, m.entries) == 0;
    Handles(f, m);
  }

  // ---------------------------------------------------------------- runs, step by step

  /** Append messages and their answers between voter 1 and voter j. */
  predicate Between(m: Message, j: NodeId) {
    (m.kind.MsgApp? || m.kind.MsgAppResp?) && ((m.from == 1 && m.to == j) || (m.from == j && m.to == 1))
  }

  /** Of what was sent between voters 1 and j, all but some has been delivered. */
  ghost predicate Heard(acts: seq<(NodeId, Action)>, net: set<Message>, j: NodeId, open: set<Message>) {
    forall m {:trigger m in net} :: m in net && Between(m, j) && m !in open ==> Delivered(acts, |acts|, m)
  }

  /** The run has come to a state with these nodes, in which these messages can be delivered. */
  ghost predicate Tale(cs: seq<System>, acts: seq<(NodeId, Action)>, j: NodeId, a: Node, b: Node, c: Node,
                       open: set<Message>) {
    && |cs| > 0 && RunBy(cs, acts) && Last(cs).nodes == Trio(a, b, c) && open <= Last(cs).net
    && Heard(acts, Last(cs).net, j, open)
  }

  /** What is open after an action. */
  ghost predicate Opens(act: Action, ms: seq<Message>, j: NodeId, open: set<Message>, open': set<Message>) {
    && (forall m :: m in open && Between(m, j) && act != Deliver(m) ==> m in open')
    && (forall m :: m in ms && Between(m, j) ==> m in open')
    && (forall m :: m in open' ==> m in open || m in ms)
  }

  lemma Next(cs: seq<System>, acts: seq<(NodeId, Action)>, j: NodeId, a: Node, b: Node, c: Node, open: set<Message>,
             i: NodeId, act: Action, n': Node, ms: seq<Message>, open': set<Message>)
    returns (cs': seq<System>, acts': seq<(NodeId, Action)>)
    requires Tale(cs, acts, j, a, b, c, open) && i in {1, 2, 3}
    requires match act
      case Deliver(m) => m in open && m.to == i
      case Request(m) => LocalMsg(m)
      case _ => false
    requires Becomes(if i == 1 then a else if i == 2 then b else c, act.m, n', ms) && Opens(act, ms, j, open, open')
    ensures Tale(cs', acts', j, if i == 1 then n' else a, if i == 2 then n' else b, if i == 3 then n' else c, open')
    ensures |cs'| == |cs| + 1 && cs'[..|cs|] == cs
  {
    hide Step, Init, LocalMsg, Between, Opens, Heard;
    var s := Last(cs);
    Sets(a, b, c, n');
    cs', acts' := cs + [After(s, i, act)], acts + [(i, act)];
    forall k | 0 <= k < |acts'|
      ensures ByStep(cs', acts', k)
    {
      if k < |acts| { assert ByStep(cs, acts, k); }
    }
    HeardNext(acts, s.net, j, open, i, act, ms, open');
    OpenSent(act, ms, j, open, open', s.net);
    assert Last(cs').net == s.net + (set m | m in ms);
  }

  lemma OpenSent(act: Action, ms: seq<Message>, j: NodeId, open: set<Message>, open': set<Message>, net: set<Message>)
    requires Opens(act, ms, j, open, open') && open <= net
    ensures open' <= net + (set m | m in ms)
  {
  }

  lemma HeardNext(acts: seq<(NodeId, Action)>, net: set<Message>, j: NodeId, open: set<Message>, i: NodeId, act: Action,
                  ms: seq<Message>, open': set<Message>)
    requires Heard(acts, net, j, open) && Opens(act, ms, j, open, open')
    ensures Heard(acts + [(i, act)], net + (set m | m in ms), j, open')
  {
    hide Between;
    var acts' := acts + [(i, act)];
    forall m | m in net + (set x | x in ms) && Between(m, j) && m !in open'
      ensures Delivered(acts', |acts'|, m)
    {
      if m in open {
        assert acts'[|acts|].1 == Deliver(m);
      } else {
        var x :| 0 <= x < |acts| && acts[x].1 == Deliver(m);
        assert acts'[x].1 == Deliver(m);
      }
    }
  }

  // ---------------------------------------------------------------- the beginning of both runs

  function E1(): Entry {
    Opening(1, 1)
  }

  /** Voter 1 leads and has committed its first entry with voter 2. */
  function Lead1(): Node {
    Lead([E1()], 1, ReadFailure.CaughtUp(1), WaitingPeer(1))
  }

  lemma Lead1Is()
    ensures Served1() == Lead1() && CommitApp(Led1()) == AppTo([E1()], 2, 1, 0, 1)
  {
    hide New;
    Running1();
    assert [E1()][1..1] == [];
  }

  /** What is open then: the commit index for voter 2 and the first entry for voter 3. */
  function Open1(): set<Message> {
    {AppTo([E1()], 2, 1, 0, 1), OpeningApp(Running(New(1)), 3)}
  }

  lemma TakesBecomes(i: NodeId, n: Node, m: Message, n': Node, ms: seq<Message>)
    requires Takes(i, n, m, n', ms)
    ensures Becomes(n, m, n', ms)
  {
    hide Step;
  }

  lemma Begin(j: NodeId) returns (cs: seq<System>, acts: seq<(NodeId, Action)>)
    ensures Tale(cs, acts, j, New(1), New(2), New(3), {}) && |cs| == 1
  {
    hide New, Init;
    cs, acts := [System(Trio(New(1), New(2), New(3)), {})], [];
    NewSystem();
  }

  lemma Begun(j: NodeId) returns (cs: seq<System>, acts: seq<(NodeId, Action)>)
    requires j in {2, 3}
    ensures Tale(cs, acts, j, Lead1(), Logged2(), New(3), Open1()) && |cs| == 6
  {
    hide Tale, New, Running, Led1, Served1, Voted2, Logged2, Takes, Becomes, Lead1;
    var n0, n1 := New(1), Running(New(1));
    var b2, b3, v := Ballot(n0, 2), Ballot(n0, 3), VoteFor(n1, 2);
    var o2, o3, a := OpeningApp(n1, 2), OpeningApp(n1, 3), AckOf(Led1(), 1);
    Running1();
    Led1Facts();
    cs, acts := Begin(j);
    Hup1();
    TakesBecomes(1, n0, Blank(MsgHup, 1), n1, [b2, b3]);
    cs, acts := Next(cs, acts, j, n0, New(2), New(3), {}, 1, Request(Blank(MsgHup, 1)), n1, [b2, b3], {b2});
    Vote2();
    TakesBecomes(2, New(2), b2, Voted2(), [v]);
    cs, acts := Next(cs, acts, j, n1, New(2), New(3), {b2}, 2, Deliver(b2), Voted2(), [v], {v});
    Win1();
    TakesBecomes(1, n1, v, Led1(), [o2, o3]);
    cs, acts := Next(cs, acts, j, n1, Voted2(), New(3), {v}, 1, Deliver(v), Led1(), [o2, o3], {o2, o3});
    App2();
    TakesBecomes(2, Voted2(), o2, Logged2(), [a]);
    cs, acts := Next(cs, acts, j, Led1(), Voted2(), New(3), {o2, o3}, 2, Deliver(o2), Logged2(), [a], {a, o3});
    Commit1();
    TakesBecomes(1, Led1(), a, Served1(), [CommitApp(Led1())]);
    cs, acts := Next(cs, acts, j, Led1(), Logged2(), New(3), {a, o3}, 1, Deliver(a), Served1(), [CommitApp(Led1())],
        {CommitApp(Led1()), o3});
    Lead1Is();
  }

  // ---------------------------------------------------------------- a probe below what is matched

  function X2(): Entry {
    Entry(1, 2, EntryNormal, "x")
  }

  function N3(): Entry {
    Entry(1, 3, EntryNormal, "")
  }

  function XLog(): Log {
    [E1(), X2(), N3()]
  }

  function Held3(): Progress {
    WaitingPeer(1)
  }

  /** Voter 2 in Replicate with two messages under way. */
  function Streamed2(): Progress {
    Progress(1, 4, Replicate, false, 0, true, [2, 3])
  }

  function Told2(): Progress {
    Progress(2, 4, Replicate, false, 0, true, [3])
  }

  /** Voter 2 in Probe: reset by the report that it is unreachable, after the old refusal, at the end. */
  function Probed2(next: nat, paused: bool): Progress {
    Progress(2, next, Probe, paused, 0, true, [])
  }

  function Has(k: nat, committed: nat): Node
    requires k <= 3
  {
    Logged2().(log := XLog()[..k], committed := committed)
  }

  lemma HasFacts(k: nat, committed: nat)
    requires k <= 3
    ensures Follows1(Has(k, committed)) && Has(k, committed).cfg == Cfg(2) && Plain(XLog())
  {
    hide Logged2;
    Logged2Facts();
  }

  lemma HasOne()
    ensures Has(1, 0) == Logged2() && XLog()[..1] == [E1()] && XLog()[..2] == [E1(), X2()] && XLog()[..3] == XLog()
  {
    hide Logged2;
    Logged2Facts();
  }

  /** Voter 2 learns the commit index; its answer is nothing new. */
  lemma Probe1()
    ensures Becomes(Has(1, 0), AppTo([E1()], 2, 1, 0, 1), Has(1, 1), [Ack(2, 1)])
    ensures Becomes(Lead1(), Ack(2, 1), Lead1(), [])
  {
    hide Logged2, Step;
    HasFacts(1, 0);
    LearnsCommit(Has(1, 0), AppTo([E1()], 2, 1, 0, 1));
    NotNew([E1()], 1, ReadFailure.CaughtUp(1), Held3(), 1);
  }

  function Once2(): Progress {
    Progress(1, 3, Replicate, false, 0, true, [2])
  }

  /** Two proposals. */
  lemma Probe2()
    ensures Becomes(Lead1(), Prop("x"), Lead([E1(), X2()], 1, Once2(), Held3()), [AppTo([E1(), X2()], 2, 1, 1, 1)])
    ensures Becomes(Lead([E1(), X2()], 1, Once2(), Held3()), Prop(""), Lead(XLog(), 1, Streamed2(), Held3()),
                    [AppTo(XLog(), 2, 2, 1, 1)])
  {
    hide Becomes, Lead, AppTo;
    var p := ReadFailure.CaughtUp(1);
    Proposes([E1()], 1, p, Held3(), "x");
    assert [E1()] + [NextEntry([E1()], "x")] == [E1(), X2()];
    assert Loaded(p, 1).inflights == [2] && Loaded(p, 1) == Once2();
    Proposes([E1(), X2()], 1, Once2(), Held3(), "");
    assert [E1(), X2()] + [NextEntry([E1(), X2()], "")] == XLog();
    assert Loaded(Once2(), 1).inflights == [2, 3] && Loaded(Once2(), 1) == Streamed2();
  }

  /** They arrive in the wrong order. */
  lemma Probe3()
    ensures Becomes(Has(1, 1), AppTo(XLog(), 2, 2, 1, 1), Has(1, 1), [Refusal(2, 2, 1)])
    ensures Becomes(Has(1, 1), AppTo([E1(), X2()], 2, 1, 1, 1), Has(2, 1), [Ack(2, 2)])
  {
    hide Logged2, Step;
    HasFacts(1, 1);
    TurnsDown(Has(1, 1), AppTo(XLog(), 2, 2, 1, 1));
    TakesOne(Has(1, 1), AppTo([E1(), X2()], 2, 1, 1, 1), X2());
    assert XLog()[..1] + [X2()] == XLog()[..2];
  }

  lemma XPlain()
    ensures Plain(XLog()) && |XLog()| == 3
  {
  }

  lemma Frees()
    ensures FreeTo([2, 3], 2) == [3]
  {
    assert [2, 3][1..] == [3];
    assert FreeTo([3], 2) == [3];
  }

  /** The leader hears of the second entry. */
  lemma Probe4()
    ensures Becomes(Lead(XLog(), 1, Streamed2(), Held3()), Ack(2, 2), Lead(XLog(), 2, Told2(), Held3()),
        [AppTo(XLog(), 2, 3, 0, 2)])
  {
    hide Becomes, Lead, AppTo, FreeTo, XLog, Plain;
    XPlain();
    Frees();
    Acks2(XLog(), 1, Streamed2(), Held3(), 2);
  }

  /** It is told that voter 2 is unreachable, and only then hears of the refusal. */
  lemma Probe5()
    ensures Becomes(Lead(XLog(), 2, Told2(), Held3()), Blank(MsgUnreachable, 1).(from := 2),
                    Lead(XLog(), 2, Probed2(3, false), Held3()), [])
    ensures Becomes(Lead(XLog(), 2, Probed2(3, false), Held3()), Refusal(2, 2, 1),
        Lead(XLog(), 2, Probed2(2, true), Held3()), [AppTo(XLog(), 2, 1, 1, 2)])
  {
    hide Becomes, Lead, AppTo, XLog, Plain, Fits;
    XPlain();
    XFits();
    Unreaches(XLog(), 2, Told2(), Held3());
    Refuses(XLog(), 2, Probed2(3, false), Held3(), 2, 1, 1);
  }

  lemma XFits()
    ensures Fits(XLog(), 1, 1)
  {
    assert XLog()[1..] == [X2(), N3()] && [X2(), N3()][1..] == [N3()];
    assert Fitting(20, 11, [N3()]) == 0;
    assert XLog()[1..2] == [X2()] == [X2(), N3()][..1];
  }

  /** Voter 2 takes the second entry once more, and refuses the announcement of the commit index. */
  lemma Probe6()
    ensures Becomes(Has(2, 1), AppTo(XLog(), 2, 1, 1, 2), Has(2, 2), [Ack(2, 2)])
    ensures Becomes(Lead(XLog(), 2, Probed2(2, true), Held3()), Ack(2, 2), Lead(XLog(), 2, Probed2(3, true), Held3()), [])
    ensures Becomes(Has(2, 2), AppTo(XLog(), 2, 3, 0, 2), Has(2, 2), [Refusal(2, 3, 2)])
    ensures Becomes(Lead(XLog(), 2, Probed2(3, true), Held3()), Refusal(2, 3, 2),
        Lead(XLog(), 2, Probed2(3, true), Held3()), [])
  {
    hide Logged2, Step, Lead;
    HasFacts(2, 1);
    HasFacts(2, 2);
    assert XLog()[1..2] == [X2()];
    TakesAgain(Has(2, 1), AppTo(XLog(), 2, 1, 1, 2));
    NotNew(XLog(), 2, Probed2(2, true), Held3(), 2);
    TurnsDown(Has(2, 2), AppTo(XLog(), 2, 3, 0, 2));
    Ignores(XLog(), 2, Probed2(3, true), Held3(), 3, 2);
  }

  function A2(): Message {
    AppTo([E1(), X2()], 2, 1, 1, 1)
  }

  function A3(): Message {
    AppTo(XLog(), 2, 2, 1, 1)
  }

  function B3(): Message {
    AppTo(XLog(), 2, 3, 0, 2)
  }

  function Again2(): Message {
    AppTo(XLog(), 2, 1, 1, 2)
  }

  lemma ProbeStart() returns (cs: seq<System>, acts: seq<(NodeId, Action)>)
    ensures Tale(cs, acts, 2, Lead(XLog(), 1, Streamed2(), Held3()), Has(1, 1), New(3), {A2(), A3()}) && |cs| == 10
  {
    hide Tale, New, Logged2, Becomes, Lead1, Lead, Has, Streamed2, Once2, Held3;
    var m1, n2 := AppTo([E1()], 2, 1, 0, 1), Lead([E1(), X2()], 1, Once2(), Held3());
    var n3 := Lead(XLog(), 1, Streamed2(), Held3());
    cs, acts := Begun(2);
    HasOne();
    Probe1();
    cs, acts := Next(cs, acts, 2, Lead1(), Has(1, 0), New(3), Open1(), 2, Deliver(m1), Has(1, 1), [Ack(2, 1)], {Ack(2, 1)});
    cs, acts := Next(cs, acts, 2, Lead1(), Has(1, 1), New(3), {Ack(2, 1)}, 1, Deliver(Ack(2, 1)), Lead1(), [], {});
    Probe2();
    cs, acts := Next(cs, acts, 2, Lead1(), Has(1, 1), New(3), {}, 1, Request(Prop("x")), n2, [A2()], {A2()});
    cs, acts := Next(cs, acts, 2, n2, Has(1, 1), New(3), {A2()}, 1, Request(Prop("")), n3, [A3()], {A2(), A3()});
  }

  lemma ProbeMiddle() returns (cs: seq<System>, acts: seq<(NodeId, Action)>)
    ensures Tale(cs, acts, 2, Lead(XLog(), 2, Probed2(3, false), Held3()), Has(2, 1), New(3), {Refusal(2, 2, 1), B3()})
    ensures |cs| == 14
  {
    hide Tale, New, Logged2, Becomes, Lead, Has, Streamed2, Told2, Held3, XLog, Probed2;
    var n3, n4 := Lead(XLog(), 1, Streamed2(), Held3()), Lead(XLog(), 2, Told2(), Held3());
    var n5, no := Lead(XLog(), 2, Probed2(3, false), Held3()), Refusal(2, 2, 1);
    XPlain();
    cs, acts := ProbeStart();
    Probe3();
    cs, acts := Next(cs, acts, 2, n3, Has(1, 1), New(3), {A2(), A3()}, 2, Deliver(A3()), Has(1, 1), [no], {A2(), no});
    cs, acts := Next(cs, acts, 2, n3, Has(1, 1), New(3), {A2(), no}, 2, Deliver(A2()), Has(2, 1), [Ack(2, 2)],
        {no, Ack(2, 2)});
    Probe4();
    cs, acts := Next(cs, acts, 2, n3, Has(2, 1), New(3), {no, Ack(2, 2)}, 1, Deliver(Ack(2, 2)), n4, [B3()], {no, B3()});
    Probe5();
    cs, acts := Next(cs, acts, 2, n4, Has(2, 1), New(3), {no, B3()}, 1, Request(Blank(MsgUnreachable, 1).(from := 2)),
        n5, [], {no, B3()});
  }

  /** The end of a run in which voter j is in line with the leader as far as it goes, lacks an entry, and
      all that was sent between them has been delivered. */
  ghost predicate Short(cs: seq<System>, acts: seq<(NodeId, Action)>, j: NodeId) {
    && |cs| > 0 && RunBy(cs, acts) && 1 in Last(cs).nodes && j in Last(cs).nodes
    && var l, f := Last(cs).nodes[1], Last(cs).nodes[j];
       && l.role.Leader? && f.role.Follower? && f.term == l.term && f.log < l.log
       && Heard(acts, Last(cs).net, j, {})
  }

  /** In step k the leader does what a leader in the situation of log repair does that sends voter j a
      message that cannot get the exchange going. */
  ghost predicate Vain(cs: seq<System>, k: nat, j: NodeId, x: R.Link) {
    && k + 1 < |cs| && 1 in cs[k].nodes && j in cs[k].nodes && 1 in cs[k + 1].nodes
    && x.f == cs[k].nodes[j] && x.l.log == cs[k].nodes[1].log && R.Kick(x).l == cs[k + 1].nodes[1]
    && var c := R.Line(1, j, x.l.term, x.l.log);
       R.Ready(c, x) && !R.Repaired(c, x) && !R.Hopeful(c, x)
  }

  lemma ProbeTurn() returns (cs: seq<System>, acts: seq<(NodeId, Action)>)
    ensures Tale(cs, acts, 2, Lead(XLog(), 2, Probed2(2, true), Held3()), Has(2, 1), New(3), {B3(), Again2()}) && |cs| == 15
    ensures cs[13].nodes == Trio(Lead(XLog(), 2, Probed2(3, false), Held3()), Has(2, 1), New(3))
    ensures cs[14].nodes == Trio(Lead(XLog(), 2, Probed2(2, true), Held3()), Has(2, 1), New(3))
  {
    hide Tale, New, Logged2, Becomes, Lead, Has, Held3, XLog, Probed2, RunBy, Heard;
    var n5, n6 := Lead(XLog(), 2, Probed2(3, false), Held3()), Lead(XLog(), 2, Probed2(2, true), Held3());
    var no := Refusal(2, 2, 1);
    XPlain();
    var cs0, acts0 := ProbeMiddle();
    TaleNodes(cs0, acts0, 2, n5, Has(2, 1), New(3), {no, B3()});
    Probe5();
    cs, acts := Next(cs0, acts0, 2, n5, Has(2, 1), New(3), {no, B3()}, 1, Deliver(no), n6, [Again2()], {B3(), Again2()});
    TaleNodes(cs, acts, 2, n6, Has(2, 1), New(3), {B3(), Again2()});
    assert cs[13] == cs[..14][13] == cs0[13];
  }

  lemma ProbeEnd(cs: seq<System>, acts: seq<(NodeId, Action)>) returns (cs': seq<System>, acts': seq<(NodeId, Action)>)
    requires Tale(cs, acts, 2, Lead(XLog(), 2, Probed2(2, true), Held3()), Has(2, 1), New(3), {B3(), Again2()})
    requires |cs| == 15
    ensures Tale(cs', acts', 2, Lead(XLog(), 2, Probed2(3, true), Held3()), Has(2, 2), New(3), {}) && |cs'| == 19
    ensures cs'[..15] == cs
  {
    hide Tale, New, Logged2, Becomes, Lead, Has, Held3, XLog, Probed2;
    var n6, n7 := Lead(XLog(), 2, Probed2(2, true), Held3()), Lead(XLog(), 2, Probed2(3, true), Held3());
    var no := Refusal(2, 3, 2);
    XPlain();
    Probe6();
    var cs1, acts1 := Next(cs, acts, 2, n6, Has(2, 1), New(3), {B3(), Again2()}, 2, Deliver(Again2()), Has(2, 2),
        [Ack(2, 2)], {B3(), Ack(2, 2)});
    var cs2, acts2 := Next(cs1, acts1, 2, n6, Has(2, 2), New(3), {B3(), Ack(2, 2)}, 1, Deliver(Ack(2, 2)), n7, [], {B3()});
    var cs3, acts3 := Next(cs2, acts2, 2, n7, Has(2, 2), New(3), {B3()}, 2, Deliver(B3()), Has(2, 2), [no], {no});
    cs', acts' := Next(cs3, acts3, 2, n7, Has(2, 2), New(3), {no}, 1, Deliver(no), n7, [], {});
    assert cs'[..15] == cs'[..18][..17][..16][..15];
  }

  lemma TaleNodes(cs: seq<System>, acts: seq<(NodeId, Action)>, j: NodeId, a: Node, b: Node, c: Node, open: set<Message>)
    requires Tale(cs, acts, j, a, b, c, open)
    ensures |cs| > 0 && cs[|cs| - 1].nodes == Trio(a, b, c) && RunBy(cs, acts) && Heard(acts, cs[|cs| - 1].net, j, open)
  {
    hide RunBy, Heard;
  }

  /** In the middle of the step that takes the refusal, the leader is about to probe from below what is
      matched. */
  function Probing2(): R.Link {
    R.Link(Lead(XLog(), 2, Probed2(2, false), Held3()), Has(2, 1), [], [])
  }

  lemma ProbingVain(cs: seq<System>, acts: seq<(NodeId, Action)>)
    requires RunBy(cs, acts) && |cs| > 14
    requires cs[13].nodes == Trio(Lead(XLog(), 2, Probed2(3, false), Held3()), Has(2, 1), New(3))
    requires cs[14].nodes == Trio(Lead(XLog(), 2, Probed2(2, true), Held3()), Has(2, 1), New(3))
    ensures Vain(cs, 13, 2, Probing2())
  {
    hide RunBy, Run, R.Ready, R.Hopeful, New, XLog, Held3, R.Kick, R.Repaired;
    RunByRuns(cs, acts);
    HasFacts(2, 1);
    XPlain();
    R.RepairApplies(cs, 13, 1, 2);
    ProbingReady(cs[13].nodes[1], cs[13].nodes[2]);
    ProbingKick();
  }

  lemma ProbingReady(l: Node, f: Node)
    requires l == Lead(XLog(), 2, Probed2(3, false), Held3()) && f == Has(2, 1)
    requires R.Ready(R.Line(1, 2, 1, XLog()), R.Link(l, f, [], []))
    ensures R.Ready(R.Line(1, 2, 1, XLog()), Probing2())
  {
    hide R.Ready, Held3;
    HasFacts(2, 1);
    SetsPr(XLog(), 2, Probed2(3, false), Held3(), Probed2(2, false));
    R.ReadyWith(R.Line(1, 2, 1, XLog()), R.Link(l, f, [], []), Probed2(2, false));
  }

  lemma ProbingKick()
    ensures R.Kick(Probing2()).l == Lead(XLog(), 2, Probed2(2, true), Held3())
    ensures !R.Hopeful(R.Line(1, 2, 1, XLog()), Probing2()) && !R.Repaired(R.Line(1, 2, 1, XLog()), Probing2())
  {
    hide XLog, Held3, Plain, Fits, SendAppend, EntriesFrom;
    HasFacts(2, 1);
    XPlain();
    XFits();
    SetsPr(XLog(), 2, Probed2(2, false), Held3(), Held3());
    AppendIs(XLog(), 2, Probed2(2, false), Held3(), 2, 1);
    SendsTo(XLog(), 2, Probed2(2, false), Held3(), 2, 1);
  }

  /** Log repair can get stuck in Probe: voter 2 refuses an entry that overtook the one before it, takes
      both, and is reported unreachable; when the leader then hears of the old refusal it probes from
      below what it has recorded as matched. The answer is nothing new, the peer stays paused, and
      voter 2 never gets the third entry. */
  lemma ProbeStuck() returns (cs: seq<System>, acts: seq<(NodeId, Action)>)
    ensures Short(cs, acts, 2) && Held(Pr(Last(cs).nodes[1], 2)) && Vain(cs, 13, 2, Probing2())
  {
    hide Tale, Lead, XLog, Held3, New, Vain, RunBy, Heard;
    var cs0, acts0 := ProbeTurn();
    cs, acts := ProbeEnd(cs0, acts0);
    var l := Lead(XLog(), 2, Probed2(3, true), Held3());
    TaleNodes(cs, acts, 2, l, Has(2, 2), New(3), {});
    assert cs[13] == cs[..15][13] && cs[14] == cs[..15][14];
    ProbingVain(cs, acts);
    LeadFacts(XLog(), 2, Probed2(3, true), Held3());
    HasFacts(2, 2);
    XPlain();
  }

  lemma LeadFacts(log: Log, c: nat, p2: Progress, p3: Progress)
    ensures var l := Lead(log, c, p2, p3); l.role.Leader? && l.term == 1 && l.log == log && Pr(l, 2) == p2 && Pr(l, 3) == p3
  {
  }

  // ---------------------------------------------------------------- a stream from below what is committed

  lemma Beats(log: Log, c: nat, p2: Progress, p3: Progress)
    ensures var n := Lead(log, c, p2, p3);
      Becomes(n, Blank(MsgBeat, 1), n, [BeatTo(n, 2, ""), BeatTo(n, 3, "")])
  {
    hide BeatTo, BcastHeartbeat;
    BeatsOut(Lead(log, c, p2, p3), "");
  }

  /** The answer to a heartbeat gets voter 3 another probe. */
  lemma Revives3(log: Log, c: nat, p2: Progress, p3: Progress, k: nat)
    requires Plain(log) && Held(p3) && p3.matched < |log| && p3.next >= 1 && k > 0 && Fits(log, p3.next - 1, k)
    ensures Becomes(Lead(log, c, p2, p3), Echo(3, ""), Lead(log, c, p2, p3.(recentActive := true)),
        [AppTo(log, 3, p3.next - 1, k, c)])
  {
    hide SendAppend, AppTo, Fits;
    FitsIn(log, p3.next - 1, k);
    SetsPr(log, c, p2, p3, p3.(recentActive := true, paused := false));
    SendsTo(log, c, p2, p3.(recentActive := true, paused := false), 3, k);
  }

  /** The record of a peer that starts to stream from a and is sent all there is. */
  function Leapt(log: Log, a: nat): Progress {
    Progress(a, |log| + 1, Replicate, false, 0, true, [|log|])
  }

  /** An acknowledgement of voter 3 that does not move the commit index ends its waiting. */
  lemma Leaps3(log: Log, c: nat, p2: Progress, p3: Progress, a: nat, k: nat)
    requires Plain(log) && Held(p3) && p3.matched < a <= c && p2.matched <= c && k > 0 && a + k == |log| && Fits(log, a, k)
    ensures Becomes(Lead(log, c, p2, p3), Ack(3, a), Lead(log, c, p2, Leapt(log, a)), [AppTo(log, 3, a, k, c)])
  {
    hide SendAppend, SendLoop, BcastAppend, MaybeCommit, AppTo, Fits;
    var q := Progress(a, a + 1, Replicate, false, 0, true, []);
    SetsPr(log, c, p2, p3, p3.(recentActive := true));
    SetsPr(log, c, p2, p3.(recentActive := true), q);
    NoCommit(log, c, p2, q);
    SendsTo(log, c, p2, q, 3, k);
    assert [] + [|log|] == [|log|];
    NothingLeft(Lead(log, c, p2, Leapt(log, a)).(msgs := [AppTo(log, 3, a, k, c)]), 3);
  }

  /** An acknowledgement of voter 3 that does not move the commit index, when all has been sent. */
  lemma Drops3(log: Log, c: nat, p2: Progress, p3: Progress, a: nat)
    requires p3.state.Replicate? && p3.matched < a <= c && p2.matched <= c && p3.next == |log| + 1
    requires |p3.inflights| < 4 && a <= |log|
    ensures Becomes(Lead(log, c, p2, p3), Ack(3, a), Lead(log, c, p2, Told(p3, a)), [])
  {
    hide SendAppend, SendLoop, BcastAppend, MaybeCommit, FreeTo;
    SetsPr(log, c, p2, p3, p3.(recentActive := true));
    SetsPr(log, c, p2, p3.(recentActive := true), Told(p3, a));
    NoCommit(log, c, p2, Told(p3, a));
    NothingLeft(Lead(log, c, p2, Told(p3, a)), 3);
  }

  function N2(): Entry {
    Entry(1, 2, EntryNormal, "")
  }

  function NLog(): Log {
    [E1(), N2(), N3()]
  }

  function Up2(): Progress {
    Progress(2, 3, Replicate, false, 0, true, [])
  }

  /** Voter 3 waits for an answer, and has been heard from. */
  function Waits3(): Progress {
    Progress(0, 1, Probe, true, 0, true, [])
  }

  function Lag(k: nat, committed: nat): Node
    requires k <= 3
  {
    Logged3().(log := NLog()[..k], committed := committed)
  }

  function Helper(): Node {
    Logged2().(log := [E1(), N2()], committed := 1)
  }

  lemma LagFacts(k: nat, committed: nat)
    requires k <= 3
    ensures Follows1(Lag(k, committed)) && Lag(k, committed).cfg == Cfg(3) && Lag(k, committed).log == NLog()[..k]
    ensures Lag(1, 0) == Logged3()
  {
    hide Logged3;
    Logged3Facts();
    assert NLog()[..1] == [E1()];
  }

  lemma NPlain()
    ensures Plain(NLog()) && |NLog()| == 3 && Plain([E1(), N2()])
  {
  }

  lemma NFits()
    ensures Fits([E1(), N2()], 0, 2) && Fits(NLog(), 1, 2)
  {
    TwoFit(E1(), N2());
    TwoFit(N2(), N3());
    assert [E1(), N2()][0..] == [E1(), N2()] == [E1(), N2()][0..2];
    assert NLog()[1..] == [N2(), N3()] == NLog()[1..3];
  }

  lemma TwoFit(e: Entry, e': Entry)
    requires |e.data| == 0 && |e'.data| == 0
    ensures LimitSize(20, [e, e']) == [e, e']
  {
    assert [e, e'][1..] == [e'] && [e'][1..] == [];
    assert Fitting(20, 20, []) == 0;
    assert Fitting(20, 10, [e']) == 1;
    assert [e, e'][..2] == [e, e'];
  }

  /** The leader gets a second entry to voter 2 and commits it. */
  lemma Stream1()
    ensures Becomes(Lead1(), Prop(""), Lead([E1(), N2()], 1, Once2(), Held3()), [AppTo([E1(), N2()], 2, 1, 1, 1)])
    ensures Becomes(Logged2(), AppTo([E1(), N2()], 2, 1, 1, 1), Helper(), [Ack(2, 2)])
    ensures Becomes(Lead([E1(), N2()], 1, Once2(), Held3()), Ack(2, 2), Lead([E1(), N2()], 2, Up2(), Held3()),
                    [AppTo([E1(), N2()], 2, 2, 0, 2)])
  {
    hide Becomes, Lead, Logged2;
    var p, l2 := ReadFailure.CaughtUp(1), [E1(), N2()];
    Proposes([E1()], 1, p, Held3(), "");
    assert [E1()] + [NextEntry([E1()], "")] == l2;
    assert Loaded(p, 1).inflights == [2] && Loaded(p, 1) == Once2();
    Logged2Facts();
    assert l2[1..2] == [N2()];
    TakesOne(Logged2(), AppTo(l2, 2, 1, 1, 1), N2());
    NPlain();
    assert FreeTo([2], 2) == FreeTo([], 2) == [] by { assert [2][1..] == []; }
    Acks2(l2, 1, Once2(), Held3(), 2);
  }

  /** Voter 3, whose first answer is late, is reached again by way of a heartbeat. */
  lemma Stream2()
    ensures var n := Lead([E1(), N2()], 2, Up2(), Held3());
      && Becomes(n, Blank(MsgBeat, 1), n, [BeatTo(n, 2, ""), BeatTo(n, 3, "")])
      && Becomes(Lag(1, 0), BeatTo(n, 3, ""), Lag(1, 0), [Echo(3, "")])
      && Becomes(n, Echo(3, ""), Lead([E1(), N2()], 2, Up2(), Waits3()), [AppTo([E1(), N2()], 3, 0, 2, 2)])
  {
    hide Becomes, Logged3, Step;
    var n := Lead([E1(), N2()], 2, Up2(), Held3());
    Beats([E1(), N2()], 2, Up2(), Held3());
    LagFacts(1, 0);
    Heartbeat3(n);
    NPlain();
    NFits();
    Revives3([E1(), N2()], 2, Up2(), Held3(), 2);
  }

  lemma Heartbeat3(n: Node)
    requires n == Lead([E1(), N2()], 2, Up2(), Held3())
    ensures Becomes(Lag(1, 0), BeatTo(n, 3, ""), Lag(1, 0), [Echo(3, "")])
  {
    hide Logged3, Step;
    LagFacts(1, 0);
    TakesBeat(Lag(1, 0), BeatTo(n, 3, ""));
  }

  /** It takes both entries and commits them. */
  lemma Stream3()
    ensures Becomes(Lag(1, 0), AppTo([E1(), N2()], 3, 0, 2, 2), Lag(2, 2), [Ack(3, 2)])
  {
    hide Logged3, Step;
    LagFacts(1, 0);
    var m, f := AppTo([E1(), N2()], 3, 0, 2, 2), Lag(1, 0);
    assert m.entries == [E1(), N2()] && m.entries[1..] == [N2()] && NLog()[..1] == [E1()];
    assert FindConflict(f.log, [N2()]) == 2;
    assert FindConflict(f.log, m.entries) == 2;
    assert f.log[..1] == f.log && f.log + [N2()] == NLog()[..2];
    Handles(f, m);
  }

  /** After a third entry the leader hears of voter 3's first answer, and streams from there; voter 3
      answers with its commit index. */
  lemma Stream4()
    ensures Becomes(Lead([E1(), N2()], 2, Up2(), Waits3()), Prop(""), Lead(NLog(), 2, Told2(), Waits3()),
        [AppTo(NLog(), 2, 2, 1, 2)])
    ensures Becomes(Lead(NLog(), 2, Told2(), Waits3()), Ack(3, 1), Lead(NLog(), 2, Told2(), Leapt(NLog(), 1)),
        [AppTo(NLog(), 3, 1, 2, 2)])
    ensures Becomes(Lead(NLog(), 2, Told2(), Leapt(NLog(), 1)), Ack(3, 2), Lead(NLog(), 2, Told2(), Told2()), [])
  {
    hide Becomes, Lead, AppTo;
    NPlain();
    NFits();
    Proposes([E1(), N2()], 2, Up2(), Waits3(), "");
    assert [E1(), N2()] + [NextEntry([E1(), N2()], "")] == NLog();
    assert Loaded(Up2(), 1).inflights == [3] && Loaded(Up2(), 1) == Told2();
    Leaps3(NLog(), 2, Told2(), Waits3(), 1, 2);
    assert FreeTo([3], 2) == [3];
    Drops3(NLog(), 2, Told2(), Leapt(NLog(), 1), 2);
  }

  lemma Stream5()
    ensures Becomes(Lag(2, 2), AppTo(NLog(), 3, 1, 2, 2), Lag(2, 2), [Ack(3, 2)])
  {
    hide Logged3, Step;
    LagFacts(2, 2);
    Handles(Lag(2, 2), AppTo(NLog(), 3, 1, 2, 2));
  }

  function D2(): Message {
    AppTo([E1(), N2()], 2, 1, 1, 1)
  }

  function Both3(): Message {
    AppTo([E1(), N2()], 3, 0, 2, 2)
  }

  function Rest3(): Message {
    AppTo(NLog(), 3, 1, 2, 2)
  }

  function Committed1(): Node {
    Lead([E1(), N2()], 2, Up2(), Held3())
  }

  lemma StreamStart() returns (cs: seq<System>, acts: seq<(NodeId, Action)>)
    ensures Tale(cs, acts, 3, Committed1(), Helper(), Lag(1, 0), {Ack(3, 1)}) && |cs| == 10
  {
    hide Tale, New, Running, Logged2, Logged3, Becomes, Lead1, Lead, Helper, Once2, Held3, Takes, Up2, Lag;
    var o3, n2 := OpeningApp(Running(New(1)), 3), Lead([E1(), N2()], 1, Once2(), Held3());
    var b2 := AppTo([E1(), N2()], 2, 2, 0, 2);
    Running1();
    LagFacts(1, 0);
    cs, acts := Begun(3);
    App3();
    TakesBecomes(3, New(3), o3, Logged3(), [Ack(3, 1)]);
    cs, acts := Next(cs, acts, 3, Lead1(), Logged2(), New(3), Open1(), 3, Deliver(o3), Lag(1, 0), [Ack(3, 1)], {Ack(3, 1)});
    Stream1();
    cs, acts := Next(cs, acts, 3, Lead1(), Logged2(), Lag(1, 0), {Ack(3, 1)}, 1, Request(Prop("")), n2, [D2()],
        {Ack(3, 1), D2()});
    cs, acts := Next(cs, acts, 3, n2, Logged2(), Lag(1, 0), {Ack(3, 1), D2()}, 2, Deliver(D2()), Helper(), [Ack(2, 2)],
        {Ack(3, 1), Ack(2, 2)});
    cs, acts := Next(cs, acts, 3, n2, Helper(), Lag(1, 0), {Ack(3, 1), Ack(2, 2)}, 1, Deliver(Ack(2, 2)), Committed1(),
        [b2], {Ack(3, 1)});
  }

  lemma StreamMiddle() returns (cs: seq<System>, acts: seq<(NodeId, Action)>)
    ensures Tale(cs, acts, 3, Lead(NLog(), 2, Told2(), Waits3()), Helper(), Lag(2, 2), {Ack(3, 1), Ack(3, 2)}) && |cs| == 15
  {
    hide Tale, Logged3, Becomes, Lead, Helper, Held3, Up2, Lag, Told2, Waits3, Committed1, NLog;
    NPlain();
    var n, n1 := Committed1(), Lead([E1(), N2()], 2, Up2(), Waits3());
    var n2, ack := Lead(NLog(), 2, Told2(), Waits3()), Ack(3, 1);
    var h2, h3, d3 := BeatTo(n, 2, ""), BeatTo(n, 3, ""), AppTo(NLog(), 2, 2, 1, 2);
    CommittedIs();
    cs, acts := StreamStart();
    Stream2();
    cs, acts := Next(cs, acts, 3, n, Helper(), Lag(1, 0), {ack}, 1, Request(Blank(MsgBeat, 1)), n, [h2, h3], {ack, h3});
    cs, acts := Next(cs, acts, 3, n, Helper(), Lag(1, 0), {ack, h3}, 3, Deliver(h3), Lag(1, 0), [Echo(3, "")],
        {ack, Echo(3, "")});
    cs, acts := Next(cs, acts, 3, n, Helper(), Lag(1, 0), {ack, Echo(3, "")}, 1, Deliver(Echo(3, "")), n1, [Both3()],
        {ack, Both3()});
    Stream3();
    cs, acts := Next(cs, acts, 3, n1, Helper(), Lag(1, 0), {ack, Both3()}, 3, Deliver(Both3()), Lag(2, 2), [Ack(3, 2)],
        {ack, Ack(3, 2)});
    Stream4();
    cs, acts := Next(cs, acts, 3, n1, Helper(), Lag(2, 2), {ack, Ack(3, 2)}, 1, Request(Prop("")), n2, [d3],
        {ack, Ack(3, 2)});
  }

  lemma CommittedIs()
    ensures Committed1() == Lead([E1(), N2()], 2, Up2(), Held3())
  {
  }

  lemma StreamEnd() returns (cs: seq<System>, acts: seq<(NodeId, Action)>)
    ensures Tale(cs, acts, 3, Lead(NLog(), 2, Told2(), Told2()), Helper(), Lag(2, 2), {}) && |cs| == 18
    ensures cs[14].nodes == Trio(Lead(NLog(), 2, Told2(), Waits3()), Helper(), Lag(2, 2))
    ensures cs[15].nodes == Trio(Lead(NLog(), 2, Told2(), Leapt(NLog(), 1)), Helper(), Lag(2, 2))
  {
    hide Tale, Becomes, Lead, Helper, Lag, Told2, Waits3, NLog, Leapt, RunBy, Heard;
    var n0, n1 := Lead(NLog(), 2, Told2(), Waits3()), Lead(NLog(), 2, Told2(), Leapt(NLog(), 1));
    var n2 := Lead(NLog(), 2, Told2(), Told2());
    var f, two := Lag(2, 2), Ack(3, 2);
    NPlain();
    var cs0, acts0 := StreamMiddle();
    TaleNodes(cs0, acts0, 3, n0, Helper(), f, {Ack(3, 1), two});
    Stream4();
    var cs1, acts1 := Next(cs0, acts0, 3, n0, Helper(), f, {Ack(3, 1), two}, 1, Deliver(Ack(3, 1)), n1, [Rest3()],
        {two, Rest3()});
    TaleNodes(cs1, acts1, 3, n1, Helper(), f, {two, Rest3()});
    Stream5();
    var cs2, acts2 := Next(cs1, acts1, 3, n1, Helper(), f, {two, Rest3()}, 3, Deliver(Rest3()), f, [two], {two});
    cs, acts := Next(cs2, acts2, 3, n1, Helper(), f, {two}, 1, Deliver(two), n2, [], {});
    assert cs[14] == cs[..17][..16][..15][14] && cs[15] == cs[..17][..16][15];
  }

  /** In the middle of the step that takes voter 3's first answer, the leader is about to stream from
      below what voter 3 has committed. */
  function Streaming3(): R.Link {
    R.Link(Lead(NLog(), 2, Told2(), Progress(1, 2, Replicate, false, 0, true, [])), Lag(2, 2), [], [])
  }

  lemma StreamingVain(cs: seq<System>, acts: seq<(NodeId, Action)>)
    requires RunBy(cs, acts) && |cs| > 15
    requires cs[14].nodes == Trio(Lead(NLog(), 2, Told2(), Waits3()), Helper(), Lag(2, 2))
    requires cs[15].nodes == Trio(Lead(NLog(), 2, Told2(), Leapt(NLog(), 1)), Helper(), Lag(2, 2))
    ensures Vain(cs, 14, 3, Streaming3())
  {
    hide RunBy, Run, R.Ready, R.Hopeful, NLog, R.Kick, R.Repaired, Leapt, Told2, Waits3, Helper;
    RunByRuns(cs, acts);
    LagFacts(2, 2);
    NPlain();
    R.RepairApplies(cs, 14, 1, 3);
    StreamingReady(cs[14].nodes[1], cs[14].nodes[3]);
    StreamingKick();
  }

  lemma StreamingReady(l: Node, f: Node)
    requires l == Lead(NLog(), 2, Told2(), Waits3()) && f == Lag(2, 2)
    requires R.Ready(R.Line(1, 3, 1, NLog()), R.Link(l, f, [], []))
    ensures R.Ready(R.Line(1, 3, 1, NLog()), Streaming3())
  {
    hide R.Ready;
    LagFacts(2, 2);
    var q := Progress(1, 2, Replicate, false, 0, true, []);
    SetsPr(NLog(), 2, Told2(), Waits3(), q);
    R.ReadyWith(R.Line(1, 3, 1, NLog()), R.Link(l, f, [], []), q);
  }

  lemma StreamingKick()
    ensures R.Kick(Streaming3()).l == Lead(NLog(), 2, Told2(), Leapt(NLog(), 1))
    ensures !R.Hopeful(R.Line(1, 3, 1, NLog()), Streaming3()) && !R.Repaired(R.Line(1, 3, 1, NLog()), Streaming3())
  {
    hide NLog, Plain, Fits, SendAppend, EntriesFrom, MaybeCommit;
    var q := Progress(1, 2, Replicate, false, 0, true, []);
    LagFacts(2, 2);
    NPlain();
    NFits();
    SetsPr(NLog(), 2, Told2(), q, q);
    AppendIs(NLog(), 2, Told2(), q, 3, 2);
    SendsTo(NLog(), 2, Told2(), q, 3, 2);
    assert [] + [3] == [3];
    AnswerIdle();
  }

  lemma AnswerIdle()
    ensures !R.Resumes(Lead(NLog(), 2, Told2(), Leapt(NLog(), 1)), 3, 2)
  {
    hide MaybeCommit, NLog;
    NPlain();
    var l, q := Leapt(NLog(), 1), Told2();
    assert FreeTo([3], 2) == [3];
    SetsPr(NLog(), 2, Told2(), l, l.(recentActive := true));
    SetsPr(NLog(), 2, Told2(), l.(recentActive := true), q);
    NoCommit(NLog(), 2, Told2(), q);
  }

  /** Log repair can get stuck in Replicate: voter 3's first answer is late, and by way of a heartbeat it
      takes and commits a second entry meanwhile. When the leader hears the first answer it streams both
      the second and a third entry; voter 3 answers with its commit index and drops them, and the leader,
      which takes all to be sent, sends nothing more. */
  lemma ReplicateStuck() returns (cs: seq<System>, acts: seq<(NodeId, Action)>)
    ensures Short(cs, acts, 3) && Pr(Last(cs).nodes[1], 3).state.Replicate? && Vain(cs, 14, 3, Streaming3())
  {
    hide Tale, Lead, NLog, Vain, RunBy, Heard, Helper, Waits3, Leapt;
    cs, acts := StreamEnd();
    TaleNodes(cs, acts, 3, Lead(NLog(), 2, Told2(), Told2()), Helper(), Lag(2, 2), {});
    StreamingVain(cs, acts);
    LeadFacts(NLog(), 2, Told2(), Told2());
    LagFacts(2, 2);
    NPlain();
  }
}
