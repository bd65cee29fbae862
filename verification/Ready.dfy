/** The Ready/Advance cycle (src/raw_node.cc, `Raft::newReady` in src/raft.cc): handing committed
    entries to the application in size-limited batches, with the commit index of the last hard
    state as the cursor. Soft state, messages, read states and snapshots are left out. */
module Readies {
  import opened Types
  import opened Logs
  import opened Stores
  import opened RaftLogs
  import N = Nodes
  import C = Cluster

  datatype HardState = HardState(term: nat, vote: NodeId, commit: nat)

  const EMPTY_STATE: HardState := HardState(0, NONE, 0)

  datatype Ready = Ready(entries: seq<Entry>, committedEntries: seq<Entry>, hardState: HardState)

  /** What the cycle reads and writes of a node: its log and cursors, its term and vote, the hard
      state it reported last and the size limit of a batch. */
  datatype RawState = RawState(
    log: Log,
    committed: nat,
    applied: nat,
    term: nat,
    vote: NodeId,
    prev: HardState,
    max: nat)

  ghost predicate Proper(s: RawState) {
    && WellIndexed(s.log) && s.applied <= s.committed <= |s.log|
    && s.prev.commit <= s.committed && s.prev.term <= s.term
  }

  function Hard(s: RawState): HardState {
    HardState(s.term, s.vote, s.committed)
  }

  /** The next batch of committed entries. */
  function Batch(s: RawState): seq<Entry>
    requires s.applied <= s.committed <= |s.log|
  {
    LimitSize(s.max, s.log[s.applied..s.committed])
  }

  /** The hard state to report: none when nothing changed, and never a commit index beyond the
      batch handed out with it. */
  function Reported(s: RawState): HardState
    requires s.applied <= s.committed <= |s.log|
  {
    if Hard(s) == s.prev then EMPTY_STATE
    else if Batch(s) != [] && s.committed > Batch(s)[|Batch(s)| - 1].index then
      Hard(s).(commit := Batch(s)[|Batch(s)| - 1].index)
    else Hard(s)
  }

  function NewReady(s: RawState, unstable: seq<Entry>): Ready
    requires s.applied <= s.committed <= |s.log|
  {
    Ready(unstable, Batch(s), Reported(s))
  }

  /** `commitReady`: the reported hard state becomes the cursor, and everything up to the cursor
      counts as applied. */
  function CommitReady(s: RawState, rd: Ready): RawState {
    var prev := if rd.hardState == EMPTY_STATE then s.prev else rd.hardState;
    s.(prev := prev, applied := if prev.commit != 0 then prev.commit else s.applied)
  }

  /** Whatever the node does between two calls: what is committed stays, the commit index and the
      term never go back. */
  ghost predicate Evolves(s: RawState, s': RawState) {
    && s'.applied == s.applied && s'.prev == s.prev && s'.max == s.max
    && s.committed <= s'.committed <= |s'.log| && WellIndexed(s'.log) && s.committed <= |s.log|
    && s.log[..s.committed] == s'.log[..s.committed]
    && s.term <= s'.term
  }

  // ---------------------------------------------------------------- one cycle

  /** The cursor is where delivery stopped. */
  ghost predicate InStep(s: RawState) {
    s.prev.commit == s.applied
  }

  lemma BatchLast(s: RawState)
    requires Proper(s)
    ensures |Batch(s)| <= s.committed - s.applied
    ensures Batch(s) == s.log[s.applied..s.applied + |Batch(s)|]
    ensures Batch(s) == [] <==> s.committed == s.applied
    ensures Batch(s) != [] ==> Batch(s)[|Batch(s)| - 1].index == s.applied + |Batch(s)|
  {
  }

  /** What a Ready reports: nothing if term, vote and commit index are those reported last, or if there is
      nothing yet; otherwise the term, the vote, and the end of the batch handed out with them. */
  lemma HardReported(s: RawState, unstable: seq<Entry>)
    requires Proper(s)
    ensures var rd := NewReady(s, unstable);
      && (rd.hardState == EMPTY_STATE ==>
            s.prev == HardState(s.term, s.vote, s.committed) || (s.term == 0 && s.vote == NONE && s.committed == 0))
      && (rd.hardState != EMPTY_STATE ==>
            rd.hardState == HardState(s.term, s.vote, Min(s.committed, s.applied + |rd.committedEntries|)))
      && rd.entries == unstable
      && (var end := s.applied + |rd.committedEntries|;
          && end <= s.committed && rd.committedEntries == s.log[s.applied..end]
          && (end == s.applied <==> s.applied == s.committed))
  {
    BatchLast(s);
  }

  /** Whether one batch is enough for everything committed and not yet applied. */
  ghost predicate OneBatch(s: RawState)
    requires s.applied <= s.committed <= |s.log|
  {
    s.committed - s.applied <= 1 || TotalSize(s.log[s.applied..s.committed]) <= s.max
  }

  lemma OneBatchExact(s: RawState)
    requires Proper(s)
    ensures OneBatch(s) <==> |Batch(s)| == s.committed - s.applied
  {
    var all := s.log[s.applied..s.committed];
    if all != [] {
      LimitSizeExact(s.max, all);
      var k := |Batch(s)|;
      if k < |all| {
        assert all[..|all|] == all;
        SizeGrows(all, k + 1, |all|);
      } else {
        assert all[..k] == all;
      }
    }
  }

  lemma {:induction false} SizeGrows(ents: seq<Entry>, i: nat, j: nat)
    requires i <= j <= |ents|
    ensures TotalSize(ents[..i]) <= TotalSize(ents[..j])
    decreases j
  {
    if i < j {
      TotalSizeNext(ents, j - 1);
      SizeGrows(ents, i, j - 1);
    }
  }

  /** One cycle marks as applied exactly what it handed out, whatever happens in between, if and
      only if there was a new hard state to report or one batch was enough. */
  lemma CycleExact(s: RawState, unstable: seq<Entry>, s1: RawState)
    requires Proper(s) && Evolves(s, s1)
    ensures var rd := NewReady(s, unstable);
      CommitReady(s1, rd).applied == s.applied + |rd.committedEntries| <==> Hard(s) != s.prev || OneBatch(s)
  {
    BatchLast(s);
    OneBatchExact(s);
  }

  /** A node whose cursor is where delivery stopped hands out exactly the next committed entries,
      applies exactly those, within its commit index, and is in step again. */
  lemma CycleInStep(s: RawState, unstable: seq<Entry>, s1: RawState)
    requires Proper(s) && InStep(s) && Evolves(s, s1)
    ensures var rd := NewReady(s, unstable);
      var s' := CommitReady(s1, rd);
      && rd.committedEntries == s.log[s.applied..s'.applied]
      && s.applied <= s'.applied <= s.committed
      && Proper(s') && InStep(s')
  {
    BatchLast(s);
  }

  /** A restarted node: its cursor is its commit index, wherever the application says it stopped. */
  ghost predicate Restarted(s: RawState) {
    Proper(s) && s.prev == Hard(s)
  }

  /** Such a node can skip entries: with two of them pending and room for one, the first cycle hands
      out one and applies both. */
  lemma RestartSkips()
    ensures exists s: RawState ::
      && Restarted(s) && !InStep(s) && !OneBatch(s)
      && CommitReady(s, NewReady(s, [])).applied == s.applied + |Batch(s)| + 1
  {
    var log := [Entry(1, 1, EntryNormal, ""), Entry(1, 2, EntryNormal, "")];
    var s := RawState(log, 2, 0, 1, NONE, HardState(1, NONE, 2), 0);
    assert log[0..2] == log && log[1..][0].ByteSize() == 10;
    assert Fitting(0, 10, log[1..]) == 0;
    assert Batch(s) == log[..1];
    assert log[..1][..0] == [] && log[..2] == log;
    TotalSizeNext(log, 0);
    TotalSizeNext(log, 1);
    assert Restarted(s) && !OneBatch(s);
  }

  // ---------------------------------------------------------------- whole runs

  datatype Option<T> = None | Some(value: T)

  /** A node, the Ready it has handed out and not seen back, and everything delivered so far. */
  datatype Delivery = Delivery(s: RawState, out: Option<Ready>, delivered: seq<Entry>)

  /** Where delivery starts: everything up to the applied index has been delivered, and no Ready is out. */
  ghost predicate Start(d: Delivery) {
    Proper(d.s) && d.out.None? && d.delivered == d.s.log[..d.s.applied]
  }

  /** A node that was never started before, perhaps with bootstrap entries already committed. */
  ghost predicate FreshStart(d: Delivery) {
    && WellIndexed(d.s.log) && d.s.applied == 0 && d.s.committed <= |d.s.log| && d.s.prev == EMPTY_STATE
    && d.out.None? && d.delivered == []
  }

  lemma FreshInStep(d: Delivery)
    requires FreshStart(d)
    ensures Start(d) && InStep(d.s)
  {
  }

  ghost predicate DeliveryStep(d: Delivery, d': Delivery) {
    || (exists unstable :: d.out.None? && d.s.applied <= d.s.committed <= |d.s.log|
          && d' == Delivery(d.s, Some(NewReady(d.s, unstable)), d.delivered + Batch(d.s)))
    || (d.out.Some? && d' == Delivery(CommitReady(d.s, d.out.value), None, d.delivered))
    || (Evolves(d.s, d'.s) && d'.out == d.out && d'.delivered == d.delivered)
  }

  ghost predicate DeliveryRun(ds: seq<Delivery>) {
    && |ds| > 0 && Start(ds[0])
    && forall k {:trigger DeliveredAt(ds, k)} :: 0 <= k < |ds| - 1 ==> DeliveredAt(ds, k)
  }

  ghost predicate DeliveredAt(ds: seq<Delivery>, k: nat)
    requires k < |ds| - 1
  {
    DeliveryStep(ds[k], ds[k + 1])
  }

  /** No gap and no repeat: what has been delivered is the committed log from its start, up to the
      applied index, or, while a Ready is out, up to the end of its batch. */
  ghost predicate Exact(d: Delivery) {
    && d.s.applied <= d.s.committed <= |d.s.log|
    && |d.delivered| <= d.s.committed && d.delivered == d.s.log[..|d.delivered|]
    && (d.out.None? ==> |d.delivered| == d.s.applied)
    && (d.out.Some? ==> |d.delivered| == d.s.applied + |d.out.value.committedEntries|)
  }

  /** The part of a node of a cluster that the cycle sees. */
  ghost function NodeState(n: N.Node, applied: nat, prev: HardState, max: nat): RawState {
    RawState(n.log, n.committed, applied, n.term, n.vote, prev, max)
  }

  /** Any stretch of a run of the cluster in which the node is not restarted is one of the steps that
      may come between two calls. */
  lemma StretchEvolves(cs: seq<C.System>, a: nat, b: nat, i: NodeId, applied: nat, prev: HardState, max: nat)
    requires C.Run(cs) && a <= b && C.NoRestart(cs, a, b, i) && i in cs[a].nodes
    ensures i in cs[b].nodes
    ensures Evolves(NodeState(cs[a].nodes[i], applied, prev, max), NodeState(cs[b].nodes[i], applied, prev, max))
  {
    hide C.Run, C.NoRestart;
    C.NodeEvolves(cs, a, b, i);
  }

  /** While a Ready is out, `was` is the state it was made from. */
  ghost predicate Handing(d: Delivery, was: RawState) {
    && Proper(d.s)
    && (d.out.None? ==> d.delivered == d.s.log[..d.s.applied])
    && (d.out.Some? ==>
          && Proper(was) && Evolves(was, d.s)
          && (exists unstable :: d.out.value == NewReady(was, unstable))
          && d.delivered == was.log[..was.applied] + Batch(was))
  }

  lemma EvolvesTrans(s: RawState, s1: RawState, s2: RawState)
    requires Evolves(s, s1) && Evolves(s1, s2)
    ensures Evolves(s, s2)
  {
  }

  lemma EvolvesPrefix(s: RawState, s': RawState, k: nat)
    requires Evolves(s, s') && k <= s.committed
    ensures s.log[..k] == s'.log[..k]
  {
  }

  lemma HandOut(d: Delivery, d': Delivery, unstable: seq<Entry>)
    requires Handing(d, d.s) && d.out.None?
    requires d' == Delivery(d.s, Some(NewReady(d.s, unstable)), d.delivered + Batch(d.s))
    ensures Handing(d', d.s)
  {
  }

  /** A batch that is applied exactly leaves a node in step, with what was delivered delivered. */
  lemma HandIn(d: Delivery, was: RawState, d': Delivery)
    requires Handing(d, was) && d.out.Some? && d' == Delivery(CommitReady(d.s, d.out.value), None, d.delivered)
    requires Hard(was) != was.prev || OneBatch(was)
    ensures Handing(d', d'.s) && InStep(d'.s)
  {
    hide Reported, Batch, CommitReady, OneBatch;
    var unstable :| d.out.value == NewReady(was, unstable);
    CycleExact(was, unstable, d.s);
    CycleProper(was, unstable, d.s);
    var k := d'.s.applied;
    BatchLast(was);
    assert was.log[..was.applied] + was.log[was.applied..k] == was.log[..k];
    EvolvesPrefix(was, d.s, k);
    SameLog(d.s, d.out.value);
  }

  /** After an exact cycle the cursor is where delivery stopped, wherever it was before. */
  lemma CycleProper(s: RawState, unstable: seq<Entry>, s1: RawState)
    requires Proper(s) && Evolves(s, s1) && (Hard(s) != s.prev || OneBatch(s))
    ensures var s' := CommitReady(s1, NewReady(s, unstable)); Proper(s') && InStep(s')
  {
    BatchLast(s);
    OneBatchExact(s);
  }

  lemma SameLog(s: RawState, rd: Ready)
    ensures CommitReady(s, rd).log == s.log && CommitReady(s, rd).committed == s.committed
  {
  }

  lemma KeepGoing(d: Delivery, was: RawState, d': Delivery)
    requires Handing(d, was) && Evolves(d.s, d'.s) && d'.out == d.out && d'.delivered == d.delivered
    ensures Handing(d', was) && (InStep(d.s) ==> InStep(d'.s))
  {
    hide NewReady, Batch;
    if d.out.Some? { EvolvesTrans(was, d.s, d'.s); } else { EvolvesPrefix(d.s, d'.s, d.s.applied); }
  }

  /** A node in step has nothing left to hand out when it has nothing to report. */
  lemma InStepExact(s: RawState)
    requires Proper(s) && InStep(s)
    ensures Hard(s) != s.prev || OneBatch(s)
  {
  }

  ghost predicate Delivering(d: Delivery, was: RawState) {
    Handing(d, was) && InStep(d.s) && (d.out.Some? ==> InStep(was))
  }

  lemma DeliveryNext(d: Delivery, was: RawState, d': Delivery) returns (was': RawState)
    requires Delivering(d, was) && (d.out.None? ==> was == d.s) && DeliveryStep(d, d')
    ensures Delivering(d', was') && (d'.out.None? ==> was' == d'.s)
  {
    hide Handing, Evolves, CommitReady, NewReady, Batch, InStep;
    if exists unstable :: d.out.None? && d.s.applied <= d.s.committed <= |d.s.log|
         && d' == Delivery(d.s, Some(NewReady(d.s, unstable)), d.delivered + Batch(d.s)) {
      var unstable :| d.out.None? && d.s.applied <= d.s.committed <= |d.s.log|
         && d' == Delivery(d.s, Some(NewReady(d.s, unstable)), d.delivered + Batch(d.s));
      was' := d.s;
      HandOut(d, d', unstable);
    } else if d.out.Some? && d' == Delivery(CommitReady(d.s, d.out.value), None, d.delivered) {
      was' := d'.s;
      WasProper(d, was);
      InStepExact(was);
      HandIn(d, was, d');
    } else {
      KeepGoing(d, was, d');
      was' := if d'.out.None? then d'.s else was;
      if d'.out.None? { NoReadyOut(d', was); }
    }
  }

  lemma WasProper(d: Delivery, was: RawState)
    requires Handing(d, was) && d.out.Some?
    ensures Proper(was)
  {
  }

  lemma NoReadyOut(d: Delivery, was: RawState)
    requires Handing(d, was) && d.out.None?
    ensures Handing(d, d.s)
  {
  }

  lemma {:induction false} DeliveryInv(ds: seq<Delivery>, k: nat) returns (was: RawState)
    requires DeliveryRun(ds) && InStep(ds[0].s) && k < |ds|
    ensures Delivering(ds[k], was) && (ds[k].out.None? ==> was == ds[k].s)
    decreases k
  {
    hide DeliveryStep;
    if k == 0 {
      was := ds[0].s;
    } else {
      hide Delivering;
      var was0 := DeliveryInv(ds, k - 1);
      assert DeliveredAt(ds, k - 1);
      was := DeliveryNext(ds[k - 1], was0, ds[k]);
    }
  }

  /** Exactly-once delivery: on a node that starts with its cursor where delivery stopped, freshly
      started or not, whatever it does between the calls and whatever the size limit, the batches
      handed out are the committed log in order, with no gap and no repeat. */
  lemma ExactlyOnce(ds: seq<Delivery>, k: nat)
    requires DeliveryRun(ds) && InStep(ds[0].s) && k < |ds|
    ensures Exact(ds[k])
  {
    hide DeliveryRun, InStep;
    var was := DeliveryInv(ds, k);
    HandingExact(ds[k], was);
  }

  lemma HandingExact(d: Delivery, was: RawState)
    requires Handing(d, was)
    ensures Exact(d)
  {
    hide Batch, Reported;
    if d.out.Some? {
      BatchLast(was);
      var end := was.applied + |Batch(was)|;
      assert was.log[..was.applied] + was.log[was.applied..end] == was.log[..end];
      EvolvesPrefix(was, d.s, end);
    }
  }

  // ---------------------------------------------------------------- starting out of step

  /** The first Ready is made in state p and handed in again in state q. */
  ghost predicate FirstCycle(ds: seq<Delivery>, p: nat, q: nat) {
    && p < q < |ds| - 1
    && (forall x {:trigger ds[x]} :: 0 <= x <= p ==> ds[x].out.None?)
    && (forall x {:trigger ds[x]} :: p < x <= q ==> ds[x].out.Some?)
    && ds[q + 1].out.None?
  }

  lemma {:induction false} BeforeFirst(ds: seq<Delivery>, x: nat)
    requires DeliveryRun(ds) && x < |ds| && (forall y {:trigger ds[y]} :: 0 <= y <= x ==> ds[y].out.None?)
    ensures Handing(ds[x], ds[x].s)
    decreases x
  {
    hide Evolves, CommitReady, NewReady, Batch;
    if x > 0 {
      hide Handing;
      BeforeFirst(ds, x - 1);
      assert DeliveredAt(ds, x - 1);
      KeepGoing(ds[x - 1], ds[x - 1].s, ds[x]);
      NoReadyOut(ds[x], ds[x - 1].s);
    }
  }

  lemma {:induction false} DuringFirst(ds: seq<Delivery>, p: nat, q: nat, x: nat)
    requires DeliveryRun(ds) && FirstCycle(ds, p, q) && p < x <= q
    ensures Handing(ds[x], ds[p].s)
    decreases x
  {
    hide Evolves, CommitReady, NewReady, Batch;
    assert DeliveredAt(ds, x - 1);
    if x == p + 1 {
      BeforeFirst(ds, p);
      var d := ds[p];
      var unstable :| d.s.applied <= d.s.committed <= |d.s.log|
         && ds[x] == Delivery(d.s, Some(NewReady(d.s, unstable)), d.delivered + Batch(d.s));
      HandOut(d, ds[x], unstable);
    } else {
      hide Handing;
      DuringFirst(ds, p, q, x - 1);
      KeepGoing(ds[x - 1], ds[p].s, ds[x]);
    }
  }

  /** The run after the first cycle, as a run of its own. */
  lemma Suffix(ds: seq<Delivery>, from: nat)
    requires DeliveryRun(ds) && from < |ds| && Start(ds[from])
    ensures DeliveryRun(ds[from..])
  {
    hide Start, DeliveryStep;
    var es := ds[from..];
    forall k {:trigger DeliveredAt(es, k)} | 0 <= k < |es| - 1
      ensures DeliveredAt(es, k)
    {
      assert DeliveredAt(ds, from + k);
    }
  }

  /** Wherever the cursor starts, restarted nodes included: the whole run delivers exactly once if and
      only if, when the first Ready is made, there is a hard state to report or one batch is enough. */
  lemma RunExact(ds: seq<Delivery>, p: nat, q: nat)
    requires DeliveryRun(ds) && FirstCycle(ds, p, q)
    ensures (forall x {:trigger ds[x]} :: 0 <= x < |ds| ==> Exact(ds[x])) <==>
            ds[p].s.applied <= ds[p].s.committed <= |ds[p].s.log| && (Hard(ds[p].s) != ds[p].s.prev || OneBatch(ds[p].s))
  {
    hide Exact, Handing, OneBatch, DeliveryRun, Start;
    DuringFirst(ds, p, q, q);
    FirstHandIn(ds, p, q);
    BeforeFirst(ds, p);
    StillProper(ds[p]);
    if Hard(ds[p].s) != ds[p].s.prev || OneBatch(ds[p].s) {
      forall x {:trigger ds[x]} | 0 <= x < |ds|
        ensures Exact(ds[x])
      {
        if x <= p {
          BeforeFirst(ds, x);
          HandingExact(ds[x], ds[x].s);
        } else if x <= q {
          DuringFirst(ds, p, q, x);
          HandingExact(ds[x], ds[p].s);
        } else {
          Suffix(ds, q + 1);
          ExactlyOnce(ds[q + 1..], x - (q + 1));
        }
      }
    } else {
      assert !Exact(ds[q + 1]);
    }
  }

  lemma StillProper(d: Delivery)
    requires Handing(d, d.s)
    ensures d.s.applied <= d.s.committed <= |d.s.log|
  {
  }

  lemma FirstHandIn(ds: seq<Delivery>, p: nat, q: nat)
    requires DeliveryRun(ds) && FirstCycle(ds, p, q) && Handing(ds[q], ds[p].s)
    ensures ds[p].s.applied <= ds[p].s.committed <= |ds[p].s.log|
    ensures Hard(ds[p].s) != ds[p].s.prev || OneBatch(ds[p].s) ==> Start(ds[q + 1]) && InStep(ds[q + 1].s)
    ensures !(Hard(ds[p].s) != ds[p].s.prev || OneBatch(ds[p].s)) ==> !Exact(ds[q + 1])
  {
    hide Reported, Batch, OneBatch, CommitReady, Evolves;
    assert DeliveredAt(ds, q);
    var was := ds[p].s;
    var d, d' := ds[q], ds[q + 1];
    assert d.out.Some? && d' == Delivery(CommitReady(d.s, d.out.value), None, d.delivered);
    if Hard(was) != was.prev || OneBatch(was) {
      HandIn(d, was, d');
    } else {
      var unstable :| d.out.value == NewReady(was, unstable);
      CycleExact(was, unstable, d.s);
      BatchLast(was);
      assert |was.log[..was.applied]| == was.applied;
    }
  }

  // ---------------------------------------------------------------- the node in place

  /** The entries that a log gave out as unstable: with the store below them they were the log. */
  ghost predicate HandedOut(compacted: Log, ents: seq<Entry>, entries: seq<Entry>, log: Log) {
    && ents != [] && entries != [] && |compacted| < entries[0].index <= |compacted| + |ents|
    && Stable(compacted, ents)[..entries[0].index - 1] + entries == log
  }

  /** What a Ready holds is handed out so, and stays so until something is stored. */
  lemma ReadyHandsOut(compacted: Log, ents: seq<Entry>, offset: nat, entries: seq<Entry>)
    requires Coherent(compacted, ents, offset, entries) && entries != []
    ensures HandedOut(compacted, ents, entries, Joined(compacted, ents, offset, entries)) && entries[0].index == offset
  {
  }

  lemma HandedOutParts(cs: seq<C.System>, a: nat, i: NodeId, compacted: Log, ents: seq<Entry>, entries: seq<Entry>)
    requires C.Run(cs) && a < |cs| && i in cs[a].nodes && HandedOut(compacted, ents, entries, cs[a].nodes[i].log)
    ensures Numbered(entries, entries[0].index)
  {
    hide C.Run;
    C.TermsReal(cs, a, i);
    var log, k := cs[a].nodes[i].log, entries[0].index - 1;
    forall x | 0 <= x < |entries|
      ensures entries[x].index == entries[0].index + x
    {
      assert entries[x] == log[k + x];
    }
  }

  lemma CommitKeepsLog(s: RawState, rd: Ready)
    ensures CommitReady(s, rd).log == s.log
  {
  }

  lemma StoredLast(compacted: Log, ents: seq<Entry>, log: Log, entries: seq<Entry>)
    requires ents != [] && entries != [] && Stable(compacted, ents) == log && |entries| <= |ents| - 1
    requires log[|log| - |entries|..] == entries && Numbered(entries, |log| - |entries| + 1)
    ensures entries[|entries| - 1] == ents[|ents| - 1] && entries[|entries| - 1].index == |compacted| + |ents| - 1
  {
    assert log[|log| - 1] == entries[|entries| - 1];
  }


  class RawNode {
    const raftLog: RaftLog
    var term: nat
    var vote: NodeId
    var prevHardSt: HardState

    ghost predicate Valid()
      reads this, raftLog, raftLog.storage, raftLog.unstable
    {
      raftLog.Valid() && prevHardSt.commit <= raftLog.committed && prevHardSt.term <= term
    }

    ghost function State(): (s: RawState)
      requires raftLog.Valid()
      reads this, raftLog, raftLog.storage, raftLog.unstable
    {
      RawState(raftLog.Whole(), raftLog.committed, raftLog.applied, term, vote, prevHardSt, raftLog.maxMsgSize)
    }

    /** An empty store means a node that never ran; otherwise it continues from its hard state. */
    constructor (raftLog: RaftLog, term: nat, vote: NodeId)
      requires raftLog.Valid()
      ensures Valid() && this.raftLog == raftLog && this.term == term && this.vote == vote
      ensures raftLog.storage.LastIndex() == 0 ==> prevHardSt == EMPTY_STATE
      ensures raftLog.storage.LastIndex() != 0 ==> prevHardSt == HardState(term, vote, raftLog.committed)
    {
      this.raftLog := raftLog;
      this.term, this.vote := term, vote;
      this.prevHardSt := if raftLog.storage.LastIndex() == 0 then EMPTY_STATE else HardState(term, vote, raftLog.committed);
    }

    method GetReady() returns (rd: Ready)
      requires Valid()
      ensures rd == NewReady(State(), raftLog.unstable.entries)
      ensures rd.entries == raftLog.unstable.entries
      ensures rd.hardState == EMPTY_STATE ==>
        prevHardSt == HardState(term, vote, raftLog.committed) || (term == 0 && vote == NONE && raftLog.committed == 0)
      ensures rd.hardState != EMPTY_STATE ==>
        rd.hardState == HardState(term, vote, Min(raftLog.committed, raftLog.applied + |rd.committedEntries|))
      ensures var end := raftLog.applied + |rd.committedEntries|;
        && end <= raftLog.committed <= |raftLog.Whole()| && rd.committedEntries == raftLog.Whole()[raftLog.applied..end]
        && (end == raftLog.applied <==> raftLog.applied == raftLog.committed)
    {
      var committedEntries := raftLog.NextEnts();
      var hardState := EMPTY_STATE;
      var hardSt := HardState(term, vote, raftLog.committed);
      if hardSt != prevHardSt {
        hardState := hardSt;
        if committedEntries != [] {
          var last := committedEntries[|committedEntries| - 1];
          if hardState.commit > last.index {
            hardState := hardState.(commit := last.index);
          }
        }
      }
      rd := Ready(raftLog.unstable.entries, committedEntries, hardState);
      assert rd == NewReady(State(), raftLog.unstable.entries);
      hide NewReady;
      HardReported(State(), raftLog.unstable.entries);
    }

    /** The application has stored the entries of the Ready. A cursor outside the range from the
        applied to the commit index is a panic. */
    method Advance(rd: Ready)
      requires Valid()
      requires var s := CommitReady(State(), rd); raftLog.applied <= s.applied <= raftLog.committed && s.prev.term <= term
      requires rd.entries != [] ==>
        && rd.entries[|rd.entries| - 1].index == raftLog.storage.LastIndex()
        && rd.entries[|rd.entries| - 1].term == raftLog.storage.ents[|raftLog.storage.ents| - 1].term
        && Matching(Stable(raftLog.compacted, raftLog.storage.ents), raftLog.Whole())
      modifies this`prevHardSt, raftLog`applied, raftLog.unstable
      ensures Valid() && State() == CommitReady(old(State()), rd)
    {
      if rd.hardState != EMPTY_STATE {
        prevHardSt := rd.hardState;
      }
      if prevHardSt.commit != 0 {
        raftLog.AppliedTo(prevHardSt.commit);
      }
      if rd.entries != [] {
        var e := rd.entries[|rd.entries| - 1];
        raftLog.StableTo(e.index, e.term);
      }
    }

    /** The application stores the entries of a Ready that the node made at time a of a run and reports
        back at time b. In between it may append, truncate and rewrite its log, as long as no other
        Ready was stored; the two stores then still are the node's log. */
    method StoreAndAdvance(rd: Ready, ghost cs: seq<C.System>, ghost i: NodeId, ghost a: nat, ghost b: nat)
      requires Valid() && C.Run(cs) && a <= b < |cs| && i in cs[a].nodes && i in cs[b].nodes
      requires raftLog.Whole() == cs[b].nodes[i].log && raftLog.unstable.entries != []
      requires HandedOut(raftLog.compacted, raftLog.storage.ents, rd.entries, cs[a].nodes[i].log)
      requires raftLog.unstable.offset <= rd.entries[0].index
      requires var s := CommitReady(State(), rd); raftLog.applied <= s.applied <= raftLog.committed && s.prev.term <= term
      modifies this`prevHardSt, raftLog`applied, raftLog.storage, raftLog.unstable
      ensures Valid() && raftLog.Whole() == cs[b].nodes[i].log
      ensures State() == CommitReady(old(State()), rd)
      ensures Stable(raftLog.compacted, raftLog.storage.ents) == cs[a].nodes[i].log
    {
      hide C.Run, Matching, CommitReady, HandedOut, Stable, Coherent, Joined;
      Store(rd.entries, cs, i, a, b);
      CommitKeepsLog(State(), rd);
      Advance(rd);
    }

    method Store(entries: seq<Entry>, ghost cs: seq<C.System>, ghost i: NodeId, ghost a: nat, ghost b: nat)
      requires Valid() && C.Run(cs) && a <= b < |cs| && i in cs[a].nodes && i in cs[b].nodes
      requires raftLog.Whole() == cs[b].nodes[i].log && raftLog.unstable.entries != []
      requires HandedOut(raftLog.compacted, raftLog.storage.ents, entries, cs[a].nodes[i].log)
      requires raftLog.unstable.offset <= entries[0].index
      modifies raftLog.storage
      ensures Valid() && State() == old(State()) && Stable(raftLog.compacted, raftLog.storage.ents) == cs[a].nodes[i].log
      ensures Matching(Stable(raftLog.compacted, raftLog.storage.ents), raftLog.Whole())
      ensures entries[|entries| - 1].index == raftLog.storage.LastIndex()
      ensures entries[|entries| - 1].term == raftLog.storage.ents[|raftLog.storage.ents| - 1].term
    {
      hide C.Run, Matching, Joined, Coherent;
      HandedOutParts(cs, a, i, raftLog.compacted, raftLog.storage.ents, entries);
      CoherentBounds(raftLog.compacted, raftLog.storage.ents, raftLog.unstable.offset, raftLog.unstable.entries);
      raftLog.Persist(entries);
      CoherentBounds(raftLog.compacted, raftLog.storage.ents, raftLog.unstable.offset, raftLog.unstable.entries);
      C.LogsMatch(cs, a, i, b, i);
      StoredLast(raftLog.compacted, raftLog.storage.ents, cs[a].nodes[i].log, entries);
    }
  }
}
