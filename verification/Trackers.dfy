/** The objects a leader updates in place: the ring of unacknowledged messages (src/inflights.h), the
    progress of a peer (include/yaraft/progress.h, src/progress.cc) and the queue of pending reads
    (src/read_only.cc), each proved against its value in `Progresses` and `ReadQueues`. */
module Trackers {
  import opened Types
  import opened Progresses
  import opened ReadQueues

  // ---------------------------------------------------------------- inflights

  function Wrap(k: nat, cap: nat): nat {
    if k >= cap then k - cap else k
  }

  /** The queue a ring stands for. */
  ghost function Ring(buffer: seq<nat>, start: nat, count: nat, cap: nat): seq<nat>
    requires RingOK(buffer, start, count, cap)
  {
    seq(count, i requires 0 <= i < count => buffer[Wrap(start + i, cap)])
  }

  /** The buffer grows to its capacity before it wraps around; until then the ring is a slice of it. */
  ghost predicate RingOK(buffer: seq<nat>, start: nat, count: nat, cap: nat) {
    && count <= cap && |buffer| <= cap
    && (start < cap || start == 0)
    && (|buffer| < cap ==> start + count <= |buffer|)
  }

  lemma RingAt(buffer: seq<nat>, start: nat, count: nat, cap: nat, i: nat)
    requires RingOK(buffer, start, count, cap) && i < count
    ensures Wrap(start + i, cap) < |buffer| && Ring(buffer, start, count, cap)[i] == buffer[Wrap(start + i, cap)]
    ensures |Ring(buffer, start, count, cap)| == count
    ensures Wrap(start, cap) == start
  {
  }

  lemma RingSize(buffer: seq<nat>, start: nat, count: nat, cap: nat)
    requires RingOK(buffer, start, count, cap)
    ensures |Ring(buffer, start, count, cap)| == count && start <= cap
    ensures Wrap(start, cap) == start
  {
  }

  lemma RingFreed(buffer: seq<nat>, start: nat, count: nat, cap: nat, i: nat, start': nat)
    requires RingOK(buffer, start, count, cap) && i <= count && start' == if i == count then 0 else Wrap(start + i, cap)
    ensures RingOK(buffer, start', count - i, cap)
    ensures Ring(buffer, start', count - i, cap) == Ring(buffer, start, count, cap)[i..]
  {
    var a, b := Ring(buffer, start', count - i, cap), Ring(buffer, start, count, cap)[i..];
    forall k | 0 <= k < |a|
      ensures a[k] == b[k]
    {
      assert Wrap(start' + k, cap) == Wrap(start + i + k, cap);
    }
  }

  lemma RingAdded(buffer: seq<nat>, start: nat, count: nat, cap: nat, x: nat, buffer': seq<nat>)
    requires RingOK(buffer, start, count, cap) && count < cap
    requires var next := Wrap(start + count, cap);
      next <= |buffer| && buffer' == if next == |buffer| then buffer + [x] else buffer[next := x]
    ensures RingOK(buffer', start, count + 1, cap)
    ensures Ring(buffer', start, count + 1, cap) == Ring(buffer, start, count, cap) + [x]
  {
    var a, b := Ring(buffer', start, count + 1, cap), Ring(buffer, start, count, cap) + [x];
    forall k | 0 <= k < |a|
      ensures a[k] == b[k]
    {
      assert k < count ==> Wrap(start + k, cap) != Wrap(start + count, cap);
    }
  }

  /** The loop of `freeTo`: how many messages are acknowledged, and the slot of the next one. */
  method FirstLarger(buffer: seq<nat>, start: nat, count: nat, cap: nat, to: nat) returns (i: nat, idx: nat)
    requires RingOK(buffer, start, count, cap) && count > 0
    ensures i <= count && idx == Wrap(start + i, cap)
    ensures FreeTo(Ring(buffer, start, count, cap), to) == Ring(buffer, start, count, cap)[i..]
  {
    ghost var ring := Ring(buffer, start, count, cap);
    RingSize(buffer, start, count, cap);
    idx := start;
    i := 0;
    while i < count
      invariant i <= |ring| && idx == Wrap(start + i, cap)
      invariant FreeTo(ring, to) == FreeTo(ring[i..], to)
    {
      RingAt(buffer, start, count, cap, i);
      assert ring[i..][0] == ring[i] && ring[i..][1..] == ring[i + 1..];
      if to < buffer[idx] {
        return;
      }
      idx := idx + 1;
      if idx >= cap {
        idx := idx - cap;
      }
      i := i + 1;
    }
    assert ring[i..] == [];
  }

  class Inflights {
    const cap: nat
    var start: nat
    var count: nat
    var buffer: seq<nat>

    ghost predicate Valid()
      reads this
    {
      RingOK(buffer, start, count, cap)
    }

    ghost function Contents(): seq<nat>
      requires Valid()
      reads this
    {
      Ring(buffer, start, count, cap)
    }

    constructor (cap: nat)
      ensures Valid() && this.cap == cap && Contents() == []
    {
      this.cap := cap;
      start, count, buffer := 0, 0, [];
    }

    predicate Full()
      reads this
    {
      count == cap
    }

    /** Adding to a full ring is a panic; the next slot is in the buffer or at its end. */
    method Add(x: nat)
      requires Valid() && !Full()
      modifies this
      ensures Valid() && Contents() == old(Contents()) + [x]
    {
      var next := start + count;
      if next >= cap {
        next := next - cap;
      }
      assert next <= |buffer|;
      ghost var was := buffer;
      if next == |buffer| {
        buffer := buffer + [x];
      } else {
        buffer := buffer[next := x];
      }
      RingAdded(was, start, count, cap, x, buffer);
      count := count + 1;
    }

    method FreeUpTo(to: nat)
      requires Valid()
      modifies this
      ensures Valid() && Contents() == FreeTo(old(Contents()), to)
      ensures buffer == old(buffer)
    {
      ghost var ring := Contents();
      RingSize(buffer, start, count, cap);
      if count == 0 {
        return;
      }
      RingAt(buffer, start, count, cap, 0);
      if to < buffer[start] {
        return;
      }
      var i, idx := FirstLarger(buffer, start, count, cap, to);
      RingFreed(buffer, start, count, cap, i, if i == count then 0 else idx);
      count := count - i;
      start := idx;
      if count == 0 {
        start := 0;
      }
    }

    /** Frees what the oldest message acknowledges; there must be one. */
    method FreeFirst()
      requires Valid() && count > 0
      modifies this
      ensures Valid() && Contents() == FreeFirstOne(old(Contents()))
    {
      RingAt(buffer, start, count, cap, 0);
      FreeUpTo(buffer[start]);
    }

    method Reset()
      requires Valid()
      modifies this
      ensures Valid() && Contents() == []
    {
      count, start := 0, 0;
    }
  }

  // ---------------------------------------------------------------- progress

  class Tracker {
    var matched: nat
    var next: nat
    var state: ProgressState
    var paused: bool
    var pendingSnapshot: nat
    var recentActive: bool
    const ins: Inflights

    ghost predicate Valid()
      reads this, ins
    {
      ins.Valid()
    }

    ghost function Value(): Progress
      requires Valid()
      reads this, ins
    {
      Progress(matched, next, state, paused, pendingSnapshot, recentActive, ins.Contents())
    }

    constructor (next: nat, matched: nat, cap: nat)
      ensures Valid() && fresh(ins) && ins.cap == cap && Value() == Fresh(next, matched)
    {
      this.next, this.matched := next, matched;
      state, paused, pendingSnapshot, recentActive := Probe, false, 0, false;
      ins := new Inflights(cap);
    }

    method Reset(to: ProgressState)
      requires Valid()
      modifies this, ins
      ensures Valid() && Value() == ResetState(old(Value()), to)
    {
      state, paused, pendingSnapshot := to, false, 0;
      ins.Reset();
    }

    method ToProbe()
      requires Valid()
      modifies this, ins
      ensures Valid() && Value() == BecomeProbe(old(Value()))
    {
      if state.Snapshot? {
        var pending := pendingSnapshot;
        Reset(Probe);
        next := Max(matched + 1, pending + 1);
      } else {
        Reset(Probe);
        next := matched + 1;
      }
    }

    method ToReplicate()
      requires Valid()
      modifies this, ins
      ensures Valid() && Value() == BecomeReplicate(old(Value()))
    {
      Reset(Replicate);
      next := matched + 1;
    }

    method ToSnapshot(index: nat)
      requires Valid()
      modifies this, ins
      ensures Valid() && Value() == BecomeSnapshot(old(Value()), index)
    {
      Reset(Snapshot);
      pendingSnapshot := index;
    }

    method Update(n: nat) returns (updated: bool)
      requires Valid()
      modifies this
      ensures Valid() && (Value(), updated) == MaybeUpdate(old(Value()), n)
    {
      updated := false;
      if matched < n {
        matched := n;
        updated := true;
        paused := false;
      }
      if next < n + 1 {
        next := n + 1;
      }
    }

    /** A stale rejection is ignored; the next index never falls below one. */
    method DecreaseTo(rejected: nat, last: nat) returns (changed: bool)
      requires Valid()
      modifies this
      ensures Valid() && (Value(), changed) == MaybeDecrTo(old(Value()), rejected, last)
    {
      if state.Replicate? {
        if rejected <= matched {
          return false;
        }
        next := matched + 1;
        return true;
      }
      if next != rejected + 1 {
        return false;
      }
      next := Min(rejected, last + 1);
      if next < 1 {
        next := 1;
      }
      paused := false;
      changed := true;
    }

    /** Entries up to an index are on their way to a peer in Replicate. */
    method SentUpTo(last: nat)
      requires Valid() && !ins.Full()
      modifies this, ins
      ensures Valid() && Value() == OptimisticUpdate(old(Value()), last).(inflights := old(Value()).inflights + [last])
    {
      next := last + 1;
      ins.Add(last);
    }

    method Paused() returns (r: bool)
      requires Valid()
      ensures r == IsPaused(Value(), ins.cap)
    {
      match state
      case Probe => r := paused;
      case Replicate => r := ins.Full();
      case Snapshot => r := true;
    }
  }

  // ---------------------------------------------------------------- pending reads

  /** What is left of a status that was moved out of the map. */
  function MovedOut(s: ReadStatus): ReadStatus {
    s.(req := Blank(MsgReadIndex, NONE), acks := {})
  }

  class ReadOnlyQueue {
    var pending: map<string, ReadStatus>
    var queue: seq<string>

    ghost function Value(): ReadQueue
      reads this
    {
      ReadQueue(pending, queue)
    }

    constructor ()
      ensures Value() == EmptyQueue()
    {
      pending, queue := map[], [];
    }

    method Add(index: nat, m: Message)
      requires m.entries != []
      modifies this
      ensures Value() == AddRequest(old(Value()), index, m)
    {
      var ctx := m.entries[0].data;
      if ctx in pending {
        return;
      }
      pending := pending[ctx := ReadStatus(index, m, {})];
      queue := queue + [ctx];
    }

    method Ack(m: Message) returns (n: nat)
      modifies this
      ensures (Value(), n) == RecvAck(old(Value()), m.from, m.context)
    {
      if m.context !in pending {
        return 0;
      }
      var s := pending[m.context];
      s := s.(acks := s.acks + {m.from});
      pending := pending[m.context := s];
      n := |s.acks| + 1;
    }

    /** The scan of `advance`: moves statuses out of the map until it meets the context. */
    method Scan(ctx: string) returns (rss: seq<ReadStatus>, found: bool)
      requires Backed(Value()) && Distinct(queue)
      modifies this`pending
      ensures found <==> ctx in queue
      ensures |rss| <= |queue| && rss == Statuses(old(Value()), |rss|)
      ensures found ==> |rss| == ScanTo(queue, ctx)
      ensures pending.Keys == old(pending).Keys
      ensures forall k :: |rss| <= k < |queue| ==> pending[queue[k]] == old(pending)[queue[k]]
    {
      ghost var q := Value();
      var i := 0;
      found := false;
      rss := [];
      while i < |queue| && !found
        invariant 0 <= i <= |queue|
        invariant rss == Statuses(q, i)
        invariant pending.Keys == q.pending.Keys
        invariant forall k :: i <= k < |queue| ==> pending[queue[k]] == q.pending[queue[k]]
        invariant !found ==> ctx !in queue[..i]
        invariant found ==> i > 0 && queue[i - 1] == ctx && ctx !in queue[..i - 1]
      {
        var okctx := queue[i];
        rss := rss + [pending[okctx]];
        pending := pending[okctx := MovedOut(pending[okctx])];
        assert queue[..i + 1] == queue[..i] + [okctx];
        i := i + 1;
        found := ctx == okctx;
      }
      if found { ScanFound(queue, ctx, i); } else { assert queue[..i] == queue; }
    }

    /** The clean-up of `advance`: forgets the contexts of released requests. */
    method Forget(rss: seq<ReadStatus>)
      modifies this`pending
      ensures pending == old(pending) - (set k | 0 <= k < |rss| :: Ctx(rss[k].req))
    {
      var i := 0;
      while i < |rss|
        invariant 0 <= i <= |rss|
        invariant pending == old(pending) - (set k | 0 <= k < i :: Ctx(rss[k].req))
      {
        pending := pending - {Ctx(rss[i].req)};
        i := i + 1;
      }
    }

    /** Releases the queue through the context. When the context is not queued nothing is released,
        but every status has been moved out of the map all the same. */
    method AdvanceTo(m: Message) returns (rss: seq<ReadStatus>)
      requires ReadQueues.Valid(Value())
      modifies this
      ensures m.context in old(queue) ==> (Value(), rss) == Advance(old(Value()), m.context)
      ensures m.context !in old(queue) ==> rss == [] && queue == old(queue) && pending.Keys == old(pending).Keys
    {
      ghost var q := Value();
      var found;
      rss, found := Scan(m.context);
      if !found {
        return [];
      }
      ghost var moved := pending;
      ContextSet(q, rss);
      Forget(rss);
      queue := queue[|rss|..];
      RestSame(q, moved, |rss|);
    }
  }

  lemma ContextSet(q: ReadQueue, rss: seq<ReadStatus>)
    requires ReadQueues.Valid(q) && |rss| <= |q.queue| && rss == Statuses(q, |rss|)
    ensures (set k | 0 <= k < |rss| :: Ctx(rss[k].req)) == (set c | c in q.queue[..|rss|])
  {
    var i := |rss|;
    forall k | 0 <= k < i
      ensures Ctx(rss[k].req) == q.queue[k] == q.queue[..i][k]
    {
    }
  }

  lemma ScanFound(queue: seq<string>, ctx: string, i: nat)
    requires 0 < i <= |queue| && queue[i - 1] == ctx && ctx !in queue[..i - 1]
    ensures ScanTo(queue, ctx) == i && ctx in queue
  {
    var n := ScanTo(queue, ctx);
    assert queue[i - 1] in queue;
    assert forall k :: 0 <= k < i - 1 ==> queue[k] in queue[..i - 1];
    assert forall k :: 0 <= k < n - 1 ==> queue[k] in queue[..n - 1];
  }

  /** Only statuses that are released were moved out of the map. */
  lemma RestSame(q: ReadQueue, moved: map<string, ReadStatus>, i: nat)
    requires Backed(q) && (forall c :: c in q.pending ==> c in q.queue) && i <= |q.queue| && moved.Keys == q.pending.Keys
    requires forall k :: i <= k < |q.queue| ==> moved[q.queue[k]] == q.pending[q.queue[k]]
    ensures moved - (set c | c in q.queue[..i]) == Rest(q, i).pending
  {
    var a, b := moved - (set c | c in q.queue[..i]), Rest(q, i).pending;
    forall c | c in a
      ensures c in b && a[c] == b[c]
    {
      assert q.queue == q.queue[..i] + q.queue[i..];
      var k :| 0 <= k < |q.queue[i..]| && q.queue[i..][k] == c;
      assert q.queue[i + k] == c;
    }
    assert a.Keys == b.Keys;
  }
}
