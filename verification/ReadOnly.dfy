/** The read-index queue (src/read_only.cc) as a value. `Trackers` proves the in-place
    class against these functions. */
module ReadQueues {
  import opened Types

  datatype ReadStatus = ReadStatus(index: nat, req: Message, acks: set<NodeId>)

  datatype ReadQueue = ReadQueue(pending: map<string, ReadStatus>, queue: seq<string>)

  /** The context a read request travels under. */
  function Ctx(m: Message): string {
    if m.entries == [] then "" else m.entries[0].data
  }

  function EmptyQueue(): ReadQueue {
    ReadQueue(map[], [])
  }

  function AddRequest(q: ReadQueue, index: nat, m: Message): ReadQueue {
    if Ctx(m) in q.pending then q
    else ReadQueue(q.pending[Ctx(m) := ReadStatus(index, m, {})], q.queue + [Ctx(m)])
  }

  function RecvAck(q: ReadQueue, from: NodeId, ctx: string): (ReadQueue, nat) {
    if ctx !in q.pending then (q, 0)
    else
      var s := q.pending[ctx];
      var acks := s.acks + {from};
      (q.(pending := q.pending[ctx := s.(acks := acks)]), |acks| + 1)
  }

  /** How far the scan of `advance` goes: one past the first occurrence of ctx, zero if none. */
  function ScanTo(queue: seq<string>, ctx: string): (n: nat)
    ensures n <= |queue|
    ensures n == 0 <==> ctx !in queue
    ensures n > 0 ==> queue[n - 1] == ctx && ctx !in queue[..n - 1]
  {
    if queue == [] then 0
    else if queue[0] == ctx then 1
    else
      var n := ScanTo(queue[1..], ctx);
      assert ctx in queue <==> ctx in queue[1..];
      if n == 0 then 0 else
        assert queue[..n] == [queue[0]] + queue[1..][..n - 1];
        n + 1
  }

  /** The statuses of the first n queued requests. */
  function Statuses(q: ReadQueue, n: nat): seq<ReadStatus>
    requires n <= |q.queue|
    requires forall i :: 0 <= i < n ==> q.queue[i] in q.pending
  {
    seq(n, i requires 0 <= i < n => q.pending[q.queue[i]])
  }

  predicate Backed(q: ReadQueue) {
    forall i :: 0 <= i < |q.queue| ==> q.queue[i] in q.pending
  }

  /** The queue without its first n requests. */
  function Rest(q: ReadQueue, n: nat): ReadQueue
    requires n <= |q.queue|
  {
    ReadQueue(q.pending - (set c | c in q.queue[..n]), q.queue[n..])
  }

  /** `advance`: the requests through ctx when it is queued, and the queue without them.
      When it is not queued nothing is released. */
  function Advance(q: ReadQueue, ctx: string): (ReadQueue, seq<ReadStatus>)
    requires Backed(q)
  {
    var n := ScanTo(q.queue, ctx);
    (Rest(q, n), Statuses(q, n))
  }

  function LastPendingCtx(q: ReadQueue): string {
    if q.queue == [] then "" else q.queue[|q.queue| - 1]
  }

  // ---------------------------------------------------------------- queue and map agree

  ghost predicate Distinct(s: seq<string>) {
    forall i, j :: 0 <= i < j < |s| ==> s[i] != s[j]
  }

  /** Each status is filed under its own context. */
  ghost predicate Filed(q: ReadQueue) {
    forall c {:trigger q.pending[c]} :: c in q.pending ==> Ctx(q.pending[c].req) == c
  }

  /** Recorded indexes do not decrease along the queue. */
  ghost predicate Ordered(q: ReadQueue) {
    Backed(q) &&
    forall i, j {:trigger q.queue[i], q.queue[j]} :: 0 <= i < j < |q.queue| ==>
      q.pending[q.queue[i]].index <= q.pending[q.queue[j]].index
  }

  /** The queued contexts are distinct and are exactly the pending ones. */
  ghost predicate Valid(q: ReadQueue) {
    && Distinct(q.queue) && Backed(q) && Filed(q) && Ordered(q)
    && forall c :: c in q.pending ==> c in q.queue
  }

  lemma AddRequestValid(q: ReadQueue, index: nat, m: Message)
    requires Valid(q)
    requires forall c :: c in q.pending ==> q.pending[c].index <= index
    ensures Valid(AddRequest(q, index, m))
    ensures Ctx(m) in AddRequest(q, index, m).pending
  {
    var r := AddRequest(q, index, m);
    if Ctx(m) !in q.pending {
      forall c | c in r.pending
        ensures c in r.queue
      {
        if c == Ctx(m) { assert r.queue[|q.queue|] == c; } else { assert c in q.queue; }
      }
    }
  }

  lemma RecvAckValid(q: ReadQueue, from: NodeId, ctx: string)
    requires Valid(q)
    ensures Valid(RecvAck(q, from, ctx).0)
    ensures RecvAck(q, from, ctx).1 > 0 <==> ctx in q.queue
  {
  }

  ghost function Contexts(s: seq<ReadStatus>): seq<string> {
    seq(|s|, i requires 0 <= i < |s| => Ctx(s[i].req))
  }

  /** After a successful acknowledgement the scan finds its context and releases exactly the
      queue through it, in order and with non-decreasing indexes; otherwise it releases nothing. */
  lemma AdvanceReleases(q: ReadQueue, ctx: string)
    requires Valid(q)
    ensures var (r, released) := Advance(q, ctx);
      && (ctx in q.pending <==> 0 < |released|)
      && (released != [] ==> Ctx(released[|released| - 1].req) == ctx)
      && q.queue == Contexts(released) + r.queue
      && (forall i, j :: 0 <= i < j < |released| ==> released[i].index <= released[j].index)
  {
    hide Valid, Rest, Statuses, Contexts, Distinct, Ordered, Filed;
    var n := ScanTo(q.queue, ctx);
    ValidParts(q, ctx);
    StatusContexts(q, n);
    StatusOrder(q, n);
    StatusSize(q, n);
    if n > 0 { LastStatus(q, n); }
  }

  lemma ValidParts(q: ReadQueue, ctx: string)
    requires Valid(q)
    ensures Backed(q) && Filed(q) && Ordered(q) && (ctx in q.pending <==> ctx in q.queue)
  {
  }

  lemma StatusSize(q: ReadQueue, n: nat)
    requires n <= |q.queue| && Backed(q)
    ensures |Statuses(q, n)| == n
  {
  }

  lemma LastStatus(q: ReadQueue, n: nat)
    requires 0 < n <= |q.queue| && Backed(q) && Filed(q)
    ensures |Statuses(q, n)| == n && Ctx(Statuses(q, n)[n - 1].req) == q.queue[n - 1]
  {
  }

  lemma StatusContexts(q: ReadQueue, n: nat)
    requires n <= |q.queue| && Backed(q) && Filed(q)
    ensures Contexts(Statuses(q, n)) == q.queue[..n]
    ensures q.queue == Contexts(Statuses(q, n)) + Rest(q, n).queue
  {
  }

  lemma StatusOrder(q: ReadQueue, n: nat)
    requires n <= |q.queue| && Ordered(q)
    ensures forall i, j :: 0 <= i < j < n ==> Statuses(q, n)[i].index <= Statuses(q, n)[j].index
  {
  }

  /** What `advance` leaves behind agrees again. */
  lemma AdvanceValid(q: ReadQueue, ctx: string)
    requires Valid(q)
    ensures Valid(Advance(q, ctx).0)
  {
  }
}
