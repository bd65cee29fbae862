/** A leader's view of one peer (include/yaraft/progress.h, src/progress.cc) as a value.
    `Trackers` proves the in-place classes against these functions. */
module Progresses {
  import opened Types

  datatype ProgressState = Probe | Replicate | Snapshot

  /** `inflights` is the window of unacknowledged messages, oldest first. */
  datatype Progress = Progress(
    matched: nat,
    next: nat,
    state: ProgressState,
    paused: bool,
    pendingSnapshot: nat,
    recentActive: bool,
    inflights: seq<nat>)

  function Fresh(next: nat, matched: nat): Progress {
    Progress(matched, next, Probe, false, 0, false, [])
  }

  function ResetState(p: Progress, state: ProgressState): Progress {
    p.(state := state, paused := false, pendingSnapshot := 0, inflights := [])
  }

  function BecomeProbe(p: Progress): Progress {
    if p.state.Snapshot? then ResetState(p, Probe).(next := Max(p.matched + 1, p.pendingSnapshot + 1))
    else ResetState(p, Probe).(next := p.matched + 1)
  }

  function BecomeReplicate(p: Progress): Progress {
    ResetState(p, Replicate).(next := p.matched + 1)
  }

  function BecomeSnapshot(p: Progress, index: nat): Progress {
    ResetState(p, Snapshot).(pendingSnapshot := index)
  }

  function MaybeUpdate(p: Progress, n: nat): (Progress, bool) {
    var q := if p.matched < n then p.(matched := n, paused := false) else p;
    (if q.next < n + 1 then q.(next := n + 1) else q, p.matched < n)
  }

  function OptimisticUpdate(p: Progress, n: nat): Progress {
    p.(next := n + 1)
  }

  function MaybeDecrTo(p: Progress, rejected: nat, last: nat): (Progress, bool) {
    if p.state.Replicate? then
      if rejected <= p.matched then (p, false) else (p.(next := p.matched + 1), true)
    else if p.next != rejected + 1 then (p, false)
    else (p.(next := Max(Min(rejected, last + 1), 1), paused := false), true)
  }

  function IsFull(p: Progress, cap: nat): bool {
    |p.inflights| == cap
  }

  function IsPaused(p: Progress, cap: nat): bool {
    match p.state
    case Probe => p.paused
    case Replicate => IsFull(p, cap)
    case Snapshot => true
  }

  function NeedSnapshotAbort(p: Progress): bool {
    p.state.Snapshot? && p.matched >= p.pendingSnapshot
  }

  /** `Inflights::freeTo`: drop the leading messages that `to` acknowledges. */
  function FreeTo(ins: seq<nat>, to: nat): (r: seq<nat>)
    ensures |r| <= |ins| && r == ins[|ins| - |r|..]
  {
    if ins == [] || to < ins[0] then ins else FreeTo(ins[1..], to)
  }

  /** `Inflights::freeFirstOne`. */
  function FreeFirstOne(ins: seq<nat>): seq<nat> {
    if ins == [] then ins else FreeTo(ins, ins[0])
  }

  // ---------------------------------------------------------------- the pipelining invariant

  ghost predicate Increasing(s: seq<nat>) {
    forall i, j :: 0 <= i < j < |s| ==> s[i] < s[j]
  }

  /** In Replicate the window is strictly increasing, lies strictly between match and next,
      and holds at most `cap` messages; outside Replicate it is empty. */
  ghost predicate Pipelined(p: Progress, cap: nat) {
    && p.next >= 1
    && |p.inflights| <= cap
    && (!p.state.Replicate? ==> p.inflights == [])
    && (p.state.Replicate? ==> p.matched < p.next)
    && Increasing(p.inflights)
    && (forall i :: 0 <= i < |p.inflights| ==> p.matched < p.inflights[i] < p.next)
  }

  /** `freeTo` removes the longest run of leading messages at or below `to`, whatever the window. */
  lemma {:induction false} FreeToPrefix(ins: seq<nat>, to: nat)
    ensures var r := FreeTo(ins, to);
      && (forall i :: 0 <= i < |ins| - |r| ==> ins[i] <= to)
      && (r != [] ==> r[0] > to)
  {
    if ins != [] && to >= ins[0] {
      FreeToPrefix(ins[1..], to);
      FreeToNext(ins, to, |FreeTo(ins[1..], to)|);
    }
  }

  lemma FreeToNext(ins: seq<nat>, to: nat, kept: nat)
    requires ins != [] && ins[0] <= to
    requires forall i :: 0 <= i < |ins[1..]| - kept ==> ins[1..][i] <= to
    ensures forall i :: 0 <= i < |ins| - kept ==> ins[i] <= to
  {
    forall i | 0 < i < |ins| - kept
      ensures ins[i] <= to
    {
      assert ins[i] == ins[1..][i - 1];
    }
  }

  /** So from an increasing window it removes exactly the messages at or below `to`. */
  lemma FreeToExact(ins: seq<nat>, to: nat)
    requires Increasing(ins)
    ensures Increasing(FreeTo(ins, to))
    ensures forall i :: 0 <= i < |FreeTo(ins, to)| ==> FreeTo(ins, to)[i] > to
    ensures forall i :: 0 <= i < |ins| - |FreeTo(ins, to)| ==> ins[i] <= to
  {
    FreeToPrefix(ins, to);
    var r := FreeTo(ins, to);
    assert r == ins[|ins| - |r|..];
  }
}
