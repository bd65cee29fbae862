/** The stable store (src/memory_storage.cc, include/yaraft/memory_storage.h), the entries not yet
    in it (src/unstable.h) and the size limit on reads (src/util.cc), updated in place. */
module Stores {
  import opened Types
  import opened Logs

  datatype StorageError = ErrCompacted | ErrUnavailable

  datatype Result<T> = Ok(value: T) | Err(error: StorageError)

  // ---------------------------------------------------------------- the size limit

  function TotalSize(ents: seq<Entry>): nat {
    if ents == [] then 0 else TotalSize(ents[..|ents| - 1]) + ents[|ents| - 1].ByteSize()
  }

  /** The loop of `limitSize`. */
  method LimitEntries(max: nat, ents: seq<Entry>) returns (r: seq<Entry>)
    ensures r == LimitSize(max, ents)
  {
    if ents == [] {
      return [];
    }
    var size: nat := ents[0].ByteSize();
    var limit := 1;
    while limit < |ents|
      invariant 1 <= limit <= |ents|
      invariant Fitting(max, ents[0].ByteSize(), ents[1..]) == limit - 1 + Fitting(max, size, ents[limit..])
    {
      assert ents[limit..][1..] == ents[limit + 1..];
      size := size + ents[limit].ByteSize();
      if size > max {
        break;
      }
      limit := limit + 1;
    }
    r := ents[..limit];
  }

  lemma TotalSizeNext(ents: seq<Entry>, k: nat)
    requires k < |ents|
    ensures TotalSize(ents[..k + 1]) == TotalSize(ents[..k]) + ents[k].ByteSize()
  {
    assert ents[..k + 1][..k] == ents[..k];
  }

  lemma {:induction false} FittingExact(max: nat, ents: seq<Entry>, k: nat, used: nat)
    requires 1 <= k <= |ents| && used == TotalSize(ents[..k])
    ensures var n := Fitting(max, used, ents[k..]);
      && k + n <= |ents|
      && (n > 0 ==> TotalSize(ents[..k + n]) <= max)
      && (k + n < |ents| ==> TotalSize(ents[..k + n + 1]) > max)
    decreases |ents| - k
  {
    hide TotalSize;
    if k < |ents| {
      TotalSizeNext(ents, k);
      assert ents[k..][0] == ents[k] && ents[k..][1..] == ents[k + 1..];
      if used + ents[k].ByteSize() <= max { FittingExact(max, ents, k + 1, used + ents[k].ByteSize()); }
    }
  }

  /** The limited entries are the longest prefix within the limit, but never none. */
  lemma LimitSizeExact(max: nat, ents: seq<Entry>)
    requires ents != []
    ensures var r := LimitSize(max, ents);
      && 1 <= |r| <= |ents| && r == ents[..|r|]
      && (|r| > 1 ==> TotalSize(r) <= max)
      && (|r| < |ents| ==> TotalSize(ents[..|r| + 1]) > max)
  {
    TotalSizeNext(ents, 0);
    FittingExact(max, ents, 1, ents[0].ByteSize());
  }

  lemma {:induction false} FittingMore(max: nat, used: nat, a: seq<Entry>, b: seq<Entry>)
    requires Fitting(max, used, a) < |a|
    ensures Fitting(max, used, a + b) == Fitting(max, used, a)
    decreases |a|
  {
    assert (a + b)[1..] == a[1..] + b;
    if used + a[0].ByteSize() <= max { FittingMore(max, used + a[0].ByteSize(), a[1..], b); }
  }

  /** What was cut for its size stays cut when more entries follow. */
  lemma LimitSizeCut(max: nat, a: seq<Entry>, b: seq<Entry>)
    requires |LimitSize(max, a)| < |a|
    ensures LimitSize(max, a + b) == LimitSize(max, a)
  {
    assert (a + b)[1..] == a[1..] + b;
    FittingMore(max, a[0].ByteSize(), a[1..], b);
  }

  // ---------------------------------------------------------------- consecutive entries

  /** The entries are numbered from `first` on. */
  ghost predicate Numbered(ents: seq<Entry>, first: nat) {
    forall i :: 0 <= i < |ents| ==> ents[i].index == first + i
  }

  // ---------------------------------------------------------------- the stable store

  /** `ents[0]` is a dummy that stands for everything compacted away. */
  class MemoryStorage {
    var ents: seq<Entry>

    ghost predicate Valid()
      reads this
    {
      |ents| > 0 && Numbered(ents, ents[0].index)
    }

    constructor ()
      ensures Valid() && ents == [Entry(0, 0, EntryNormal, "")]
    {
      ents := [Entry(0, 0, EntryNormal, "")];
    }

    function FirstIndex(): nat
      requires |ents| > 0
      reads this
    {
      ents[0].index + 1
    }

    function LastIndex(): nat
      requires |ents| > 0
      reads this
    {
      ents[0].index + |ents| - 1
    }

    /** The entries lo to hi - 1 within the size limit. Asking beyond the end is a panic. */
    method Entries(lo: nat, hi: nat, max: nat) returns (r: Result<seq<Entry>>)
      requires Valid() && lo <= hi && (lo > ents[0].index ==> hi <= LastIndex() + 1)
      ensures lo <= ents[0].index ==> r == Err(ErrCompacted)
      ensures lo > ents[0].index && |ents| == 1 ==> r == Err(ErrUnavailable)
      ensures lo > ents[0].index && |ents| > 1 ==> r == Ok(LimitSize(max, ents[lo - ents[0].index..hi - ents[0].index]))
    {
      var offset := ents[0].index;
      if lo <= offset {
        return Err(ErrCompacted);
      }
      if |ents| == 1 {
        return Err(ErrUnavailable);
      }
      var limited := LimitEntries(max, ents[lo - offset..hi - offset]);
      r := Ok(limited);
    }

    method Term(i: nat) returns (r: Result<nat>)
      requires Valid()
      ensures i < ents[0].index ==> r == Err(ErrCompacted)
      ensures i > LastIndex() ==> r == Err(ErrUnavailable)
      ensures ents[0].index <= i <= LastIndex() ==> r == Ok(ents[i - ents[0].index].term)
    {
      var offset := ents[0].index;
      if i < offset {
        return Err(ErrCompacted);
      }
      if i - offset >= |ents| {
        return Err(ErrUnavailable);
      }
      r := Ok(ents[i - offset].term);
    }

    /** Entries already compacted are skipped; the rest replaces everything from its first index
        on. A gap after the last stored entry is a panic. */
    method Append(entries: seq<Entry>)
      requires Valid()
      requires entries != [] ==> Numbered(entries, entries[0].index) && entries[0].index <= LastIndex() + 1
      modifies this
      ensures Valid() && ents[0] == old(ents[0])
      ensures ents == Overwritten(old(ents), entries)
    {
      if entries == [] {
        return;
      }
      var first := FirstIndex();
      var last := entries[0].index + |entries| - 1;
      if last < first {
        return;
      }
      var rest := entries;
      if first > entries[0].index {
        rest := entries[first - entries[0].index..];
      }
      var offset := rest[0].index - ents[0].index;
      if |ents| > offset {
        ents := ents[..offset];
      }
      ents := ents + rest;
    }

    /** Drops everything up to an index, whose term the new dummy keeps. */
    method Compact(i: nat) returns (r: Result<()>)
      requires Valid() && i <= LastIndex()
      modifies this
      ensures Valid()
      ensures r.Err? <==> i <= old(ents[0].index)
      ensures r.Err? ==> r == Err(ErrCompacted) && ents == old(ents)
      ensures r.Ok? ==>
        && ents[0].index == i && ents[0].term == old(ents)[i - old(ents[0].index)].term
        && ents[1..] == old(ents)[i - old(ents[0].index) + 1..]
    {
      var offset := ents[0].index;
      if i <= offset {
        return Err(ErrCompacted);
      }
      var k := i - offset;
      ents := [Entry(ents[k].term, ents[k].index, EntryNormal, "")] + ents[k + 1..];
      r := Ok(());
    }
  }

  /** The stored entries after writing `entries` over them. */
  function Overwritten(ents: seq<Entry>, entries: seq<Entry>): seq<Entry>
    requires ents != []
  {
    var dummy := ents[0].index;
    if entries == [] || entries[0].index + |entries| - 1 < dummy + 1 then ents
    else
      var skip := if dummy + 1 > entries[0].index then dummy + 1 - entries[0].index else 0;
      var at := entries[0].index + skip - dummy;
      (if at <= |ents| then ents[..at] else ents) + entries[skip..]
  }

  // ---------------------------------------------------------------- the unstable entries

  /** `entries[i]` has log position offset + i. The pending snapshot is left out. */
  class Unstable {
    var entries: seq<Entry>
    var offset: nat

    ghost predicate Valid()
      reads this
    {
      Numbered(entries, offset)
    }

    constructor (offset: nat)
      ensures Valid() && entries == [] && this.offset == offset
    {
      this.entries, this.offset := [], offset;
    }

    /** The term of an unstable entry, and whether there is one. */
    function MaybeTerm(i: nat): (nat, bool)
      reads this
    {
      if offset <= i < offset + |entries| then (entries[i - offset].term, true) else (0, false)
    }

    /** Entries up to (i, t) have reached the store; ignored if that entry is no longer here. */
    method StableTo(i: nat, t: nat)
      requires Valid()
      modifies this
      ensures Valid()
      ensures old(MaybeTerm(i)) == (t, true) ==> offset == i + 1 && entries == old(entries)[i + 1 - old(offset)..]
      ensures old(MaybeTerm(i)) != (t, true) ==> offset == old(offset) && entries == old(entries)
    {
      var (gt, ok) := MaybeTerm(i);
      if ok && gt == t && i >= offset {
        entries := entries[i + 1 - offset..];
        offset := i + 1;
      }
    }

    /** Continues the entries, replaces them, or cuts them, depending on where `ents` starts. */
    method TruncateAndAppend(ents: seq<Entry>)
      requires Valid() && ents != [] && Numbered(ents, ents[0].index) && ents[0].index <= offset + |entries|
      modifies this
      ensures Valid()
      ensures offset == if ents[0].index <= old(offset) then ents[0].index else old(offset)
      ensures entries == if ents[0].index <= old(offset) then ents else old(entries)[..ents[0].index - old(offset)] + ents
    {
      var after := ents[0].index;
      if after == offset + |entries| {
        assert entries[..after - offset] == entries;
        entries := entries + ents;
        assert after <= old(offset) ==> entries == ents;
      } else if after <= offset {
        offset := after;
        entries := ents;
      } else {
        entries := entries[..after - offset] + ents;
      }
    }

    method Slice(lo: nat, hi: nat) returns (r: seq<Entry>)
      requires offset <= lo <= hi <= offset + |entries|
      ensures r == entries[lo - offset..hi - offset]
    {
      r := entries[lo - offset..hi - offset];
    }
  }
}
