/** `RaftLog` (src/raft_log.h): a stable store and the entries not yet in it, kept so that together
    they are one log. `Whole` is that log, including what has been compacted away; every method is
    proved against the plain-sequence functions of `Logs`. */
module RaftLogs {
  import opened Types
  import opened Logs
  import opened Stores

  // ---------------------------------------------------------------- two stores, one log

  /** What the stable store stands for: everything compacted away, then its entries. */
  ghost function Stable(compacted: Log, ents: seq<Entry>): Log
    requires ents != []
  {
    compacted + ents[1..]
  }

  ghost predicate Coherent(compacted: Log, ents: seq<Entry>, offset: nat, entries: seq<Entry>) {
    && ents != [] && ents[0].index == |compacted| && ents[0].term == LastTerm(compacted)
    && WellIndexed(Stable(compacted, ents))
    && |compacted| < offset <= |compacted| + |ents|
    && (entries == [] ==> offset == |compacted| + |ents|)
    && Numbered(entries, offset)
  }

  /** The store counts below the offset, the unstable entries from there on. */
  ghost function Joined(compacted: Log, ents: seq<Entry>, offset: nat, entries: seq<Entry>): Log
    requires Coherent(compacted, ents, offset, entries)
  {
    Stable(compacted, ents)[..offset - 1] + entries
  }

  lemma CoherentBounds(compacted: Log, ents: seq<Entry>, offset: nat, entries: seq<Entry>)
    requires Coherent(compacted, ents, offset, entries)
    ensures ents != [] && ents[0].index == |compacted| && |compacted| < offset <= |compacted| + |ents|
    ensures |Joined(compacted, ents, offset, entries)| == offset - 1 + |entries|
  {
  }

  /** Where each entry of the log is found. */
  lemma JoinedAt(compacted: Log, ents: seq<Entry>, offset: nat, entries: seq<Entry>, i: nat)
    requires Coherent(compacted, ents, offset, entries) && |compacted| <= i <= offset - 1 + |entries|
    ensures |Joined(compacted, ents, offset, entries)| == offset - 1 + |entries|
    ensures TermAt(Joined(compacted, ents, offset, entries), i) ==
            if i < offset then ents[i - |compacted|].term else entries[i - offset].term
  {
  }

  lemma JoinedIndexed(compacted: Log, ents: seq<Entry>, offset: nat, entries: seq<Entry>)
    requires Coherent(compacted, ents, offset, entries)
    ensures WellIndexed(Joined(compacted, ents, offset, entries))
  {
  }

  /** Reading below the offset reads the store. */
  lemma JoinedBelow(compacted: Log, ents: seq<Entry>, offset: nat, entries: seq<Entry>, lo: nat, hi: nat)
    requires Coherent(compacted, ents, offset, entries) && |compacted| < lo <= hi <= offset
    ensures Joined(compacted, ents, offset, entries)[lo - 1..hi - 1] == ents[lo - |compacted|..hi - |compacted|]
  {
    var low, log := Stable(compacted, ents), Joined(compacted, ents, offset, entries);
    forall k | lo - 1 <= k < hi - 1
      ensures log[k] == ents[k + 1 - |compacted|]
    {
      assert log[k] == low[k] == ents[1..][k - |compacted|];
    }
  }

  lemma JoinedAbove(compacted: Log, ents: seq<Entry>, offset: nat, entries: seq<Entry>, lo: nat, hi: nat)
    requires Coherent(compacted, ents, offset, entries) && offset <= lo <= hi <= offset + |entries|
    ensures Joined(compacted, ents, offset, entries)[lo - 1..hi - 1] == entries[lo - offset..hi - offset]
  {
  }

  lemma LimitNone(max: nat)
    ensures LimitSize(max, []) == []
  {
  }

  lemma LimitPrefix(max: nat, ents: seq<Entry>)
    ensures |LimitSize(max, ents)| <= |ents|
    ensures |LimitSize(max, ents)| == |ents| ==> LimitSize(max, ents) == ents
  {
  }

  lemma SliceJoin(log: Log, lo: nat, cut: nat, hi: nat)
    requires 1 <= lo <= cut <= hi <= |log| + 1
    ensures log[lo - 1..hi - 1] == log[lo - 1..cut - 1] + log[cut - 1..hi - 1]
    ensures cut == lo ==> log[lo - 1..cut - 1] == []
    ensures cut == hi ==> log[cut - 1..hi - 1] == []
  {
  }

  lemma SliceCut(log: Log, max: nat, lo: nat, cut: nat, hi: nat)
    requires lo <= cut <= hi <= |log| && |LimitSize(max, log[lo..cut])| < cut - lo
    ensures LimitSize(max, log[lo..hi]) == LimitSize(max, log[lo..cut])
  {
    assert log[lo..hi] == log[lo..cut] + log[cut..hi];
    LimitSizeCut(max, log[lo..cut], log[cut..hi]);
  }

  // ---------------------------------------------------------------- what changes the stores

  /** The unstable entries after continuing, replacing or cutting them. */
  lemma AppendJoined(compacted: Log, ents: seq<Entry>, offset: nat, entries: seq<Entry>, more: seq<Entry>,
                     offset': nat, entries': seq<Entry>)
    requires Coherent(compacted, ents, offset, entries) && more != [] && Numbered(more, more[0].index)
    requires |compacted| < more[0].index <= offset + |entries|
    requires offset' == if more[0].index <= offset then more[0].index else offset
    requires entries' == if more[0].index <= offset then more else entries[..more[0].index - offset] + more
    ensures Coherent(compacted, ents, offset', entries')
    ensures Joined(compacted, ents, offset', entries') == TruncateAndAppend(Joined(compacted, ents, offset, entries), more)
  {
  }

  /** Writing entries to the store from the offset on changes nothing yet: they count only once
      they are stable. */
  lemma PersistJoined(compacted: Log, ents: seq<Entry>, offset: nat, entries: seq<Entry>, saved: seq<Entry>)
    requires Coherent(compacted, ents, offset, entries) && entries != []
    requires saved != [] && Numbered(saved, saved[0].index) && offset <= saved[0].index <= |compacted| + |ents|
    ensures var ents' := Overwritten(ents, saved);
      && Coherent(compacted, ents', offset, entries)
      && Joined(compacted, ents', offset, entries) == Joined(compacted, ents, offset, entries)
      && Stable(compacted, ents') == Stable(compacted, ents)[..saved[0].index - 1] + saved
  {
    var ents' := Overwritten(ents, saved);
    var k := saved[0].index;
    assert ents' == ents[..k - |compacted|] + saved;
    var low, low' := Stable(compacted, ents), Stable(compacted, ents');
    assert low' == low[..k - 1] + saved;
    assert low'[..offset - 1] == low[..offset - 1];
    forall i | 0 <= i < |low'|
      ensures low'[i].index == i + 1
    {
      if i < k - 1 { assert low'[i] == low[i]; } else { assert low'[i] == saved[i - (k - 1)]; }
    }
  }

  /** Two logs that have the same term at an index agree up to it. */
  ghost predicate Matching(a: Log, b: Log) {
    forall x {:trigger TermAt(a, x)} :: 1 <= x <= |a| && x <= |b| && TermAt(a, x) == TermAt(b, x) ==> Agree(a, b, x)
  }

  /** Entries become stable: if an entry of the store is still in the log, then by log matching so is
      everything before it, and the log stays the same. */
  lemma StableJoined(compacted: Log, ents: seq<Entry>, offset: nat, entries: seq<Entry>, i: nat, offset': nat,
                     entries': seq<Entry>)
    requires Coherent(compacted, ents, offset, entries) && offset <= i < offset + |entries|
    requires i < |compacted| + |ents| && entries[i - offset].term == ents[i - |compacted|].term
    requires i == offset + |entries| - 1 ==> i == |compacted| + |ents| - 1
    requires Matching(Stable(compacted, ents), Joined(compacted, ents, offset, entries))
    requires offset' == i + 1 && entries' == entries[i + 1 - offset..]
    ensures Coherent(compacted, ents, offset', entries')
    ensures Joined(compacted, ents, offset', entries') == Joined(compacted, ents, offset, entries)
  {
    var low := Stable(compacted, ents);
    var log := Joined(compacted, ents, offset, entries);
    assert i <= |low| && i <= |log|;
    assert TermAt(low, i) == TermAt(log, i) by { JoinedAt(compacted, ents, offset, entries, i); }
    assert Agree(low, log, i);
    assert low[..i] == log[..i];
    assert log[i..] == entries';
  }

  lemma CompactJoined(compacted: Log, ents: seq<Entry>, offset: nat, entries: seq<Entry>, i: nat, ents': seq<Entry>)
    requires Coherent(compacted, ents, offset, entries) && |compacted| < i < offset
    requires ents' != [] && ents'[0].index == i && ents'[0].term == ents[i - |compacted|].term
    requires ents'[1..] == ents[i - |compacted| + 1..]
    ensures var compacted' := Stable(compacted, ents)[..i];
      && Coherent(compacted', ents', offset, entries)
      && Joined(compacted', ents', offset, entries) == Joined(compacted, ents, offset, entries)
      && Stable(compacted', ents') == Stable(compacted, ents)
  {
    var compacted' := Stable(compacted, ents)[..i];
    assert Stable(compacted', ents') == Stable(compacted, ents);
  }

  /** The log as `term` sees it: terms read zero below what is remembered of the last compaction. */
  function Masked(log: Log, k: nat): Log {
    seq(|log|, i requires 0 <= i < |log| => if i < k then log[i].(term := 0) else log[i])
  }

  lemma MaskedTerm(log: Log, k: nat, i: nat)
    ensures TermAt(Masked(log, k), i) == if i <= k then 0 else TermAt(log, i)
  {
  }

  lemma MaskedIndexed(log: Log, k: nat)
    requires WellIndexed(log)
    ensures WellIndexed(Masked(log, k)) && |Masked(log, k)| == |log|
  {
  }

  lemma MaskedAppend(log: Log, k: nat, ents: seq<Entry>)
    requires ents != [] && k < ents[0].index <= |log| + 1
    ensures Masked(TruncateAndAppend(log, ents), k) == TruncateAndAppend(Masked(log, k), ents)
    ensures k <= |log| ==> TruncateAndAppend(log, ents)[..k] == log[..k]
  {
  }

  /** A message that does not start below that is handled as if nothing had been compacted. */
  lemma MaskedSame(log: Log, k: nat, committed: nat, index: nat, logTerm: nat, commit: nat, ents: seq<Entry>)
    requires Follows(ents, index) && k <= index && (index == k ==> index == 0)
    ensures var r := MaybeAppend(log, committed, index, logTerm, commit, ents);
      MaybeAppend(Masked(log, k), committed, index, logTerm, commit, ents) == r.(log := Masked(r.log, k))
  {
    hide FindConflict;
    MaskedTerm(log, k, index);
    MaskedConflict(log, k, ents, index);
    var ci := FindConflict(log, ents);
    if ci != 0 && index + 1 <= ci <= index + |ents| {
      var tail := ents[ci - (index + 1)..];
      if tail != [] && 0 < tail[0].index <= |log| + 1 { MaskedAppend(log, k, tail); }
    }
  }

  lemma {:induction false} MaskedConflict(log: Log, k: nat, ents: seq<Entry>, index: nat)
    requires Follows(ents, index) && k <= index
    ensures FindConflict(Masked(log, k), ents) == FindConflict(log, ents)
    decreases |ents|
  {
    if ents != [] {
      MaskedTerm(log, k, ents[0].index);
      MaskedConflict(log, k, ents[1..], index + 1);
    }
  }

  // What `maybeAppend` comes to in each of its branches.

  lemma AppendRejects(log: Log, committed: nat, index: nat, logTerm: nat, commit: nat, ents: seq<Entry>)
    requires TermAt(log, index) != logTerm
    ensures MaybeAppend(log, committed, index, logTerm, commit, ents) == Appended(log, committed, 0, false, false)
  {
  }

  lemma AppendKeeps(log: Log, committed: nat, index: nat, logTerm: nat, commit: nat, ents: seq<Entry>)
    requires WellIndexed(log) && committed <= |log| && ProperAppend(index, logTerm, ents)
    requires TermAt(log, index) == logTerm && FindConflict(log, ents) == 0
    ensures var last := index + |ents|;
      && last <= |log|
      && MaybeAppend(log, committed, index, logTerm, commit, ents) ==
         Appended(log, Max(committed, Min(commit, last)), last, true, false)
  {
    ConflictPoint(log, ents, index);
    NothingNew(log, index, ents);
  }

  lemma AppendCuts(log: Log, committed: nat, index: nat, logTerm: nat, commit: nat, ents: seq<Entry>)
    requires WellIndexed(log) && committed <= |log| && ProperAppend(index, logTerm, ents)
    requires TermAt(log, index) == logTerm && FindConflict(log, ents) != 0
    requires !MaybeAppend(log, committed, index, logTerm, commit, ents).panic
    ensures var ci := FindConflict(log, ents);
      && index < ci <= index + |ents| && committed < ci <= |log| + 1
      && CutTail(log, index, ents, ci)
      && MaybeAppend(log, committed, index, logTerm, commit, ents) ==
         Appended(TruncateAndAppend(log, ents[ci - (index + 1)..]), Max(committed, Min(commit, index + |ents|)),
             index + |ents|, true, false)
  {
    hide MaybeAppend, FindConflict, TruncateAndAppend, Spliced, Numbered, WellIndexed;
    var ci := FindConflict(log, ents);
    ConflictPoint(log, ents, index);
    MaybeAppendPanics(log, committed, index, logTerm, commit, ents);
    ConflictInReach(log, index, ents);
    TailFits(log, index, ents, ci);
    MaybeAppendCuts(log, committed, index, logTerm, commit, ents, ci - (index + 1));
  }

  lemma TailFits(log: Log, index: nat, ents: seq<Entry>, ci: nat)
    requires Follows(ents, index) && index < ci <= index + |ents| && ci <= |log| + 1
    ensures CutTail(log, index, ents, ci)
    ensures Spliced(log, index, ents, ci - (index + 1)) == TruncateAndAppend(log, ents[ci - (index + 1)..])
  {
    var x := ci - (index + 1);
    assert ents[x..][0] == ents[x];
  }

  lemma MaybeAppendPanics(log: Log, committed: nat, index: nat, logTerm: nat, commit: nat, ents: seq<Entry>)
    requires TermAt(log, index) == logTerm && FindConflict(log, ents) != 0
    ensures FindConflict(log, ents) <= committed ==> MaybeAppend(log, committed, index, logTerm, commit, ents).panic
  {
  }

  /** What is left of the message from the conflict on can be appended, and reaches its end. */
  ghost predicate CutTail(log: Log, index: nat, ents: seq<Entry>, ci: nat)
    requires index < ci <= index + |ents| && ci <= |log| + 1
  {
    var tail := ents[ci - (index + 1)..];
    tail[0].index == ci && Numbered(tail, ci) && |TruncateAndAppend(log, tail)| == index + |ents|
  }

  // ---------------------------------------------------------------- the log

  class RaftLog {
    const storage: MemoryStorage
    const unstable: Unstable
    const maxMsgSize: nat
    var committed: nat
    var applied: nat
    ghost var compacted: Log

    ghost predicate Valid()
      reads this, storage, unstable
    {
      && Coherent(compacted, storage.ents, unstable.offset, unstable.entries)
      && storage.Valid() && unstable.Valid()
      && |compacted| <= applied <= committed <= |Whole()|
    }

    /** The log the two stores stand for. */
    ghost function Whole(): Log
      requires Coherent(compacted, storage.ents, unstable.offset, unstable.entries)
      reads this, storage, unstable
    {
      Joined(compacted, storage.ents, unstable.offset, unstable.entries)
    }

    constructor (storage: MemoryStorage, maxMsgSize: nat, ghost compacted: Log)
      requires storage.Valid() && storage.ents[0].index == |compacted| && storage.ents[0].term == LastTerm(compacted)
      requires WellIndexed(Stable(compacted, storage.ents))
      ensures Valid() && this.storage == storage && fresh(unstable) && this.maxMsgSize == maxMsgSize
      ensures Whole() == Stable(compacted, storage.ents)
      ensures committed == applied == |compacted|
    {
      this.storage := storage;
      this.maxMsgSize := maxMsgSize;
      this.unstable := new Unstable(storage.LastIndex() + 1);
      this.committed := storage.FirstIndex() - 1;
      this.applied := storage.FirstIndex() - 1;
      this.compacted := compacted;
    }

    function FirstIndex(): nat
      requires storage.ents != []
      reads this, storage
    {
      storage.FirstIndex()
    }

    function LastIndex(): (r: nat)
      requires Valid()
      reads this, storage, unstable
      ensures r == |Whole()|
    {
      if unstable.entries != [] then unstable.offset + |unstable.entries| - 1 else storage.LastIndex()
    }

    /** Zero outside the log and for what has been compacted away. */
    method Term(i: nat) returns (r: Result<nat>)
      requires Valid()
      ensures r == Ok(if i < FirstIndex() - 1 then 0 else TermAt(Whole(), i))
    {
      if i < FirstIndex() - 1 || i > LastIndex() {
        return Ok(0);
      }
      JoinedAt(compacted, storage.ents, unstable.offset, unstable.entries, i);
      var (t, ok) := unstable.MaybeTerm(i);
      if ok {
        return Ok(t);
      }
      r := storage.Term(i);
    }

    /** The log as `term` sees it. The store remembers the term of the last compacted entry. */
    ghost function Seen(): Log
      requires Coherent(compacted, storage.ents, unstable.offset, unstable.entries)
      reads this, storage, unstable
    {
      Masked(Whole(), Hidden())
    }

    ghost function Hidden(): nat
      reads this
    {
      if compacted == [] then 0 else |compacted| - 1
    }

    method MatchesTerm(i: nat, t: nat) returns (r: bool)
      requires Valid()
      ensures r == MatchTerm(Seen(), i, t)
    {
      MaskedTerm(Whole(), Hidden(), i);
      var res := Term(i);
      r := res.value == t;
    }

    /** The size-limited entries lo to hi - 1, across the boundary of the two stores. */
    method Slice(lo: nat, hi: nat, max: nat) returns (r: Result<seq<Entry>>)
      requires Valid() && lo <= hi && (lo >= FirstIndex() ==> hi <= |Whole()| + 1)
      ensures lo < FirstIndex() ==> r == Err(ErrCompacted)
      ensures lo >= FirstIndex() ==> r == Ok(LimitSize(max, Whole()[lo - 1..hi - 1]))
    {
      hide Coherent, Joined, LimitSize, WellIndexed, Numbered;
      ghost var log := Whole();
      CoherentBounds(compacted, storage.ents, unstable.offset, unstable.entries);
      if lo < FirstIndex() {
        return Err(ErrCompacted);
      }
      if lo == hi {
        assert LimitSize(max, log[lo - 1..hi - 1]) == [] by { LimitNone(max); }
        return Ok([]);
      }
      var offset := unstable.offset;
      var ents: seq<Entry> := [];
      if lo < offset {
        var cut := Min(hi, offset);
        JoinedBelow(compacted, storage.ents, offset, unstable.entries, lo, cut);
        var res := storage.Entries(lo, cut, max);
        LimitPrefix(max, log[lo - 1..cut - 1]);
        if |res.value| < cut - lo {
          SliceCut(log, max, lo - 1, cut - 1, hi - 1);
          return Ok(res.value);
        }
        ents := res.value;
      }
      if hi > offset {
        JoinedAbove(compacted, storage.ents, offset, unstable.entries, Max(lo, offset), hi);
        var part := unstable.Slice(Max(lo, offset), hi);
        ents := ents + part;
      }
      SliceJoin(log, lo, Min(Max(lo, offset), hi), hi);
      var limited := LimitEntries(max, ents);
      r := Ok(limited);
    }

    /** The loop over the entries of a message, looking for the first that is not in the log. */
    method FindConflictIn(ents: seq<Entry>) returns (ci: nat)
      requires Valid()
      ensures ci == FindConflict(Seen(), ents)
    {
      var k := 0;
      while k < |ents|
        invariant 0 <= k <= |ents|
        invariant FindConflict(Seen(), ents) == FindConflict(Seen(), ents[k..])
      {
        var matched := MatchesTerm(ents[k].index, ents[k].term);
        assert ents[k..][0] == ents[k] && ents[k..][1..] == ents[k + 1..];
        if !matched {
          return ents[k].index;
        }
        k := k + 1;
      }
      ci := 0;
    }

    /** Appending at or below the commit index, or leaving a gap, is a panic. */
    method Append(ents: seq<Entry>) returns (last: nat)
      requires Valid()
      requires ents != [] ==> Numbered(ents, ents[0].index) && committed < ents[0].index <= |Whole()| + 1
      modifies unstable
      ensures Valid() && last == |Whole()|
      ensures Whole() == if ents == [] then old(Whole()) else TruncateAndAppend(old(Whole()), ents)
      ensures unstable.offset <= old(unstable.offset)
      ensures unstable.entries == [] ==> old(unstable.entries) == [] && ents == []
    {
      if ents == [] {
        return LastIndex();
      }
      ghost var offset, entries := unstable.offset, unstable.entries;
      unstable.TruncateAndAppend(ents);
      AppendJoined(compacted, storage.ents, offset, entries, ents, unstable.offset, unstable.entries);
      last := LastIndex();
    }

    /** Appending, as `term` sees it. */
    method AppendSeen(ents: seq<Entry>)
      requires Valid() && ents != [] && Numbered(ents, ents[0].index) && committed < ents[0].index <= |Seen()| + 1
      modifies unstable
      ensures Valid() && |Seen()| == |Whole()| && Seen() == TruncateAndAppend(old(Seen()), ents)
      ensures Hidden() <= |Whole()| && Hidden() <= |old(Whole())| && Whole()[..Hidden()] == old(Whole())[..Hidden()]
      ensures unstable.offset <= old(unstable.offset) && (unstable.entries == [] ==> old(unstable.entries) == [])
    {
      hide Coherent, Joined;
      ghost var log := Whole();
      CoherentBounds(compacted, storage.ents, unstable.offset, unstable.entries);
      MaskedAppend(log, Hidden(), ents);
      var end := Append(ents);
    }

    /** Committing beyond the end of the log is a panic. */
    method CommitTo(to: nat)
      requires Valid() && to <= |Whole()|
      modifies this`committed
      ensures Valid() && committed == Max(old(committed), to)
    {
      if committed < to {
        committed := to;
      }
    }

    method AppliedTo(i: nat)
      requires Valid() && (i == 0 || applied <= i <= committed)
      modifies this`applied
      ensures Valid() && applied == if i == 0 then old(applied) else i
    {
      if i != 0 {
        applied := i;
      }
    }

    method MaybeCommit(maxIndex: nat, t: nat) returns (moved: bool)
      requires Valid() && t > 0
      modifies this`committed
      ensures Valid()
      ensures moved <==> maxIndex > old(committed) && TermAt(Whole(), maxIndex) == t
      ensures committed == if moved then maxIndex else old(committed)
    {
      if maxIndex > committed {
        var res := Term(maxIndex);
        if res.value == t {
          CommitTo(maxIndex);
          return true;
        }
      }
      moved := false;
    }

    /** What `Logs.MaybeAppend` says of the log as `term` sees it; what has been compacted away stays
        as it is. */
    method MaybeAppendEntries(index: nat, logTerm: nat, commit: nat, ents: seq<Entry>) returns (last: nat, ok: bool)
      requires Valid() && ProperAppend(index, logTerm, ents)
      requires !MaybeAppend(Seen(), committed, index, logTerm, commit, ents).panic
      modifies this`committed, unstable
      ensures Valid()
      ensures var r := MaybeAppend(old(Seen()), old(committed), index, logTerm, commit, ents);
        Seen() == r.log && committed == r.committed && last == r.last && ok == r.ok
      ensures Hidden() <= |Whole()| && Hidden() <= |old(Whole())| && Whole()[..Hidden()] == old(Whole())[..Hidden()]
      ensures unstable.offset <= old(unstable.offset) && (unstable.entries == [] ==> old(unstable.entries) == [])
    {
      hide Coherent, Joined, MaybeAppend, FindConflict, Numbered, Masked, WellIndexed, TermAt, ProperAppend;
      hide TruncateAndAppend;
      ghost var log, seen, c := Whole(), Seen(), committed;
      CoherentBounds(compacted, storage.ents, unstable.offset, unstable.entries);
      JoinedIndexed(compacted, storage.ents, unstable.offset, unstable.entries);
      MaskedIndexed(log, Hidden());
      var matched := MatchesTerm(index, logTerm);
      if !matched {
        AppendRejects(seen, c, index, logTerm, commit, ents);
        return 0, false;
      }
      last := index + |ents|;
      var ci := FindConflictIn(ents);
      if ci == 0 {
        AppendKeeps(seen, c, index, logTerm, commit, ents);
      } else {
        AppendCuts(seen, c, index, logTerm, commit, ents);
        AppendSeen(ents[ci - (index + 1)..]);
      }
      CommitTo(Min(commit, last));
      ok := true;
    }

    method IsUpToDateWith(index: nat, term: nat) returns (r: bool)
      requires Valid()
      ensures r == IsUpToDate(Whole(), index, term)
    {
      var last := Term(LastIndex());
      r := term > last.value || (term == last.value && index >= LastIndex());
    }

    /** The committed entries that are not applied yet, within the size limit. */
    method NextEnts() returns (r: seq<Entry>)
      requires Valid()
      ensures r == LimitSize(maxMsgSize, Whole()[applied..committed])
    {
      var off := Max(applied + 1, FirstIndex());
      if committed + 1 > off {
        var res := Slice(off, committed + 1, maxMsgSize);
        return res.value;
      }
      r := [];
    }

    /** The application writes entries it was given as unstable to the store. The log may have been
        truncated and rewritten since, but nothing was declared stable in between. */
    method Persist(saved: seq<Entry>)
      requires Valid() && unstable.entries != []
      requires saved != [] && Numbered(saved, saved[0].index)
      requires unstable.offset <= saved[0].index <= storage.LastIndex() + 1
      modifies storage
      ensures Valid() && Whole() == old(Whole())
      ensures Stable(compacted, storage.ents) == Stable(old(compacted), old(storage.ents))[..saved[0].index - 1] + saved
    {
      PersistJoined(compacted, storage.ents, unstable.offset, unstable.entries, saved);
      storage.Append(saved);
    }

    /** Entries through (i, t) are declared stable. If the log still has that entry among the unstable
        ones, the store must have it too; then, whether the log was rewritten in between or not, given
        log matching between the store and the log it stays the same. */
    method StableTo(i: nat, t: nat)
      requires Valid() && Matching(Stable(compacted, storage.ents), Whole())
      requires unstable.MaybeTerm(i) == (t, true) ==>
        && i <= storage.LastIndex() && TermAt(Stable(compacted, storage.ents), i) == t
        && (i == |Whole()| ==> i == storage.LastIndex())
      modifies unstable
      ensures Valid() && Whole() == old(Whole())
      ensures unstable.offset == if old(unstable.MaybeTerm(i)) == (t, true) then i + 1 else old(unstable.offset)
    {
      ghost var offset, entries := unstable.offset, unstable.entries;
      unstable.StableTo(i, t);
      if unstable.offset != offset {
        StableJoined(compacted, storage.ents, offset, entries, i, unstable.offset, unstable.entries);
      }
    }

    /** Dropping stable, applied entries from the store. */
    method Compact(i: nat) returns (r: Result<()>)
      requires Valid() && i <= applied && i < unstable.offset
      modifies this`compacted, storage
      ensures Valid() && Whole() == old(Whole())
      ensures r.Ok? <==> i >= old(FirstIndex())
      ensures r.Ok? ==> FirstIndex() == i + 1
      ensures r.Err? ==> r == Err(ErrCompacted) && storage.ents == old(storage.ents)
    {
      ghost var ents := storage.ents;
      r := storage.Compact(i);
      if r.Ok? {
        CompactJoined(compacted, ents, unstable.offset, unstable.entries, i, storage.ents);
        compacted := Stable(compacted, ents)[..i];
      }
    }
  }

  /** Log matching cannot be dispensed with: a store whose last entry has the term of the entry in
      the log, but a different one before it, changes the log when it is declared stable. */
  lemma MatchingNeeded()
    ensures exists compacted: Log, ents: seq<Entry>, entries: seq<Entry> ::
      && Coherent(compacted, ents, 1, entries) && |entries| == 2 && |ents| == 3
      && entries[1].term == ents[2].term
      && Coherent(compacted, ents, 3, entries[2..])
      && Joined(compacted, ents, 3, entries[2..]) != Joined(compacted, ents, 1, entries)
  {
    var e := (t: nat, i: nat) => Entry(t, i, EntryNormal, "");
    var ents := [e(0, 0), e(1, 1), e(3, 2)];
    var entries := [e(2, 1), e(3, 2)];
    assert Coherent([], ents, 1, entries) && Coherent([], ents, 3, entries[2..]);
    assert Joined([], ents, 3, entries[2..])[0] == ents[1];
    assert Joined([], ents, 1, entries)[0] == entries[0];
  }
}
