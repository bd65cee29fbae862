/** `RaftLog` (src/raft_log.h) seen as one plain sequence: what its readers and its
    `maybeAppend` compute. `RaftLogs` proves that the two-store log behaves like this. */
module Logs {
  import opened Types

  /** Both logs reach index k and hold the same entries up to it. */
  ghost predicate Agree(a: Log, b: Log, k: nat) {
    && k <= |a| && k <= |b|
    && forall i :: 0 <= i < k ==> a[i] == b[i]
  }

  ghost predicate Sorted(log: Log) {
    forall i, j :: 0 <= i < j < |log| ==> log[i].term <= log[j].term
  }

  function LastTerm(log: Log): nat {
    if |log| == 0 then 0 else log[|log| - 1].term
  }

  /** Every entry carries its own position. */
  ghost predicate WellIndexed(log: Log) {
    forall i :: 0 <= i < |log| ==> log[i].index == i + 1
  }

  /** The entries of a message that follow index `after`. */
  ghost predicate Follows(ents: seq<Entry>, after: nat) {
    forall i :: 0 <= i < |ents| ==> ents[i].index == after + 1 + i
  }

  /** `RaftLog::term`: zero outside the log. */
  function TermAt(log: Log, i: nat): nat {
    if 1 <= i <= |log| then log[i - 1].term else 0
  }

  function MatchTerm(log: Log, i: nat, t: nat): bool {
    TermAt(log, i) == t
  }

  /** `RaftLog::isUpToDate`. */
  function IsUpToDate(log: Log, index: nat, term: nat): bool {
    var lastTerm := TermAt(log, |log|);
    term > lastTerm || (term == lastTerm && index >= |log|)
  }

  /** `RaftLog::findConflict`: the index of the first entry that conflicts or is new, or zero. */
  function FindConflict(log: Log, ents: seq<Entry>): nat {
    if ents == [] then 0
    else if MatchTerm(log, ents[0].index, ents[0].term) then FindConflict(log, ents[1..])
    else ents[0].index
  }

  /** `Unstable::truncateAndAppend` on the whole log. */
  function TruncateAndAppend(log: Log, ents: seq<Entry>): Log
    requires ents != [] && 1 <= ents[0].index <= |log| + 1
  {
    log[..ents[0].index - 1] + ents
  }

  /** What `maybeAppend` leaves behind and answers; `panic` is one of its RAFT_LOG(PANIC) exits. */
  datatype Appended = Appended(log: Log, committed: nat, last: nat, ok: bool, panic: bool)

  /** `RaftLog::commitTo`, with its range panic. */
  function CommitTo(log: Log, committed: nat, to: nat): (nat, bool) {
    if committed < to then (if |log| < to then (committed, true) else (to, false)) else (committed, false)
  }

  /** `RaftLog::append`, with its range panics. */
  function AppendTo(log: Log, committed: nat, ents: seq<Entry>): (Log, bool) {
    if ents == [] then (log, false)
    else if ents[0].index == 0 || ents[0].index - 1 < committed || ents[0].index > |log| + 1 then (log, true)
    else (TruncateAndAppend(log, ents), false)
  }

  /** `RaftLog::maybeAppend`. */
  function MaybeAppend(log: Log, committed: nat, index: nat, logTerm: nat, commit: nat, ents: seq<Entry>): Appended {
    if !MatchTerm(log, index, logTerm) then Appended(log, committed, 0, false, false)
    else
      var last := index + |ents|;
      var ci := FindConflict(log, ents);
      if ci != 0 && (ci <= committed || ci < index + 1 || ci > last) then Appended(log, committed, last, true, true)
      else
        var (log', p) := if ci == 0 then (log, false) else AppendTo(log, committed, ents[ci - (index + 1)..]);
        var (committed', p') := CommitTo(log', committed, Min(commit, last));
        Appended(log', committed', last, true, p || p')
  }

  /** `limitSize` (src/util.cc): the longest prefix within the budget, but at least one entry. */
  function LimitSize(max: nat, ents: seq<Entry>): seq<Entry> {
    if ents == [] then [] else ents[..1 + Fitting(max, ents[0].ByteSize(), ents[1..])]
  }

  /** How many of `ents` still fit after `used` bytes. */
  function Fitting(max: nat, used: nat, ents: seq<Entry>): (n: nat)
    ensures n <= |ents|
    decreases |ents|
  {
    if ents == [] || used + ents[0].ByteSize() > max then 0
    else 1 + Fitting(max, used + ents[0].ByteSize(), ents[1..])
  }

  // ---------------------------------------------------------------- properties

  /** The first n entries of the message are in the log already, by their terms. */
  ghost predicate MatchesFirst(log: Log, ents: seq<Entry>, after: nat, n: nat) {
    && n <= |ents|
    && forall i {:trigger ents[i]} :: 0 <= i < n ==> TermAt(log, after + 1 + i) == ents[i].term
  }

  /** Where the first conflict is: everything before it matches, it does not. */
  lemma {:induction false} ConflictPoint(log: Log, ents: seq<Entry>, after: nat)
    requires Follows(ents, after)
    ensures var ci := FindConflict(log, ents);
      if ci == 0 then MatchesFirst(log, ents, after, |ents|)
      else
        && after < ci <= after + |ents|
        && MatchesFirst(log, ents, after, ci - after - 1)
        && TermAt(log, ci) != ents[ci - after - 1].term
  {
    if ents != [] && MatchTerm(log, ents[0].index, ents[0].term) {
      var rest := ents[1..];
      ConflictPoint(log, rest, after + 1);
      var ci := FindConflict(log, ents);
      forall i | 0 <= i < (if ci == 0 then |ents| else ci - after - 1)
        ensures TermAt(log, after + 1 + i) == ents[i].term
      {
        if i > 0 { assert rest[i - 1] == ents[i]; }
      }
    }
  }

  /** The terms a message carries are real, and a zero term stands only before the first entry. */
  ghost predicate ProperAppend(index: nat, logTerm: nat, ents: seq<Entry>) {
    && Follows(ents, index)
    && (forall i :: 0 <= i < |ents| ==> ents[i].term > 0)
    && (logTerm == 0 ==> index == 0)
  }

  /** The log after an accepted append: it carries the message's terms on the message's range,
      each entry taken from the message or kept, and it is otherwise as before the message; it is
      kept as it is when `kept`, and otherwise is not and ends where the message ends. */
  ghost predicate Written(log: Log, index: nat, ents: seq<Entry>, kept: bool, r: Log) {
    && WellIndexed(r)
    && index + |ents| <= |r|
    && Agree(log, r, index)
    && (forall i {:trigger ents[i]} :: 0 <= i < |ents| ==>
          && r[index + i].term == ents[i].term
          && (r[index + i] == ents[i] || (index + i < |log| && r[index + i] == log[index + i])))
    && (kept ==> r == log)
    && (!kept ==> r != log && |r| == index + |ents|)
  }

  /** `maybeAppend` panics exactly when the message contradicts a committed entry and accepts
      exactly on a matching term; then the log is written as above, keeping what is there exactly
      when nothing conflicts and nothing is new, nothing committed moves, and the commit index
      follows the leader's but not past the message. */
  lemma MaybeAppendCorrect(log: Log, committed: nat, index: nat, logTerm: nat, commit: nat, ents: seq<Entry>)
    requires WellIndexed(log) && committed <= |log| && ProperAppend(index, logTerm, ents)
    ensures var r := MaybeAppend(log, committed, index, logTerm, commit, ents);
      && (r.ok <==> TermAt(log, index) == logTerm)
      && (r.panic <==> r.ok && 0 < FindConflict(log, ents) <= committed)
      && (!r.ok ==> r.log == log && r.committed == committed)
      && (r.ok && !r.panic ==>
            && r.last == index + |ents|
            && Written(log, index, ents, FindConflict(log, ents) == 0, r.log)
            && Agree(log, r.log, committed)
            && r.committed == Max(committed, Min(commit, r.last)) <= |r.log|)
  {
    ConflictPoint(log, ents, index);
    if TermAt(log, index) == logTerm {
      if FindConflict(log, ents) == 0 {
        NothingNew(log, index, ents);
      } else {
        ConflictInReach(log, index, ents);
        if FindConflict(log, ents) > committed {
          CutAndAppend(log, committed, index, logTerm, commit, ents);
        }
      }
    }
  }

  lemma NothingNew(log: Log, index: nat, ents: seq<Entry>)
    requires WellIndexed(log) && index <= |log| && MatchesFirst(log, ents, index, |ents|)
    requires forall i :: 0 <= i < |ents| ==> ents[i].term > 0
    ensures Written(log, index, ents, true, log)
  {
    if ents != [] { assert TermAt(log, index + |ents|) == ents[|ents| - 1].term; }
  }

  /** A conflict is at most one past the end of the log. */
  lemma ConflictInReach(log: Log, index: nat, ents: seq<Entry>)
    requires index <= |log| && Follows(ents, index) && FindConflict(log, ents) > 0
    requires forall i :: 0 <= i < |ents| ==> ents[i].term > 0
    ensures FindConflict(log, ents) <= |log| + 1
  {
    ConflictPoint(log, ents, index);
    var i := FindConflict(log, ents) - index - 2;
    assert i >= 0 ==> TermAt(log, index + 1 + i) == ents[i].term;
  }

  /** The log cut before position x of the message and continued with the message. */
  function Spliced(log: Log, index: nat, ents: seq<Entry>, x: nat): Log
    requires index + x <= |log| && x <= |ents|
  {
    log[..index + x] + ents[x..]
  }

  lemma SplicedWritten(log: Log, index: nat, ents: seq<Entry>, x: nat)
    requires WellIndexed(log) && Follows(ents, index) && index + x <= |log| && x < |ents|
    requires MatchesFirst(log, ents, index, x) && TermAt(log, index + 1 + x) != ents[x].term
    ensures Written(log, index, ents, false, Spliced(log, index, ents, x))
    ensures Agree(log, Spliced(log, index, ents, x), index + x)
  {
  }

  lemma CutAndAppend(log: Log, committed: nat, index: nat, logTerm: nat, commit: nat, ents: seq<Entry>)
    requires WellIndexed(log) && committed <= |log| && index <= |log| && ProperAppend(index, logTerm, ents)
    requires TermAt(log, index) == logTerm && committed < FindConflict(log, ents) <= |log| + 1
    ensures var r := MaybeAppend(log, committed, index, logTerm, commit, ents);
      && r.ok && !r.panic && r.last == index + |ents|
      && Written(log, index, ents, false, r.log)
      && Agree(log, r.log, committed)
      && r.committed == Max(committed, Min(commit, r.last)) <= |r.log|
  {
    ConflictPoint(log, ents, index);
    var ci := FindConflict(log, ents);
    var x := ci - (index + 1);
    SplicedWritten(log, index, ents, x);
    MaybeAppendCuts(log, committed, index, logTerm, commit, ents, x);
  }

  lemma MaybeAppendCuts(log: Log, committed: nat, index: nat, logTerm: nat, commit: nat, ents: seq<Entry>, x: nat)
    requires TermAt(log, index) == logTerm && x < |ents| && FindConflict(log, ents) == index + 1 + x == ents[x].index
    requires committed <= index + x <= |log|
    ensures MaybeAppend(log, committed, index, logTerm, commit, ents) ==
      Appended(Spliced(log, index, ents, x), Max(committed, Min(commit, index + |ents|)), index + |ents|, true, false)
  {
  }

  /** Delivering the same append again changes nothing more. */
  lemma MaybeAppendIdempotent(log: Log, committed: nat, index: nat, logTerm: nat, commit: nat, ents: seq<Entry>)
    requires WellIndexed(log) && committed <= |log| && ProperAppend(index, logTerm, ents)
    ensures var r := MaybeAppend(log, committed, index, logTerm, commit, ents);
      r.ok && !r.panic ==> MaybeAppend(r.log, r.committed, index, logTerm, commit, ents) == r
  {
    var r := MaybeAppend(log, committed, index, logTerm, commit, ents);
    MaybeAppendCorrect(log, committed, index, logTerm, commit, ents);
    if r.ok && !r.panic {
      WrittenMatches(log, index, ents, FindConflict(log, ents) == 0, r.log);
    }
  }

  /** What has been written no longer conflicts. */
  lemma WrittenMatches(log: Log, index: nat, ents: seq<Entry>, kept: bool, r: Log)
    requires Follows(ents, index) && Written(log, index, ents, kept, r)
    ensures FindConflict(r, ents) == 0 && TermAt(r, index) == TermAt(log, index)
  {
    ConflictPoint(r, ents, index);
  }
}
