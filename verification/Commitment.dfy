/** Choosing the commit index (src/raft.cc, `Raft::maybeCommit`): sort the match indexes in
    descending order and take the one at position quorum - 1. */
module Commitment {

  ghost predicate Descending(s: seq<nat>) {
    forall i, j :: 0 <= i < j < |s| ==> s[i] >= s[j]
  }

  function Insert(x: nat, s: seq<nat>): seq<nat> {
    if s == [] || x >= s[0] then [x] + s else [s[0]] + Insert(x, s[1..])
  }

  function SortDescending(s: seq<nat>): (r: seq<nat>)
    ensures |r| == |s|
  {
    if s == [] then [] else InsertLength(s[0], SortDescending(s[1..])); Insert(s[0], SortDescending(s[1..]))
  }

  lemma InsertLength(x: nat, s: seq<nat>)
    ensures |Insert(x, s)| == |s| + 1
  {
  }

  function QuorumIndex(matches: seq<nat>, quorum: nat): nat
    requires 1 <= quorum <= |matches|
  {
    SortDescending(matches)[quorum - 1]
  }

  /** How many of the match indexes reach k. */
  function Reaching(s: seq<nat>, k: nat): nat {
    if s == [] then 0 else (if s[0] >= k then 1 else 0) + Reaching(s[1..], k)
  }

  lemma {:induction false} InsertReaching(x: nat, s: seq<nat>, k: nat)
    ensures Reaching(Insert(x, s), k) == Reaching(s, k) + (if x >= k then 1 else 0)
  {
    if s == [] || x >= s[0] {
      assert ([x] + s)[1..] == s;
    } else {
      assert ([s[0]] + Insert(x, s[1..]))[1..] == Insert(x, s[1..]);
      InsertReaching(x, s[1..], k);
    }
  }

  lemma {:induction false} InsertBounded(x: nat, s: seq<nat>, b: nat)
    requires x <= b && forall i :: 0 <= i < |s| ==> s[i] <= b
    ensures forall i :: 0 <= i < |Insert(x, s)| ==> Insert(x, s)[i] <= b
  {
    if s != [] && x < s[0] { InsertBounded(x, s[1..], b); }
  }

  lemma {:induction false} InsertDescending(x: nat, s: seq<nat>)
    requires Descending(s)
    ensures Descending(Insert(x, s))
  {
    if s != [] && x < s[0] {
      InsertDescending(x, s[1..]);
      InsertBounded(x, s[1..], s[0]);
    }
  }

  lemma {:induction false} SortCorrect(s: seq<nat>, k: nat)
    ensures Descending(SortDescending(s))
    ensures Reaching(SortDescending(s), k) == Reaching(s, k)
  {
    if s != [] {
      SortCorrect(s[1..], k);
      InsertDescending(s[0], SortDescending(s[1..]));
      InsertReaching(s[0], SortDescending(s[1..]), k);
    }
  }

  /** In a descending sequence exactly the positions before the first smaller one reach k. */
  lemma {:induction false} ReachingDescending(s: seq<nat>, k: nat, i: nat)
    requires Descending(s) && i < |s|
    ensures s[i] >= k <==> Reaching(s, k) > i
  {
    var rest := s[1..];
    assert forall x :: 0 < x < |s| ==> s[x] == rest[x - 1];
    if i == 0 {
      if s[0] < k { NoneReach(s, k); }
    } else {
      ReachingDescending(rest, k, i - 1);
      if s[0] < k { NoneReach(s, k); }
    }
  }

  lemma {:induction false} NoneReach(s: seq<nat>, k: nat)
    requires forall i :: 0 <= i < |s| ==> s[i] < k
    ensures Reaching(s, k) == 0
  {
    if s != [] { NoneReach(s[1..], k); }
  }

  /** The chosen index is exactly the largest one that a quorum of voters reaches. */
  lemma QuorumIndexExact(matches: seq<nat>, quorum: nat, k: nat)
    requires 1 <= quorum <= |matches|
    ensures k <= QuorumIndex(matches, quorum) <==> Reaching(matches, k) >= quorum
  {
    SortCorrect(matches, k);
    ReachingDescending(SortDescending(matches), k, quorum - 1);
  }
}
