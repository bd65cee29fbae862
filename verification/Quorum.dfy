/** Majorities of a fixed voter set: what `Raft::quorum` counts (src/raft.h). */
module Quorums {

  ghost predicate IsQuorum<T>(voters: set<T>, q: set<T>) {
    q <= voters && 2 * |q| > |voters|
  }

  lemma SubsetSize<T>(a: set<T>, b: set<T>)
    requires a <= b
    ensures |a| <= |b|
  {
    assert b == a + (b - a);
  }

  /** Any two majorities share a member. */
  lemma QuorumsMeet<T>(voters: set<T>, a: set<T>, b: set<T>)
    requires IsQuorum(voters, a) && IsQuorum(voters, b)
    ensures exists x :: x in a && x in b
  {
    if a * b == {} {
      assert |a + b| == |a| + |b|;
      SubsetSize(a + b, voters);
      assert false;
    }
    var x :| x in a * b;
  }

  lemma QuorumGrows<T>(voters: set<T>, a: set<T>, b: set<T>)
    requires IsQuorum(voters, a) && a <= b <= voters
    ensures IsQuorum(voters, b)
  {
    SubsetSize(a, b);
  }
}
