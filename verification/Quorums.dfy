/** Majorities and how they overlap. */
module Quorums {
  import opened Entries

  /** The threshold every count in the code is compared with. */
  function MajoritySize(members: nat): nat {
    members / 2 + 1
  }

  ghost predicate IsMajority(quorum: set<Id>, members: set<Id>) {
    quorum <= members && |quorum| >= MajoritySize(|members|)
  }

  lemma SubsetSize<T>(a: set<T>, b: set<T>)
    requires a <= b
    ensures |a| <= |b|
  {
    assert b == a + (b - a);
  }

  lemma OverlapSize<T>(a: set<T>, b: set<T>, whole: set<T>)
    requires a <= whole && b <= whole
    ensures |a * b| >= |a| + |b| - |whole|
  {
    SubsetSize(a + b, whole);
    assert |a + b| == |a| + |b| - |a * b|;
  }

  /** Two majorities of one membership share a node. */
  lemma MajoritiesMeet(a: set<Id>, b: set<Id>, members: set<Id>) returns (shared: Id)
    requires IsMajority(a, members) && IsMajority(b, members)
    ensures shared in a && shared in b && shared in members
  {
    OverlapSize(a, b, members);
    assert a * b != {};
    shared :| shared in a * b;
  }

  /** With an even membership two majorities share a node other than any chosen one. */
  lemma EvenMajoritiesMeetTwice(a: set<Id>, b: set<Id>, members: set<Id>, avoid: Id) returns (shared: Id)
    requires IsMajority(a, members) && IsMajority(b, members)
    requires |members| % 2 == 0
    ensures shared in a && shared in b && shared != avoid
  {
    OverlapSize(a, b, members);
    if a * b <= {avoid} {
      SubsetSize(a * b, {avoid});
      assert false;
    }
    shared :| shared in a * b && shared != avoid;
  }

  /** Majorities of two memberships that differ by one added node still share a node. */
  lemma SingleChangeMajoritiesMeet(a: set<Id>, before: set<Id>, b: set<Id>, added: Id) returns (shared: Id)
    requires added !in before
    requires IsMajority(a, before) && IsMajority(b, before + {added})
    ensures shared in a && shared in b
  {
    OverlapSize(a, b, before + {added});
    assert |before + {added}| == |before| + 1;
    assert a * b != {};
    shared :| shared in a * b;
  }
}
