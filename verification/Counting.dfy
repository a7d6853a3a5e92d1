/** How many elements of a multiset satisfy a predicate. */
module Counting {

  /** `part` holds those elements of `m` that satisfy `p`, as often as `m` does. */
  ghost predicate IsPart<T(!new)>(part: multiset<T>, m: multiset<T>, p: T -> bool) {
    forall x :: part[x] == if p(x) then m[x] else 0
  }

  lemma {:induction false} PartExists<T(!new)>(m: multiset<T>, p: T -> bool) returns (part: multiset<T>)
    ensures IsPart(part, m, p)
    decreases |m|
  {
    if m == multiset{} {
      part := multiset{};
    } else {
      var x :| x in m;
      var rest := PartExists(m - multiset{x}, p);
      part := if p(x) then rest + multiset{x} else rest;
      forall y ensures part[y] == if p(y) then m[y] else 0 {
        assert rest[y] == if p(y) then (m - multiset{x})[y] else 0;
      }
    }
  }

  ghost function Part<T(!new)>(m: multiset<T>, p: T -> bool): (part: multiset<T>)
    ensures IsPart(part, m, p)
  {
    assert exists part :: IsPart(part, m, p) by {
      var part := PartExists(m, p);
    }
    var part :| IsPart(part, m, p);
    part
  }

  ghost function Count<T(!new)>(m: multiset<T>, p: T -> bool): nat {
    |Part(m, p)|
  }

  /** There is but one such part. */
  lemma SamePart<T(!new)>(part: multiset<T>, m: multiset<T>, p: T -> bool)
    requires IsPart(part, m, p)
    ensures part == Part(m, p)
  {
    forall x ensures part[x] == Part(m, p)[x] {
      assert IsPart(Part(m, p), m, p);
    }
  }

  lemma CountNothing<T(!new)>(p: T -> bool)
    ensures Count(multiset{}, p) == 0
  {
    SamePart(multiset{}, multiset{}, p);
  }

  lemma CountSplits<T(!new)>(a: multiset<T>, b: multiset<T>, p: T -> bool)
    ensures Count(a + b, p) == Count(a, p) + Count(b, p)
  {
    SamePart(Part(a, p) + Part(b, p), a + b, p);
  }

  lemma CountOne<T(!new)>(p: T -> bool, x: T)
    ensures Count(multiset{x}, p) == if p(x) then 1 else 0
  {
    SamePart(if p(x) then multiset{x} else multiset{}, multiset{x}, p);
  }

  lemma CountWith<T(!new)>(m: multiset<T>, p: T -> bool, x: T)
    ensures Count(m + multiset{x}, p) == Count(m, p) + if p(x) then 1 else 0
  {
    hide Count;
    CountSplits(m, multiset{x}, p);
    CountOne(p, x);
  }

  lemma CountWithout<T(!new)>(m: multiset<T>, p: T -> bool, x: T)
    requires x in m
    ensures Count(m, p) == Count(m - multiset{x}, p) + if p(x) then 1 else 0
  {
    hide Count;
    CountWith(m - multiset{x}, p, x);
    assert m - multiset{x} + multiset{x} == m;
  }

  lemma CountGrows<T(!new)>(a: multiset<T>, b: multiset<T>, p: T -> bool)
    requires a <= b
    ensures Count(a, p) <= Count(b, p)
  {
    hide Count;
    CountSplits(a, b - a, p);
    assert a + (b - a) == b;
  }

  lemma CountIsPositive<T(!new)>(m: multiset<T>, p: T -> bool)
    ensures Count(m, p) > 0 <==> exists x :: x in m && p(x)
  {
    if x :| x in m && p(x) {
      assert Part(m, p)[x] > 0;
    }
    if Count(m, p) > 0 {
      var x :| x in Part(m, p);
      assert Part(m, p)[x] > 0;
    }
  }
}
