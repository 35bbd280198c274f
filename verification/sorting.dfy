/**
 * `Array.prototype.sort` with a comparator, modelled as a stable insertion
 * sort parameterised by the "may come first" relation the comparator encodes.
 */
module Sorting {
  import opened Seqs

  /** `le` is total and transitive, as a consistent comparator must be. */
  ghost predicate TotalPreorder<T(!new)>(le: (T, T) -> bool) {
    && (forall a, b :: le(a, b) || le(b, a))
    && (forall a, b, c :: le(a, b) && le(b, c) ==> le(a, c))
  }

  /** Every element may come before every later one. */
  predicate SortedBy<T>(s: seq<T>, le: (T, T) -> bool) {
    forall i, j :: 0 <= i < j < |s| ==> le(s[i], s[j])
  }

  /** Insert `x` into a sorted sequence before the first element it may precede. */
  function Insert<T(==,!new)>(x: T, s: seq<T>, le: (T, T) -> bool): (r: seq<T>)
    requires TotalPreorder(le)
    requires SortedBy(s, le)
    ensures SortedBy(r, le)
    ensures multiset(r) == multiset(s) + multiset{x}
    decreases |s|
  {
    if |s| == 0 then [x]
    else if le(x, s[0]) then [x] + s
    else
      var rest := Insert(x, s[1..], le);
      assert s == [s[0]] + s[1..];
      forall y | y in rest
        ensures le(s[0], y)
      {
        assert y in multiset(rest);
        if y != x {
          assert y in multiset(s[1..]);
        }
      }
      [s[0]] + rest
  }

  /** The sequence sorted by `le`, equal elements keeping their input order. */
  function SortBy<T(==,!new)>(s: seq<T>, le: (T, T) -> bool): (r: seq<T>)
    requires TotalPreorder(le)
    ensures SortedBy(r, le)
    ensures multiset(r) == multiset(s)
    ensures |r| == |s|
    decreases |s|
  {
    if |s| == 0 then []
    else
      assert s == [s[0]] + s[1..];
      Insert(s[0], SortBy(s[1..], le), le)
  }

  /** The elements `le` ranks level with `z`: each may come before the other. */
  function TiedWith<T>(le: (T, T) -> bool, z: T): T -> bool {
    y => le(z, y) && le(y, z)
  }

  /**
   * Inserting `x` keeps the order among the elements tied with `z`, and puts
   * `x` in front of them when it is tied too.
   */
  lemma {:induction false} InsertKeepsTies<T(!new)>(x: T, s: seq<T>, le: (T, T) -> bool, z: T)
    requires TotalPreorder(le)
    requires SortedBy(s, le)
    ensures Filter(Insert(x, s, le), TiedWith(le, z))
            == (if TiedWith(le, z)(x) then [x] else []) + Filter(s, TiedWith(le, z))
    decreases |s|
  {
    var p := TiedWith(le, z);
    if |s| == 0 {
    } else if le(x, s[0]) {
      assert ([x] + s)[1..] == s;
    } else {
      var rest := Insert(x, s[1..], le);
      InsertKeepsTies(x, s[1..], le, z);
      assert ([s[0]] + rest)[1..] == rest;
      if p(x) {
        assert !p(s[0]);
      }
    }
  }

  /**
   * The sort is stable: the elements tied with any `z` come out in the order
   * they went in.
   */
  lemma {:induction false} SortByIsStable<T(!new)>(s: seq<T>, le: (T, T) -> bool, z: T)
    requires TotalPreorder(le)
    ensures Filter(SortBy(s, le), TiedWith(le, z)) == Filter(s, TiedWith(le, z))
    decreases |s|
  {
    if |s| > 0 {
      SortByIsStable(s[1..], le, z);
      InsertKeepsTies(s[0], SortBy(s[1..], le), le, z);
    }
  }
}
