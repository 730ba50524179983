/** A stable sort, as Python's built-in `sorted` is, and what its result is determined by. */
module StableSort {

  ghost predicate TotalPreorder<T(!new)>(leq: (T, T) -> bool)
  {
    && (forall a, b :: leq(a, b) || leq(b, a))
    && (forall a, b, c :: leq(a, b) && leq(b, c) ==> leq(a, c))
  }

  ghost predicate SortedBy<T>(leq: (T, T) -> bool, s: seq<T>)
  {
    forall i, j :: 0 <= i < j < |s| ==> leq(s[i], s[j])
  }

  function Insert<T>(leq: (T, T) -> bool, x: T, s: seq<T>): seq<T>
  {
    if s == [] || leq(x, s[0]) then [x] + s else [s[0]] + Insert(leq, x, s[1..])
  }

  function Sort<T>(leq: (T, T) -> bool, s: seq<T>): seq<T>
  {
    if s == [] then [] else Insert(leq, s[0], Sort(leq, s[1..]))
  }

  function Filter<T>(p: T -> bool, s: seq<T>): seq<T>
  {
    if s == [] then []
    else if p(s[0]) then [s[0]] + Filter(p, s[1..])
    else Filter(p, s[1..])
  }

  function Map<T, U>(f: T -> U, s: seq<T>): (r: seq<U>)
    ensures |r| == |s|
    ensures forall i :: 0 <= i < |s| ==> r[i] == f(s[i])
  {
    seq(|s|, i requires 0 <= i < |s| => f(s[i]))
  }

  // ----- permutation -----

  lemma {:induction false} InsertPermutes<T>(leq: (T, T) -> bool, x: T, s: seq<T>)
    ensures multiset(Insert(leq, x, s)) == multiset{x} + multiset(s)
  {
    if s == [] || leq(x, s[0]) {
    } else {
      InsertPermutes(leq, x, s[1..]);
      assert s == [s[0]] + s[1..];
    }
  }

  lemma {:induction false} SortPermutes<T>(leq: (T, T) -> bool, s: seq<T>)
    ensures multiset(Sort(leq, s)) == multiset(s)
    ensures |Sort(leq, s)| == |s|
  {
    if s == [] {
    } else {
      SortPermutes(leq, s[1..]);
      InsertPermutes(leq, s[0], Sort(leq, s[1..]));
      assert s == [s[0]] + s[1..];
    }
    assert |multiset(Sort(leq, s))| == |multiset(s)|;
  }

  lemma MemberOfPermutation<T>(a: seq<T>, b: seq<T>, i: nat)
    requires multiset(a) == multiset(b) && i < |a|
    ensures a[i] in b
  {
    assert a[i] in multiset(a);
  }

  // ----- order -----

  lemma {:induction false} InsertSorts<T(!new)>(leq: (T, T) -> bool, x: T, s: seq<T>)
    requires TotalPreorder(leq) && SortedBy(leq, s)
    ensures SortedBy(leq, Insert(leq, x, s))
  {
    if s == [] || leq(x, s[0]) {
    } else {
      var rest := Insert(leq, x, s[1..]);
      InsertSorts(leq, x, s[1..]);
      InsertPermutes(leq, x, s[1..]);
      forall j | 0 <= j < |rest|
        ensures leq(s[0], rest[j])
      {
        assert rest[j] in multiset(rest);
        assert rest[j] == x || rest[j] in s[1..];
      }
    }
  }

  lemma {:induction false} SortSorts<T(!new)>(leq: (T, T) -> bool, s: seq<T>)
    requires TotalPreorder(leq)
    ensures SortedBy(leq, Sort(leq, s))
  {
    if s == [] {
    } else {
      SortSorts(leq, s[1..]);
      InsertSorts(leq, s[0], Sort(leq, s[1..]));
    }
  }

  // ----- stability -----

  /** `p` holds of whole ties only: equal-ranking elements are in or out together. */
  ghost predicate RespectsTies<T(!new)>(leq: (T, T) -> bool, p: T -> bool)
  {
    forall a, b :: p(a) && p(b) ==> leq(a, b)
  }

  lemma FilterCons<T>(p: T -> bool, x: T, s: seq<T>)
    ensures Filter(p, [x] + s) == if p(x) then [x] + Filter(p, s) else Filter(p, s)
  {
    assert ([x] + s)[1..] == s;
  }

  lemma {:induction false} FilterConcat<T>(p: T -> bool, a: seq<T>, b: seq<T>)
    ensures Filter(p, a + b) == Filter(p, a) + Filter(p, b)
  {
    if a == [] {
      assert a + b == b;
    } else {
      FilterConcat(p, a[1..], b);
      assert a + b == [a[0]] + (a[1..] + b);
      FilterCons(p, a[0], a[1..] + b);
    }
  }

  lemma FilterOfPrefix<T>(p: T -> bool, a: seq<T>, b: seq<T>)
    requires a <= b
    ensures Filter(p, a) <= Filter(p, b)
  {
    assert b == a + b[|a|..];
    FilterConcat(p, a, b[|a|..]);
  }

  lemma {:induction false} InsertIsStable<T(!new)>(leq: (T, T) -> bool, p: T -> bool, x: T, s: seq<T>)
    requires RespectsTies(leq, p)
    ensures Filter(p, Insert(leq, x, s)) == if p(x) then [x] + Filter(p, s) else Filter(p, s)
  {
    if s == [] || leq(x, s[0]) {
      FilterCons(p, x, s);
    } else {
      InsertIsStable(leq, p, x, s[1..]);
      assert !(p(x) && p(s[0]));
      FilterCons(p, s[0], Insert(leq, x, s[1..]));
    }
  }

  /** Elements that rank equal keep their original relative order. */
  lemma {:induction false} SortIsStable<T(!new)>(leq: (T, T) -> bool, p: T -> bool, s: seq<T>)
    requires RespectsTies(leq, p)
    ensures Filter(p, Sort(leq, s)) == Filter(p, s)
  {
    if s == [] {
    } else {
      SortIsStable(leq, p, s[1..]);
      InsertIsStable(leq, p, s[0], Sort(leq, s[1..]));
    }
  }

  // ----- permutations under a map, and uniqueness of sorted sequences -----

  lemma RemoveAt<T>(s: seq<T>, i: nat)
    requires i < |s|
    ensures multiset(s[..i] + s[i + 1..]) == multiset(s) - multiset{s[i]}
  {
    assert s == s[..i] + [s[i]] + s[i + 1..];
  }

  lemma RemoveHead<T>(s: seq<T>)
    requires s != []
    ensures multiset(s[1..]) == multiset(s) - multiset{s[0]}
  {
    assert s == [s[0]] + s[1..];
  }

  lemma MapConcat<T, U>(f: T -> U, a: seq<T>, b: seq<T>)
    ensures Map(f, a + b) == Map(f, a) + Map(f, b)
  {
  }

  lemma MapSkip<T, U>(f: T -> U, s: seq<T>, i: nat)
    requires i < |s|
    ensures Map(f, s[..i] + s[i + 1..]) == Map(f, s)[..i] + Map(f, s)[i + 1..]
  {
    var fs := Map(f, s);
    assert Map(f, s[..i]) == fs[..i];
    assert Map(f, s[i + 1..]) == fs[i + 1..];
    MapConcat(f, s[..i], s[i + 1..]);
  }

  lemma MapRemove<T, U>(f: T -> U, s: seq<T>, i: nat)
    requires i < |s|
    ensures multiset(Map(f, s)) == multiset{f(s[i])} + multiset(Map(f, s[..i] + s[i + 1..]))
  {
    var fs := Map(f, s);
    assert Map(f, s[..i] + s[i + 1..]) == fs[..i] + fs[i + 1..] by { MapSkip(f, s, i); }
    assert fs == fs[..i] + [fs[i]] + fs[i + 1..];
  }

  lemma MapHead<T, U>(f: T -> U, s: seq<T>)
    requires s != []
    ensures multiset(Map(f, s)) == multiset{f(s[0])} + multiset(Map(f, s[1..]))
  {
    assert Map(f, s) == [f(s[0])] + Map(f, s[1..]);
  }

  lemma {:induction false} MapPermutes<T, U>(f: T -> U, a: seq<T>, b: seq<T>)
    requires multiset(a) == multiset(b)
    ensures multiset(Map(f, a)) == multiset(Map(f, b))
  {
    assert |multiset(a)| == |multiset(b)|;
    if a == [] {
    } else {
      MemberOfPermutation(a, b, 0);
      var i :| 0 <= i < |b| && b[i] == a[0];
      RemoveHead(a);
      RemoveAt(b, i);
      MapPermutes(f, a[1..], b[..i] + b[i + 1..]);
      MapHead(f, a);
      MapRemove(f, b, i);
    }
  }

  lemma SameHead<T(!new)>(leq: (T, T) -> bool, a: seq<T>, b: seq<T>)
    requires forall x, y :: leq(x, y) && leq(y, x) ==> x == y
    requires SortedBy(leq, a) && SortedBy(leq, b)
    requires a != [] && b != [] && multiset(a) == multiset(b)
    ensures a[0] == b[0]
  {
    MemberOfPermutation(a, b, 0);
    MemberOfPermutation(b, a, 0);
    var i :| 0 <= i < |b| && b[i] == a[0];
    var j :| 0 <= j < |a| && a[j] == b[0];
    if i != 0 && j != 0 {
      assert leq(b[0], b[i]) && leq(a[0], a[j]);
    }
  }

  /** A sorted sequence is determined by its elements, when only equal elements tie. */
  lemma {:induction false} SortedIsUnique<T(!new)>(leq: (T, T) -> bool, a: seq<T>, b: seq<T>)
    requires forall x, y :: leq(x, y) && leq(y, x) ==> x == y
    requires SortedBy(leq, a) && SortedBy(leq, b)
    requires multiset(a) == multiset(b)
    ensures a == b
  {
    assert |multiset(a)| == |multiset(b)|;
    if a != [] {
      SameHead(leq, a, b);
      RemoveHead(a);
      RemoveHead(b);
      SortedIsUnique(leq, a[1..], b[1..]);
      assert a == [a[0]] + a[1..] && b == [b[0]] + b[1..];
    }
  }
}
