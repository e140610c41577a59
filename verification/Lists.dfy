/** Options, and the sequence operations the components share: filtering and the
    stable sort that the language's built-in `sorted` provides. */
module Lists {

  datatype Option<+T> = None | Some(value: T)

  function Min(a: real, b: real): real { if a <= b then a else b }

  function Max(a: real, b: real): real { if a >= b then a else b }

  function Abs(x: real): real { if x >= 0.0 then x else -x }

  function UpperChar(c: char): char { if 'a' <= c <= 'z' then ((c as int) - 32) as char else c }

  function Upper(s: string): string { seq(|s|, i requires 0 <= i < |s| => UpperChar(s[i])) }

  function Filter<T>(xs: seq<T>, p: T -> bool): seq<T> {
    if xs == [] then []
    else (if p(xs[0]) then [xs[0]] else []) + Filter(xs[1..], p)
  }

  lemma ConcatAssociates<T>(a: seq<T>, b: seq<T>, c: seq<T>)
    ensures a + b + c == a + (b + c)
  {}

  lemma SameHeadSameTail<T>(xs: seq<T>, ys: seq<T>)
    requires xs != [] && ys != [] && xs[0] == ys[0] && xs[1..] == ys[1..]
    ensures xs == ys
  {
    assert xs == [xs[0]] + xs[1..];
    assert ys == [ys[0]] + ys[1..];
  }

  /** Growing a prefix by one element adds that element at its end. */
  lemma PrefixGrows<T>(xs: seq<T>, i: nat)
    requires i < |xs|
    ensures |xs[..i + 1]| == i + 1
    ensures xs[..i + 1][..i] == xs[..i]
    ensures xs[..i + 1][i] == xs[i]
    ensures xs[..i + 1] == xs[..i] + [xs[i]]
  {}

  lemma WholePrefix<T>(xs: seq<T>)
    ensures xs[..|xs|] == xs
  {}

  lemma {:induction false} FilterConcat<T>(xs: seq<T>, ys: seq<T>, p: T -> bool)
    ensures Filter(xs + ys, p) == Filter(xs, p) + Filter(ys, p)
  {
    if xs == [] {
      assert xs + ys == ys;
    } else {
      var head := if p(xs[0]) then [xs[0]] else [];
      assert (xs + ys)[1..] == xs[1..] + ys;
      FilterConcat(xs[1..], ys, p);
      ConcatAssociates(head, Filter(xs[1..], p), Filter(ys, p));
    }
  }

  lemma FilterGrows<T>(xs: seq<T>, x: T, p: T -> bool)
    ensures Filter(xs + [x], p) == if p(x) then Filter(xs, p) + [x] else Filter(xs, p)
  {
    FilterConcat(xs, [x], p);
    assert [x][1..] == [];
    assert Filter(xs, p) + [] == Filter(xs, p);
  }

  lemma {:induction false} FilterMembers<T>(xs: seq<T>, p: T -> bool)
    ensures forall x :: x in Filter(xs, p) <==> x in xs && p(x)
  {
    if xs == [] {
    } else {
      FilterMembers(xs[1..], p);
      assert xs == [xs[0]] + xs[1..];
    }
  }

  ghost predicate Ascending<T>(xs: seq<T>, key: T -> real) {
    forall i, j :: 0 <= i < j < |xs| ==> key(xs[i]) <= key(xs[j])
  }

  /** Puts `x` before the first element whose key is at least its own. */
  function Insert<T>(x: T, xs: seq<T>, key: T -> real): (r: seq<T>)
    ensures |r| == |xs| + 1
  {
    if xs == [] then [x]
    else if key(x) <= key(xs[0]) then [x] + xs
    else [xs[0]] + Insert(x, xs[1..], key)
  }

  /** The stable ascending sort by a real key: equal keys keep their order. */
  function SortBy<T>(xs: seq<T>, key: T -> real): (r: seq<T>)
    ensures |r| == |xs|
  {
    if xs == [] then [] else Insert(xs[0], SortBy(xs[1..], key), key)
  }

  lemma {:induction false} InsertPermutes<T>(x: T, xs: seq<T>, key: T -> real)
    ensures multiset(Insert(x, xs, key)) == multiset{x} + multiset(xs)
  {
    if xs == [] || key(x) <= key(xs[0]) {
    } else {
      InsertPermutes(x, xs[1..], key);
      assert xs == [xs[0]] + xs[1..];
    }
  }

  lemma {:induction false} InsertAscends<T>(x: T, xs: seq<T>, key: T -> real)
    requires Ascending(xs, key)
    ensures Ascending(Insert(x, xs, key), key)
  {
    if xs == [] || key(x) <= key(xs[0]) {
    } else {
      InsertAscends(x, xs[1..], key);
      var r := Insert(x, xs[1..], key);
      InsertPermutes(x, xs[1..], key);
      forall j | 0 <= j < |r| ensures key(xs[0]) <= key(r[j]) {
        assert r[j] in multiset(r);
        assert r[j] == x || r[j] in xs[1..];
      }
    }
  }

  lemma {:induction false} SortIsAscendingPermutation<T>(xs: seq<T>, key: T -> real)
    ensures multiset(SortBy(xs, key)) == multiset(xs)
    ensures Ascending(SortBy(xs, key), key)
  {
    if xs == [] {
    } else {
      SortIsAscendingPermutation(xs[1..], key);
      InsertPermutes(xs[0], SortBy(xs[1..], key), key);
      InsertAscends(xs[0], SortBy(xs[1..], key), key);
      assert xs == [xs[0]] + xs[1..];
    }
  }

  function HasKey<T>(key: T -> real, k: real): T -> bool { x => key(x) == k }

  lemma {:induction false} InsertStable<T>(x: T, xs: seq<T>, key: T -> real, k: real)
    requires Ascending(xs, key)
    ensures Filter(Insert(x, xs, key), HasKey(key, k))
         == (if key(x) == k then [x] else []) + Filter(xs, HasKey(key, k))
  {
    if xs == [] || key(x) <= key(xs[0]) {
      assert ([x] + xs)[1..] == xs;
    } else {
      assert Ascending(xs[1..], key);
      InsertStable(x, xs[1..], key, k);
      var tail := Insert(x, xs[1..], key);
      assert ([xs[0]] + tail)[1..] == tail;
      if key(x) == k {
        assert key(xs[0]) != k;
      }
    }
  }

  /** Stability: among the elements of one key the sort keeps the input order. */
  lemma {:induction false} SortStable<T>(xs: seq<T>, key: T -> real, k: real)
    ensures Filter(SortBy(xs, key), HasKey(key, k)) == Filter(xs, HasKey(key, k))
  {
    if xs == [] {
    } else {
      SortStable(xs[1..], key, k);
      SortIsAscendingPermutation(xs[1..], key);
      InsertStable(xs[0], SortBy(xs[1..], key), key, k);
    }
  }

  ghost predicate KeysDistinct<T(!new)>(xs: seq<T>, key: T -> real) {
    forall x, y :: x in xs && y in xs && key(x) == key(y) ==> x == y
  }

  /** With distinct keys there is one ascending arrangement of the elements. */
  lemma {:induction false} AscendingUnique<T(!new)>(xs: seq<T>, ys: seq<T>, key: T -> real)
    requires Ascending(xs, key) && Ascending(ys, key)
    requires multiset(xs) == multiset(ys) && KeysDistinct(xs, key)
    ensures xs == ys
  {
    SameLength(xs, ys);
    if xs == [] {
    } else {
      hide Ascending, KeysDistinct;
      FirstIsLeast(xs, ys, key);
      TailOfSorted(xs, key);
      TailOfSorted(ys, key);
      AscendingUnique(xs[1..], ys[1..], key);
      SameHeadSameTail(xs, ys);
    }
  }

  lemma SameLength<T>(xs: seq<T>, ys: seq<T>)
    requires multiset(xs) == multiset(ys)
    ensures |xs| == |ys|
  {
    assert |xs| == |multiset(xs)| == |multiset(ys)| == |ys|;
  }

  lemma TailOfSorted<T(!new)>(xs: seq<T>, key: T -> real)
    requires xs != [] && Ascending(xs, key)
    ensures Ascending(xs[1..], key)
    ensures multiset(xs[1..]) == multiset(xs) - multiset{xs[0]}
    ensures KeysDistinct(xs, key) ==> KeysDistinct(xs[1..], key)
  {
    assert xs == [xs[0]] + xs[1..];
  }

  lemma FirstIsLeast<T(!new)>(xs: seq<T>, ys: seq<T>, key: T -> real)
    requires xs != [] && ys != []
    requires Ascending(xs, key) && Ascending(ys, key)
    requires multiset(xs) == multiset(ys) && KeysDistinct(xs, key)
    ensures xs[0] == ys[0]
  {
    assert ys[0] in multiset(xs) && xs[0] in multiset(ys);
    var i :| 0 <= i < |xs| && xs[i] == ys[0];
    var j :| 0 <= j < |ys| && ys[j] == xs[0];
    assert i > 0 ==> key(xs[0]) <= key(xs[i]);
    assert j > 0 ==> key(ys[0]) <= key(ys[j]);
  }

  /** Sorting forgets the order in which distinct keys arrived. */
  lemma SortCanonical<T(!new)>(xs: seq<T>, ys: seq<T>, key: T -> real)
    requires multiset(xs) == multiset(ys) && KeysDistinct(xs, key)
    ensures SortBy(xs, key) == SortBy(ys, key)
  {
    SortIsAscendingPermutation(xs, key);
    SortIsAscendingPermutation(ys, key);
    var s := SortBy(xs, key);
    assert forall x :: x in s ==> x in multiset(s) && x in multiset(xs) && x in xs;
    AscendingUnique(s, SortBy(ys, key), key);
  }
}
