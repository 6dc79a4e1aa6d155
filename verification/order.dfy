/** Python's ordering machinery as the report scripts use it: keys are tuples
    compared lexicographically, `max`/`min` keep the FIRST extremal element,
    and `sorted`/`list.sort` are stable. A key is written as a sequence of
    reals (integers are embedded exactly). */
module Order {

  /** Tuple `<=`: lexicographic, and a proper prefix sorts first. */
  predicate LexLe(a: seq<real>, b: seq<real>)
    decreases |a|
  {
    |a| == 0 || (|b| > 0 && (a[0] < b[0] || (a[0] == b[0] && LexLe(a[1..], b[1..]))))
  }

  /** Tuple `<`. */
  predicate LexLt(a: seq<real>, b: seq<real>) {
    !LexLe(b, a)
  }

  lemma {:induction false} LexLeRefl(a: seq<real>)
    ensures LexLe(a, a)
    decreases |a|
  {
    if |a| > 0 {
      LexLeRefl(a[1..]);
    }
  }

  lemma {:induction false} LexLeTotal(a: seq<real>, b: seq<real>)
    ensures LexLe(a, b) || LexLe(b, a)
    decreases |a|
  {
    if |a| > 0 && |b| > 0 && a[0] == b[0] {
      LexLeTotal(a[1..], b[1..]);
    }
  }

  lemma {:induction false} LexLeTrans(a: seq<real>, b: seq<real>, c: seq<real>)
    requires LexLe(a, b) && LexLe(b, c)
    ensures LexLe(a, c)
    decreases |a|
  {
    if |a| > 0 && |b| > 0 && |c| > 0 && a[0] == b[0] && b[0] == c[0] {
      LexLeTrans(a[1..], b[1..], c[1..]);
    }
  }

  lemma {:induction false} LexLeAntisym(a: seq<real>, b: seq<real>)
    requires LexLe(a, b) && LexLe(b, a)
    ensures a == b
    decreases |a|
  {
    if |a| > 0 {
      LexLeAntisym(a[1..], b[1..]);
      assert a == [a[0]] + a[1..] && b == [b[0]] + b[1..];
    }
  }

  /** `<` is strict and implies `<=`. */
  lemma LexLtIsStrict(a: seq<real>, b: seq<real>)
    ensures LexLt(a, b) ==> LexLe(a, b) && a != b
    ensures LexLt(a, b) <==> LexLe(a, b) && a != b
  {
    LexLeTotal(a, b);
    LexLeRefl(a);
    if LexLe(a, b) && LexLe(b, a) {
      LexLeAntisym(a, b);
    }
  }

  lemma LexLeLtTrans(a: seq<real>, b: seq<real>, c: seq<real>)
    requires LexLe(a, b) && LexLt(b, c)
    ensures LexLt(a, c)
  {
    if LexLe(c, a) {
      LexLeTrans(c, a, b);
    }
  }

  lemma LexLtLeTrans(a: seq<real>, b: seq<real>, c: seq<real>)
    requires LexLt(a, b) && LexLe(b, c)
    ensures LexLt(a, c)
  {
    if LexLe(c, a) {
      LexLeTrans(b, c, a);
    }
  }

  /** Python's `max(s, key=key)` as an index: the first element whose key is
      greatest. CPython replaces the running maximum only on a strictly
      greater key, so on a tie the earliest element wins. */
  function ArgMaxFirst<T>(s: seq<T>, key: T -> seq<real>): (i: nat)
    requires |s| > 0
    ensures i < |s|
    ensures forall j :: 0 <= j < |s| ==> LexLe(key(s[j]), key(s[i]))
    ensures forall j :: 0 <= j < i ==> LexLt(key(s[j]), key(s[i]))
    decreases |s|
  {
    if |s| == 1 then
      LexLeRefl(key(s[0]));
      0
    else
      var i := ArgMaxFirst(s[..|s| - 1], key);
      var last := |s| - 1;
      assert forall j :: 0 <= j < last ==> s[j] == s[..last][j];
      if LexLt(key(s[i]), key(s[last])) then
        MaxStepNew(s, key, i);
        last
      else
        LexLeTotal(key(s[i]), key(s[last]));
        i
  }

  lemma MaxStepNew<T>(s: seq<T>, key: T -> seq<real>, i: nat)
    requires |s| > 1 && i < |s| - 1
    requires forall j :: 0 <= j < |s| - 1 ==> LexLe(key(s[j]), key(s[i]))
    requires LexLt(key(s[i]), key(s[|s| - 1]))
    ensures forall j :: 0 <= j < |s| ==> LexLe(key(s[j]), key(s[|s| - 1]))
    ensures forall j :: 0 <= j < |s| - 1 ==> LexLt(key(s[j]), key(s[|s| - 1]))
  {
    var last := |s| - 1;
    LexLeRefl(key(s[last]));
    forall j | 0 <= j < last
      ensures LexLt(key(s[j]), key(s[last])) && LexLe(key(s[j]), key(s[last]))
    {
      LexLeLtTrans(key(s[j]), key(s[i]), key(s[last]));
      LexLtIsStrict(key(s[j]), key(s[last]));
    }
  }

  /** Python's `min(s, key=key)` as an index: the first element whose key is
      least (replacement only on a strictly smaller key). */
  function ArgMinFirst<T>(s: seq<T>, key: T -> seq<real>): (i: nat)
    requires |s| > 0
    ensures i < |s|
    ensures forall j :: 0 <= j < |s| ==> LexLe(key(s[i]), key(s[j]))
    ensures forall j :: 0 <= j < i ==> LexLt(key(s[i]), key(s[j]))
    decreases |s|
  {
    if |s| == 1 then
      LexLeRefl(key(s[0]));
      0
    else
      var i := ArgMinFirst(s[..|s| - 1], key);
      var last := |s| - 1;
      assert forall j :: 0 <= j < last ==> s[j] == s[..last][j];
      if LexLt(key(s[last]), key(s[i])) then
        MinStepNew(s, key, i);
        last
      else
        LexLeTotal(key(s[i]), key(s[last]));
        i
  }

  lemma MinStepNew<T>(s: seq<T>, key: T -> seq<real>, i: nat)
    requires |s| > 1 && i < |s| - 1
    requires forall j :: 0 <= j < |s| - 1 ==> LexLe(key(s[i]), key(s[j]))
    requires LexLt(key(s[|s| - 1]), key(s[i]))
    ensures forall j :: 0 <= j < |s| ==> LexLe(key(s[|s| - 1]), key(s[j]))
    ensures forall j :: 0 <= j < |s| - 1 ==> LexLt(key(s[|s| - 1]), key(s[j]))
  {
    var last := |s| - 1;
    LexLeRefl(key(s[last]));
    forall j | 0 <= j < last
      ensures LexLt(key(s[last]), key(s[j])) && LexLe(key(s[last]), key(s[j]))
    {
      LexLtLeTrans(key(s[last]), key(s[i]), key(s[j]));
      LexLtIsStrict(key(s[last]), key(s[j]));
    }
  }

  /** A one-element tuple compares like its element. */
  lemma LexLeSingle(a: real, b: real)
    ensures LexLe([a], [b]) <==> a <= b
  {
    assert [a][1..] == [] && [b][1..] == [];
    assert LexLe([a][1..], [b][1..]);
  }

  /** Tuples compare on their first element, then on the rest. */
  lemma LexLeHead(a: seq<real>, b: seq<real>)
    requires |a| > 0 && |b| > 0
    ensures LexLe(a, b) <==> a[0] < b[0] || (a[0] == b[0] && LexLe(a[1..], b[1..]))
  {
  }

  /** A pair compares on its first element, then its second. */
  lemma LexLePair(a0: real, a1: real, b0: real, b1: real)
    ensures LexLe([a0, a1], [b0, b1]) <==> a0 < b0 || (a0 == b0 && a1 <= b1)
  {
    assert [a0, a1][1..] == [a1] && [b0, b1][1..] == [b1];
    LexLeSingle(a1, b1);
  }

  /** A triple compares on its first element, then its second, then its third. */
  lemma LexLeTriple(a0: real, a1: real, a2: real, b0: real, b1: real, b2: real)
    ensures LexLe([a0, a1, a2], [b0, b1, b2]) <==> a0 < b0 || (a0 == b0 && (a1 < b1 || (a1 == b1 && a2 <= b2)))
  {
    assert [a0, a1, a2][1..] == [a1, a2] && [b0, b1, b2][1..] == [b1, b2];
    LexLePair(a1, a2, b1, b2);
  }

  /** `max(s, key=f)` with a scalar key, as an index. */
  function ArgMaxFirstBy<T>(s: seq<T>, f: T -> real): (i: nat)
    requires |s| > 0
    ensures i < |s|
    ensures forall j :: 0 <= j < |s| ==> f(s[j]) <= f(s[i])
    ensures forall j :: 0 <= j < i ==> f(s[j]) < f(s[i])
  {
    var key := (x: T) => [f(x)];
    var i := ArgMaxFirst(s, key);
    forall j | 0 <= j < |s|
      ensures f(s[j]) <= f(s[i])
    {
      LexLeSingle(f(s[j]), f(s[i]));
    }
    forall j | 0 <= j < i
      ensures f(s[j]) < f(s[i])
    {
      LexLeSingle(f(s[i]), f(s[j]));
    }
    i
  }

  /** `min(s, key=f)` with a scalar key, as an index. */
  function ArgMinFirstBy<T>(s: seq<T>, f: T -> real): (i: nat)
    requires |s| > 0
    ensures i < |s|
    ensures forall j :: 0 <= j < |s| ==> f(s[i]) <= f(s[j])
    ensures forall j :: 0 <= j < i ==> f(s[i]) < f(s[j])
  {
    var key := (x: T) => [f(x)];
    var i := ArgMinFirst(s, key);
    forall j | 0 <= j < |s|
      ensures f(s[i]) <= f(s[j])
    {
      LexLeSingle(f(s[i]), f(s[j]));
    }
    forall j | 0 <= j < i
      ensures f(s[i]) < f(s[j])
    {
      LexLeSingle(f(s[j]), f(s[i]));
    }
    i
  }

  ghost predicate SortedBy<T>(s: seq<T>, key: T -> seq<real>) {
    forall i, j :: 0 <= i < j < |s| ==> LexLe(key(s[i]), key(s[j]))
  }

  /** The elements of `s` whose key is `k`, in their order in `s`. */
  function WithKey<T>(s: seq<T>, key: T -> seq<real>, k: seq<real>): seq<T>
    decreases |s|
  {
    if s == [] then []
    else (if key(s[0]) == k then [s[0]] else []) + WithKey(s[1..], key, k)
  }

  /** Inserts `x` before the first element whose key is not smaller than x's. */
  function Insert<T(==)>(x: T, s: seq<T>, key: T -> seq<real>): (r: seq<T>)
    ensures multiset(r) == multiset(s) + multiset{x}
    ensures SortedBy(s, key) ==> SortedBy(r, key)
    ensures forall k {:trigger WithKey(r, key, k)} ::
      WithKey(r, key, k) == (if key(x) == k then [x] else []) + WithKey(s, key, k)
    decreases |s|
  {
    if s == [] then
      assert WithKey([x], key, key(x)) == [x] + WithKey([], key, key(x));
      [x]
    else if LexLe(key(x), key(s[0])) then
      InsertFront(x, s, key);
      [x] + s
    else
      var rest := Insert(x, s[1..], key);
      InsertBehind(x, s, key, rest);
      [s[0]] + rest
  }

  lemma InsertFront<T>(x: T, s: seq<T>, key: T -> seq<real>)
    requires s != [] && LexLe(key(x), key(s[0]))
    ensures SortedBy(s, key) ==> SortedBy([x] + s, key)
    ensures forall k {:trigger WithKey([x] + s, key, k)} ::
      WithKey([x] + s, key, k) == (if key(x) == k then [x] else []) + WithKey(s, key, k)
  {
    var r := [x] + s;
    assert r[1..] == s;
    if SortedBy(s, key) {
      forall i, j | 0 <= i < j < |r| ensures LexLe(key(r[i]), key(r[j])) {
        if i == 0 {
          if j > 1 {
            LexLeTrans(key(x), key(s[0]), key(s[j - 1]));
          }
        }
      }
    }
  }

  lemma InsertBehind<T>(x: T, s: seq<T>, key: T -> seq<real>, rest: seq<T>)
    requires s != [] && !LexLe(key(x), key(s[0]))
    requires multiset(rest) == multiset(s[1..]) + multiset{x}
    requires SortedBy(s[1..], key) ==> SortedBy(rest, key)
    requires forall k {:trigger WithKey(rest, key, k)} ::
      WithKey(rest, key, k) == (if key(x) == k then [x] else []) + WithKey(s[1..], key, k)
    ensures multiset([s[0]] + rest) == multiset(s) + multiset{x}
    ensures SortedBy(s, key) ==> SortedBy([s[0]] + rest, key)
    ensures forall k {:trigger WithKey([s[0]] + rest, key, k)} ::
      WithKey([s[0]] + rest, key, k) == (if key(x) == k then [x] else []) + WithKey(s, key, k)
  {
    var r := [s[0]] + rest;
    assert r[1..] == rest;
    assert s == [s[0]] + s[1..];
    if SortedBy(s, key) {
      SortedTail(s, key);
      InsertBehindSorted(x, s, key, rest);
    }
    forall k ensures WithKey(r, key, k) == (if key(x) == k then [x] else []) + WithKey(s, key, k) {
      InsertBehindKey(x, s, key, rest, k);
    }
  }

  lemma SortedTail<T>(s: seq<T>, key: T -> seq<real>)
    requires s != [] && SortedBy(s, key)
    ensures SortedBy(s[1..], key)
  {
    forall i, j | 0 <= i < j < |s[1..]| ensures LexLe(key(s[1..][i]), key(s[1..][j])) {
      assert s[1..][i] == s[i + 1] && s[1..][j] == s[j + 1];
    }
  }

  lemma InsertBehindSorted<T>(x: T, s: seq<T>, key: T -> seq<real>, rest: seq<T>)
    requires s != [] && !LexLe(key(x), key(s[0]))
    requires multiset(rest) == multiset(s[1..]) + multiset{x}
    requires SortedBy(s, key) && SortedBy(rest, key)
    ensures SortedBy([s[0]] + rest, key)
  {
    var r := [s[0]] + rest;
    LexLeTotal(key(x), key(s[0]));
    forall i, j | 0 <= i < j < |r| ensures LexLe(key(r[i]), key(r[j])) {
      if i == 0 {
        var y := r[j];
        assert y == rest[j - 1];
        assert y in multiset(rest);
        assert y == x || y in multiset(s[1..]);
        if y != x {
          var m :| 0 <= m < |s[1..]| && s[1..][m] == y;
          assert s[m + 1] == y;
        }
      } else {
        assert r[i] == rest[i - 1] && r[j] == rest[j - 1];
      }
    }
  }

  lemma InsertBehindKey<T>(x: T, s: seq<T>, key: T -> seq<real>, rest: seq<T>, k: seq<real>)
    requires s != [] && !LexLe(key(x), key(s[0]))
    requires WithKey(rest, key, k) == (if key(x) == k then [x] else []) + WithKey(s[1..], key, k)
    ensures WithKey([s[0]] + rest, key, k) == (if key(x) == k then [x] else []) + WithKey(s, key, k)
  {
    var r := [s[0]] + rest;
    assert r[1..] == rest;
    var head := if key(s[0]) == k then [s[0]] else [];
    assert WithKey(r, key, k) == head + WithKey(rest, key, k);
    assert WithKey(s, key, k) == head + WithKey(s[1..], key, k);
    if key(x) == k {
      assert key(s[0]) != k by {
        if key(s[0]) == k {
          LexLeRefl(k);
        }
      }
      assert head == [];
    } else {
      assert WithKey(r, key, k) == head + WithKey(s[1..], key, k);
    }
  }

  /** Python's stable `sorted(s, key=key)`. A stable sort's output is unique,
      so insertion sort stands for Timsort here. */
  function SortBy<T(==)>(s: seq<T>, key: T -> seq<real>): (r: seq<T>)
    ensures multiset(r) == multiset(s)
    ensures |r| == |s|
    ensures SortedBy(r, key)
    ensures forall k {:trigger WithKey(r, key, k)} :: WithKey(r, key, k) == WithKey(s, key, k)
    decreases |s|
  {
    if s == [] then []
    else
      var tail := SortBy(s[1..], key);
      var r := Insert(s[0], tail, key);
      SortByElems(s, tail, r);
      SortByKeys(s, key, tail, r);
      r
  }

  /** Inserting the head into the sorted tail keeps the elements. */
  lemma SortByElems<T>(s: seq<T>, tail: seq<T>, r: seq<T>)
    requires s != [] && multiset(tail) == multiset(s[1..])
    requires multiset(r) == multiset(tail) + multiset{s[0]}
    ensures multiset(r) == multiset(s) && |r| == |s|
  {
    assert multiset(s) == multiset{s[0]} + multiset(s[1..]) by {
      assert s == [s[0]] + s[1..];
    }
    assert |r| == |multiset(r)| && |s| == |multiset(s)|;
  }

  /** ... and, for every key, their order. */
  lemma SortByKeys<T>(s: seq<T>, key: T -> seq<real>, tail: seq<T>, r: seq<T>)
    requires s != []
    requires forall k {:trigger WithKey(tail, key, k)} :: WithKey(tail, key, k) == WithKey(s[1..], key, k)
    requires forall k {:trigger WithKey(r, key, k)} ::
      WithKey(r, key, k) == (if key(s[0]) == k then [s[0]] else []) + WithKey(tail, key, k)
    ensures forall k {:trigger WithKey(r, key, k)} :: WithKey(r, key, k) == WithKey(s, key, k)
  {
    forall k ensures WithKey(r, key, k) == WithKey(s, key, k) {
      assert WithKey(tail, key, k) == WithKey(s[1..], key, k);
    }
  }

  /** Python's `s[:n]`. */
  function Take<T>(s: seq<T>, n: nat): (r: seq<T>)
    ensures |r| == if |s| < n then |s| else n
    ensures r == s[..|r|]
  {
    if |s| <= n then s else s[..n]
  }
}
