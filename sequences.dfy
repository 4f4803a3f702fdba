/**
 * List operations of Python that the model uses on records: slicing with
 * `s[:k]`, filtering comprehensions and the stable `sorted` / `list.sort`.
 */
module Sequences {

  /** Python's `s[:k]`, including the negative `k` that counts from the end. */
  function SliceTo<T>(s: seq<T>, k: int): (r: seq<T>)
    ensures k >= 0 ==> |r| == if k < |s| then k else |s|
    ensures k < 0 ==> |r| == if |s| + k > 0 then |s| + k else 0
    ensures r == s[..|r|]
  {
    if k >= 0 then (if k < |s| then s[..k] else s)
    else if |s| + k > 0 then s[..|s| + k] else []
  }

  /** `a` is what is left of `b` once a prefix is dropped. */
  predicate IsSuffix<T(==)>(a: seq<T>, b: seq<T>) {
    |a| <= |b| && a == b[|b| - |a|..]
  }

  /** `a` is `b` with some elements removed, the rest in their original order. */
  predicate IsSubsequence<T(==)>(a: seq<T>, b: seq<T>)
    decreases |b|
  {
    if a == [] then true
    else if b == [] then false
    else (a[0] == b[0] && IsSubsequence(a[1..], b[1..])) || IsSubsequence(a, b[1..])
  }

  lemma {:induction false} SubsequenceTransitive<T>(a: seq<T>, b: seq<T>, c: seq<T>)
    requires IsSubsequence(a, b) && IsSubsequence(b, c)
    ensures IsSubsequence(a, c)
    decreases |a| + |b| + |c|
  {
    if a != [] {
      assert b != [] && c != [];
      if IsSubsequence(b, c[1..]) {
        SubsequenceTransitive(a, b, c[1..]);
      } else {
        assert b[0] == c[0] && IsSubsequence(b[1..], c[1..]);
        if a[0] == b[0] && IsSubsequence(a[1..], b[1..]) {
          SubsequenceTransitive(a[1..], b[1..], c[1..]);
        } else {
          SubsequenceTransitive(a, b[1..], c[1..]);
        }
      }
    }
  }

  lemma {:induction false} SubsequenceMembers<T>(a: seq<T>, b: seq<T>)
    requires IsSubsequence(a, b)
    ensures forall i :: 0 <= i < |a| ==> a[i] in b
    ensures |a| <= |b|
    decreases |b|
  {
    if a != [] {
      if a[0] == b[0] && IsSubsequence(a[1..], b[1..]) {
        SubsequenceMembers(a[1..], b[1..]);
      } else {
        SubsequenceMembers(a, b[1..]);
      }
    }
  }

  lemma {:induction false} SubsequenceOfItself<T>(a: seq<T>)
    ensures IsSubsequence(a, a)
  {
    if a != [] {
      SubsequenceOfItself(a[1..]);
    }
  }

  /** Appending to the longer list keeps a subsequence, and so does appending to both. */
  lemma {:induction false} SubsequenceExtend<T>(a: seq<T>, b: seq<T>, x: T)
    requires IsSubsequence(a, b)
    ensures IsSubsequence(a, b + [x]) && IsSubsequence(a + [x], b + [x])
    decreases |b|
  {
    if b == [] {
      assert [x][1..] == [];
    } else {
      assert (b + [x])[1..] == b[1..] + [x];
      if a == [] {
        SubsequenceExtend(a, b[1..], x);
        assert a + [x] == [x];
      } else if a[0] == b[0] && IsSubsequence(a[1..], b[1..]) {
        SubsequenceExtend(a[1..], b[1..], x);
        assert (a + [x])[1..] == a[1..] + [x];
      } else {
        SubsequenceExtend(a, b[1..], x);
      }
    }
  }

  /** A list comprehension `[x for x in s if p(x)]`. */
  function Filter<T>(s: seq<T>, p: T -> bool): (r: seq<T>)
    ensures |r| <= |s|
    ensures forall i :: 0 <= i < |r| ==> r[i] in s && p(r[i])
    ensures forall i :: 0 <= i < |s| && p(s[i]) ==> s[i] in r
  {
    if s == [] then []
    else if p(s[0]) then [s[0]] + Filter(s[1..], p)
    else Filter(s[1..], p)
  }

  lemma {:induction false} FilterIsSubsequence<T>(s: seq<T>, p: T -> bool)
    ensures IsSubsequence(Filter(s, p), s)
  {
    if s != [] {
      FilterIsSubsequence(s[1..], p);
      if p(s[0]) {
        assert Filter(s, p)[1..] == Filter(s[1..], p);
      }
    }
  }

  lemma {:induction false} FilterMultiset<T>(s: seq<T>, p: T -> bool)
    ensures multiset(Filter(s, p)) <= multiset(s)
  {
    if s != [] {
      FilterMultiset(s[1..], p);
      var head := if p(s[0]) then [s[0]] else [];
      assert Filter(s, p) == head + Filter(s[1..], p);
      assert s == [s[0]] + s[1..];
      assert multiset(s) == multiset{s[0]} + multiset(s[1..]);
      assert multiset(Filter(s, p)) == multiset(head) + multiset(Filter(s[1..], p));
    }
  }

  /** `le` is a total preorder: the order a sort key's `<=` induces. */
  ghost predicate TotalPreorder<T(!new)>(le: (T, T) -> bool) {
    && (forall a, b :: le(a, b) || le(b, a))
    && (forall a, b, c :: le(a, b) && le(b, c) ==> le(a, c))
  }

  predicate SortedBy<T>(s: seq<T>, le: (T, T) -> bool) {
    forall i, j :: 0 <= i < j < |s| ==> le(s[i], s[j])
  }

  /** Two elements with equal sort keys. */
  predicate Tied<T>(le: (T, T) -> bool, a: T, b: T) {
    le(a, b) && le(b, a)
  }

  /** The elements of `s` whose key equals that of `c`, in order. */
  function TiedWith<T>(s: seq<T>, le: (T, T) -> bool, c: T): seq<T> {
    if s == [] then []
    else if Tied(le, c, s[0]) then [s[0]] + TiedWith(s[1..], le, c)
    else TiedWith(s[1..], le, c)
  }

  /** Insertion of `x` in front of every element that is not strictly smaller. */
  function Insert<T>(x: T, s: seq<T>, le: (T, T) -> bool): (r: seq<T>)
    ensures |r| == |s| + 1 && multiset(r) == multiset{x} + multiset(s)
  {
    if s == [] || le(x, s[0]) then [x] + s
    else
      assert s == [s[0]] + s[1..];
      [s[0]] + Insert(x, s[1..], le)
  }

  /**
   * The stable sort by `le`.  A stable sort's result is unique, so this is the
   * list Python's `sorted` (and `list.sort`) produces for the same key order.
   */
  function SortBy<T>(s: seq<T>, le: (T, T) -> bool): (r: seq<T>)
    ensures |r| == |s| && multiset(r) == multiset(s)
  {
    if s == [] then []
    else
      assert s == [s[0]] + s[1..];
      Insert(s[0], SortBy(s[1..], le), le)
  }

  lemma {:induction false} InsertSorted<T(!new)>(x: T, s: seq<T>, le: (T, T) -> bool)
    requires TotalPreorder(le) && SortedBy(s, le)
    ensures SortedBy(Insert(x, s, le), le)
  {
    if s != [] && !le(x, s[0]) {
      InsertSorted(x, s[1..], le);
      var r := Insert(x, s, le);
      assert le(s[0], x);
      forall j | 1 <= j < |r| ensures le(s[0], r[j]) {
        assert r[j] in multiset{x} + multiset(s[1..]);
      }
    }
  }

  lemma {:induction false} SortBySorted<T(!new)>(s: seq<T>, le: (T, T) -> bool)
    requires TotalPreorder(le)
    ensures SortedBy(SortBy(s, le), le)
  {
    if s != [] {
      SortBySorted(s[1..], le);
      InsertSorted(s[0], SortBy(s[1..], le), le);
    }
  }

  lemma {:induction false} TiedWithAppend<T>(a: seq<T>, b: seq<T>, le: (T, T) -> bool, c: T)
    ensures TiedWith(a + b, le, c) == TiedWith(a, le, c) + TiedWith(b, le, c)
  {
    if a != [] {
      TiedWithAppend(a[1..], b, le, c);
      assert (a + b)[1..] == a[1..] + b;
    } else {
      assert a + b == b;
    }
  }

  lemma TiedWithSingle<T>(x: T, le: (T, T) -> bool, c: T)
    ensures TiedWith([x], le, c) == if Tied(le, c, x) then [x] else []
  {
    assert [x][1..] == [];
  }

  lemma {:induction false} InsertStable<T(!new)>(x: T, s: seq<T>, le: (T, T) -> bool, c: T)
    requires TotalPreorder(le)
    ensures TiedWith(Insert(x, s, le), le, c) == TiedWith([x] + s, le, c)
  {
    if s != [] && !le(x, s[0]) {
      InsertStable(x, s[1..], le, c);
      assert !(Tied(le, c, x) && Tied(le, c, s[0]));
      InsertStableStep(x, s, le, c);
    }
  }

  /** One step of InsertStable: `x` moves past a strictly smaller `s[0]`, which cannot tie with `c` as `x` does. */
  lemma InsertStableStep<T>(x: T, s: seq<T>, le: (T, T) -> bool, c: T)
    requires s != [] && !le(x, s[0])
    requires !(Tied(le, c, x) && Tied(le, c, s[0]))
    requires TiedWith(Insert(x, s[1..], le), le, c) == TiedWith([x] + s[1..], le, c)
    ensures TiedWith(Insert(x, s, le), le, c) == TiedWith([x] + s, le, c)
  {
    var tx, t0, rest := TiedWith([x], le, c), TiedWith([s[0]], le, c), TiedWith(s[1..], le, c);
    TiedWithSingle(x, le, c);
    TiedWithSingle(s[0], le, c);
    TiedWithAppend([s[0]], Insert(x, s[1..], le), le, c);
    TiedWithAppend([x], s[1..], le, c);
    assert TiedWith(Insert(x, s, le), le, c) == t0 + (tx + rest);
    assert s == [s[0]] + s[1..];
    TiedWithAppend([s[0]], s[1..], le, c);
    TiedWithAppend([x], s, le, c);
    assert TiedWith([x] + s, le, c) == tx + (t0 + rest);
  }

  /** Stability: elements with equal keys keep their relative order. */
  lemma {:induction false} SortByStable<T(!new)>(s: seq<T>, le: (T, T) -> bool, c: T)
    requires TotalPreorder(le)
    ensures TiedWith(SortBy(s, le), le, c) == TiedWith(s, le, c)
  {
    if s != [] {
      SortByStable(s[1..], le, c);
      InsertStable(s[0], SortBy(s[1..], le), le, c);
      TiedWithAppend([s[0]], SortBy(s[1..], le), le, c);
      TiedWithAppend([s[0]], s[1..], le, c);
      assert s == [s[0]] + s[1..];
    }
  }

  /** Any subsequence of a sorted list is sorted. */
  lemma {:induction false} SubsequenceSorted<T>(a: seq<T>, b: seq<T>, le: (T, T) -> bool)
    requires IsSubsequence(a, b) && SortedBy(b, le)
    ensures SortedBy(a, le)
    decreases |b|
  {
    if a != [] {
      assert b != [];
      assert SortedBy(b[1..], le);
      if a[0] == b[0] && IsSubsequence(a[1..], b[1..]) {
        SubsequenceSorted(a[1..], b[1..], le);
        SubsequenceMembers(a[1..], b[1..]);
        forall j | 0 < j < |a| ensures le(a[0], a[j]) {
          assert a[j] == a[1..][j - 1];
          var k :| 0 <= k < |b[1..]| && b[1..][k] == a[j];
          assert b[k + 1] == a[j];
        }
      } else {
        SubsequenceSorted(a, b[1..], le);
      }
    }
  }

  /** Two lists with the same multiset have the same members. */
  lemma MultisetMembers<T>(a: seq<T>, b: seq<T>)
    requires multiset(a) == multiset(b)
    ensures forall x :: x in a <==> x in b
  {
    forall x ensures x in a <==> x in b {
      assert x in a <==> x in multiset(a);
      assert x in b <==> x in multiset(b);
    }
  }
}
