// Generic list operations shared by the extractors: filtering, first-occurrence
// de-duplication (`Array.from(new Set(xs))`), the subsequence order they keep, and the
// two-results-per-item lists the question generators push.

module Seqs {

  predicate NoDuplicates<T(==)>(s: seq<T>)
  {
    forall i, j :: 0 <= i < j < |s| ==> s[i] != s[j]
  }

  /** `a` is `b` with some elements left out, the rest in their order. */
  predicate IsSubsequence<T(==)>(a: seq<T>, b: seq<T>)
    decreases |b|
  {
    if a == [] then true
    else if b == [] then false
    else if a[|a| - 1] == b[|b| - 1] then IsSubsequence(a[..|a| - 1], b[..|b| - 1])
    else IsSubsequence(a, b[..|b| - 1])
  }

  lemma {:induction false} SubsequenceExtend<T>(a: seq<T>, b: seq<T>, x: T)
    requires IsSubsequence(a, b)
    ensures IsSubsequence(a, b + [x])
    decreases |b|, 1
  {
    if a != [] && a[|a| - 1] == x {
      assert (b + [x])[..|b|] == b;
      SubsequenceDrop(a, b);
    }
  }

  /** Leaving out the last element of `a` keeps it a subsequence. */
  lemma {:induction false} SubsequenceDrop<T>(a: seq<T>, b: seq<T>)
    requires a != [] && IsSubsequence(a, b)
    ensures IsSubsequence(a[..|a| - 1], b)
    decreases |b|, 0
  {
    var b' := b[..|b| - 1];
    assert b' + [b[|b| - 1]] == b;
    if a[|a| - 1] == b[|b| - 1] {
      SubsequenceExtend(a[..|a| - 1], b', b[|b| - 1]);
    } else {
      SubsequenceDrop(a, b');
      SubsequenceExtend(a[..|a| - 1], b', b[|b| - 1]);
    }
  }

  lemma {:induction false} SubsequenceTransitive<T>(a: seq<T>, b: seq<T>, c: seq<T>)
    requires IsSubsequence(a, b) && IsSubsequence(b, c)
    ensures IsSubsequence(a, c)
    decreases |c|
  {
    if a == [] {
    } else if b[|b| - 1] == c[|c| - 1] {
      if a[|a| - 1] == b[|b| - 1] {
        SubsequenceTransitive(a[..|a| - 1], b[..|b| - 1], c[..|c| - 1]);
      } else {
        SubsequenceTransitive(a, b[..|b| - 1], c[..|c| - 1]);
      }
    } else {
      SubsequenceTransitive(a, b, c[..|c| - 1]);
      assert c[..|c| - 1] + [c[|c| - 1]] == c;
      SubsequenceExtend(a, c[..|c| - 1], c[|c| - 1]);
    }
  }

  lemma {:induction false} SubsequenceMembers<T>(a: seq<T>, b: seq<T>)
    requires IsSubsequence(a, b)
    ensures forall x :: x in a ==> x in b
    decreases |b|
  {
    if a != [] {
      if a[|a| - 1] == b[|b| - 1] {
        SubsequenceMembers(a[..|a| - 1], b[..|b| - 1]);
        assert a == a[..|a| - 1] + [a[|a| - 1]];
      } else {
        SubsequenceMembers(a, b[..|b| - 1]);
      }
      assert b == b[..|b| - 1] + [b[|b| - 1]];
    }
  }

  /** `s.filter(p)`. */
  function Filter<T(==)>(s: seq<T>, p: T -> bool): (r: seq<T>)
    ensures |r| <= |s|
    ensures forall k :: 0 <= k < |r| ==> r[k] in s && p(r[k])
    ensures forall k :: 0 <= k < |s| && p(s[k]) ==> s[k] in r
  {
    if s == [] then []
    else
      var rest := Filter(s[..|s| - 1], p);
      assert s == s[..|s| - 1] + [s[|s| - 1]];
      if p(s[|s| - 1]) then rest + [s[|s| - 1]] else rest
  }

  lemma {:induction false} FilterIsSubsequence<T>(s: seq<T>, p: T -> bool)
    ensures IsSubsequence(Filter(s, p), s)
  {
    if s != [] {
      var s' := s[..|s| - 1];
      FilterIsSubsequence(s', p);
      if !p(s[|s| - 1]) {
        assert s' + [s[|s| - 1]] == s;
        SubsequenceExtend(Filter(s', p), s', s[|s| - 1]);
      } else {
        assert (Filter(s', p) + [s[|s| - 1]])[..|Filter(s', p)|] == Filter(s', p);
      }
    }
  }

  /** `Array.from(new Set(s))`: the first occurrence of every element, in order. */
  function Dedup<T(==)>(s: seq<T>): (r: seq<T>)
    ensures forall k :: 0 <= k < |r| ==> r[k] in s
    ensures forall k :: 0 <= k < |s| ==> s[k] in r
  {
    if s == [] then []
    else
      var rest := Dedup(s[..|s| - 1]);
      assert s == s[..|s| - 1] + [s[|s| - 1]];
      if s[|s| - 1] in s[..|s| - 1] then rest else rest + [s[|s| - 1]]
  }

  /** De-duplication leaves no repeats. */
  lemma {:induction false} DedupNoDuplicates<T>(s: seq<T>)
    ensures NoDuplicates(Dedup(s))
  {
    if s != [] {
      DedupNoDuplicates(s[..|s| - 1]);
    }
  }

  /** De-duplication keeps the order of the elements it keeps. */
  lemma {:induction false} DedupIsSubsequence<T>(s: seq<T>)
    ensures IsSubsequence(Dedup(s), s)
  {
    if s != [] {
      var s', x := s[..|s| - 1], s[|s| - 1];
      DedupIsSubsequence(s');
      assert s' + [x] == s;
      if x in s' {
        SubsequenceExtend(Dedup(s'), s', x);
      } else {
        assert (Dedup(s') + [x])[..|Dedup(s')|] == Dedup(s');
      }
    }
  }

  /** A list without repeats is its own de-duplication. */
  lemma {:induction false} DedupOfDistinct<T>(s: seq<T>)
    requires NoDuplicates(s)
    ensures Dedup(s) == s
  {
    if s != [] {
      var s', x := s[..|s| - 1], s[|s| - 1];
      assert NoDuplicates(s');
      DedupOfDistinct(s');
      assert s' + [x] == s;
    }
  }

  /** Two results per item, `f` then `g`, in item order. */
  function Pairs<T, U>(items: seq<T>, f: T -> U, g: T -> U): (r: seq<U>)
    ensures |r| == 2 * |items|
    ensures forall i :: 0 <= i < |items| ==> r[2 * i] == f(items[i]) && r[2 * i + 1] == g(items[i])
  {
    if items == [] then []
    else Pairs(items[..|items| - 1], f, g) + [f(items[|items| - 1]), g(items[|items| - 1])]
  }

  lemma PairsSnoc<T, U>(items: seq<T>, x: T, f: T -> U, g: T -> U)
    ensures Pairs(items + [x], f, g) == Pairs(items, f, g) + [f(x), g(x)]
  {
    assert (items + [x])[..|items|] == items;
  }

  /** A non-empty list is its head followed by its tail. */
  lemma HeadTail<T>(s: seq<T>)
    requires |s| >= 1
    ensures [s[0]] + s[1..] == s
  {
  }

  /** Mapping a list that starts with `x` starts with `f(x)`. */
  lemma MapCons<T, U>(x: T, items: seq<T>, f: T -> U)
    ensures Map([x] + items, f) == [f(x)] + Map(items, f)
  {
    var r := Map([x] + items, f);
    assert forall i :: 0 <= i < |items| ==> r[i + 1] == f(([x] + items)[i + 1]) == f(items[i]);
  }

  /** A list whose every element `f` sends to the matching element of `images` maps onto `images`. */
  lemma MapOnto<T, U>(items: seq<T>, images: seq<U>, f: T -> U)
    requires |items| == |images|
    requires forall i :: 0 <= i < |items| ==> f(items[i]) == images[i]
    ensures Map(items, f) == images
  {
  }

  /** A property of the head and of every element of the tail holds of every element of the list. */
  lemma AllCons<T>(x: T, items: seq<T>, p: T -> bool)
    requires p(x) && forall i :: 0 <= i < |items| ==> p(items[i])
    ensures forall i :: 0 <= i < |items| + 1 ==> p(([x] + items)[i])
  {
    forall i | 0 <= i < |items| + 1
      ensures p(([x] + items)[i])
    {
      if i > 0 {
        assert ([x] + items)[i] == items[i - 1];
      }
    }
  }

  /** A loop over the items pushing `f(x)` and then `g(x)` for each onto `acc`. */
  method PushPairs<T, U>(acc: seq<U>, items: seq<T>, f: T -> U, g: T -> U) returns (r: seq<U>)
    ensures r == acc + Pairs(items, f, g)
  {
    r := acc;
    for i := 0 to |items|
      invariant r == acc + Pairs(items[..i], f, g)
    {
      PairsSnoc(items[..i], items[i], f, g);
      assert items[..i + 1] == items[..i] + [items[i]];
      r := r + [f(items[i]), g(items[i])];
    }
    assert items[..|items|] == items;
  }

  /** `items.map(f)`. */
  function Map<T, U>(items: seq<T>, f: T -> U): (r: seq<U>)
    ensures |r| == |items|
    ensures forall i :: 0 <= i < |items| ==> r[i] == f(items[i])
  {
    if items == [] then [] else Map(items[..|items| - 1], f) + [f(items[|items| - 1])]
  }

  /** A loop over the items pushing `f(x)` for each onto `acc`. */
  method PushEach<T, U>(acc: seq<U>, items: seq<T>, f: T -> U) returns (r: seq<U>)
    ensures r == acc + Map(items, f)
  {
    r := acc;
    for i := 0 to |items|
      invariant r == acc + Map(items[..i], f)
    {
      assert items[..i + 1][..i] == items[..i];
      r := r + [f(items[i])];
    }
    assert items[..|items|] == items;
  }

  /** Filtering distributes over concatenation. */
  lemma {:induction false} FilterAppend<T>(a: seq<T>, b: seq<T>, p: T -> bool)
    ensures Filter(a + b, p) == Filter(a, p) + Filter(b, p)
    decreases |b|
  {
    if b == [] {
      assert a + b == a;
    } else {
      var b' := b[..|b| - 1];
      assert (a + b)[..|a + b| - 1] == a + b';
      FilterAppend(a, b', p);
    }
  }

  /** A list none of whose elements passes filters to nothing. */
  lemma {:induction false} FilterNone<T>(s: seq<T>, p: T -> bool)
    requires forall k :: 0 <= k < |s| ==> !p(s[k])
    ensures Filter(s, p) == []
  {
    if s != [] {
      FilterNone(s[..|s| - 1], p);
    }
  }

  /** A list all of whose elements pass filters to itself. */
  lemma {:induction false} FilterAll<T>(s: seq<T>, p: T -> bool)
    requires forall k :: 0 <= k < |s| ==> p(s[k])
    ensures Filter(s, p) == s
  {
    if s != [] {
      FilterAll(s[..|s| - 1], p);
    }
  }

  // ------------------------------------------------------------ a stable sort, largest key first

  predicate Descending<T>(s: seq<T>, key: T -> int)
  {
    forall i, j :: 0 <= i < j < |s| ==> key(s[i]) >= key(s[j])
  }

  /** Where `x` goes among items sorted by descending key: after every item whose key is at least its own. */
  function Position<T>(x: T, s: seq<T>, key: T -> int): (i: nat)
    ensures i <= |s|
    ensures forall k :: 0 <= k < i ==> key(s[k]) >= key(x)
    ensures i < |s| ==> key(s[i]) < key(x)
  {
    if s == [] || key(s[0]) < key(x) then 0 else 1 + Position(x, s[1..], key)
  }

  function InsertDesc<T>(x: T, s: seq<T>, key: T -> int): seq<T>
  {
    s[..Position(x, s, key)] + [x] + s[Position(x, s, key)..]
  }

  lemma InsertDescOrder<T>(x: T, s: seq<T>, key: T -> int)
    requires Descending(s, key)
    ensures Descending(InsertDesc(x, s, key), key)
  {
    var i := Position(x, s, key);
    var r := InsertDesc(x, s, key);
    assert forall k :: 0 <= k < i ==> r[k] == s[k];
    assert r[i] == x;
    assert forall k :: i < k < |r| ==> r[k] == s[k - 1];
    forall a, b | 0 <= a < b < |r|
      ensures key(r[a]) >= key(r[b])
    {
      if a == i && b > i {
        assert key(s[b - 1]) <= key(s[i]);
      }
    }
  }

  lemma InsertDescCount<T>(x: T, s: seq<T>, key: T -> int)
    ensures multiset(InsertDesc(x, s, key)) == multiset(s) + multiset{x}
  {
    var i := Position(x, s, key);
    assert s[..i] + s[i..] == s;
  }

  /** A stable insertion sort by descending key: equal keys keep their order. */
  function SortDesc<T(==)>(s: seq<T>, key: T -> int): (r: seq<T>)
    ensures Descending(r, key)
    ensures multiset(r) == multiset(s)
  {
    if s == [] then []
    else
      var rest := SortDesc(s[..|s| - 1], key);
      InsertDescOrder(s[|s| - 1], rest, key);
      InsertDescCount(s[|s| - 1], rest, key);
      assert s == s[..|s| - 1] + [s[|s| - 1]];
      InsertDesc(s[|s| - 1], rest, key)
  }

  /** The items whose key is `t`, in order. */
  function WithKey<T>(s: seq<T>, key: T -> int, t: int): seq<T>
  {
    if s == [] then [] else WithKey(s[..|s| - 1], key, t) + (if key(s[|s| - 1]) == t then [s[|s| - 1]] else [])
  }

  lemma {:induction false} WithKeyAppend<T>(a: seq<T>, b: seq<T>, key: T -> int, t: int)
    ensures WithKey(a + b, key, t) == WithKey(a, key, t) + WithKey(b, key, t)
    decreases |b|
  {
    if b == [] {
      assert a + b == a;
    } else {
      var b' := b[..|b| - 1];
      assert (a + b)[..|a + b| - 1] == a + b';
      WithKeyAppend(a, b', key, t);
    }
  }

  lemma {:induction false} WithKeyNone<T>(s: seq<T>, key: T -> int, t: int)
    requires forall k :: 0 <= k < |s| ==> key(s[k]) != t
    ensures WithKey(s, key, t) == []
  {
    if s != [] {
      WithKeyNone(s[..|s| - 1], key, t);
    }
  }

  lemma WithKeySingle<T>(x: T, key: T -> int, t: int)
    ensures WithKey([x], key, t) == (if key(x) == t then [x] else [])
  {
    assert [x][..0] == [];
  }

  /** Splicing `x` into a list whose tail has no item of `x`'s key puts it last among them. */
  lemma SpliceWithKey<T>(a: seq<T>, x: T, b: seq<T>, key: T -> int, t: int)
    requires key(x) == t ==> WithKey(b, key, t) == []
    ensures WithKey(a + [x] + b, key, t) == WithKey(a + b, key, t) + (if key(x) == t then [x] else [])
  {
    WithKeyAppend(a + [x], b, key, t);
    WithKeyAppend(a, [x], key, t);
    WithKeySingle(x, key, t);
    WithKeyAppend(a, b, key, t);
  }

  /** Every item from `x`'s position on has a smaller key than `x`. */
  lemma TailBelow<T>(x: T, s: seq<T>, key: T -> int)
    requires Descending(s, key)
    ensures forall k :: 0 <= k < |s[Position(x, s, key)..]| ==> key(s[Position(x, s, key)..][k]) < key(x)
  {
    var i := Position(x, s, key);
    forall k | 0 <= k < |s[i..]|
      ensures key(s[i..][k]) < key(x)
    {
      assert s[i..][k] == s[i + k];
      assert key(s[i + k]) <= key(s[i]);
    }
  }

  /** Inserting keeps the items of each key in order, `x` last among its own. */
  lemma InsertDescStable<T>(x: T, s: seq<T>, key: T -> int, t: int)
    requires Descending(s, key)
    ensures WithKey(InsertDesc(x, s, key), key, t) == WithKey(s, key, t) + (if key(x) == t then [x] else [])
  {
    var i := Position(x, s, key);
    TailBelow(x, s, key);
    if key(x) == t {
      WithKeyNone(s[i..], key, t);
    }
    SpliceWithKey(s[..i], x, s[i..], key, t);
    assert s[..i] + s[i..] == s;
  }

  /** The sort is stable: for every key, the items with that key come out in their original order. */
  lemma {:induction false} SortDescStable<T>(s: seq<T>, key: T -> int, t: int)
    ensures WithKey(SortDesc(s, key), key, t) == WithKey(s, key, t)
  {
    if s != [] {
      var init := s[..|s| - 1];
      var last := s[|s| - 1];
      SortDescStable(init, key, t);
      InsertDescStable(last, SortDesc(init, key), key, t);
      assert s == init + [last];
      WithKeyAppend(init, [last], key, t);
      WithKeySingle(last, key, t);
    }
  }
}
