/** Sequence helpers: flattening, fixed-size windows and a stable sort by an integer key. */
module Seqs {

  function Min(a: int, b: int): int { if a <= b then a else b }

  function Max(a: int, b: int): int { if a >= b then a else b }

  /** Ceiling of n / d. */
  function CeilDiv(n: nat, d: nat): nat
    requires d > 0
  {
    (n + d - 1) / d
  }

  /** Concatenation of a sequence of sequences. */
  function Flatten<T>(ss: seq<seq<T>>): seq<T> {
    if ss == [] then [] else ss[0] + Flatten(ss[1..])
  }

  lemma {:induction false} FlattenAppend<T>(a: seq<seq<T>>, b: seq<seq<T>>)
    ensures Flatten(a + b) == Flatten(a) + Flatten(b)
  {
    if a == [] {
      assert a + b == b;
    } else {
      assert (a + b)[0] == a[0];
      assert (a + b)[1..] == a[1..] + b;
      FlattenAppend(a[1..], b);
    }
  }

  /** An element of a flattening sits in one of the parts. */
  lemma {:induction false} FlattenIn<T>(ss: seq<seq<T>>, x: T)
    ensures x in Flatten(ss) <==> exists k :: 0 <= k < |ss| && x in ss[k]
  {
    if ss != [] {
      FlattenIn(ss[1..], x);
      assert forall k :: 0 <= k < |ss| - 1 ==> ss[1..][k] == ss[k + 1];
      if x in Flatten(ss) && x !in ss[0] {
        var k :| 0 <= k < |ss[1..]| && x in ss[1..][k];
        assert x in ss[k + 1];
      }
    }
  }

  lemma FlattenSingle<T>(s: seq<T>)
    ensures Flatten([s]) == s
  {
    assert [s][1..] == [];
  }

  /** Number of windows of at most `size` elements needed to cover `n` elements. */
  function WindowCount(n: nat, size: nat): nat
    requires size > 0
    decreases n
  {
    if n == 0 then 0 else if n <= size then 1 else 1 + WindowCount(n - size, size)
  }

  /** `WindowCount` is the ceiling of n / size. */
  lemma {:induction false} WindowCountIsCeiling(n: nat, size: nat)
    requires size > 0
    ensures WindowCount(n, size) == CeilDiv(n, size)
    decreases n
  {
    if n == 0 {
    } else if n <= size {
      DivUnique(n + size - 1, size, 1);
    } else {
      WindowCountIsCeiling(n - size, size);
      DivShift(n - size + size - 1, size);
    }
  }

  lemma DivUnique(a: nat, d: nat, q: nat)
    requires d > 0
    requires q * d <= a < q * d + d
    ensures a / d == q
  {
    var q2, r2 := a / d, a % d;
    assert a == q2 * d + r2 && 0 <= r2 < d;
    assert (q + 1) * d == q * d + d;
    assert (q2 + 1) * d == q2 * d + d;
    if q2 > q {
      MulMono(q + 1, q2, d);
    } else if q2 < q {
      MulMono(q2 + 1, q, d);
    }
  }

  lemma MulMono(a: nat, b: nat, d: nat)
    requires a <= b
    ensures a * d <= b * d
  {
  }

  lemma DivShift(a: nat, d: nat)
    requires d > 0
    ensures (a + d) / d == a / d + 1
  {
    var q := a / d;
    assert q * d <= a < q * d + d;
    assert (q + 1) * d == q * d + d;
    DivUnique(a + d, d, q + 1);
  }

  /**
   * The consecutive windows `[s[i:i+size] for i in range(0, len(s), size)]`:
   * every window is non-empty and at most `size` long, and together they are `s`.
   */
  function Chunked<T>(s: seq<T>, size: nat): (r: seq<seq<T>>)
    requires size > 0
    ensures |r| == WindowCount(|s|, size)
    ensures forall k :: 0 <= k < |r| ==> 0 < |r[k]| <= size
    decreases |s|
  {
    if |s| == 0 then []
    else if |s| <= size then [s]
    else [s[..size]] + Chunked(s[size..], size)
  }

  /** Together the windows are `s`. */
  lemma {:induction false} ChunkedFlatten<T>(s: seq<T>, size: nat)
    requires size > 0
    ensures Flatten(Chunked(s, size)) == s
    decreases |s|
  {
    if |s| == 0 {
    } else if |s| <= size {
      FlattenSingle(s);
    } else {
      var rest := Chunked(s[size..], size);
      ChunkedFlatten(s[size..], size);
      assert ([s[..size]] + rest)[1..] == rest;
      assert s[..size] + s[size..] == s;
    }
  }

  /** Window `k` exists exactly when it starts before the end. */
  lemma {:induction false} WindowCountBound(n: nat, size: nat, k: nat)
    requires size > 0
    ensures k < WindowCount(n, size) <==> k * size < n
    decreases n
  {
    if n == 0 {
    } else if n <= size {
      if k > 0 { MulMono(1, k, size); }
    } else if k > 0 {
      WindowCountBound(n - size, size, k - 1);
      MulStep(k - 1, k, size);
    }
  }

  /** The k-th window of `Chunked(s, size)` is the slice starting at `k * size`. */
  lemma ChunkedAt<T>(s: seq<T>, size: nat, k: nat)
    requires size > 0
    requires k < |Chunked(s, size)|
    ensures k * size < |s|
    ensures Chunked(s, size)[k] == s[k * size .. Min(k * size + size, |s|)]
  {
    ChunkedFrom(s, size, k, k * size);
  }

  /** `ChunkedAt` with the window's start `lo` named, so that the induction stays linear. */
  lemma {:induction false} ChunkedFrom<T>(s: seq<T>, size: nat, k: nat, lo: nat)
    requires size > 0
    requires k < |Chunked(s, size)| && lo == k * size
    ensures lo < |s|
    ensures Chunked(s, size)[k] == s[lo .. Min(lo + size, |s|)]
    decreases k
  {
    if k == 0 {
      assert lo == 0;
      ChunkedFirst(s, size);
    } else {
      var t := s[size..];
      var c := Chunked(t, size);
      assert |s| > size && Chunked(s, size)[k] == c[k - 1] by {
        assert Chunked(s, size) == [s[..size]] + c;
      }
      var j: nat := PrevStart(k, size);
      ChunkedFrom(t, size, k - 1, j);
      var hi := Min(lo + size, |s|);
      assert c[k - 1] == t[j .. hi - size];
      SliceOfSuffix(s, size, j, hi - size);
    }
  }

  /** The first window is the first `size` items, or all of them. */
  lemma ChunkedFirst<T>(s: seq<T>, size: nat)
    requires size > 0 && |Chunked(s, size)| > 0
    ensures 0 < |s| && Chunked(s, size)[0] == s[0 .. Min(size, |s|)]
  {
    if |s| <= size {
      assert Chunked(s, size) == [s];
    } else {
      assert Chunked(s, size) == [s[..size]] + Chunked(s[size..], size);
    }
  }

  /** The start of the window before window `k`. */
  lemma PrevStart(k: nat, size: nat) returns (j: nat)
    requires k > 0
    ensures j == (k - 1) * size && j + size == k * size
  {
    j := (k - 1) * size;
  }

  lemma MulStep(a: nat, b: nat, size: nat)
    requires b == a + 1
    ensures a * size + size == b * size
  {
  }

  /** Dropping the last element of `a + b`, for a non-empty `b`. */
  lemma ConcatButLast<T>(a: seq<T>, b: seq<T>)
    requires |b| > 0
    ensures (a + b)[..|a| + |b| - 1] == a + b[..|b| - 1]
    ensures (a + b)[|a| + |b| - 1] == b[|b| - 1]
  {
  }

  lemma SliceJoin<T>(s: seq<T>, i: nat, j: nat)
    requires i <= j <= |s|
    ensures s[..i] + s[i..j] == s[..j]
  {
  }

  lemma SliceOfSuffix<T>(s: seq<T>, m: nat, i: nat, j: nat)
    requires m <= |s| && i <= j <= |s| - m
    ensures s[m..][i..j] == s[m + i .. m + j]
  {
  }

  /** `s` is ordered by `key`. */
  ghost predicate SortedBy<T>(s: seq<T>, key: T -> int) {
    forall i, j :: 0 <= i < j < |s| ==> key(s[i]) <= key(s[j])
  }

  /** Inserts `x` before the first element whose key is not smaller. */
  function Insert<T>(x: T, s: seq<T>, key: T -> int): (r: seq<T>)
    ensures multiset(r) == multiset(s) + multiset{x}
    ensures |r| == |s| + 1
  {
    if s == [] then [x]
    else if key(x) <= key(s[0]) then [x] + s
    else
      var rest := Insert(x, s[1..], key);
      assert s == [s[0]] + s[1..];
      assert multiset([s[0]] + rest) == multiset{s[0]} + multiset(rest);
      [s[0]] + rest
  }

  /** An inserted sequence holds `x` and the elements of `s`, nothing else. */
  lemma InsertMembers<T>(x: T, s: seq<T>, key: T -> int)
    ensures forall y :: y in Insert(x, s, key) ==> y == x || y in s
  {
    var r := Insert(x, s, key);
    forall y | y in r
      ensures y == x || y in s
    {
      assert y in multiset(r);
    }
  }

  /** An element whose key bounds those of a sorted sequence can lead it. */
  lemma SortedCons<T>(a: T, rest: seq<T>, key: T -> int)
    requires SortedBy(rest, key) && forall y :: y in rest ==> key(a) <= key(y)
    ensures SortedBy([a] + rest, key)
  {
    var r := [a] + rest;
    forall i, j | 0 <= i < j < |r|
      ensures key(r[i]) <= key(r[j])
    {
      assert r[j] == rest[j - 1];
      if i > 0 {
        assert r[i] == rest[i - 1];
      } else {
        assert r[j] in rest;
      }
    }
  }

  lemma {:induction false} InsertSorted<T>(x: T, s: seq<T>, key: T -> int)
    requires SortedBy(s, key)
    ensures SortedBy(Insert(x, s, key), key)
  {
    if s != [] {
      forall y | y in s
        ensures key(s[0]) <= key(y)
      {
        var i :| 0 <= i < |s| && s[i] == y;
        if i > 0 { assert key(s[0]) <= key(s[i]); }
      }
      if key(x) <= key(s[0]) {
        SortedCons(x, s, key);
      } else {
        var tail := s[1..];
        assert SortedBy(tail, key) by {
          forall i, j | 0 <= i < j < |tail|
            ensures key(tail[i]) <= key(tail[j])
          {
            assert tail[i] == s[i + 1] && tail[j] == s[j + 1];
          }
        }
        InsertSorted(x, tail, key);
        InsertMembers(x, tail, key);
        var rest := Insert(x, tail, key);
        forall y | y in rest
          ensures key(s[0]) <= key(y)
        {
          if y != x {
            assert y in s;
          }
        }
        SortedCons(s[0], rest, key);
        assert Insert(x, s, key) == [s[0]] + rest;
      }
    }
  }

  /** Stable insertion sort by an integer key, the model of an ORDER BY on one column. */
  function SortBy<T>(s: seq<T>, key: T -> int): (r: seq<T>)
    ensures SortedBy(r, key)
    ensures multiset(r) == multiset(s)
    ensures |r| == |s|
  {
    if s == [] then []
    else
      assert s == [s[0]] + s[1..];
      InsertSorted(s[0], SortBy(s[1..], key), key);
      Insert(s[0], SortBy(s[1..], key), key)
  }

  /** The elements of `s` that satisfy `p`, in order. */
  function Filter<T(!new)>(s: seq<T>, p: T -> bool): (r: seq<T>)
    ensures |r| <= |s|
    ensures multiset(r) <= multiset(s)
    ensures forall x :: x in r ==> x in s && p(x)
    ensures forall x :: x in s && p(x) ==> x in r
    ensures forall x :: multiset(r)[x] == if p(x) then multiset(s)[x] else 0
  {
    if s == [] then [] else
      var rest := Filter(s[1..], p);
      HeadTail(s);
      if p(s[0]) then [s[0]] + rest else rest
  }

  /** A non-empty sequence is its head followed by its tail, as members and as a multiset. */
  lemma HeadTail<T>(s: seq<T>)
    requires s != []
    ensures forall x :: x in s <==> x == s[0] || x in s[1..]
    ensures multiset(s) == multiset{s[0]} + multiset(s[1..])
  {
    assert s == [s[0]] + s[1..];
  }

  /** Nothing passes the filter when no element satisfies the predicate. */
  lemma {:induction false} FilterNone<T(!new)>(s: seq<T>, p: T -> bool)
    requires forall x :: x in s ==> !p(x)
    ensures Filter(s, p) == []
  {
    if s != [] {
      assert forall x :: x in s[1..] ==> x in s;
      FilterNone(s[1..], p);
    }
  }

  /** `Filter` without its contract, for the order proofs below. */
  function Keep<T>(s: seq<T>, p: T -> bool): seq<T> {
    if s == [] then [] else (if p(s[0]) then [s[0]] else []) + Keep(s[1..], p)
  }

  lemma {:induction false} KeepIsFilter<T(!new)>(s: seq<T>, p: T -> bool)
    ensures Keep(s, p) == Filter(s, p)
  {
    if s != [] {
      KeepIsFilter(s[1..], p);
    }
  }

  /** Any two kept elements occur in the input in the same order. */
  lemma FilterOrdered<T(!new)>(s: seq<T>, p: T -> bool)
    ensures forall i, j :: 0 <= i < j < |Filter(s, p)| ==>
              exists a, b :: 0 <= a < b < |s| && s[a] == Filter(s, p)[i] && s[b] == Filter(s, p)[j]
  {
    KeepIsFilter(s, p);
    forall i, j | 0 <= i < j < |Keep(s, p)|
      ensures exists a, b :: 0 <= a < b < |s| && s[a] == Keep(s, p)[i] && s[b] == Keep(s, p)[j]
    {
      var a, b := KeepOrderedAt(s, p, i, j);
    }
  }

  lemma {:induction false} KeepIndexAt<T>(s: seq<T>, p: T -> bool, j: nat) returns (b: nat)
    requires j < |Keep(s, p)|
    ensures b < |s| && s[b] == Keep(s, p)[j]
  {
    var rest := Keep(s[1..], p);
    if p(s[0]) && j == 0 {
      b := 0;
    } else {
      var b' := KeepIndexAt(s[1..], p, if p(s[0]) then j - 1 else j);
      b := b' + 1;
    }
  }

  lemma {:induction false} KeepOrderedAt<T>(s: seq<T>, p: T -> bool, i: nat, j: nat) returns (a: nat, b: nat)
    requires i < j < |Keep(s, p)|
    ensures a < b < |s| && s[a] == Keep(s, p)[i] && s[b] == Keep(s, p)[j]
  {
    var rest := Keep(s[1..], p);
    if p(s[0]) {
      assert Keep(s, p) == [s[0]] + rest;
      if i == 0 {
        var b' := KeepIndexAt(s[1..], p, j - 1);
        a, b := 0, b' + 1;
      } else {
        var a', b' := KeepOrderedAt(s[1..], p, i - 1, j - 1);
        a, b := a' + 1, b' + 1;
      }
    } else {
      var a', b' := KeepOrderedAt(s[1..], p, i, j);
      a, b := a' + 1, b' + 1;
    }
  }

  /**
   * In a sequence without repetitions, the first `t` kept elements are the top of the input: an
   * element that satisfies the predicate and comes before one of them is one of them.
   */
  lemma FilterPrefixClosed<T(!new)>(s: seq<T>, p: T -> bool, t: nat)
    requires Distinct(s) && t <= |Filter(s, p)|
    ensures forall a, b :: 0 <= a < b < |s| && p(s[a]) && s[b] in Filter(s, p)[..t] ==> s[a] in Filter(s, p)[..t]
  {
    KeepIsFilter(s, p);
    forall a, b | 0 <= a < b < |s| && p(s[a]) && s[b] in Keep(s, p)[..t] ensures s[a] in Keep(s, p)[..t] {
      KeepPrefixAt(s, p, t, a, b);
    }
  }

  lemma {:induction false} KeepPrefixAt<T>(s: seq<T>, p: T -> bool, t: nat, a: nat, b: nat)
    requires Distinct(s) && t <= |Keep(s, p)| && a < b < |s| && p(s[a]) && s[b] in Keep(s, p)[..t]
    ensures s[a] in Keep(s, p)[..t]
  {
    DistinctTail(s);
    var rest := Keep(s[1..], p);
    assert s[1..][b - 1] == s[b];
    if a > 0 {
      assert s[1..][a - 1] == s[a];
    }
    if p(s[0]) {
      assert Keep(s, p) == [s[0]] + rest;
      ConsPrefixIn(s[b], s[0], rest, t);
      ConsPrefixIn(s[a], s[0], rest, t);
      if a > 0 {
        assert s[b] != s[0];
        KeepPrefixAt(s[1..], p, t - 1, a - 1, b - 1);
      }
    } else {
      assert Keep(s, p) == rest;
      KeepPrefixAt(s[1..], p, t, a - 1, b - 1);
    }
  }

  /** Membership in a prefix of `[h] + rest`. */
  lemma ConsPrefixIn<T>(x: T, h: T, rest: seq<T>, t: nat)
    requires t <= |rest| + 1
    ensures x in ([h] + rest)[..t] <==> t > 0 && (x == h || x in rest[..t - 1])
  {
    if t > 0 {
      assert ([h] + rest)[..t] == [h] + rest[..t - 1];
    }
  }

  /** The tail of a sequence without repetitions has none either. */
  lemma DistinctTail<T>(s: seq<T>)
    requires Distinct(s) && s != []
    ensures Distinct(s[1..])
  {
    forall i, j | 0 <= i < j < |s| - 1 ensures s[1..][i] != s[1..][j] {
      assert s[1..][i] == s[i + 1] && s[1..][j] == s[j + 1];
    }
  }

  /** No element occurs twice. */
  ghost predicate Distinct<T>(s: seq<T>) {
    forall i, j :: 0 <= i < j < |s| ==> s[i] != s[j]
  }

  /** A sequence without repetitions holds every value at most once. */
  lemma {:induction false} DistinctCount<T>(s: seq<T>, x: T)
    requires Distinct(s)
    ensures multiset(s)[x] <= 1
  {
    if s != [] {
      assert s == [s[0]] + s[1..];
      assert Distinct(s[1..]) by {
        forall i, j | 0 <= i < j < |s| - 1 ensures s[1..][i] != s[1..][j] {
          assert s[1..][i] == s[i + 1] && s[1..][j] == s[j + 1];
        }
      }
      DistinctCount(s[1..], x);
      if x == s[0] {
        assert x !in s[1..] by {
          forall i | 0 <= i < |s| - 1 ensures s[1..][i] != x { assert s[1..][i] == s[i + 1]; }
        }
      }
    }
  }

  /** A sequence that holds every value at most once has no repetitions. */
  lemma CountDistinct<T>(s: seq<T>)
    requires forall x :: multiset(s)[x] <= 1
    ensures Distinct(s)
  {
    forall i, j | 0 <= i < j < |s| ensures s[i] != s[j] {
      var x := s[i];
      assert s == s[..j] + s[j..];
      assert x in multiset(s[..j]) by { assert s[..j][i] == x; }
      assert multiset(s)[x] == multiset(s[..j])[x] + multiset(s[j..])[x];
      assert s[j..][0] == s[j];
      assert s[j] in multiset(s[j..]);
    }
  }

  /** The indices `0 .. n-1`. */
  function Range(n: nat): (r: seq<nat>)
    ensures |r| == n && forall i :: 0 <= i < n ==> r[i] == i
  {
    seq(n, i requires 0 <= i < n => i)
  }

  // ---------------------------------------------------------------- sliding windows

  /** The index range `[lo, hi)` of one window. */
  datatype Span = Span(lo: nat, hi: nat)

  /** A window loop over `n` items with the given window size and overlap terminates: windows are non-empty and advance. */
  predicate SlideTerminates(n: nat, size: int, overlap: int) {
    size > 0 && (n <= size || overlap < size)
  }

  /**
   * The windows a `while start < n` loop visits from `start` on: each is `[start, min(start + size, n))`,
   * the loop stops after the window that reaches `n`, and otherwise restarts `overlap` items before its end.
   */
  function Slide(n: nat, size: int, overlap: int, start: nat): seq<Span>
    requires SlideTerminates(n, size, overlap)
    decreases n - start
  {
    if start >= n then []
    else
      var hi := Min(start + size, n);
      [Span(start, hi)] + (if hi == n then [] else Slide(n, size, overlap, Max(0, hi - overlap)))
  }

  /** Spans inside `[0, n)`, each non-empty and at most `size` rows; all but the last exactly `size` rows, each next one starting `overlap` rows before the previous end. */
  ghost predicate SpansShape(ws: seq<Span>, n: nat, size: int, overlap: int) {
    (forall k :: 0 <= k < |ws| ==> ws[k].lo < ws[k].hi <= n && ws[k].hi - ws[k].lo <= size)
    && (forall k :: 0 <= k < |ws| - 1 ==> ws[k].hi - ws[k].lo == size && ws[k + 1].lo == Max(0, ws[k].hi - overlap))
  }

  ghost predicate Covered(ws: seq<Span>, i: nat) {
    exists k :: 0 <= k < |ws| && ws[k].lo <= i < ws[k].hi
  }

  /** One step of the window loop, as `Slide` unfolds. */
  lemma SlideUnfold(n: nat, size: int, overlap: int, start: nat, hi: nat)
    requires SlideTerminates(n, size, overlap) && start < n && hi == Min(start + size, n)
    ensures hi > start
    ensures Slide(n, size, overlap, start)
            == [Span(start, hi)] + (if hi == n then [] else Slide(n, size, overlap, Max(0, hi - overlap)))
    ensures hi < n ==> start < Max(0, hi - overlap) && hi - start == size
  {
  }

  /** The windows from `start` have the shape above, and the first one starts at `start`. */
  lemma SlideShape(n: nat, size: int, overlap: int, start: nat)
    requires SlideTerminates(n, size, overlap)
    ensures SpansShape(Slide(n, size, overlap, start), n, size, overlap)
    ensures Slide(n, size, overlap, start) == [] <==> start >= n
    ensures start < n ==> Slide(n, size, overlap, start)[0].lo == start
  {
    SlideSpans(n, size, overlap, start);
    SlideFirst(n, size, overlap, start);
  }

  /** No windows from `n` on; otherwise the first one starts at `start`. */
  lemma SlideFirst(n: nat, size: int, overlap: int, start: nat)
    requires SlideTerminates(n, size, overlap)
    ensures Slide(n, size, overlap, start) == [] <==> start >= n
    ensures start < n ==> Slide(n, size, overlap, start)[0].lo == start
  {
    if start < n {
      SlideUnfold(n, size, overlap, start, Min(start + size, n));
    }
  }

  lemma {:induction false} SlideSpans(n: nat, size: int, overlap: int, start: nat)
    requires SlideTerminates(n, size, overlap)
    ensures SpansShape(Slide(n, size, overlap, start), n, size, overlap)
    decreases n - start
  {
    if start < n {
      var hi := Min(start + size, n);
      SlideUnfold(n, size, overlap, start, hi);
      if hi < n {
        var next := Max(0, hi - overlap);
        SlideSpans(n, size, overlap, next);
        SlideFirst(n, size, overlap, next);
        ConsShape(Span(start, hi), Slide(n, size, overlap, next), n, size, overlap);
      } else {
        assert Slide(n, size, overlap, start) == [Span(start, hi)];
      }
    }
  }

  /** Every window but the last ends before `n`. */
  lemma {:induction false} SlideInner(n: nat, size: int, overlap: int, start: nat)
    requires SlideTerminates(n, size, overlap)
    ensures forall k :: 0 <= k < |Slide(n, size, overlap, start)| - 1 ==> Slide(n, size, overlap, start)[k].hi < n
    decreases n - start
  {
    if start < n {
      var hi := Min(start + size, n);
      SlideUnfold(n, size, overlap, start, hi);
      if hi < n {
        var next := Max(0, hi - overlap);
        SlideInner(n, size, overlap, next);
        var ws := Slide(n, size, overlap, start);
        var rest := Slide(n, size, overlap, next);
        forall k | 0 <= k < |ws| - 1 ensures ws[k].hi < n {
          if k > 0 { assert ws[k] == rest[k - 1]; }
        }
      }
    }
  }

  /** A full window followed by a shaped sequence that starts `overlap` items before its end is shaped. */
  lemma ConsShape(w: Span, rest: seq<Span>, n: nat, size: int, overlap: int)
    requires w.lo < w.hi <= n && w.hi - w.lo == size
    requires SpansShape(rest, n, size, overlap) && (rest != [] ==> rest[0].lo == Max(0, w.hi - overlap))
    ensures SpansShape([w] + rest, n, size, overlap)
  {
    var ws := [w] + rest;
    forall k | 0 <= k < |ws| ensures ws[k].lo < ws[k].hi <= n && ws[k].hi - ws[k].lo <= size {
      if k > 0 { assert ws[k] == rest[k - 1]; }
    }
    forall k | 0 <= k < |ws| - 1
      ensures ws[k].hi - ws[k].lo == size && ws[k + 1].lo == Max(0, ws[k].hi - overlap)
    {
      if k > 0 { assert ws[k] == rest[k - 1] && ws[k + 1] == rest[k]; }
    }
  }

  /** With a non-negative overlap the windows from `start` end at `n` and cover every index from `start` on. */
  lemma {:induction false} SlideCover(n: nat, size: int, overlap: int, start: nat)
    requires SlideTerminates(n, size, overlap) && overlap >= 0 && start < n
    ensures |Slide(n, size, overlap, start)| > 0
    ensures Slide(n, size, overlap, start)[|Slide(n, size, overlap, start)| - 1].hi == n
    ensures forall i :: start <= i < n ==> Covered(Slide(n, size, overlap, start), i)
    decreases n - start
  {
    var ws := Slide(n, size, overlap, start);
    var hi := Min(start + size, n);
    SlideUnfold(n, size, overlap, start, hi);
    if hi == n {
      forall i | start <= i < n ensures Covered(ws, i) { assert ws[0].lo <= i < ws[0].hi; }
    } else {
      var next := Max(0, hi - overlap);
      var rest := Slide(n, size, overlap, next);
      SlideCover(n, size, overlap, next);
      assert ws[|ws| - 1] == rest[|rest| - 1];
      forall i | start <= i < n ensures Covered(ws, i) {
        if i < hi {
          assert ws[0].lo <= i < ws[0].hi;
        } else {
          assert Covered(rest, i);
          var k :| 0 <= k < |rest| && rest[k].lo <= i < rest[k].hi;
          assert ws[k + 1] == rest[k];
        }
      }
    }
  }

  /** Spans that lie within `[0, n)`. */
  ghost predicate SpansWithin(ws: seq<Span>, n: nat) {
    forall k :: 0 <= k < |ws| ==> ws[k].lo <= ws[k].hi <= n
  }

  /** Bookkeeping of a loop that walks a sequence of items: taking the next item `w` off `from`. */
  lemma DoneStep<T>(done: seq<T>, w: T, rest: seq<T>, from: seq<T>, all: seq<T>)
    requires done + from == all && from == [w] + rest
    ensures (done + [w]) + rest == all
    ensures rest == [] ==> done + [w] == all
  {
    assert done + ([w] + rest) == (done + [w]) + rest;
  }

  /** Concatenation is associative (stated for the solver, which does not always find it). */
  lemma AppendAssoc<T>(a: seq<T>, b: seq<T>, c: seq<T>)
    ensures (a + b) + c == a + (b + c)
  {
  }
}
