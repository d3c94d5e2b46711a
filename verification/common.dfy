/**
 * Collection and text helpers shared by every page of the marketplace:
 * the `filter`, `map` and `reduce` shapes the page handlers are built from,
 * ASCII case folding, substring search and the decimal rendering of ids.
 */
module Common {

  datatype Option<+T> = None | Some(value: T)

  // ---------------------------------------------------------------------
  // filter
  // ---------------------------------------------------------------------

  /** The elements of `s` for which `keep` holds, in their original order. */
  function Filter<T>(s: seq<T>, keep: T -> bool): (r: seq<T>)
    ensures |r| <= |s|
    ensures forall i :: 0 <= i < |r| ==> r[i] in s && keep(r[i])
    ensures forall i :: 0 <= i < |s| && keep(s[i]) ==> s[i] in r
  {
    if s == [] then []
    else
      assert s == [s[0]] + s[1..];
      (if keep(s[0]) then [s[0]] else []) + Filter(s[1..], keep)
  }

  /** Filtering distributes over concatenation: the kept elements stay in order. */
  lemma {:induction false} FilterAppend<T>(a: seq<T>, b: seq<T>, keep: T -> bool)
    ensures Filter(a + b, keep) == Filter(a, keep) + Filter(b, keep)
  {
    if a == [] {
      assert a + b == b;
    } else {
      assert (a + b)[0] == a[0];
      assert (a + b)[1..] == a[1..] + b;
      FilterAppend(a[1..], b, keep);
    }
  }

  /** A filter that keeps every element is the identity. */
  lemma {:induction false} FilterKeepsAll<T>(s: seq<T>, keep: T -> bool)
    requires forall x :: x in s ==> keep(x)
    ensures Filter(s, keep) == s
  {
    if s != [] {
      assert s == [s[0]] + s[1..];
      assert keep(s[0]);
      assert forall x :: x in s[1..] ==> x in s;
      FilterKeepsAll(s[1..], keep);
      assert Filter(s, keep) == [s[0]] + Filter(s[1..], keep);
    }
  }

  /** A filter that keeps nothing yields the empty list. */
  lemma FilterKeepsNone<T>(s: seq<T>, keep: T -> bool)
    requires forall x :: x in s ==> !keep(x)
    ensures Filter(s, keep) == []
  {
  }

  /** A filter that keeps every entry, by index, is the identity. */
  lemma FilterKeepsEvery<T>(s: seq<T>, keep: T -> bool)
    requires forall i :: 0 <= i < |s| ==> keep(s[i])
    ensures Filter(s, keep) == s
  {
    forall x | x in s ensures keep(x) {
      var i :| 0 <= i < |s| && s[i] == x;
    }
    FilterKeepsAll(s, keep);
  }

  /** Filtering out one dropped element between two lists filters the two lists. */
  lemma FilterDropsMiddle<T>(a: seq<T>, y: T, b: seq<T>, keep: T -> bool)
    requires !keep(y)
    ensures Filter(a + ([y] + b), keep) == Filter(a, keep) + Filter(b, keep)
  {
    FilterAppend(a, [y] + b, keep);
    assert ([y] + b)[1..] == b;
  }

  /** A filter that drops exactly the entry at index `k` removes just that entry. */
  lemma FilterRemovesOnlyAt<T>(s: seq<T>, keep: T -> bool, k: int)
    requires 0 <= k < |s|
    requires forall i :: 0 <= i < |s| ==> (keep(s[i]) <==> i != k)
    ensures Filter(s, keep) == s[..k] + s[k + 1..]
  {
    var a, b := s[..k], s[k + 1..];
    assert forall i :: 0 <= i < |a| ==> keep(a[i]) by {
      forall i | 0 <= i < |a| ensures keep(a[i]) {
        assert a[i] == s[i];
      }
    }
    assert forall i :: 0 <= i < |b| ==> keep(b[i]) by {
      forall i | 0 <= i < |b| ensures keep(b[i]) {
        assert b[i] == s[k + 1 + i];
      }
    }
    FilterKeepsEvery(a, keep);
    FilterKeepsEvery(b, keep);
    SplitAt(s, k);
    FilterDropsMiddle(a, s[k], b, keep);
  }

  /** A list is its part before `k`, its element at `k` and its part after `k`. */
  lemma SplitAt<T>(s: seq<T>, k: int)
    requires 0 <= k < |s|
    ensures s == s[..k] + ([s[k]] + s[k + 1..])
  {
  }

  /** `ok` holds between every earlier and every later element. */
  ghost predicate Pairwise<T>(s: seq<T>, ok: (T, T) -> bool)
  {
    forall i, j :: 0 <= i < j < |s| ==> ok(s[i], s[j])
  }

  /** An element related to everything after it can go in front of a pairwise list. */
  lemma PrependPairwise<T>(x: T, s: seq<T>, ok: (T, T) -> bool)
    requires Pairwise(s, ok)
    requires forall j :: 0 <= j < |s| ==> ok(x, s[j])
    ensures Pairwise([x] + s, ok)
  {
    var r := [x] + s;
    forall i, j | 0 <= i < j < |r| ensures ok(r[i], r[j]) {
      assert r[j] == s[j - 1];
      if i > 0 {
        assert r[i] == s[i - 1];
      }
    }
  }

  /** One step of the filter: the head, when kept, followed by the filtered tail. */
  lemma FilterCons<T>(s: seq<T>, keep: T -> bool)
    requires s != []
    ensures Filter(s, keep) == (if keep(s[0]) then [s[0]] else []) + Filter(s[1..], keep)
  {
  }

  /** Filtering a list with one element put in front. */
  lemma FilterPrepend<T>(y: T, t: seq<T>, keep: T -> bool)
    ensures Filter([y] + t, keep) == (if keep(y) then [y] else []) + Filter(t, keep)
  {
    FilterCons([y] + t, keep);
    assert ([y] + t)[1..] == t;
  }

  /** A relation that holds between every earlier and later element still holds after filtering. */
  lemma {:induction false} FilterKeepsPairwise<T>(s: seq<T>, keep: T -> bool, ok: (T, T) -> bool)
    requires Pairwise(s, ok)
    ensures Pairwise(Filter(s, keep), ok)
  {
    if s != [] {
      var tail := s[1..];
      assert Pairwise(tail, ok) by {
        forall i, j | 0 <= i < j < |tail| ensures ok(tail[i], tail[j]) {
          assert tail[i] == s[i + 1] && tail[j] == s[j + 1];
        }
      }
      FilterKeepsPairwise(tail, keep, ok);
      var rest := Filter(tail, keep);
      FilterCons(s, keep);
      if keep(s[0]) {
        forall j | 0 <= j < |rest| ensures ok(s[0], rest[j]) {
          var m :| 0 <= m < |tail| && tail[m] == rest[j];
          assert tail[m] == s[m + 1];
        }
        PrependPairwise(s[0], rest, ok);
      }
    }
  }

  /** `r` is read off `s` at the strictly increasing positions `idx`. */
  ghost predicate SelectedAt<T>(r: seq<T>, s: seq<T>, idx: seq<int>)
  {
    |idx| == |r| &&
    (forall i :: 0 <= i < |idx| ==> 0 <= idx[i] < |s| && r[i] == s[idx[i]]) &&
    (forall i, j :: 0 <= i < j < |idx| ==> idx[i] < idx[j])
  }

  /** `r` is a subsequence of `s`: the same elements, in the same order, each taken once. */
  ghost predicate IsSubsequence<T>(r: seq<T>, s: seq<T>)
  {
    exists idx: seq<int> :: SelectedAt(r, s, idx)
  }

  /** Positions read off the tail of a list, moved one place along, read the same elements off the list. */
  lemma ShiftSelection<T>(r: seq<T>, s: seq<T>, idx: seq<int>) returns (shifted: seq<int>)
    requires s != [] && SelectedAt(r, s[1..], idx)
    ensures SelectedAt(r, s, shifted)
    ensures forall i :: 0 <= i < |shifted| ==> shifted[i] >= 1
  {
    shifted := seq(|idx|, i requires 0 <= i < |idx| => idx[i] + 1);
    forall i | 0 <= i < |shifted| ensures r[i] == s[shifted[i]] {
      assert s[1..][idx[i]] == s[idx[i] + 1];
    }
  }

  /** The positions `Filter` keeps, in increasing order. */
  lemma {:induction false} FilterSelects<T>(s: seq<T>, keep: T -> bool) returns (idx: seq<int>)
    ensures SelectedAt(Filter(s, keep), s, idx)
  {
    if s == [] {
      idx := [];
    } else {
      var rest := Filter(s[1..], keep);
      var tailIdx := FilterSelects(s[1..], keep);
      var shifted := ShiftSelection(rest, s, tailIdx);
      FilterCons(s, keep);
      if keep(s[0]) {
        idx := PrependSelection(rest, s, shifted);
      } else {
        idx := shifted;
      }
    }
  }

  /** Position 0 in front of positions past it reads the head in front of what they read. */
  lemma PrependSelection<T>(r: seq<T>, s: seq<T>, shifted: seq<int>) returns (idx: seq<int>)
    requires s != [] && SelectedAt(r, s, shifted)
    requires forall i :: 0 <= i < |shifted| ==> shifted[i] >= 1
    ensures SelectedAt([s[0]] + r, s, idx)
  {
    idx := [0] + shifted;
    var r' := [s[0]] + r;
    forall i | 0 <= i < |idx| ensures 0 <= idx[i] < |s| && r'[i] == s[idx[i]] {
      if i > 0 {
        assert idx[i] == shifted[i - 1] && r'[i] == r[i - 1];
      }
    }
    forall i, j | 0 <= i < j < |idx| ensures idx[i] < idx[j] {
      assert idx[j] == shifted[j - 1];
      if i > 0 {
        assert idx[i] == shifted[i - 1];
      }
    }
  }

  /** Filtering keeps the kept elements in their order, each once: the result is a subsequence. */
  lemma FilterIsSubsequence<T>(s: seq<T>, keep: T -> bool)
    ensures IsSubsequence(Filter(s, keep), s)
  {
    var idx := FilterSelects(s, keep);
  }

  /** Number of elements satisfying `p` (the `.filter(p).length` of the pages). */
  function Count<T>(s: seq<T>, p: T -> bool): nat
  {
    |Filter(s, p)|
  }

  lemma CountAppend<T>(a: seq<T>, b: seq<T>, p: T -> bool)
    ensures Count(a + b, p) == Count(a, p) + Count(b, p)
  {
    FilterAppend(a, b, p);
  }

  /** A weaker predicate counts at least as many elements. */
  lemma {:induction false} CountMonotone<T>(s: seq<T>, p: T -> bool, q: T -> bool)
    requires forall x :: x in s && p(x) ==> q(x)
    ensures Count(s, p) <= Count(s, q)
  {
    if s != [] {
      assert forall x :: x in s[1..] ==> x in s;
      CountMonotone(s[1..], p, q);
    }
  }

  /** When every element satisfies exactly one of three predicates, the three counts add up to the length. */
  lemma {:induction false} CountPartition3<T>(s: seq<T>, p: T -> bool, q: T -> bool, r: T -> bool)
    requires forall x :: x in s ==> (p(x) || q(x) || r(x))
    requires forall x :: x in s ==> !(p(x) && q(x)) && !(p(x) && r(x)) && !(q(x) && r(x))
    ensures Count(s, p) + Count(s, q) + Count(s, r) == |s|
  {
    if s != [] {
      assert forall x :: x in s[1..] ==> x in s;
      CountPartition3(s[1..], p, q, r);
    }
  }

  // ---------------------------------------------------------------------
  // map over the entries selected by a predicate
  // ---------------------------------------------------------------------

  /** `s.map(x => matches(x) ? f(x) : x)`: the "update the entry with this id" shape. */
  function MapWhere<T>(s: seq<T>, matches: T -> bool, f: T -> T): (r: seq<T>)
    ensures |r| == |s|
    ensures forall i :: 0 <= i < |s| ==> r[i] == if matches(s[i]) then f(s[i]) else s[i]
  {
    if s == [] then []
    else [if matches(s[0]) then f(s[0]) else s[0]] + MapWhere(s[1..], matches, f)
  }

  /** Nothing matches: the map leaves the list as it was. */
  lemma MapWhereNoMatch<T>(s: seq<T>, matches: T -> bool, f: T -> T)
    requires forall x :: x in s ==> !matches(x)
    ensures MapWhere(s, matches, f) == s
  {
    var r := MapWhere(s, matches, f);
    forall i | 0 <= i < |s| ensures r[i] == s[i] {
      assert s[i] in s;
    }
  }

  /** Exactly the entry at index `k` matches. */
  ghost predicate OnlyMatchAt<T>(s: seq<T>, matches: T -> bool, k: int)
  {
    0 <= k < |s| && forall i :: 0 <= i < |s| ==> (matches(s[i]) <==> i == k)
  }

  /** Updating the single matching entry moves it from one count to another and changes no other count. */
  lemma {:induction false} MapWhereCountOne<T>(s: seq<T>, matches: T -> bool, f: T -> T, p: T -> bool, k: int)
    requires OnlyMatchAt(s, matches, k)
    ensures Count(MapWhere(s, matches, f), p)
         == Count(s, p) - (if p(s[k]) then 1 else 0) + (if p(f(s[k])) then 1 else 0)
  {
    var r := MapWhere(s, matches, f);
    assert s == [s[0]] + s[1..];
    assert r == [r[0]] + r[1..];
    assert r[1..] == MapWhere(s[1..], matches, f);
    if k == 0 {
      forall x | x in s[1..] ensures !matches(x) {
        var j :| 0 <= j < |s[1..]| && s[1..][j] == x;
        assert s[j + 1] == x;
      }
      MapWhereNoMatch(s[1..], matches, f);
    } else {
      assert OnlyMatchAt(s[1..], matches, k - 1) by {
        forall i | 0 <= i < |s[1..]| ensures matches(s[1..][i]) <==> i == k - 1 {
          assert s[1..][i] == s[i + 1];
        }
      }
      MapWhereCountOne(s[1..], matches, f, p, k - 1);
    }
  }

  // ---------------------------------------------------------------------
  // reduce (sums)
  // ---------------------------------------------------------------------

  /** `s.reduce((sum, x) => sum + f(x), 0)` over exact decimal money. */
  function Sum<T>(s: seq<T>, f: T -> real): real
  {
    if s == [] then 0.0 else f(s[0]) + Sum(s[1..], f)
  }

  /** `s.reduce((sum, x) => sum + f(x), 0)` over integers. */
  function IntSum<T>(s: seq<T>, f: T -> int): int
  {
    if s == [] then 0 else f(s[0]) + IntSum(s[1..], f)
  }

  lemma {:induction false} SumAppend<T>(a: seq<T>, b: seq<T>, f: T -> real)
    ensures Sum(a + b, f) == Sum(a, f) + Sum(b, f)
  {
    if a == [] {
      assert a + b == b;
    } else {
      assert (a + b)[0] == a[0];
      assert (a + b)[1..] == a[1..] + b;
      SumAppend(a[1..], b, f);
    }
  }

  lemma {:induction false} IntSumAppend<T>(a: seq<T>, b: seq<T>, f: T -> int)
    ensures IntSum(a + b, f) == IntSum(a, f) + IntSum(b, f)
  {
    if a == [] {
      assert a + b == b;
    } else {
      assert (a + b)[0] == a[0];
      assert (a + b)[1..] == a[1..] + b;
      IntSumAppend(a[1..], b, f);
    }
  }

  /** A sum of non-negative terms is non-negative. */
  lemma {:induction false} SumNonNegative<T>(s: seq<T>, f: T -> real)
    requires forall x :: x in s ==> f(x) >= 0.0
    ensures Sum(s, f) >= 0.0
  {
    if s != [] {
      assert forall x :: x in s[1..] ==> x in s;
      SumNonNegative(s[1..], f);
    }
  }

  /** A sum of non-negative integer terms is non-negative. */
  lemma {:induction false} IntSumNonNegative<T>(s: seq<T>, f: T -> int)
    requires forall x :: x in s ==> f(x) >= 0
    ensures IntSum(s, f) >= 0
  {
    if s != [] {
      assert forall x :: x in s[1..] ==> x in s;
      IntSumNonNegative(s[1..], f);
    }
  }

  /** Dropping elements whose term is zero does not change an integer sum. */
  lemma {:induction false} IntSumFilterZero<T>(s: seq<T>, keep: T -> bool, f: T -> int)
    requires forall x :: x in s && !keep(x) ==> f(x) == 0
    ensures IntSum(Filter(s, keep), f) == IntSum(s, f)
  {
    if s != [] {
      assert forall x :: x in s[1..] ==> x in s;
      IntSumFilterZero(s[1..], keep, f);
      var head := if keep(s[0]) then [s[0]] else [];
      IntSumAppend(head, Filter(s[1..], keep), f);
    }
  }

  /** Dropping elements whose term is zero does not change a sum. */
  lemma {:induction false} SumFilterZero<T>(s: seq<T>, keep: T -> bool, f: T -> real)
    requires forall x :: x in s && !keep(x) ==> f(x) == 0.0
    ensures Sum(Filter(s, keep), f) == Sum(s, f)
  {
    if s != [] {
      assert forall x :: x in s[1..] ==> x in s;
      SumFilterZero(s[1..], keep, f);
      var head := if keep(s[0]) then [s[0]] else [];
      SumAppend(head, Filter(s[1..], keep), f);
    }
  }

  /** Summing over the kept elements is summing the terms that the filter would keep. */
  lemma {:induction false} SumOverFilter<T>(s: seq<T>, keep: T -> bool, g: T -> real)
    ensures Sum(Filter(s, keep), g) == Sum(s, (x: T) => if keep(x) then g(x) else 0.0)
  {
    if s != [] {
      SumOverFilter(s[1..], keep, g);
      var head := if keep(s[0]) then [s[0]] else [];
      SumAppend(head, Filter(s[1..], keep), g);
    }
  }

  /** Dropping the element at `k` takes its share off a sum. */
  lemma SumRemoveAt<T>(s: seq<T>, k: int, f: T -> real)
    requires 0 <= k < |s|
    ensures Sum(s[..k] + s[k + 1..], f) == Sum(s, f) - f(s[k])
  {
    assert s[..k] + s[k..] == s;
    SumAppend(s[..k], s[k..], f);
    SumAppend(s[..k], s[k + 1..], f);
    assert s[k..][1..] == s[k + 1..];
    assert Sum(s[k..], f) == f(s[k]) + Sum(s[k + 1..], f);
  }

  /** Dropping the element at `k` takes its share off an integer sum. */
  lemma IntSumRemoveAt<T>(s: seq<T>, k: int, f: T -> int)
    requires 0 <= k < |s|
    ensures IntSum(s[..k] + s[k + 1..], f) == IntSum(s, f) - f(s[k])
  {
    assert s[..k] + s[k..] == s;
    IntSumAppend(s[..k], s[k..], f);
    IntSumAppend(s[..k], s[k + 1..], f);
    assert s[k..][1..] == s[k + 1..];
    assert IntSum(s[k..], f) == f(s[k]) + IntSum(s[k + 1..], f);
  }

  /** Two term functions that agree on every element give the same sum. */
  lemma {:induction false} SumCongruent<T>(s: seq<T>, f: T -> real, g: T -> real)
    requires forall x :: x in s ==> f(x) == g(x)
    ensures Sum(s, f) == Sum(s, g)
  {
    if s != [] {
      assert forall x :: x in s[1..] ==> x in s;
      SumCongruent(s[1..], f, g);
    }
  }

  /** A constant factor can be taken out of a sum. */
  lemma {:induction false} SumScale<T>(s: seq<T>, f: T -> real, g: T -> real, c: real)
    requires forall x :: x in s ==> g(x) == f(x) * c
    ensures Sum(s, g) == Sum(s, f) * c
  {
    if s != [] {
      assert forall x :: x in s[1..] ==> x in s;
      SumScale(s[1..], f, g, c);
    }
  }

  /** Updating the single matching entry changes the integer sum by the change in that entry's term. */
  lemma {:induction false} MapWhereIntSumOne<T>(s: seq<T>, matches: T -> bool, f: T -> T, g: T -> int, k: int)
    requires OnlyMatchAt(s, matches, k)
    ensures IntSum(MapWhere(s, matches, f), g) == IntSum(s, g) - g(s[k]) + g(f(s[k]))
  {
    var r := MapWhere(s, matches, f);
    assert r[1..] == MapWhere(s[1..], matches, f);
    if k == 0 {
      forall x | x in s[1..] ensures !matches(x) {
        var j :| 0 <= j < |s[1..]| && s[1..][j] == x;
        assert s[j + 1] == x;
      }
      MapWhereNoMatch(s[1..], matches, f);
    } else {
      assert OnlyMatchAt(s[1..], matches, k - 1) by {
        forall i | 0 <= i < |s[1..]| ensures matches(s[1..][i]) <==> i == k - 1 {
          assert s[1..][i] == s[i + 1];
        }
      }
      MapWhereIntSumOne(s[1..], matches, f, g, k - 1);
    }
  }

  /** Updating the single matching entry changes the sum by the change in that entry's term. */
  lemma {:induction false} MapWhereSumOne<T>(s: seq<T>, matches: T -> bool, f: T -> T, g: T -> real, k: int)
    requires OnlyMatchAt(s, matches, k)
    ensures Sum(MapWhere(s, matches, f), g) == Sum(s, g) - g(s[k]) + g(f(s[k]))
  {
    var r := MapWhere(s, matches, f);
    assert r[1..] == MapWhere(s[1..], matches, f);
    if k == 0 {
      forall x | x in s[1..] ensures !matches(x) {
        var j :| 0 <= j < |s[1..]| && s[1..][j] == x;
        assert s[j + 1] == x;
      }
      MapWhereNoMatch(s[1..], matches, f);
    } else {
      assert OnlyMatchAt(s[1..], matches, k - 1) by {
        forall i | 0 <= i < |s[1..]| ensures matches(s[1..][i]) <==> i == k - 1 {
          assert s[1..][i] == s[i + 1];
        }
      }
      MapWhereSumOne(s[1..], matches, f, g, k - 1);
    }
  }

  /** Updating the single matching entry changes a filtered sum by that entry's kept term, before and after. */
  lemma MapWhereFilteredSumOne<T>(s: seq<T>, matches: T -> bool, f: T -> T, keep: T -> bool, g: T -> real, k: int)
    requires OnlyMatchAt(s, matches, k)
    ensures Sum(Filter(MapWhere(s, matches, f), keep), g)
         == Sum(Filter(s, keep), g) - (if keep(s[k]) then g(s[k]) else 0.0)
                                    + (if keep(f(s[k])) then g(f(s[k])) else 0.0)
  {
    var masked := (x: T) => if keep(x) then g(x) else 0.0;
    SumOverFilter(s, keep, g);
    SumOverFilter(MapWhere(s, matches, f), keep, g);
    MapWhereSumOne(s, matches, f, masked, k);
  }

  // ---------------------------------------------------------------------
  // text: ASCII case folding, substring search, decimal rendering
  // ---------------------------------------------------------------------

  function LowerChar(c: char): char
  {
    if 'A' <= c <= 'Z' then (c as int + 32) as char else c
  }

  /** `s.toLowerCase()`, restricted to the ASCII letters. */
  function Lower(s: string): (r: string)
    ensures |r| == |s|
    ensures forall i :: 0 <= i < |s| ==> r[i] == LowerChar(s[i])
    ensures forall i :: 0 <= i < |r| ==> !('A' <= r[i] <= 'Z')
  {
    if s == [] then [] else [LowerChar(s[0])] + Lower(s[1..])
  }

  /** Case folding is idempotent. */
  lemma LowerIdempotent(s: string)
    ensures Lower(Lower(s)) == Lower(s)
  {
  }

  /** `hay.includes(needle)`. */
  predicate Contains(hay: string, needle: string)
    decreases |hay|
  {
    needle <= hay || (hay != [] && Contains(hay[1..], needle))
  }

  /** `needle` occurs in `hay` starting at offset `i`. */
  ghost predicate OccursAt(hay: string, needle: string, i: int)
  {
    0 <= i && i + |needle| <= |hay| && hay[i..i + |needle|] == needle
  }

  /** An occurrence at any offset is found by `includes`. */
  lemma {:induction false} OccursAtContains(hay: string, needle: string, i: int)
    requires OccursAt(hay, needle, i)
    ensures Contains(hay, needle)
    decreases i
  {
    if i == 0 {
      assert hay[..|needle|] == needle;
    } else {
      assert hay[1..][i - 1..i - 1 + |needle|] == hay[i..i + |needle|];
      OccursAtContains(hay[1..], needle, i - 1);
    }
  }

  /** What `includes` finds occurs at some offset. */
  lemma {:induction false} ContainsOccurs(hay: string, needle: string) returns (i: int)
    requires Contains(hay, needle)
    ensures OccursAt(hay, needle, i)
    decreases |hay|
  {
    if needle <= hay {
      i := 0;
      assert hay[..|needle|] == needle;
    } else {
      var j := ContainsOccurs(hay[1..], needle);
      assert hay[1..][j..j + |needle|] == hay[j + 1..j + 1 + |needle|];
      i := j + 1;
    }
  }

  /** `includes` finds `needle` exactly when it occurs at some offset of `hay`. */
  lemma ContainsIff(hay: string, needle: string)
    ensures Contains(hay, needle) <==> exists i :: OccursAt(hay, needle, i)
  {
    if Contains(hay, needle) {
      var i := ContainsOccurs(hay, needle);
    }
    if exists i :: OccursAt(hay, needle, i) {
      var i :| OccursAt(hay, needle, i);
      OccursAtContains(hay, needle, i);
    }
  }

  /** Every text contains the empty text: an empty search term matches everything. */
  lemma ContainsEmpty(hay: string)
    ensures Contains(hay, "")
  {
  }

  /** Every text matches a search for itself. */
  lemma MatchesSelf(s: string)
    ensures Contains(Lower(s), Lower(s))
  {
  }

  /** Case-insensitive `includes`, as the search boxes use it. */
  predicate MatchesTerm(field: string, term: string)
  {
    Contains(Lower(field), Lower(term))
  }

  function DigitChar(d: int): char
    requires 0 <= d < 10
  {
    "0123456789"[d]
  }

  /** The digit character of `d` stands for `d`. */
  lemma DigitCharValue(d: int)
    requires 0 <= d < 10
    ensures DigitChar(d) as int - '0' as int == d
  {
  }

  /** Decimal digits of a natural number, most significant first. */
  function NatToString(n: nat): (r: string)
    ensures |r| >= 1
    ensures forall i :: 0 <= i < |r| ==> '0' <= r[i] <= '9'
  {
    if n < 10 then [DigitChar(n)] else NatToString(n / 10) + [DigitChar(n % 10)]
  }

  /** The value of a string of decimal digits. */
  function DigitsValue(s: string): int
  {
    if s == [] then 0 else DigitsValue(s[..|s| - 1]) * 10 + (s[|s| - 1] as int - '0' as int)
  }

  /** Reading back the decimal rendering of `n` yields `n`. */
  lemma {:induction false} NatToStringRoundTrip(n: nat)
    ensures DigitsValue(NatToString(n)) == n
  {
    var s := NatToString(n);
    if n < 10 {
      DigitCharValue(n);
      assert s[..|s| - 1] == [];
    } else {
      NatToStringRoundTrip(n / 10);
      DigitCharValue(n % 10);
      assert s == NatToString(n / 10) + [DigitChar(n % 10)];
      assert s[..|s| - 1] == NatToString(n / 10);
      assert s[|s| - 1] == DigitChar(n % 10);
    }
  }

  /** `n.toString()` for an integer. */
  function IntToString(n: int): (r: string)
    ensures |r| >= 1
    ensures n >= 0 ==> DigitsValue(r) == n
    ensures n < 0 ==> r[0] == '-' && DigitsValue(r[1..]) == -n
  {
    NatToStringRoundTrip(if n < 0 then -n else n);
    if n < 0 then "-" + NatToString(-n) else NatToString(n)
  }
}
