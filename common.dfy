/** Building blocks shared by the dashboard pages: optional values, the outcome of
    a JavaScript division, clamping, sums, filtering, the stable sort that
    `Array.prototype.sort` performs with a key comparator, the case-insensitive
    search used by every page's search box, and the newest-first bounded
    notification list. */
module Common {

  datatype Option<T> = None | Some(value: T)

  /** The result of a JavaScript division `a / b`: finite, or one of the three
      non-finite values a zero divisor produces. */
  datatype JsNumber = Finite(v: real) | PositiveInfinity | NegativeInfinity | NaN

  function JsDivide(a: real, b: real): (r: JsNumber)
    ensures r.Finite? <==> b != 0.0
    ensures r.Finite? ==> r.v * b == a
    ensures r == NaN <==> a == 0.0 && b == 0.0
  {
    if b != 0.0 then Finite(a / b)
    else if a > 0.0 then PositiveInfinity
    else if a < 0.0 then NegativeInfinity
    else NaN
  }

  function Min(a: real, b: real): (r: real)
    ensures r <= a && r <= b && (r == a || r == b)
  {
    if a <= b then a else b
  }

  function Max(a: real, b: real): (r: real)
    ensures r >= a && r >= b && (r == a || r == b)
  {
    if a >= b then a else b
  }

  /** `Math.max(lo, Math.min(hi, x))`, the clamp every page writes out by hand. */
  function Clamp(x: real, lo: real, hi: real): (r: real)
    ensures lo <= hi ==> lo <= r <= hi
    ensures lo <= x <= hi ==> r == x
    ensures x < lo ==> r == lo
    ensures lo <= hi && hi < x ==> r == hi
  {
    Max(lo, Min(hi, x))
  }

  /** Scaling a non-negative amount by a factor in [lo, hi]. */
  lemma ScaleBounds(a: real, f: real, lo: real, hi: real)
    ensures a >= 0.0 && lo <= f <= hi ==> a * lo <= a * f <= a * hi
  {
  }

  /** A quotient by a positive count stays within the bounds its numerator has per unit. */
  lemma DivideBounds(s: real, n: real, lo: real, hi: real)
    requires n > 0.0 && n * lo <= s <= n * hi
    ensures lo <= s / n <= hi
  {
  }

  // ---------------------------------------------------------------------------
  // Sums (`reduce((sum, x) => sum + f(x), 0)`)
  // ---------------------------------------------------------------------------

  function Sum<T>(s: seq<T>, f: T -> real): real
  {
    if s == [] then 0.0 else f(s[0]) + Sum(s[1..], f)
  }

  lemma {:induction false} SumAppend<T>(a: seq<T>, b: seq<T>, f: T -> real)
    ensures Sum(a + b, f) == Sum(a, f) + Sum(b, f)
  {
    if a == [] {
      assert a + b == b;
    } else {
      assert (a + b)[1..] == a[1..] + b;
      SumAppend(a[1..], b, f);
    }
  }

  lemma {:induction false} SumNonNegative<T>(s: seq<T>, f: T -> real)
    requires forall i :: 0 <= i < |s| ==> f(s[i]) >= 0.0
    ensures Sum(s, f) >= 0.0
  {
    if s != [] {
      SumNonNegative(s[1..], f);
    }
  }

  /** If every term lies in [lo, hi], the sum lies in [n*lo, n*hi]. */
  lemma {:induction false} SumBounds<T>(s: seq<T>, f: T -> real, lo: real, hi: real)
    requires forall i :: 0 <= i < |s| ==> lo <= f(s[i]) <= hi
    ensures |s| as real * lo <= Sum(s, f) <= |s| as real * hi
  {
    if s != [] {
      SumBounds(s[1..], f, lo, hi);
    }
  }

  // ---------------------------------------------------------------------------
  // Filtering (`Array.prototype.filter`)
  // ---------------------------------------------------------------------------

  function Filter<T>(s: seq<T>, p: T -> bool): (r: seq<T>)
    ensures |r| <= |s|
    ensures forall i :: 0 <= i < |r| ==> p(r[i])
    ensures multiset(r) <= multiset(s)
  {
    if s == [] then []
    else
      var rest := Filter(s[1..], p);
      assert s == [s[0]] + s[1..];
      (if p(s[0]) then [s[0]] else []) + rest
  }

  /** Exactly the elements of `s` that satisfy `p` survive the filter. */
  lemma {:induction false} FilterMembers<T>(s: seq<T>, p: T -> bool, x: T)
    ensures x in Filter(s, p) <==> x in s && p(x)
  {
    if s != [] {
      FilterMembers(s[1..], p, x);
      assert s == [s[0]] + s[1..];
    }
  }

  /** `a` can be obtained from `b` by deleting elements, keeping the order. */
  predicate IsSubsequence<T(==)>(a: seq<T>, b: seq<T>)
    decreases |b|
  {
    if a == [] then true
    else if b == [] then false
    else (a[0] == b[0] && IsSubsequence(a[1..], b[1..])) || IsSubsequence(a, b[1..])
  }

  lemma {:induction false} FilterIsSubsequence<T>(s: seq<T>, p: T -> bool)
    ensures IsSubsequence(Filter(s, p), s)
  {
    if s != [] {
      FilterIsSubsequence(s[1..], p);
      var rest := Filter(s[1..], p);
      if p(s[0]) {
        assert Filter(s, p) == [s[0]] + rest;
        assert ([s[0]] + rest)[1..] == rest;
      } else {
        assert Filter(s, p) == rest;
        if rest != [] {
          assert IsSubsequence(rest, s[1..]);
        }
      }
    }
  }

  /** A filter whose predicate holds everywhere keeps the whole sequence. */
  lemma {:induction false} FilterAll<T>(s: seq<T>, p: T -> bool)
    requires forall i :: 0 <= i < |s| ==> p(s[i])
    ensures Filter(s, p) == s
  {
    if s != [] {
      FilterAll(s[1..], p);
      assert [s[0]] + s[1..] == s;
    }
  }

  // ---------------------------------------------------------------------------
  // Stable sort by a key, highest key first
  // ---------------------------------------------------------------------------
  // `xs.sort((a, b) => key(b) - key(a))` with a stable sort (ECMAScript 2019):
  // modelled as an insertion sort, which is stable by construction.

  ghost predicate SortedDesc<T>(s: seq<T>, key: T -> real)
  {
    forall i, j :: 0 <= i < j < |s| ==> key(s[i]) >= key(s[j])
  }

  /** Sortedness stated on neighbours only, which is what insertion maintains. */
  ghost predicate Chained<T>(s: seq<T>, key: T -> real)
  {
    forall i :: 0 <= i < |s| - 1 ==> key(s[i]) >= key(s[i + 1])
  }

  lemma {:induction false} ChainedIsSorted<T>(s: seq<T>, key: T -> real)
    requires Chained(s, key)
    ensures SortedDesc(s, key)
  {
    if |s| > 1 {
      var tail := s[1..];
      assert Chained(tail, key) by {
        forall i | 0 <= i < |tail| - 1 ensures key(tail[i]) >= key(tail[i + 1]) {
          assert tail[i] == s[i + 1] && tail[i + 1] == s[i + 2];
        }
      }
      ChainedIsSorted(tail, key);
      forall i, j | 0 <= i < j < |s| ensures key(s[i]) >= key(s[j]) {
        if i == 0 {
          assert key(s[0]) >= key(s[1]);
          if j > 1 {
            assert tail[0] == s[1] && tail[j - 1] == s[j];
          }
        } else {
          assert tail[i - 1] == s[i] && tail[j - 1] == s[j];
        }
      }
    }
  }

  /** Puts `x` in front of the first element whose key is not greater than its own. */
  function Insert<T>(x: T, t: seq<T>, key: T -> real): (r: seq<T>)
    ensures |r| == |t| + 1
    ensures multiset(r) == multiset(t) + multiset{x}
    ensures r[0] == x || (t != [] && r[0] == t[0])
    ensures Chained(t, key) ==> Chained(r, key)
  {
    if t == [] || key(x) >= key(t[0]) then [x] + t
    else
      var rest := Insert(x, t[1..], key);
      assert t == [t[0]] + t[1..];
      assert Chained(t, key) ==> Chained(t[1..], key) by {
        if Chained(t, key) {
          forall i | 0 <= i < |t[1..]| - 1 ensures key(t[1..][i]) >= key(t[1..][i + 1]) {
            assert t[1..][i] == t[i + 1];
          }
        }
      }
      [t[0]] + rest
  }

  function SortDesc<T>(s: seq<T>, key: T -> real): (r: seq<T>)
    ensures |r| == |s|
    ensures multiset(r) == multiset(s)
    ensures Chained(r, key) && SortedDesc(r, key)
  {
    if s == [] then []
    else
      var r := Insert(s[0], SortDesc(s[1..], key), key);
      assert s == [s[0]] + s[1..];
      ChainedIsSorted(r, key);
      r
  }

  /** The elements of `s` whose key equals `k`, in order. */
  function WithKey<T>(s: seq<T>, key: T -> real, k: real): seq<T>
  {
    if s == [] then []
    else (if key(s[0]) == k then [s[0]] else []) + WithKey(s[1..], key, k)
  }

  lemma {:induction false} WithKeyInsert<T>(x: T, t: seq<T>, key: T -> real, k: real)
    ensures WithKey(Insert(x, t, key), key, k)
         == (if key(x) == k then [x] else []) + WithKey(t, key, k)
  {
    if t == [] || key(x) >= key(t[0]) {
      assert ([x] + t)[1..] == t;
    } else {
      var rest := Insert(x, t[1..], key);
      var head := if key(t[0]) == k then [t[0]] else [];
      var mine := if key(x) == k then [x] else [];
      assert ([t[0]] + rest)[1..] == rest;
      assert WithKey([t[0]] + rest, key, k) == head + WithKey(rest, key, k);
      WithKeyInsert(x, t[1..], key, k);
      assert WithKey(t, key, k) == head + WithKey(t[1..], key, k);
      if key(x) == k {
        assert head == [];
        assert [] + (mine + WithKey(t[1..], key, k)) == mine + WithKey(t[1..], key, k);
        assert [] + WithKey(t[1..], key, k) == WithKey(t[1..], key, k);
      } else {
        assert mine == [];
        assert [] + WithKey(t[1..], key, k) == WithKey(t[1..], key, k);
      }
    }
  }

  /** Stability: elements with equal keys keep their relative order. */
  lemma {:induction false} SortDescStable<T>(s: seq<T>, key: T -> real, k: real)
    ensures WithKey(SortDesc(s, key), key, k) == WithKey(s, key, k)
  {
    if s != [] {
      SortDescStable(s[1..], key, k);
      WithKeyInsert(s[0], SortDesc(s[1..], key), key, k);
    }
  }

  lemma {:induction false} WithKeyConstant<T>(s: seq<T>, key: T -> real, k: real)
    requires forall i :: 0 <= i < |s| ==> key(s[i]) == k
    ensures WithKey(s, key, k) == s
  {
    if s != [] {
      WithKeyConstant(s[1..], key, k);
      assert [s[0]] + s[1..] == s;
    }
  }

  /** A comparator that always answers 0 leaves the order as it was. */
  lemma SortDescConstantKey<T>(s: seq<T>, key: T -> real, k: real)
    requires forall i :: 0 <= i < |s| ==> key(s[i]) == k
    ensures SortDesc(s, key) == s
  {
    var r := SortDesc(s, key);
    forall i | 0 <= i < |r| ensures key(r[i]) == k {
      assert r[i] in multiset(s);
    }
    SortDescStable(s, key, k);
    WithKeyConstant(s, key, k);
    WithKeyConstant(r, key, k);
  }

  lemma {:induction false} SumInsert<T>(x: T, t: seq<T>, key: T -> real, f: T -> real)
    ensures Sum(Insert(x, t, key), f) == f(x) + Sum(t, f)
  {
    if !(t == [] || key(x) >= key(t[0])) {
      var rest := Insert(x, t[1..], key);
      assert ([t[0]] + rest)[1..] == rest;
      SumInsert(x, t[1..], key, f);
    }
  }

  /** Sorting does not change a sum over the list. */
  lemma {:induction false} SumSortDesc<T>(s: seq<T>, key: T -> real, f: T -> real)
    ensures Sum(SortDesc(s, key), f) == Sum(s, f)
  {
    if s != [] {
      SumSortDesc(s[1..], key, f);
      SumInsert(s[0], SortDesc(s[1..], key), key, f);
    }
  }

  // ---------------------------------------------------------------------------
  // Case-insensitive search (`a.toLowerCase().includes(b.toLowerCase())`)
  // ---------------------------------------------------------------------------

  function LowerChar(c: char): char
  {
    if 'A' <= c <= 'Z' then (c as int + 32) as char else c
  }

  function Lower(s: string): (r: string)
    ensures |r| == |s|
    ensures forall i :: 0 <= i < |s| ==> r[i] == LowerChar(s[i])
  {
    seq(|s|, i requires 0 <= i < |s| => LowerChar(s[i]))
  }

  /** `s.includes(sub)`: `sub` occurs in `s` at some position. */
  predicate Contains(s: string, sub: string)
  {
    exists i :: 0 <= i <= |s| - |sub| && OccursAt(s, sub, i)
  }

  predicate OccursAt(s: string, sub: string, i: int)
  {
    0 <= i <= |s| - |sub| && s[i..i + |sub|] == sub
  }

  /** The search box's test: the term occurs, ignoring ASCII case, in the name or the id. */
  predicate MatchesSearch(name: string, id: string, term: string)
  {
    Contains(Lower(name), Lower(term)) || Contains(Lower(id), Lower(term))
  }

  /** An empty search term matches every record. */
  lemma EmptySearchMatchesAll(name: string, id: string)
    ensures MatchesSearch(name, id, "")
  {
    assert Lower("") == "";
    assert OccursAt(Lower(name), Lower(""), 0);
  }

  /** Every record matches a search for its own name, whatever the case of the term. */
  lemma SearchOwnName(name: string, id: string)
    ensures MatchesSearch(name, id, Lower(name))
  {
    var l := Lower(name);
    assert Lower(l) == l by {
      forall i | 0 <= i < |l| ensures Lower(l)[i] == l[i] {
        assert LowerChar(LowerChar(name[i])) == LowerChar(name[i]);
      }
    }
    assert OccursAt(Lower(name), Lower(l), 0);
  }

  // ---------------------------------------------------------------------------
  // Notification lists (`[n, ...prev.slice(0, cap - 1)]`)
  // ---------------------------------------------------------------------------

  function PushNewest<T>(list: seq<T>, x: T, cap: nat): (r: seq<T>)
    requires cap >= 1
    ensures 1 <= |r| <= cap && r[0] == x
    ensures |r| == if |list| < cap then |list| + 1 else cap
    ensures r[1..] == list[..|r| - 1]
  {
    [x] + list[..if |list| < cap - 1 then |list| else cap - 1]
  }

  /** A notification notice: an id from the fresh-id supply, the text and its kind. */
  datatype Notice = Notice(id: int, message: string, kind: string)
}
