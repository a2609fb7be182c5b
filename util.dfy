/** Shared helpers over sequences used by both the storefront client and the
    Django back end: an optional value, filtering that keeps order, and the
    first-occurrence de-duplication that JavaScript's `indexOf` filter,
    `new Set(...)` and SQL `DISTINCT` all perform. */
module Util {

  /** JavaScript `null`/`undefined` and Python `None` on one side, a value on the other. */
  datatype Option<+T> = None | Some(value: T) {
    function GetOr(default: T): T {
      match this
      case Some(v) => v
      case None => default
    }
  }

  /** `a` is obtained from `b` by deleting elements, keeping the order of the rest. */
  predicate IsSubseq<T(==)>(a: seq<T>, b: seq<T>)
    decreases |b|
  {
    if a == [] then true
    else if b == [] then false
    else if a[0] == b[0] then IsSubseq(a[1..], b[1..])
    else IsSubseq(a, b[1..])
  }

  lemma {:induction false} SubseqRefl<T>(a: seq<T>)
    ensures IsSubseq(a, a)
    decreases |a|
  {
    if a != [] { SubseqRefl(a[1..]); }
  }

  lemma {:induction false} SubseqLength<T>(a: seq<T>, b: seq<T>)
    requires IsSubseq(a, b)
    ensures |a| <= |b|
    decreases |b|
  {
    if a != [] {
      if a[0] == b[0] { SubseqLength(a[1..], b[1..]); } else { SubseqLength(a, b[1..]); }
    }
  }

  lemma {:induction false} SubseqMembers<T>(a: seq<T>, b: seq<T>, x: T)
    requires IsSubseq(a, b) && x in a
    ensures x in b
    decreases |b|
  {
    if a[0] == b[0] {
      if x != a[0] { SubseqMembers(a[1..], b[1..], x); }
    } else {
      SubseqMembers(a, b[1..], x);
    }
  }

  lemma {:induction false} SubseqTrans<T>(a: seq<T>, b: seq<T>, c: seq<T>)
    requires IsSubseq(a, b) && IsSubseq(b, c)
    ensures IsSubseq(a, c)
    decreases |c|
  {
    if a != [] {
      assert b != [] && c != [];
      if b[0] == c[0] {
        if a[0] == b[0] {
          SubseqTrans(a[1..], b[1..], c[1..]);
        } else {
          SubseqTrans(a, b[1..], c[1..]);
        }
      } else {
        SubseqTrans(a, b, c[1..]);
        if a[0] == c[0] { SubseqDropHead(a, c[1..]); }
      }
    }
  }

  lemma {:induction false} SubseqDropHead<T>(a: seq<T>, b: seq<T>)
    requires a != [] && IsSubseq(a, b)
    ensures IsSubseq(a[1..], b)
    decreases |b|, 0
  {
    if a[0] == b[0] {
      SubseqSkip(a[1..], b[1..], b[0]);
    } else {
      SubseqDropHead(a, b[1..]);
      SubseqSkip(a[1..], b[1..], b[0]);
    }
  }

  lemma {:induction false} SubseqSkip<T>(a: seq<T>, b: seq<T>, x: T)
    requires IsSubseq(a, b)
    ensures IsSubseq(a, [x] + b)
    decreases |b|, 1
  {
    if a != [] {
      if a[0] == x {
        assert ([x] + b)[1..] == b;
        SubseqDropHead(a, b);
      } else {
        assert ([x] + b)[1..] == b;
      }
    }
  }

  /** The elements of `s` that satisfy `p`, in their original order
      (JavaScript `Array.prototype.filter`, a Django `.filter(...)`). */
  function Filter<T>(s: seq<T>, p: T -> bool): (r: seq<T>)
    ensures forall i :: 0 <= i < |r| ==> r[i] in s && p(r[i])
    ensures forall i :: 0 <= i < |s| && p(s[i]) ==> s[i] in r
    ensures |r| <= |s|
    decreases |s|
  {
    if s == [] then []
    else if p(s[0]) then [s[0]] + Filter(s[1..], p)
    else Filter(s[1..], p)
  }

  /** `f` applied to each element of `s` (JavaScript `Array.prototype.map`). */
  function Map<T, U>(s: seq<T>, f: T -> U): (r: seq<U>)
    ensures |r| == |s| && forall i :: 0 <= i < |s| ==> r[i] == f(s[i])
  {
    seq(|s|, i requires 0 <= i < |s| => f(s[i]))
  }

  lemma {:induction false} FilterIsSubseq<T>(s: seq<T>, p: T -> bool)
    ensures IsSubseq(Filter(s, p), s)
    decreases |s|
  {
    if s != [] {
      FilterIsSubseq(s[1..], p);
      if p(s[0]) {
        assert ([s[0]] + Filter(s[1..], p))[1..] == Filter(s[1..], p);
      } else {
        SubseqSkip(Filter(s[1..], p), s[1..], s[0]);
        assert [s[0]] + s[1..] == s;
      }
    }
  }

  /** Filtering with a stronger predicate keeps a subsequence of what a weaker one keeps. */
  lemma {:induction false} FilterMonotone<T>(s: seq<T>, strong: T -> bool, weak: T -> bool)
    requires forall x :: strong(x) ==> weak(x)
    ensures IsSubseq(Filter(s, strong), Filter(s, weak))
    decreases |s|
  {
    if s != [] {
      FilterMonotone(s[1..], strong, weak);
      var fs, fw := Filter(s[1..], strong), Filter(s[1..], weak);
      if strong(s[0]) {
        assert ([s[0]] + fs)[1..] == fs && ([s[0]] + fw)[1..] == fw;
      } else if weak(s[0]) {
        SubseqSkip(fs, fw, s[0]);
      }
    }
  }

  /** The conjunction of two predicates. */
  function Both<T>(p: T -> bool, q: T -> bool): T -> bool {
    x => p(x) && q(x)
  }

  /** Filtering twice is filtering once by the conjunction. */
  lemma {:induction false} FilterFilter<T>(s: seq<T>, p: T -> bool, q: T -> bool)
    ensures Filter(Filter(s, p), q) == Filter(s, Both(p, q))
    decreases |s|
  {
    if s != [] {
      FilterFilter(s[1..], p, q);
      if p(s[0]) {
        assert Filter(s, p) == [s[0]] + Filter(s[1..], p);
        assert (Filter(s, p))[1..] == Filter(s[1..], p);
      }
    }
  }

  /** Filtering by predicates that agree everywhere gives the same list. */
  lemma {:induction false} FilterExt<T>(s: seq<T>, p: T -> bool, q: T -> bool)
    requires forall x :: p(x) == q(x)
    ensures Filter(s, p) == Filter(s, q)
    decreases |s|
  {
    if s != [] { FilterExt(s[1..], p, q); }
  }

  /** A filter whose predicate holds on every element keeps the whole list. */
  lemma {:induction false} FilterAll<T>(s: seq<T>, p: T -> bool)
    requires forall i :: 0 <= i < |s| ==> p(s[i])
    ensures Filter(s, p) == s
    decreases |s|
  {
    if s != [] {
      FilterAll(s[1..], p);
      assert [s[0]] + s[1..] == s;
    }
  }

  lemma {:induction false} FilterAppend<T>(a: seq<T>, b: seq<T>, p: T -> bool)
    ensures Filter(a + b, p) == Filter(a, p) + Filter(b, p)
    decreases |a|
  {
    if a != [] {
      assert (a + b)[0] == a[0] && (a + b)[1..] == a[1..] + b;
      FilterAppend(a[1..], b, p);
    } else {
      assert a + b == b;
    }
  }

  lemma FilterCons<T>(x: T, s: seq<T>, p: T -> bool)
    ensures Filter([x] + s, p) == if p(x) then [x] + Filter(s, p) else Filter(s, p)
  {
    assert ([x] + s)[0] == x && ([x] + s)[1..] == s;
  }

  predicate NoDups<T(==)>(s: seq<T>) {
    forall i, j :: 0 <= i < j < |s| ==> s[i] != s[j]
  }

  /** Two equal elements at different places break `NoDups`. */
  lemma NotDistinct<T>(s: seq<T>, i: nat, j: nat)
    requires i < j < |s| && s[i] == s[j]
    ensures !NoDups(s)
  {
  }

  /** Keeps each element of `s` whose value is not in `seen` and has not
      occurred earlier in `s`: JavaScript's
      `filter((x, i, self) => self.indexOf(x) === i)` when `seen` is empty. */
  function DedupAfter<T(==)>(s: seq<T>, seen: set<T>): (r: seq<T>)
    ensures forall i :: 0 <= i < |r| ==> r[i] in s && r[i] !in seen
    ensures forall i :: 0 <= i < |s| && s[i] !in seen ==> s[i] in r
    ensures NoDups(r)
    decreases |s|
  {
    if s == [] then []
    else if s[0] in seen then DedupAfter(s[1..], seen)
    else [s[0]] + DedupAfter(s[1..], seen + {s[0]})
  }

  /** The distinct values of `s`, each at the place of its first occurrence. */
  function Dedup<T(==)>(s: seq<T>): seq<T> {
    DedupAfter(s, {})
  }

  lemma {:induction false} DedupAfterIsSubseq<T>(s: seq<T>, seen: set<T>)
    ensures IsSubseq(DedupAfter(s, seen), s)
    decreases |s|
  {
    if s != [] {
      if s[0] in seen {
        DedupAfterIsSubseq(s[1..], seen);
        SubseqSkip(DedupAfter(s[1..], seen), s[1..], s[0]);
        assert [s[0]] + s[1..] == s;
      } else {
        DedupAfterIsSubseq(s[1..], seen + {s[0]});
        var r := [s[0]] + DedupAfter(s[1..], seen + {s[0]});
        assert r[1..] == DedupAfter(s[1..], seen + {s[0]});
      }
    }
  }

  /** De-duplication yields exactly the values of `s`, once each, in first-occurrence order. */
  lemma DedupSpec<T>(s: seq<T>)
    ensures forall i :: 0 <= i < |Dedup(s)| ==> Dedup(s)[i] in s
    ensures forall i :: 0 <= i < |s| ==> s[i] in Dedup(s)
    ensures NoDups(Dedup(s))
    ensures IsSubseq(Dedup(s), s)
    ensures s != [] ==> Dedup(s) != [] && Dedup(s)[0] == s[0]
  {
    DedupAfterIsSubseq(s, {});
  }

  /** A list without repeats is its own de-duplication. */
  lemma {:induction false} DedupAfterDistinct<T>(s: seq<T>, seen: set<T>)
    requires NoDups(s) && forall i :: 0 <= i < |s| ==> s[i] !in seen
    ensures DedupAfter(s, seen) == s
    decreases |s|
  {
    if s != [] {
      forall i | 0 <= i < |s| - 1 ensures s[1..][i] !in seen + {s[0]} {
        assert s[1..][i] == s[i + 1];
      }
      DedupAfterDistinct(s[1..], seen + {s[0]});
      assert [s[0]] + s[1..] == s;
    }
  }

  /** The `proj` parts of the distinct `key`s of `s`: each comes from an
      element of `s`, and every element's part is among them. */
  lemma DistinctKeysProjected<T, K, U>(s: seq<T>, key: T -> K, proj: K -> U)
    ensures var r := Map(Dedup(Map(s, key)), proj);
      && (forall i :: 0 <= i < |r| ==> exists k :: 0 <= k < |s| && proj(key(s[k])) == r[i])
      && (forall k :: 0 <= k < |s| ==> proj(key(s[k])) in r)
  {
    var m := Map(s, key);
    var d := Dedup(m);
    var r := Map(d, proj);
    DedupSpec(m);
    forall i | 0 <= i < |r| ensures exists k :: 0 <= k < |s| && proj(key(s[k])) == r[i] {
      assert d[i] in m;
      var k :| 0 <= k < |m| && m[k] == d[i];
      assert proj(key(s[k])) == r[i];
    }
    forall k | 0 <= k < |s| ensures proj(key(s[k])) in r {
      assert m[k] in d;
      var j :| 0 <= j < |d| && d[j] == m[k];
      assert r[j] == proj(key(s[k]));
    }
  }

  /** The distinct projections of the elements a filter keeps are exactly
      the projections of the kept elements. */
  lemma DedupMapFilter<T, U>(s: seq<T>, keep: T -> bool, proj: T -> U)
    ensures NoDups(Dedup(Map(Filter(s, keep), proj)))
    ensures forall x :: x in Dedup(Map(Filter(s, keep), proj)) <==>
      exists i :: 0 <= i < |s| && keep(s[i]) && proj(s[i]) == x
  {
    var f := Filter(s, keep);
    var m := Map(f, proj);
    DedupSpec(m);
    forall x ensures x in Dedup(m) <==> exists i :: 0 <= i < |s| && keep(s[i]) && proj(s[i]) == x {
      if x in Dedup(m) {
        var d :| 0 <= d < |Dedup(m)| && Dedup(m)[d] == x;
        assert x in m;
        var k :| 0 <= k < |m| && m[k] == x;
        var i :| 0 <= i < |s| && s[i] == f[k];
        assert keep(s[i]) && proj(s[i]) == x;
      }
      if i :| 0 <= i < |s| && keep(s[i]) && proj(s[i]) == x {
        var k :| 0 <= k < |f| && f[k] == s[i];
        assert m[k] == x && m[k] in Dedup(m);
      }
    }
  }

  /** No two rows share a key: a database UNIQUE constraint over `key`. */
  predicate KeysUnique<T, K(==)>(rows: seq<T>, key: T -> K) {
    forall i, j :: 0 <= i < j < |rows| ==> key(rows[i]) != key(rows[j])
  }

  /** Some row already has the key `k`. */
  predicate HasKey<T, K(==)>(rows: seq<T>, key: T -> K, k: K) {
    exists i :: 0 <= i < |rows| && key(rows[i]) == k
  }

  /** An INSERT into a table with a UNIQUE constraint on `key`: refused
      (`None`, Django's IntegrityError) when the key is taken, otherwise the
      row is appended. */
  function InsertUnique<T, K(==)>(rows: seq<T>, row: T, key: T -> K): (r: Option<seq<T>>)
    ensures r.None? <==> HasKey(rows, key, key(row))
    ensures r.Some? ==> r.value == rows + [row]
    ensures r.Some? && KeysUnique(rows, key) ==> KeysUnique(r.value, key)
  {
    if HasKey(rows, key, key(row)) then None else Some(rows + [row])
  }
}
