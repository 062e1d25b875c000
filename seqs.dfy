/** Sequence combinators behind Rust's iterator chains (`filter_map`, `filter`,
    `count`, `find`). Each is defined from the last element backwards, so a
    loop that visits the elements in order extends the result by one step. */
module Seqs {
  import opened Base

  /** `iter().filter_map(f).collect()`. */
  function FilterMap<A, B>(s: seq<A>, f: A -> Option<B>): (r: seq<B>)
    ensures |r| <= |s|
  {
    if |s| == 0 then []
    else FilterMap(s[..|s| - 1], f) + (if f(s[|s| - 1]).Some? then [f(s[|s| - 1]).value] else [])
  }

  lemma {:induction false} FilterMapAppend<A, B>(a: seq<A>, b: seq<A>, f: A -> Option<B>)
    ensures FilterMap(a + b, f) == FilterMap(a, f) + FilterMap(b, f)
    decreases |b|
  {
    if |b| > 0 {
      assert (a + b)[..|a + b| - 1] == a + b[..|b| - 1];
      FilterMapAppend(a, b[..|b| - 1], f);
    } else {
      assert a + b == a;
    }
  }

  /** Every produced value comes from some element, in order. */
  lemma {:induction false} FilterMapFrom<A, B>(s: seq<A>, f: A -> Option<B>, k: nat)
    requires k < |FilterMap(s, f)|
    ensures exists i :: 0 <= i < |s| && f(s[i]) == Some(FilterMap(s, f)[k])
    decreases |s|
  {
    var init := FilterMap(s[..|s| - 1], f);
    if k < |init| {
      FilterMapFrom(s[..|s| - 1], f, k);
      var i :| 0 <= i < |s| - 1 && f(s[..|s| - 1][i]) == Some(init[k]);
      assert s[..|s| - 1][i] == s[i];
    } else {
      assert f(s[|s| - 1]) == Some(FilterMap(s, f)[k]);
    }
  }

  /** The values produced are exactly those of the elements that yield one. */
  lemma FilterMapExactly<A, B>(s: seq<A>, f: A -> Option<B>)
    ensures forall k :: 0 <= k < |FilterMap(s, f)| ==> exists i :: 0 <= i < |s| && f(s[i]) == Some(FilterMap(s, f)[k])
    ensures forall i :: 0 <= i < |s| && f(s[i]).Some? ==> f(s[i]).value in FilterMap(s, f)
  {
    var r := FilterMap(s, f);
    forall k | 0 <= k < |r|
      ensures exists i :: 0 <= i < |s| && f(s[i]) == Some(r[k])
    {
      FilterMapFrom(s, f, k);
    }
    forall i | 0 <= i < |s| && f(s[i]).Some?
      ensures f(s[i]).value in FilterMap(s, f)
    {
      FilterMapTo(s, f, i);
    }
  }

  /** One more element of a prefix adds its value, if it yields one. */
  lemma FilterMapStep<A, B>(s: seq<A>, f: A -> Option<B>, i: nat)
    requires i < |s|
    ensures FilterMap(s[..i + 1], f) == FilterMap(s[..i], f) + (if f(s[i]).Some? then [f(s[i]).value] else [])
  {
    assert s[..i + 1][..i] == s[..i];
    assert s[..i + 1][i] == s[i];
  }

  /** An element that yields a value contributes it. */
  lemma {:induction false} FilterMapTo<A, B>(s: seq<A>, f: A -> Option<B>, i: nat)
    requires i < |s| && f(s[i]).Some?
    ensures f(s[i]).value in FilterMap(s, f)
    decreases |s|
  {
    if i < |s| - 1 {
      FilterMapTo(s[..|s| - 1], f, i);
      assert s[..|s| - 1][i] == s[i];
    }
  }

  /** No element yields a value exactly when the result is empty. */
  lemma {:induction false} FilterMapEmpty<A, B>(s: seq<A>, f: A -> Option<B>)
    ensures FilterMap(s, f) == [] <==> forall i :: 0 <= i < |s| ==> f(s[i]).None?
    decreases |s|
  {
    if |s| > 0 {
      FilterMapEmpty(s[..|s| - 1], f);
      forall i | 0 <= i < |s| - 1 ensures s[..|s| - 1][i] == s[i] { }
    }
  }

  /** Exactly one value per element that yields one. */
  lemma {:induction false} FilterMapLength<A, B>(s: seq<A>, f: A -> Option<B>, p: A -> bool)
    requires forall x :: p(x) == f(x).Some?
    ensures |FilterMap(s, f)| == Count(s, p)
    decreases |s|
  {
    if |s| > 0 {
      FilterMapLength(s[..|s| - 1], f, p);
    }
  }

  /** `iter().filter(p).collect()`.*/
  function Filter<A>(s: seq<A>, p: A -> bool): (r: seq<A>)
    ensures |r| <= |s|
    ensures forall x :: x in r ==> x in s && p(x)
  {
    if |s| == 0 then []
    else Filter(s[..|s| - 1], p) + (if p(s[|s| - 1]) then [s[|s| - 1]] else [])
  }

  /** `iter().filter(p).count()`. */
  function Count<A>(s: seq<A>, p: A -> bool): (n: nat)
    ensures n <= |s|
  {
    if |s| == 0 then 0 else Count(s[..|s| - 1], p) + (if p(s[|s| - 1]) then 1 else 0)
  }

  lemma {:induction false} CountIsFilterLength<A>(s: seq<A>, p: A -> bool)
    ensures Count(s, p) == |Filter(s, p)|
    decreases |s|
  {
    if |s| > 0 {
      CountIsFilterLength(s[..|s| - 1], p);
    }
  }

  /** The indices below `n` of the elements satisfying `p`, in order. */
  function IndicesWhere<A>(s: seq<A>, p: A -> bool, n: nat): (ks: seq<nat>)
    requires n <= |s|
    ensures forall k :: 0 <= k < |ks| ==> ks[k] < n && p(s[ks[k]])
    ensures forall k, l :: 0 <= k < l < |ks| ==> ks[k] < ks[l]
    ensures forall i :: 0 <= i < n && p(s[i]) ==> i in ks
    decreases n
  {
    if n == 0 then []
    else IndicesWhere(s, p, n - 1) + (if p(s[n - 1]) then [n - 1] else [])
  }

  /** One index per element that passes, among the first `n`. */
  lemma {:induction false} IndicesCounted<A>(s: seq<A>, p: A -> bool, n: nat)
    requires n <= |s|
    ensures |IndicesWhere(s, p, n)| == Count(s[..n], p)
    decreases n
  {
    if n > 0 {
      IndicesCounted(s, p, n - 1);
      assert s[..n][..n - 1] == s[..n - 1];
    }
  }

  /** `iter().position(p)`: the first index whose element satisfies `p`. */
  function FindIndex<A>(s: seq<A>, p: A -> bool): (r: Option<nat>)
    ensures r.Some? ==> r.value < |s| && p(s[r.value]) && forall j :: 0 <= j < r.value ==> !p(s[j])
    ensures r.None? ==> forall j :: 0 <= j < |s| ==> !p(s[j])
  {
    if |s| == 0 then None
    else if p(s[0]) then Some(0)
    else match FindIndex(s[1..], p)
      case Some(k) => Some(k + 1)
      case None => None
  }

  /** The first match of a concatenation whose first part has none is the
      start of the second part, when that element matches. */
  lemma FindIndexAfter<A>(a: seq<A>, b: seq<A>, p: A -> bool)
    requires forall j :: 0 <= j < |a| ==> !p(a[j])
    requires |b| > 0 && p(b[0])
    ensures FindIndex(a + b, p) == Some(|a|)
  {
    assert (a + b)[|a|] == b[0];
    assert forall j :: 0 <= j < |a| ==> (a + b)[j] == a[j];
  }

  /** An index that matches, with no match before it, is the first match. */
  lemma {:induction false} FindIndexAt<A>(s: seq<A>, p: A -> bool, i: nat)
    requires i < |s| && p(s[i]) && forall j :: 0 <= j < i ==> !p(s[j])
    ensures FindIndex(s, p) == Some(i)
    decreases i
  {
    if i > 0 {
      assert !p(s[0]);
      assert forall j :: 0 <= j < i - 1 ==> s[1..][j] == s[j + 1];
      FindIndexAt(s[1..], p, i - 1);
    }
  }

  /** Appending an element changes the first match only when there was none. */
  lemma {:induction false} FindIndexSnoc<A>(s: seq<A>, x: A, p: A -> bool)
    ensures FindIndex(s + [x], p)
      == if FindIndex(s, p).Some? then FindIndex(s, p) else if p(x) then Some(|s|) else None
    decreases |s|
  {
    if |s| == 0 {
      assert s + [x] == [x];
    } else {
      assert (s + [x])[0] == s[0];
      assert (s + [x])[1..] == s[1..] + [x];
      FindIndexSnoc(s[1..], x, p);
    }
  }

  // ---------------------------------------------------------------- window

  /** `s[offset.min(len)..(offset + limit).min(len)]`: the elements whose
      index lies in [offset, offset + limit), possibly none. */
  function Window<A>(s: seq<A>, offset: nat, limit: nat): (w: seq<A>)
    ensures |w| == if offset >= |s| then 0 else Min(limit, |s| - offset)
    ensures forall k :: 0 <= k < |w| ==> w[k] == s[offset + k]
  {
    s[Min(offset, |s|)..Min(offset + limit, |s|)]
  }

  function Min(a: nat, b: nat): nat { if a <= b then a else b }

  /** How a loop that keeps the items with index in [offset, offset + limit)
      extends its window by one item. */
  lemma WindowStep<A>(s: seq<A>, w: seq<A>, x: A, offset: nat, limit: nat)
    requires w == Window(s, offset, limit)
    ensures (if |s| >= offset && |w| < limit then w + [x] else w) == Window(s + [x], offset, limit)
  {
    WindowSnoc(s, x, offset, limit);
  }

  /** Consecutive windows stitch back together. */
  lemma {:induction false} WindowsAdjacent<A>(s: seq<A>, offset: nat, a: nat, b: nat)
    ensures Window(s, offset, a) + Window(s, offset + a, b) == Window(s, offset, a + b)
  {
    var w1, w2, w := Window(s, offset, a), Window(s, offset + a, b), Window(s, offset, a + b);
    assert |w1| + |w2| == |w|;
    forall k | 0 <= k < |w|
      ensures (w1 + w2)[k] == w[k]
    {
      if k >= |w1| {
        assert (w1 + w2)[k] == w2[k - |w1|];
      }
    }
  }

  /** One more element joins the window exactly when its index falls in it. */
  lemma WindowSnoc<A>(s: seq<A>, x: A, offset: nat, limit: nat)
    ensures Window(s + [x], offset, limit)
      == Window(s, offset, limit) + (if offset <= |s| < offset + limit then [x] else [])
  {
    var w, w' := Window(s, offset, limit), Window(s + [x], offset, limit);
    var e := if offset <= |s| < offset + limit then [x] else [];
    assert |w'| == |w + e|;
    forall k | 0 <= k < |w'|
      ensures w'[k] == (w + e)[k]
    {
      if k < |w| {
        assert w'[k] == (s + [x])[offset + k];
      }
    }
  }

  // ---------------------------------------------------------------- stable sort

  /** `before(a, b)`: `a` must come strictly before `b` (`sort_by` with a
      comparator that answers `Less`). */
  ghost predicate Asymmetric<A(!new)>(before: (A, A) -> bool) {
    forall a, b :: before(a, b) ==> !before(b, a)
  }

  /** No element comes strictly before its predecessor. */
  predicate SortedBy<A>(s: seq<A>, before: (A, A) -> bool) {
    forall i :: 0 < i < |s| ==> !before(s[i], s[i - 1])
  }

  /** Insert `x` ahead of the first element it must precede, so that it stays
      behind every element it ties with. */
  function InsertBy<A>(x: A, s: seq<A>, before: (A, A) -> bool): (r: seq<A>)
    ensures |r| == |s| + 1 && (r[0] == x || (|s| > 0 && r[0] == s[0]))
    ensures multiset(r) == multiset(s) + multiset{x}
    decreases |s|
  {
    if |s| == 0 then [x]
    else if before(x, s[0]) then [x] + s
    else
      assert s == [s[0]] + s[1..];
      [s[0]] + InsertBy(x, s[1..], before)
  }

  /** `slice::sort_by`: a stable insertion sort. */
  function SortBy<A>(s: seq<A>, before: (A, A) -> bool): (r: seq<A>)
    ensures multiset(r) == multiset(s) && |r| == |s|
    decreases |s|
  {
    if |s| == 0 then []
    else
      assert s == s[..|s| - 1] + [s[|s| - 1]];
      InsertBy(s[|s| - 1], SortBy(s[..|s| - 1], before), before)
  }

  lemma {:induction false} InsertBySorted<A(!new)>(x: A, s: seq<A>, before: (A, A) -> bool)
    requires Asymmetric(before) && SortedBy(s, before)
    ensures SortedBy(InsertBy(x, s, before), before)
    decreases |s|
  {
    if |s| > 0 && !before(x, s[0]) {
      InsertBySorted(x, s[1..], before);
    }
  }

  /** The sorted sequence has no element ahead of one it must follow. */
  lemma {:induction false} SortBySorted<A(!new)>(s: seq<A>, before: (A, A) -> bool)
    requires Asymmetric(before)
    ensures SortedBy(SortBy(s, before), before)
    decreases |s|
  {
    if |s| > 0 {
      SortBySorted(s[..|s| - 1], before);
      InsertBySorted(s[|s| - 1], SortBy(s[..|s| - 1], before), before);
    }
  }

  // ---------------------------------------------------------------- grouping

  /** The keys that `key` assigns to the elements of `s`. */
  function KeysOf<A, K>(s: seq<A>, key: A -> Option<K>): set<K>
    decreases |s|
  {
    if |s| == 0 then {}
    else KeysOf(s[..|s| - 1], key) + (if key(s[|s| - 1]).Some? then {key(s[|s| - 1]).value} else {})
  }

  /** A key is among `KeysOf` exactly when some element has it. */
  lemma {:induction false} KeysOfMembers<A, K>(s: seq<A>, key: A -> Option<K>, k: K)
    ensures k in KeysOf(s, key) <==> exists i :: 0 <= i < |s| && key(s[i]) == Some(k)
    decreases |s|
  {
    if |s| > 0 {
      var init := s[..|s| - 1];
      KeysOfMembers(init, key, k);
      assert forall i :: 0 <= i < |init| ==> init[i] == s[i];
    }
  }

  /** The values of the elements whose key is `k`, in order: one bucket of a
      `HashMap<K, Vec<V>>` filled by `entry(key).or_default().push(value)`. */
  function GroupFor<A, K(==), V>(s: seq<A>, key: A -> Option<K>, val: A -> V, k: K): seq<V> {
    FilterMap(s, (x: A) => if key(x) == Some(k) then Some(val(x)) else None)
  }

  /** One more element extends its own key's bucket and no other. */
  lemma GroupForStep<A, K, V>(s: seq<A>, key: A -> Option<K>, val: A -> V, i: nat)
    requires i < |s|
    ensures KeysOf(s[..i + 1], key) == KeysOf(s[..i], key) + (if key(s[i]).Some? then {key(s[i]).value} else {})
    ensures forall k :: (GroupFor(s[..i + 1], key, val, k)
      == GroupFor(s[..i], key, val, k) + (if key(s[i]) == Some(k) then [val(s[i])] else []))
  {
    assert s[..i + 1][..i] == s[..i];
  }

  /** A key no element has owns an empty bucket. */
  lemma {:induction false} GroupForAbsent<A, K, V>(s: seq<A>, key: A -> Option<K>, val: A -> V, k: K)
    requires k !in KeysOf(s, key)
    ensures GroupFor(s, key, val, k) == []
    decreases |s|
  {
    if |s| > 0 {
      GroupForAbsent(s[..|s| - 1], key, val, k);
    }
  }

  /** An element with a key is in that key's bucket. */
  lemma {:induction false} InOwnGroup<A, K, V>(s: seq<A>, key: A -> Option<K>, val: A -> V, i: nat)
    requires i < |s| && key(s[i]).Some?
    ensures key(s[i]).value in KeysOf(s, key)
    ensures val(s[i]) in GroupFor(s, key, val, key(s[i]).value)
    decreases |s|
  {
    KeysOfMembers(s, key, key(s[i]).value);
    GroupForStep(s, key, val, |s| - 1);
    assert s[..|s|] == s;
    if i < |s| - 1 {
      var init := s[..|s| - 1];
      assert init[i] == s[i];
      InOwnGroup(init, key, val, i);
    }
  }

  /** The `entry(key).or_insert_with(Vec::new).push(value)` loop. */
  method GroupInto<A, K, V>(s: seq<A>, key: A -> Option<K>, val: A -> V) returns (groups: map<K, seq<V>>)
    ensures groups.Keys == KeysOf(s, key)
    ensures forall k :: k in groups ==> groups[k] == GroupFor(s, key, val, k) && |groups[k]| > 0
  {
    groups := map[];
    var i := 0;
    while i < |s|
      invariant 0 <= i <= |s|
      invariant groups.Keys == KeysOf(s[..i], key)
      invariant forall k :: k in groups ==> groups[k] == GroupFor(s[..i], key, val, k) && |groups[k]| > 0
    {
      GroupForStep(s, key, val, i);
      var k := key(s[i]);
      if k.Some? {
        var members := if k.value in groups then groups[k.value] else [];
        if k.value !in groups {
          GroupForAbsent(s[..i], key, val, k.value);
        }
        assert members == GroupFor(s[..i], key, val, k.value);
        ghost var before := groups;
        groups := groups[k.value := members + [val(s[i])]];
        forall k' | k' in groups
          ensures groups[k'] == GroupFor(s[..i + 1], key, val, k') && |groups[k']| > 0
        {
          if k' != k.value {
            assert groups[k'] == before[k'];
          }
        }
      }
      i := i + 1;
    }
    assert s[..i] == s;
  }
}
