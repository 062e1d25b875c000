/** Newest-first ordering of records by a timestamp string, as
    `sort_by(|a, b| b.key.cmp(&a.key))` orders them. RFC 3339 times in one
    offset order the same way as their text. */
module Ordering {
  import opened Strings
  import opened Seqs

  /** `a` must come before `b`: its key is greater. */
  function LaterFirst<A>(key: A -> string): (A, A) -> bool {
    (a: A, b: A) => LexLess(key(b), key(a))
  }

  lemma LaterFirstAsymmetric<A(!new)>(key: A -> string)
    ensures Asymmetric(LaterFirst(key))
  {
    forall a: A, b: A | LaterFirst(key)(a, b)
      ensures !LaterFirst(key)(b, a)
    {
      LexLessAsymmetric(key(b), key(a));
    }
  }

  /** Sorting newest first leaves no pair out of order, adjacent or not. */
  lemma {:induction false} SortedNewestFirst<A>(s: seq<A>, key: A -> string)
    requires SortedBy(s, LaterFirst(key))
    ensures forall i, j :: 0 <= i < j < |s| ==> !LexLess(key(s[i]), key(s[j]))
    decreases |s|
  {
    if |s| > 1 {
      var init := s[..|s| - 1];
      assert SortedBy(init, LaterFirst(key));
      SortedNewestFirst(init, key);
      forall i, j | 0 <= i < j < |s|
        ensures !LexLess(key(s[i]), key(s[j]))
      {
        if j < |s| - 1 {
          assert init[i] == s[i] && init[j] == s[j];
        } else if i < j - 1 {
          assert init[i] == s[i] && init[j - 1] == s[j - 1];
          assert !LaterFirst(key)(s[j], s[j - 1]);
          NotLessChain(key(s[i]), key(s[j - 1]), key(s[j]));
        }
      }
    }
  }

  lemma NotLessChain(a: string, b: string, c: string)
    requires !LexLess(a, b) && !LexLess(b, c)
    ensures !LexLess(a, c)
  {
    if LexLess(a, c) {
      LexLessTotal(a, b);
      if b != a {
        assert LexLess(b, a);
        LexLessTransitive(b, a, c);
      }
    }
  }

  /** The stable sort, newest first, with what it guarantees. */
  function SortNewestFirst<A(!new)>(s: seq<A>, key: A -> string): (r: seq<A>)
    ensures multiset(r) == multiset(s)
    ensures forall i, j :: 0 <= i < j < |r| ==> !LexLess(key(r[i]), key(r[j]))
  {
    LaterFirstAsymmetric(key);
    SortBySorted(s, LaterFirst(key));
    SortedNewestFirst(SortBy(s, LaterFirst(key)), key);
    SortBy(s, LaterFirst(key))
  }
}
