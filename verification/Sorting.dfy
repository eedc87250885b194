/** The stable library sort, as insertion of each element behind everything it does not precede. */
module Sorting {

  type Before<!T> = (T, T) -> bool

  function Insert<T>(s: seq<T>, x: T, before: Before<T>): seq<T> {
    if s == [] then [x]
    else
      var n := |s| - 1;
      if before(x, s[n]) then Insert(s[..n], x, before) + [s[n]] else s + [x]
  }

  function Sort<T>(s: seq<T>, before: Before<T>): seq<T> {
    if s == [] then [] else Insert(Sort(s[..|s| - 1], before), s[|s| - 1], before)
  }

  /** What a comparator gives: nothing precedes itself, and not preceding is transitive. */
  ghost predicate Weak<T(!new)>(before: Before<T>) {
    && (forall a, b :: before(a, b) ==> !before(b, a))
    && (forall a, b, c :: !before(b, a) && !before(c, b) ==> !before(c, a))
  }

  ghost predicate Ordered<T>(s: seq<T>, before: Before<T>) {
    forall i, j :: 0 <= i < j < |s| ==> !before(s[j], s[i])
  }

  lemma {:induction false} InsertAdds<T>(s: seq<T>, x: T, before: Before<T>)
    ensures multiset(Insert(s, x, before)) == multiset(s) + multiset{x}
  {
    if s != [] {
      assert s == s[..|s| - 1] + [s[|s| - 1]];
      InsertAdds(s[..|s| - 1], x, before);
    }
  }

  /** What an inserted element goes in front of stays behind everything. */
  lemma InsertBelow<T(!new)>(s: seq<T>, x: T, before: Before<T>, last: T)
    requires Weak(before) && before(x, last) && forall i :: 0 <= i < |s| ==> !before(last, s[i])
    ensures forall i :: 0 <= i < |Insert(s, x, before)| ==> !before(last, Insert(s, x, before)[i])
  {
    InsertAdds(s, x, before);
    var r := Insert(s, x, before);
    hide Insert;
    forall i | 0 <= i < |r|
      ensures !before(last, r[i])
    {
      assert r[i] in multiset(s) + multiset{x};
    }
  }

  lemma {:induction false} InsertKeeps<T(!new)>(s: seq<T>, x: T, before: Before<T>)
    requires Weak(before) && Ordered(s, before)
    ensures Ordered(Insert(s, x, before), before)
  {
    if s != [] {
      var n := |s| - 1;
      if before(x, s[n]) {
        InsertKeeps(s[..n], x, before);
        InsertBelow(s[..n], x, before, s[n]);
      } else {
        forall i | 0 <= i < |s|
          ensures !before(x, s[i])
        {
          assert i < n ==> !before(s[n], s[i]);
        }
      }
    }
  }

  lemma {:induction false} SortSorts<T(!new)>(s: seq<T>, before: Before<T>)
    requires Weak(before)
    ensures Ordered(Sort(s, before), before)
    ensures multiset(Sort(s, before)) == multiset(s) && |Sort(s, before)| == |s|
  {
    if s != [] {
      var n := |s| - 1;
      SortSorts(s[..n], before);
      InsertKeeps(Sort(s[..n], before), s[n], before);
      InsertAdds(Sort(s[..n], before), s[n], before);
      assert s == s[..n] + [s[n]];
      assert |Sort(s, before)| == |multiset(Sort(s, before))| == |multiset(s)| == |s|;
    }
  }

  /** The first element precedes nothing before it: a least one. */
  lemma FirstIsLeast<T(!new)>(s: seq<T>, before: Before<T>)
    requires Weak(before) && s != []
    ensures Sort(s, before) != [] && Sort(s, before)[0] in s
    ensures forall x <- s :: !before(x, Sort(s, before)[0])
  {
    SortSorts(s, before);
    var r := Sort(s, before);
    assert r[0] in multiset(s);
    forall x | x in s
      ensures !before(x, r[0])
    {
      assert x in multiset(r);
      var i :| 0 <= i < |r| && r[i] == x;
    }
  }
}
