/** Lists with the same items, whatever their order. */
module Items {

  lemma {:induction false} SameMembers<T>(s: seq<T>, t: seq<T>)
    requires multiset(s) == multiset(t)
    ensures |s| == |t| && forall e :: e in s <==> e in t
  {
    assert |s| == |multiset(s)| == |multiset(t)| == |t|;
    assert forall e :: (e in s <==> e in multiset(s)) && (e in t <==> e in multiset(t));
  }

  lemma {:induction false} TailItems<T>(s: seq<T>, t: seq<T>)
    requires s != [] && t != [] && s[0] == t[0] && multiset(s) == multiset(t)
    ensures multiset(s[1..]) == multiset(t[1..])
  {
    assert s == [s[0]] + s[1..] && t == [t[0]] + t[1..];
    forall e ensures multiset(s[1..])[e] == multiset(t[1..])[e] {
      assert multiset(s)[e] == multiset(t)[e];
    }
  }

  lemma {:induction false} TakeOne<T>(front: seq<T>, x: T, all: seq<T>) returns (before: seq<T>, after: seq<T>)
    requires multiset(front + [x]) == multiset(all)
    ensures all == before + [x] + after && multiset(before + after) == multiset(front)
  {
    assert x in multiset(front + [x]);
    var k :| 0 <= k < |all| && all[k] == x;
    before, after := all[..k], all[k + 1..];
    assert all == before + [x] + after;
    assert multiset(all) == multiset(before + after) + multiset{x};
    assert multiset(front + [x]) == multiset(front) + multiset{x};
    forall e ensures multiset(before + after)[e] == multiset(front)[e] {
      assert multiset(all)[e] == multiset(front + [x])[e];
    }
  }

  lemma {:induction false} CountedTwice<T>(t: seq<T>, i: nat, j: nat)
    requires i < j < |t| && t[i] == t[j]
    ensures multiset(t)[t[i]] >= 2
  {
    assert t == t[..j] + [t[j]] + t[j + 1..];
    assert t[..j][i] == t[i] && t[i] in multiset(t[..j]);
  }

  lemma {:induction false} FoundTwice<T>(s: seq<T>, e: T) returns (k: nat, l: nat)
    requires multiset(s)[e] >= 2
    ensures k < l < |s| && s[k] == s[l] == e
  {
    assert e in multiset(s);
    k :| 0 <= k < |s| && s[k] == e;
    var rest := s[..k] + s[k + 1..];
    assert s == s[..k] + [e] + s[k + 1..];
    assert multiset(s) == multiset(rest) + multiset{e};
    assert e in multiset(rest);
    var m: nat :| m < |rest| && rest[m] == e;
    if m < k { k, l := m, k; } else { l := m + 1; }
  }

  /** Stable insertion: after every item it does not come before. */
  function Insert<T>(s: seq<T>, e: T, before: (T, T) -> bool): (r: seq<T>)
    ensures multiset(r) == multiset(s) + multiset{e}
  {
    if s == [] then [e]
    else
      var last := s[|s| - 1];
      assert s == s[..|s| - 1] + [last];
      if before(e, last) then Insert(s[..|s| - 1], e, before) + [last] else s + [e]
  }

  function Sorted<T>(s: seq<T>, before: (T, T) -> bool): (r: seq<T>)
    ensures multiset(r) == multiset(s)
  {
    if s == [] then [] else
      assert s == s[..|s| - 1] + [s[|s| - 1]];
      Insert(Sorted(s[..|s| - 1], before), s[|s| - 1], before)
  }

  ghost predicate OrderedBy<T(!new)>(s: seq<T>, less: (T, T) -> bool) {
    forall i, j :: 0 <= i < j < |s| ==> less(s[i], s[j])
  }

  ghost predicate Asymmetric<T(!new)>(less: (T, T) -> bool) {
    forall x, y :: less(x, y) ==> !less(y, x)
  }

  /** Under a strict order a list of items can be arranged in one way only. */
  lemma {:induction false} OrderIsUnique<T(!new)>(s: seq<T>, t: seq<T>, less: (T, T) -> bool)
    requires Asymmetric(less) && OrderedBy(s, less) && OrderedBy(t, less) && multiset(s) == multiset(t)
    ensures s == t
  {
    SameMembers(s, t);
    if s != [] {
      var x, y := s[0], t[0];
      assert x in t && y in s;
      assert x == y || (less(x, y) && less(y, x));
      TailItems(s, t);
      OrderIsUnique(s[1..], t[1..], less);
      assert s == [x] + s[1..] && t == [y] + t[1..];
    }
  }

  // ----- Sorting under a strict total order -----

  ghost predicate NoInversions<T(!new)>(s: seq<T>, before: (T, T) -> bool) {
    forall i, j :: 0 <= i < j < |s| ==> !before(s[j], s[i])
  }

  /** What is not before something not before `x` is not before `x`. */
  ghost predicate Cotransitive<T(!new)>(before: (T, T) -> bool) {
    forall x, y, z :: !before(y, x) && !before(z, y) ==> !before(z, x)
  }

  lemma {:induction false} InsertSorts<T(!new)>(s: seq<T>, e: T, before: (T, T) -> bool)
    requires Asymmetric(before) && Cotransitive(before) && NoInversions(s, before)
    ensures NoInversions(Insert(s, e, before), before)
  {
    if s != [] {
      var last, front := s[|s| - 1], s[..|s| - 1];
      if before(e, last) {
        InsertSorts(front, e, before);
        var r := Insert(front, e, before);
        forall i | 0 <= i < |r| ensures !before(last, r[i]) {
          assert r[i] in multiset(r);
          assert r[i] in front || r[i] == e;
        }
      } else {
        assert forall i :: 0 <= i < |front| ==> !before(last, s[i]) && !before(e, s[i]);
      }
    }
  }

  lemma {:induction false} SortSorts<T(!new)>(s: seq<T>, before: (T, T) -> bool)
    requires Asymmetric(before) && Cotransitive(before)
    ensures NoInversions(Sorted(s, before), before)
  {
    if s != [] {
      SortSorts(s[..|s| - 1], before);
      InsertSorts(Sorted(s[..|s| - 1], before), s[|s| - 1], before);
    }
  }

  /** Where distinct items always compare, two arrangements without inversions agree. */
  lemma {:induction false} SortIsUnique<T(!new)>(s: seq<T>, t: seq<T>, before: (T, T) -> bool)
    requires NoInversions(s, before) && NoInversions(t, before) && multiset(s) == multiset(t)
    requires forall x, y :: x == y || before(x, y) || before(y, x)
    ensures s == t
  {
    SameMembers(s, t);
    if s != [] {
      var x, y := s[0], t[0];
      assert x in t && y in s;
      assert x == y || (!before(x, y) && !before(y, x));
      TailItems(s, t);
      SortIsUnique(s[1..], t[1..], before);
      assert s == [x] + s[1..] && t == [y] + t[1..];
    }
  }
}
