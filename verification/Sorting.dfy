/** Stable insertion sort standing in for the standard library's sorts: the result is always a
    rearrangement, it is ordered whenever the comparison is a strict weak order, and sorting
    again changes nothing. */
module Sorting {

  /** Puts `x` before every element it does not have to follow. */
  function Insert<T>(x: T, s: seq<T>, less: (T, T) -> bool): (r: seq<T>)
    ensures |r| == |s| + 1
  {
    if s == [] || !less(s[0], x) then [x] + s else [s[0]] + Insert(x, s[1..], less)
  }

  function Sort<T>(s: seq<T>, less: (T, T) -> bool): (r: seq<T>)
    ensures |r| == |s|
  {
    if s == [] then [] else Insert(s[0], Sort(s[1..], less), less)
  }

  lemma {:induction false} InsertKeeps<T>(x: T, s: seq<T>, less: (T, T) -> bool)
    ensures multiset(Insert(x, s, less)) == multiset(s) + multiset{x}
  {
    if s != [] && less(s[0], x) {
      assert s == [s[0]] + s[1..];
      InsertKeeps(x, s[1..], less);
    }
  }

  /** Sorting rearranges. */
  lemma {:induction false} SortKeeps<T>(s: seq<T>, less: (T, T) -> bool)
    ensures multiset(Sort(s, less)) == multiset(s)
  {
    if s != [] {
      assert s == [s[0]] + s[1..];
      SortKeeps(s[1..], less);
      InsertKeeps(s[0], Sort(s[1..], less), less);
    }
  }

  lemma SortMembers<T>(s: seq<T>, less: (T, T) -> bool, x: T)
    ensures x in Sort(s, less) <==> x in s
  {
    SortKeeps(s, less);
    assert x in Sort(s, less) <==> x in multiset(Sort(s, less));
    assert x in s <==> x in multiset(s);
  }

  // ----- ordered results -----

  ghost predicate StrictWeakOrder<T(!new)>(less: (T, T) -> bool) {
    && (forall a, b :: less(a, b) ==> !less(b, a))
    && (forall a, b, c :: !less(a, b) && !less(b, c) ==> !less(a, c))
  }

  ghost predicate SortedBy<T>(s: seq<T>, less: (T, T) -> bool) {
    forall i, j :: 0 <= i < j < |s| ==> !less(s[j], s[i])
  }

  lemma {:induction false} InsertSorts<T(!new)>(x: T, s: seq<T>, less: (T, T) -> bool)
    requires StrictWeakOrder(less) && SortedBy(s, less)
    ensures SortedBy(Insert(x, s, less), less)
  {
    if s == [] {
    } else if !less(s[0], x) {
      forall j | 0 <= j < |s| ensures !less(s[j], x) {
        assert j > 0 ==> !less(s[j], s[0]);
      }
    } else {
      var r := Insert(x, s[1..], less);
      InsertSorts(x, s[1..], less);
      InsertKeeps(x, s[1..], less);
      forall j | 0 <= j < |r| ensures !less(r[j], s[0]) {
        assert r[j] in multiset(r);
        assert r[j] == x || r[j] in s[1..];
      }
    }
  }

  lemma {:induction false} SortSorts<T(!new)>(s: seq<T>, less: (T, T) -> bool)
    requires StrictWeakOrder(less)
    ensures SortedBy(Sort(s, less), less)
  {
    if s != [] {
      SortSorts(s[1..], less);
      InsertSorts(s[0], Sort(s[1..], less), less);
    }
  }

  /** Sorting what is already sorted changes nothing. */
  lemma {:induction false} SortSame<T>(s: seq<T>, less: (T, T) -> bool)
    requires SortedBy(s, less)
    ensures Sort(s, less) == s
  {
    if s != [] {
      assert s == [s[0]] + s[1..];
      SortSame(s[1..], less);
      assert |s| > 1 ==> !less(s[1], s[0]);
    }
  }

  lemma SortTwice<T(!new)>(s: seq<T>, less: (T, T) -> bool)
    requires StrictWeakOrder(less)
    ensures Sort(Sort(s, less), less) == Sort(s, less)
  {
    SortSorts(s, less);
    SortSame(Sort(s, less), less);
  }

  // ----- numeric keys -----

  function ByKey<T>(key: T -> int): (T, T) -> bool {
    (a, b) => key(a) < key(b)
  }

  ghost predicate Ordered<T>(s: seq<T>, key: T -> int) {
    forall i, j :: 0 <= i < j < |s| ==> key(s[i]) <= key(s[j])
  }

  lemma SortOrdered<T(!new)>(s: seq<T>, key: T -> int)
    ensures Ordered(Sort(s, ByKey(key)), key)
  {
    SortSorts(s, ByKey(key));
    var r := Sort(s, ByKey(key));
    forall i, j | 0 <= i < j < |r| ensures key(r[i]) <= key(r[j]) {
      assert !ByKey(key)(r[j], r[i]);
    }
  }

  lemma SortFixed<T>(s: seq<T>, key: T -> int)
    requires Ordered(s, key)
    ensures Sort(s, ByKey(key)) == s
  {
    SortSame(s, ByKey(key));
  }

  // ----- sorted without repetition -----

  /** Drops adjacent repetitions. */
  function Unique<T(==)>(s: seq<T>): seq<T> {
    if |s| <= 1 then s
    else if s[0] == s[1] then Unique(s[1..])
    else [s[0]] + Unique(s[1..])
  }

  function SortUnique(s: seq<nat>): seq<nat> {
    Unique(Sort(s, ByKey((x: nat) => x)))
  }

  ghost predicate Rising(s: seq<nat>) {
    forall i, j :: 0 <= i < j < |s| ==> s[i] < s[j]
  }

  lemma {:induction false} UniqueRises(s: seq<nat>)
    requires forall i, j :: 0 <= i < j < |s| ==> s[i] <= s[j]
    ensures Rising(Unique(s)) && forall x :: x in Unique(s) <==> x in s
  {
    if |s| > 1 {
      var t := s[1..];
      UniqueRises(t);
      assert s == [s[0]] + t;
      if s[0] == s[1] {
        assert s[0] == t[0];
      } else {
        forall x | x in Unique(t) ensures s[0] < x {
          var i :| 0 <= i < |t| && t[i] == x;
          assert t[i] == s[i + 1] && s[1] <= s[i + 1] && s[0] <= s[1];
        }
        forall j | 1 <= j < |Unique(s)| ensures Unique(s)[0] < Unique(s)[j] {
          assert Unique(s)[j] == Unique(t)[j - 1] && Unique(t)[j - 1] in Unique(t);
        }
      }
    }
  }

  lemma {:induction false} UniqueSame(s: seq<nat>)
    requires Rising(s)
    ensures Unique(s) == s
  {
    if |s| > 1 {
      UniqueSame(s[1..]);
      assert s == [s[0]] + s[1..];
    }
  }

  /** Sorting and dropping repetitions keeps the members, lists each once in ascending order, and
      is done after one pass. */
  lemma SortUniqueMeans(s: seq<nat>)
    ensures Rising(SortUnique(s)) && SortUnique(SortUnique(s)) == SortUnique(s)
    ensures forall x :: x in SortUnique(s) <==> x in s
  {
    var key := (x: nat) => x;
    SortOrdered(s, key);
    UniqueRises(Sort(s, ByKey(key)));
    forall x ensures x in SortUnique(s) <==> x in s { SortMembers(s, ByKey(key), x); }
    SortFixed(SortUnique(s), key);
    UniqueSame(SortUnique(s));
  }
}
