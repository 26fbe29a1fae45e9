/** Python's `sorted`: a stable sort, given here by insertion. */
module Sorting {
  import opened Models

  ghost predicate TotalPreorder<T(!new)>(le: (T, T) -> bool) {
    && (forall a, b :: le(a, b) || le(b, a))
    && (forall a, b, c :: le(a, b) && le(b, c) ==> le(a, c))
  }

  ghost predicate Sorted<T>(le: (T, T) -> bool, s: seq<T>) {
    forall i, j :: 0 <= i < j < |s| ==> le(s[i], s[j])
  }

  function Insert<T>(le: (T, T) -> bool, x: T, s: seq<T>): seq<T> {
    if s == [] then [x]
    else if le(x, s[0]) then [x] + s
    else [s[0]] + Insert(le, x, s[1..])
  }

  function StableSort<T>(le: (T, T) -> bool, s: seq<T>): seq<T> {
    if s == [] then [] else Insert(le, s[0], StableSort(le, s[1..]))
  }

  lemma ConsMultiset<T>(x: T, s: seq<T>)
    ensures multiset([x] + s) == multiset(s) + multiset{x}
  {
  }

  lemma {:induction false} InsertPermutes<T>(le: (T, T) -> bool, x: T, s: seq<T>)
    ensures multiset(Insert(le, x, s)) == multiset(s) + multiset{x}
  {
    ConsMultiset(x, s);
    if s != [] && !le(x, s[0]) {
      InsertPermutes(le, x, s[1..]);
      ConsMultiset(s[0], s[1..]);
      ConsMultiset(s[0], Insert(le, x, s[1..]));
      assert s == [s[0]] + s[1..];
    }
  }

  lemma SameMultiset<T>(s: seq<T>, t: seq<T>)
    requires multiset(s) == multiset(t)
    ensures |s| == |t|
    ensures forall x :: x in s <==> x in t
  {
    assert |s| == |multiset(s)| == |multiset(t)| == |t|;
    forall x ensures x in s <==> x in t {
      assert x in s <==> x in multiset(s);
      assert x in t <==> x in multiset(t);
    }
  }

  lemma {:induction false} SortPermutes<T>(le: (T, T) -> bool, s: seq<T>)
    ensures multiset(StableSort(le, s)) == multiset(s)
    ensures |StableSort(le, s)| == |s|
    ensures forall x :: x in StableSort(le, s) <==> x in s
  {
    if s != [] {
      SortPermutes(le, s[1..]);
      InsertPermutes(le, s[0], StableSort(le, s[1..]));
      ConsMultiset(s[0], s[1..]);
      assert s == [s[0]] + s[1..];
    }
    SameMultiset(StableSort(le, s), s);
  }

  lemma {:induction false} InsertSorts<T(!new)>(le: (T, T) -> bool, x: T, s: seq<T>)
    requires TotalPreorder(le) && Sorted(le, s)
    ensures Sorted(le, Insert(le, x, s))
  {
    if s != [] && !le(x, s[0]) {
      InsertSorts(le, x, s[1..]);
      var t := Insert(le, x, s[1..]);
      InsertPermutes(le, x, s[1..]);
      forall y | y in t ensures le(s[0], y) {
        assert y in multiset(t);
        assert y == x || y in s[1..];
      }
    }
  }

  lemma {:induction false} SortSorts<T(!new)>(le: (T, T) -> bool, s: seq<T>)
    requires TotalPreorder(le)
    ensures Sorted(le, StableSort(le, s))
  {
    if s != [] {
      SortSorts(le, s[1..]);
      InsertSorts(le, s[0], StableSort(le, s[1..]));
    }
  }

  /** The elements of s that compare equal to e, in order. */
  function Ties<T>(le: (T, T) -> bool, e: T, s: seq<T>): seq<T> {
    if s == [] then []
    else if le(s[0], e) && le(e, s[0]) then [s[0]] + Ties(le, e, s[1..])
    else Ties(le, e, s[1..])
  }

  lemma {:induction false} InsertStable<T(!new)>(le: (T, T) -> bool, x: T, s: seq<T>, e: T)
    requires TotalPreorder(le)
    ensures Ties(le, e, Insert(le, x, s)) == Ties(le, e, [x] + s)
  {
    assert ([x] + s)[1..] == s;
    if s != [] && !le(x, s[0]) {
      InsertStable(le, x, s[1..], e);
      assert ([x] + s[1..])[1..] == s[1..];
      assert Insert(le, x, s)[1..] == Insert(le, x, s[1..]);
      assert !(le(x, e) && le(e, s[0]));
    }
  }

  /** Stability: elements that compare equal keep the order they came in. */
  lemma {:induction false} SortStable<T(!new)>(le: (T, T) -> bool, s: seq<T>, e: T)
    requires TotalPreorder(le)
    ensures Ties(le, e, StableSort(le, s)) == Ties(le, e, s)
  {
    if s != [] {
      SortStable(le, s[1..], e);
      InsertStable(le, s[0], StableSort(le, s[1..]), e);
      assert ([s[0]] + StableSort(le, s[1..]))[1..] == StableSort(le, s[1..]);
    }
  }

  lemma {:induction false} TiesMember<T(!new)>(le: (T, T) -> bool, e: T, s: seq<T>)
    requires TotalPreorder(le)
    ensures forall x :: x in Ties(le, e, s) ==> x in s
    ensures e in s ==> Ties(le, e, s) != []
  {
    if s != [] { TiesMember(le, e, s[1..]); }
  }

  /** A list is determined by being sorted and by the order of its ties: there is only one stable sort. */
  lemma {:induction false} StableSortUnique<T(!new)>(le: (T, T) -> bool, s: seq<T>, t: seq<T>)
    requires TotalPreorder(le) && Sorted(le, s) && Sorted(le, t)
    requires forall e :: Ties(le, e, s) == Ties(le, e, t)
    ensures s == t
  {
    BothEmpty(le, s, t);
    if s != [] {
      TiesMember(le, s[0], s);
      TiesMember(le, s[0], t);
      var b := t[0];
      TiesMember(le, b, t);
      TiesMember(le, b, s);
      FirstIsLeast(le, s, t);
      FirstIsLeast(le, t, s);
      assert Ties(le, s[0], s)[0] == s[0] && Ties(le, s[0], t)[0] == b;
      forall e ensures Ties(le, e, s[1..]) == Ties(le, e, t[1..]) {
        TiesTail(le, e, s, t);
      }
      StableSortUnique(le, s[1..], t[1..]);
    }
  }

  lemma BothEmpty<T(!new)>(le: (T, T) -> bool, s: seq<T>, t: seq<T>)
    requires TotalPreorder(le)
    requires forall e :: Ties(le, e, s) == Ties(le, e, t)
    ensures s == [] <==> t == []
  {
    if s != [] {
      TiesMember(le, s[0], s);
      assert Ties(le, s[0], t) != [];
    }
    if t != [] {
      TiesMember(le, t[0], t);
      assert Ties(le, t[0], s) != [];
    }
  }

  lemma TiesTail<T>(le: (T, T) -> bool, e: T, s: seq<T>, t: seq<T>)
    requires s != [] && t != [] && s[0] == t[0] && Ties(le, e, s) == Ties(le, e, t)
    ensures Ties(le, e, s[1..]) == Ties(le, e, t[1..])
  {
    if le(s[0], e) && le(e, s[0]) {
      assert Ties(le, e, s[1..]) == Ties(le, e, s)[1..];
      assert Ties(le, e, t[1..]) == Ties(le, e, t)[1..];
    }
  }

  lemma FirstIsLeast<T(!new)>(le: (T, T) -> bool, s: seq<T>, t: seq<T>)
    requires TotalPreorder(le) && Sorted(le, t) && s != [] && t != []
    requires Ties(le, s[0], s) == Ties(le, s[0], t)
    ensures le(t[0], s[0])
  {
    TiesMember(le, s[0], t);
    assert s[0] in Ties(le, s[0], s);
    var i :| 0 <= i < |t| && t[i] == s[0];
  }

  lemma {:induction false} TiesConcat<T>(le: (T, T) -> bool, e: T, s: seq<T>, t: seq<T>)
    ensures Ties(le, e, s + t) == Ties(le, e, s) + Ties(le, e, t)
  {
    if s == [] {
      assert s + t == t;
    } else {
      assert (s + t)[1..] == s[1..] + t;
      TiesConcat(le, e, s[1..], t);
    }
  }

  /** Sorting after each arrival gives the same list as sorting all arrivals once. */
  lemma SortThenConcat<T(!new)>(le: (T, T) -> bool, s: seq<T>, t: seq<T>)
    requires TotalPreorder(le)
    ensures StableSort(le, StableSort(le, s) + t) == StableSort(le, s + t)
  {
    SortSorts(le, StableSort(le, s) + t);
    SortSorts(le, s + t);
    forall e ensures Ties(le, e, StableSort(le, StableSort(le, s) + t)) == Ties(le, e, StableSort(le, s + t)) {
      SortStable(le, StableSort(le, s) + t, e);
      SortStable(le, s + t, e);
      SortStable(le, s, e);
      TiesConcat(le, e, StableSort(le, s), t);
      TiesConcat(le, e, s, t);
    }
    StableSortUnique(le, StableSort(le, StableSort(le, s) + t), StableSort(le, s + t));
  }

  lemma SortThenAppend<T(!new)>(le: (T, T) -> bool, s: seq<T>, x: T)
    requires TotalPreorder(le)
    ensures StableSort(le, StableSort(le, s) + [x]) == StableSort(le, s + [x])
  {
    SortThenConcat(le, s, [x]);
  }

  function Without<T(==)>(s: seq<T>, x: T): seq<T> {
    if s == [] then [] else if s[0] == x then Without(s[1..], x) else [s[0]] + Without(s[1..], x)
  }

  lemma {:induction false} WithoutMembers<T>(s: seq<T>, x: T)
    ensures forall y :: y in Without(s, x) <==> y in s && y != x
    ensures x !in s ==> Without(s, x) == s
  {
    if s != [] { WithoutMembers(s[1..], x); }
  }

  lemma {:induction false} WithoutTies<T(!new)>(le: (T, T) -> bool, e: T, s: seq<T>, x: T)
    ensures Ties(le, e, Without(s, x)) == Without(Ties(le, e, s), x)
  {
    if s != [] {
      WithoutTies(le, e, s[1..], x);
      assert s[0] != x ==> ([s[0]] + Without(s[1..], x))[1..] == Without(s[1..], x);
    }
  }

  lemma {:induction false} WithoutSorted<T(!new)>(le: (T, T) -> bool, s: seq<T>, x: T)
    requires Sorted(le, s)
    ensures Sorted(le, Without(s, x))
  {
    if s != [] {
      WithoutSorted(le, s[1..], x);
      WithoutMembers(s[1..], x);
      forall y | y in Without(s[1..], x) ensures le(s[0], y) {
        var i :| 0 <= i < |s[1..]| && s[1..][i] == y;
        assert s[i + 1] == y;
      }
    }
  }

  /** Removing an element commutes with sorting. */
  lemma SortThenRemove<T(!new)>(le: (T, T) -> bool, s: seq<T>, x: T)
    requires TotalPreorder(le)
    ensures Without(StableSort(le, s), x) == StableSort(le, Without(s, x))
  {
    SortSorts(le, s);
    SortSorts(le, Without(s, x));
    WithoutSorted(le, StableSort(le, s), x);
    forall e ensures Ties(le, e, Without(StableSort(le, s), x)) == Ties(le, e, StableSort(le, Without(s, x))) {
      WithoutTies(le, e, StableSort(le, s), x);
      WithoutTies(le, e, s, x);
      SortStable(le, s, e);
      SortStable(le, Without(s, x), e);
    }
    StableSortUnique(le, Without(StableSort(le, s), x), StableSort(le, Without(s, x)));
  }

  lemma {:induction false} InsertCongruent<T>(le1: (T, T) -> bool, le2: (T, T) -> bool, x: T, s: seq<T>)
    requires forall b :: b in s ==> le1(x, b) == le2(x, b)
    ensures Insert(le1, x, s) == Insert(le2, x, s)
  {
    if s != [] {
      InsertCongruent(le1, le2, x, s[1..]);
    }
  }

  /** Two orders that agree on the elements sort them identically. */
  lemma {:induction false} SortCongruent<T>(le1: (T, T) -> bool, le2: (T, T) -> bool, s: seq<T>)
    requires forall a, b :: a in s && b in s ==> le1(a, b) == le2(a, b)
    ensures StableSort(le1, s) == StableSort(le2, s)
  {
    if s != [] {
      SortCongruent(le1, le2, s[1..]);
      SortPermutes(le1, s[1..]);
      forall b | b in StableSort(le1, s[1..]) ensures b in s {
        assert b in multiset(StableSort(le1, s[1..]));
      }
      InsertCongruent(le1, le2, s[0], StableSort(le1, s[1..]));
    }
  }

  /** Where no two elements tie, a sorted list is determined by its members. */
  lemma SameMembersSameList<T(!new)>(le: (T, T) -> bool, s: seq<T>, t: seq<T>)
    requires TotalPreorder(le) && Sorted(le, s) && Sorted(le, t)
    requires forall a, b :: a in s && b in s && le(a, b) && le(b, a) ==> a == b
    requires NoDuplicates(s) && NoDuplicates(t) && forall x :: x in s <==> x in t
    ensures s == t
    decreases |s|
  {
    BothOrNeitherEmpty(s, t);
    if s != [] {
      assert s[0] in t && t[0] in s;
      HeadIsLeast(le, s, t[0]);
      HeadIsLeast(le, t, s[0]);
      forall x ensures x in s[1..] <==> x in t[1..] {
        TailMembers(s, x);
        TailMembers(t, x);
      }
      SameMembersSameList(le, s[1..], t[1..]);
    }
  }

  lemma BothOrNeitherEmpty<T(!new)>(s: seq<T>, t: seq<T>)
    requires forall x :: x in s <==> x in t
    ensures s == [] <==> t == []
  {
    if s != [] { assert s[0] in t; }
    if t != [] { assert t[0] in s; }
  }

  lemma HeadIsLeast<T(!new)>(le: (T, T) -> bool, s: seq<T>, x: T)
    requires TotalPreorder(le) && Sorted(le, s) && x in s
    ensures le(s[0], x)
  {
    var i :| 0 <= i < |s| && s[i] == x;
  }

  lemma TailMembers<T>(s: seq<T>, x: T)
    requires NoDuplicates(s) && s != []
    ensures x in s[1..] <==> x in s && x != s[0]
  {
    if x in s[1..] {
      var i :| 0 <= i < |s[1..]| && s[1..][i] == x;
      assert s[i + 1] == x;
    }
    if x in s && x != s[0] {
      var i :| 0 <= i < |s| && s[i] == x;
      assert s[1..][i - 1] == x;
    }
  }

  /** Python's order on strings. */
  predicate StringLe(a: string, b: string) {
    a == "" || (b != "" && (a[0] < b[0] || (a[0] == b[0] && StringLe(a[1..], b[1..]))))
  }

  lemma {:induction false} StringLeTotal(a: string, b: string)
    ensures StringLe(a, b) || StringLe(b, a)
  {
    if a != "" && b != "" { StringLeTotal(a[1..], b[1..]); }
  }

  lemma {:induction false} StringLeTransitive(a: string, b: string, c: string)
    requires StringLe(a, b) && StringLe(b, c)
    ensures StringLe(a, c)
  {
    if a != "" && b != "" && c != "" && a[0] == b[0] == c[0] {
      StringLeTransitive(a[1..], b[1..], c[1..]);
    }
  }

  lemma {:induction false} StringLeAntisymmetric(a: string, b: string)
    requires StringLe(a, b) && StringLe(b, a)
    ensures a == b
  {
    if a != "" && b != "" {
      StringLeAntisymmetric(a[1..], b[1..]);
      assert a == [a[0]] + a[1..] && b == [b[0]] + b[1..];
    }
  }
}
