/** `itertools.combinations`, in its lexicographic order of positions. */
module Combinatorics {

  function PrependAll<T>(x: T, cs: seq<seq<T>>): (r: seq<seq<T>>)
    ensures |r| == |cs|
    ensures forall i :: 0 <= i < |cs| ==> r[i] == [x] + cs[i]
  {
    seq(|cs|, i requires 0 <= i < |cs| => [x] + cs[i])
  }

  function Combinations<T>(s: seq<T>, k: nat): seq<seq<T>> {
    if k == 0 then [[]]
    else if s == [] then []
    else PrependAll(s[0], Combinations(s[1..], k - 1)) + Combinations(s[1..], k)
  }

  function RemoveAt<T>(s: seq<T>, i: nat): (r: seq<T>)
    requires i < |s|
    ensures |r| == |s| - 1
  {
    s[..i] + s[i + 1..]
  }

  lemma RemovedMultiset<T>(s: seq<T>, i: nat)
    requires i < |s|
    ensures multiset(s) == multiset{s[i]} + multiset(RemoveAt(s, i))
    ensures multiset(RemoveAt(s, i)) == multiset(s) - multiset{s[i]}
  {
    assert s == s[..i] + [s[i]] + s[i + 1..];
  }

  lemma RemoveAtCases<T>(s: seq<T>, i: nat)
    requires i < |s|
    ensures i == 0 ==> RemoveAt(s, i) == s[1..]
    ensures i > 0 ==>
              && s[1..][i - 1] == s[i]
              && RemoveAt(s, i)[0] == s[0]
              && RemoveAt(s, i)[1..] == RemoveAt(s[1..], i - 1)
  {
  }

  lemma RemoveAtEndCases<T>(s: seq<T>, i: nat)
    requires i < |s|
    ensures i == |s| - 1 ==> RemoveAt(s, i) == s[..i]
    ensures i < |s| - 1 ==>
              && s[..|s| - 1][i] == s[i]
              && RemoveAt(s, i)[|s| - 2] == s[|s| - 1]
              && RemoveAt(s, i)[..|s| - 2] == RemoveAt(s[..|s| - 1], i)
  {
  }

  lemma SplitFirst<T>(s: seq<T>)
    requires s != []
    ensures multiset(s) == multiset{s[0]} + multiset(s[1..])
  {
    assert s == [s[0]] + s[1..];
  }

  /** A combination either uses the first element or is a combination of the rest; and conversely. */
  lemma CombinationsCases<T>(s: seq<T>, k: nat, c: seq<T>)
    requires s != [] && k > 0
    ensures c in Combinations(s, k) <==>
              || c in Combinations(s[1..], k)
              || (c != [] && c[0] == s[0] && c[1..] in Combinations(s[1..], k - 1))
  {
    var with, without := Combinations(s[1..], k - 1), Combinations(s[1..], k);
    var prepended := PrependAll(s[0], with);
    assert c in Combinations(s, k) <==> c in prepended || c in without;
    if c in prepended {
      var i :| 0 <= i < |prepended| && prepended[i] == c;
      assert c[1..] == with[i];
    }
    if c != [] && c[0] == s[0] && c[1..] in with {
      var i :| 0 <= i < |with| && with[i] == c[1..];
      assert prepended[i] == c;
    }
  }

  lemma CombinationsEnds<T>(s: seq<T>, k: nat, c: seq<T>)
    ensures k == 0 ==> (c in Combinations(s, k) <==> c == [])
    ensures k > 0 && s == [] ==> c !in Combinations(s, k)
  {
    if k == 0 { assert Combinations(s, 0)[0] == []; }
  }

  /** Everything enumerated is a k-element selection of s. */
  lemma {:induction false} CombinationsSound<T>(s: seq<T>, k: nat, c: seq<T>)
    requires c in Combinations(s, k)
    ensures |c| == k && multiset(c) <= multiset(s)
  {
    hide Combinations;
    CombinationsEnds(s, k, c);
    if k > 0 {
      CombinationsCases(s, k, c);
      SplitFirst(s);
      if c in Combinations(s[1..], k) {
        CombinationsSound(s[1..], k, c);
      } else {
        CombinationsSound(s[1..], k - 1, c[1..]);
        SplitFirst(c);
      }
    }
  }

  /** Every k-element selection of s is enumerated, up to the order of its elements. */
  lemma {:induction false} CombinationsComplete<T>(s: seq<T>, k: nat, t: seq<T>) returns (c: seq<T>)
    requires |t| == k && multiset(t) <= multiset(s)
    ensures c in Combinations(s, k) && multiset(c) == multiset(t)
  {
    hide Combinations, RemoveAt;
    if k == 0 {
      c := [];
      CombinationsEnds(s, k, c);
    } else {
      assert t[0] in multiset(s);
      SplitFirst(s);
      if s[0] in t {
        var i :| 0 <= i < |t| && t[i] == s[0];
        RemovedMultiset(t, i);
        SelectionWithout(s[0], multiset(s[1..]), multiset(t), multiset(RemoveAt(t, i)));
        var d := CombinationsComplete(s[1..], k - 1, RemoveAt(t, i));
        c := [s[0]] + d;
        SplitFirst(c);
        assert c[1..] == d;
      } else {
        SelectionAvoiding(s[0], multiset(s[1..]), multiset(t));
        c := CombinationsComplete(s[1..], k, t);
      }
      CombinationsCases(s, k, c);
    }
  }

  lemma SelectionWithout<T>(x: T, m: multiset<T>, t: multiset<T>, u: multiset<T>)
    requires t <= multiset{x} + m && u == t - multiset{x}
    ensures u <= m
  {
  }

  lemma SelectionAvoiding<T>(x: T, m: multiset<T>, t: multiset<T>)
    requires t <= multiset{x} + m && x !in t
    ensures t <= m
  {
    forall y ensures t[y] <= m[y] {
      assert t[y] <= (multiset{x} + m)[y];
    }
  }

  /** How many there are depends only on the length of s. */
  lemma {:induction false} CombinationsCount<T>(s: seq<T>, t: seq<T>, k: nat)
    requires |s| == |t|
    ensures |Combinations(s, k)| == |Combinations(t, k)|
    ensures k <= |s| ==> |Combinations(s, k)| > 0
  {
    if k > 0 && s != [] {
      CombinationsCount(s[1..], t[1..], k - 1);
      CombinationsCount(s[1..], t[1..], k);
    }
  }

  /** At position q the two part: c goes on with an element of s that stands before the one d goes on with. */
  ghost predicate PartsAt<T>(s: seq<T>, c: seq<T>, d: seq<T>, q: nat) {
    && q < |c| && q < |d| && c[..q] == d[..q]
    && exists a, b :: 0 <= a < b < |s| && s[a] == c[q] && s[b] == d[q]
  }

  /** c comes before d in the lexicographic order of positions in s. */
  ghost predicate LexBefore<T>(s: seq<T>, c: seq<T>, d: seq<T>) { exists q: nat :: PartsAt(s, c, d, q) }

  lemma LexInTail<T>(s: seq<T>, c: seq<T>, d: seq<T>)
    requires s != [] && LexBefore(s[1..], c, d)
    ensures LexBefore(s, c, d) && LexBefore(s, [s[0]] + c, [s[0]] + d)
  {
    var q: nat :| PartsAt(s[1..], c, d, q);
    var a, b :| 0 <= a < b < |s[1..]| && s[1..][a] == c[q] && s[1..][b] == d[q];
    assert s[a + 1] == c[q] && s[b + 1] == d[q];
    assert PartsAt(s, c, d, q);
    assert ([s[0]] + c)[..q + 1] == [s[0]] + c[..q] && ([s[0]] + d)[..q + 1] == [s[0]] + d[..q];
    assert PartsAt(s, [s[0]] + c, [s[0]] + d, q + 1);
  }

  lemma LexAtHead<T>(s: seq<T>, c: seq<T>, d: seq<T>)
    requires s != [] && c != [] && c[0] == s[0] && d != [] && d[0] in s[1..]
    ensures LexBefore(s, c, d)
  {
    var b :| 0 <= b < |s[1..]| && s[1..][b] == d[0];
    assert s[0] == c[0] && s[b + 1] == d[0];
    assert PartsAt(s, c, d, 0);
  }

  /** Where the i-th combination comes from: those with the first element come before those without. */
  lemma CombinationAt<T>(s: seq<T>, k: nat, i: nat)
    requires k > 0 && s != [] && i < |Combinations(s, k)|
    ensures var with, without := Combinations(s[1..], k - 1), Combinations(s[1..], k);
            && |Combinations(s, k)| == |with| + |without|
            && Combinations(s, k)[i] == if i < |with| then [s[0]] + with[i] else without[i - |with|]
  {
  }

  lemma SeveralCombinations<T>(s: seq<T>, k: nat)
    requires |Combinations(s, k)| > 1
    ensures k > 0 && s != []
  {
  }

  lemma NonEmptyIn<T>(s: seq<T>, k: nat, d: seq<T>)
    requires k > 0 && d in Combinations(s, k)
    ensures d != [] && d[0] in s
  {
    hide Combinations;
    CombinationsSound(s, k, d);
    assert d[0] in multiset(d) && d[0] in multiset(s);
  }

  /** The enumeration is in lexicographic order. */
  lemma {:induction false} CombinationsInOrder<T>(s: seq<T>, k: nat, i: nat, j: nat)
    requires i < j < |Combinations(s, k)|
    ensures LexBefore(s, Combinations(s, k)[i], Combinations(s, k)[j])
  {
    hide LexBefore, Combinations;
    SeveralCombinations(s, k);
    CombinationAt(s, k, i);
    CombinationAt(s, k, j);
    var with, without := Combinations(s[1..], k - 1), Combinations(s[1..], k);
    var n := |with|;
    if j < n {
      CombinationsInOrder(s[1..], k - 1, i, j);
      LexInTail(s, with[i], with[j]);
    } else if i < n {
      var d := without[j - n];
      assert d in without;
      NonEmptyIn(s[1..], k, d);
      LexAtHead(s, [s[0]] + with[i], d);
    } else {
      CombinationsInOrder(s[1..], k, i - n, j - n);
      LexInTail(s, without[i - n], without[j - n]);
    }
  }
}
