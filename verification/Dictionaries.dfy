/** Insertion-ordered dictionaries, as sequences of entries that carry their own key. */
module Dictionaries {
  import opened Models

  function Keys<T>(key: T -> string, s: seq<T>): (r: seq<string>)
    ensures |r| == |s| && forall i :: 0 <= i < |s| ==> r[i] == key(s[i])
  {
    seq(|s|, i requires 0 <= i < |s| => key(s[i]))
  }

  /** `d[key(x)] = x`: replaces in place, or appends. */
  function Put<T>(key: T -> string, s: seq<T>, x: T): seq<T> {
    if s == [] then [x]
    else if key(s[0]) == key(x) then [x] + s[1..]
    else [s[0]] + Put(key, s[1..], x)
  }

  /** `d.get(id)`. */
  function Find<T>(key: T -> string, s: seq<T>, id: string): (r: Option<T>)
    ensures r.Some? ==> r.value in s && key(r.value) == id
    ensures r.None? ==> forall x :: x in s ==> key(x) != id
  {
    if s == [] then None
    else if key(s[0]) == id then Some(s[0])
    else Find(key, s[1..], id)
  }

  /** `d.pop(id, None)`. */
  function Drop<T>(key: T -> string, s: seq<T>, id: string): (r: seq<T>)
    ensures forall x :: x in r ==> x in s
  {
    if s == [] then []
    else if key(s[0]) == id then s[1..]
    else [s[0]] + Drop(key, s[1..], id)
  }

  lemma TailKeys<T>(key: T -> string, s: seq<T>)
    requires s != []
    ensures Keys(key, s) == [key(s[0])] + Keys(key, s[1..])
    ensures DistinctKeys(key, s) <==> DistinctKeys(key, s[1..]) && forall x :: x in s[1..] ==> key(x) != key(s[0])
  {
    if DistinctKeys(key, s[1..]) && forall x :: x in s[1..] ==> key(x) != key(s[0]) {
      forall i, j | 0 <= i < j < |s| ensures key(s[i]) != key(s[j]) {
        assert s[j] == s[1..][j - 1];
        if i > 0 { assert s[i] == s[1..][i - 1]; }
      }
    }
    if DistinctKeys(key, s) {
      forall i | 0 <= i < |s[1..]| ensures key(s[1..][i]) != key(s[0]) { assert s[1..][i] == s[i + 1]; }
    }
  }

  lemma ConsKeys<T>(key: T -> string, x: T, s: seq<T>)
    ensures Keys(key, [x] + s) == [key(x)] + Keys(key, s)
    ensures DistinctKeys(key, [x] + s) <==> DistinctKeys(key, s) && forall y :: y in s ==> key(y) != key(x)
  {
    TailKeys(key, [x] + s);
    assert ([x] + s)[1..] == s;
  }

  lemma KeyPosition<T>(key: T -> string, s: seq<T>, i: nat, j: nat)
    requires DistinctKeys(key, s) && i < |s| && j < |s| && key(s[i]) == key(s[j])
    ensures i == j
  {
  }

  lemma InitKeys<T>(key: T -> string, s: seq<T>)
    requires s != [] && DistinctKeys(key, s)
    ensures DistinctKeys(key, s[..|s| - 1])
    ensures forall x :: x in s[..|s| - 1] ==> key(x) != key(s[|s| - 1])
  {
    var n := |s| - 1;
    forall i, j | 0 <= i < j < n ensures key(s[..n][i]) != key(s[..n][j]) { assert key(s[i]) != key(s[j]); }
    forall x | x in s[..n] ensures key(x) != key(s[n]) {
      var i :| 0 <= i < n && s[i] == x;
      assert key(s[i]) != key(s[n]);
    }
  }

  lemma AppendKeys<T>(key: T -> string, s: seq<T>, x: T)
    requires DistinctKeys(key, s) && forall y :: y in s ==> key(y) != key(x)
    ensures DistinctKeys(key, s + [x])
  {
    forall i, j | 0 <= i < j < |s + [x]| ensures key((s + [x])[i]) != key((s + [x])[j]) {
      assert (s + [x])[i] == s[i];
      if j < |s| { assert (s + [x])[j] == s[j]; }
    }
  }

  /** A put keeps every key where it is; a new one comes last. */
  lemma {:induction false} PutKeys<T>(key: T -> string, s: seq<T>, x: T)
    ensures Keys(key, Put(key, s, x)) == if key(x) in Keys(key, s) then Keys(key, s) else Keys(key, s) + [key(x)]
  {
    hide Keys;
    if s == [] {
      KeysOfNone(key, x);
    } else {
      TailKeys(key, s);
      ConsKeys(key, x, s[1..]);
      ConsKeys(key, s[0], Put(key, s[1..], x));
      PutKeys(key, s[1..], x);
    }
  }

  lemma KeysOfNone<T>(key: T -> string, x: T)
    ensures Keys(key, []) == [] && Keys(key, [x]) == [key(x)]
  {
  }

  /** A put changes what is found under its own key and under no other. */
  lemma {:induction false} PutFind<T>(key: T -> string, s: seq<T>, x: T, id: string)
    ensures Find(key, Put(key, s, x), id) == if id == key(x) then Some(x) else Find(key, s, id)
  {
    if s != [] { PutFind(key, s[1..], x, id); }
  }

  lemma {:induction false} PutMembers<T>(key: T -> string, s: seq<T>, x: T)
    ensures x in Put(key, s, x)
    ensures forall y :: y in Put(key, s, x) ==> y == x || y in s
  {
    if s != [] { PutMembers(key, s[1..], x); }
  }

  lemma {:induction false} PutDistinct<T>(key: T -> string, s: seq<T>, x: T)
    requires DistinctKeys(key, s)
    ensures DistinctKeys(key, Put(key, s, x))
  {
    if s != [] {
      hide DistinctKeys;
      TailKeys(key, s);
      PutDistinct(key, s[1..], x);
      PutMembers(key, s[1..], x);
      ConsKeys(key, s[0], Put(key, s[1..], x));
      ConsKeys(key, x, s[1..]);
    }
  }

  lemma {:induction false} PutNew<T>(key: T -> string, s: seq<T>, x: T)
    requires forall y :: y in s ==> key(y) != key(x)
    ensures Put(key, s, x) == s + [x]
  {
    if s != [] { PutNew(key, s[1..], x); }
  }

  /** Putting an entry that is already there changes nothing. */
  lemma {:induction false} PutAgain<T>(key: T -> string, s: seq<T>, i: nat)
    requires DistinctKeys(key, s) && i < |s|
    ensures Put(key, s, s[i]) == s
  {
    if i > 0 { PutAgain(key, s[1..], i - 1); }
  }

  lemma {:induction false} DropMembers<T>(key: T -> string, s: seq<T>, id: string)
    requires DistinctKeys(key, s)
    ensures DistinctKeys(key, Drop(key, s, id))
    ensures forall x :: x in Drop(key, s, id) <==> x in s && key(x) != id
  {
    if s != [] {
      hide DistinctKeys;
      TailKeys(key, s);
      DropMembers(key, s[1..], id);
      ConsKeys(key, s[0], Drop(key, s[1..], id));
    }
  }

  /** A drop empties its own key and keeps every other. */
  lemma {:induction false} DropFind<T>(key: T -> string, s: seq<T>, id: string, other: string)
    requires DistinctKeys(key, s)
    ensures Find(key, Drop(key, s, id), other) == if other == id then None else Find(key, s, other)
  {
    if s != [] {
      TailKeys(key, s);
      hide DistinctKeys;
      DropFind(key, s[1..], id, other);
    }
  }

  lemma {:induction false} DropAbsent<T>(key: T -> string, s: seq<T>, id: string)
    requires forall x :: x in s ==> key(x) != id
    ensures Drop(key, s, id) == s
  {
    if s != [] { DropAbsent(key, s[1..], id); }
  }
}
