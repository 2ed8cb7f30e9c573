/**
 Value types shared by the models: optional values, insertion-ordered dictionaries
 with the update rules of Python's `dict`, and a stable sort with the contract of
 Python's `list.sort(key=...)`.
 */
module Collections {

  datatype Option<+T> = None | Some(value: T)

  ghost predicate NoDup<T>(s: seq<T>) {
    forall i, j :: 0 <= i < j < |s| ==> s[i] != s[j]
  }

  /** Deletes the first occurrence of `x`. */
  function Without<T(==, !new)>(s: seq<T>, x: T): (r: seq<T>)
    ensures NoDup(s) ==> NoDup(r) && x !in r
    ensures forall y :: y != x ==> (y in r <==> y in s)
    ensures x in s ==> |r| == |s| - 1
    ensures x !in s ==> r == s
  {
    if s == [] then []
    else if s[0] == x then
      assert forall y :: y in s <==> y == s[0] || y in s[1..];
      s[1..]
    else
      assert forall y :: y in s <==> y == s[0] || y in s[1..];
      var t := Without(s[1..], x);
      var r := [s[0]] + t;
      assert forall y :: y in r <==> y == s[0] || y in t;
      assert forall i :: 0 <= i < |s[1..]| ==> s[1..][i] == s[i + 1];
      assert NoDup(s) ==> NoDup(s[1..]) && s[0] !in s[1..];
      r
  }

  lemma SplitLast<T>(s: seq<T>)
    requires s != []
    ensures s == s[..|s| - 1] + [s[|s| - 1]]
  {
  }

  lemma ConcatAssoc<T>(a: seq<T>, b: seq<T>, c: seq<T>)
    ensures (a + b) + c == a + (b + c)
  {
  }

  lemma EmptyConcat<T>(s: seq<T>)
    ensures [] + s == s
  {
  }

  lemma UnionAssoc<K, V>(x: map<K, V>, y: map<K, V>, z: map<K, V>)
    ensures (x + y) + z == x + (y + z)
  {
  }

  /** A dictionary that remembers insertion order: overwriting keeps a key's place,
      deleting and re-inserting moves it to the end. */
  datatype Dict<K(==, !new), V> = Dict(keys: seq<K>, vals: map<K, V>) {

    ghost predicate WF() {
      NoDup(keys) && forall k :: k in keys <==> k in vals
    }

    function Put(k: K, v: V): Dict<K, V> {
      Dict(if k in vals then keys else keys + [k], vals[k := v])
    }

    function Pop(k: K): Dict<K, V> {
      Dict(Without(keys, k), vals - {k})
    }

    lemma PutKeepsWF(k: K, v: V)
      requires WF()
      ensures Put(k, v).WF()
    {
    }

    lemma PopKeepsWF(k: K)
      requires WF()
      ensures Pop(k).WF()
    {
    }

    function Values(): (vs: seq<V>)
      requires WF()
      ensures |vs| == |keys|
    {
      seq(|keys|, i requires 0 <= i < |keys| => vals[keys[i]])
    }
  }

  function EmptyDict<K(==, !new), V>(): Dict<K, V> {
    Dict([], map[])
  }

  // ---- Stable sorting ----

  function InsertByKey<T>(x: T, s: seq<T>, key: T -> int): seq<T> {
    if s == [] then [x]
    else if key(x) <= key(s[0]) then [x] + s
    else [s[0]] + InsertByKey(x, s[1..], key)
  }

  function SortByKey<T>(s: seq<T>, key: T -> int): seq<T> {
    if s == [] then [] else InsertByKey(s[0], SortByKey(s[1..], key), key)
  }

  ghost predicate SortedByKey<T>(s: seq<T>, key: T -> int) {
    forall i, j :: 0 <= i < j < |s| ==> key(s[i]) <= key(s[j])
  }

  lemma {:induction false} InsertKeepsElements<T>(x: T, s: seq<T>, key: T -> int)
    ensures multiset(InsertByKey(x, s, key)) == multiset{x} + multiset(s)
    ensures |InsertByKey(x, s, key)| == |s| + 1
  {
    if s == [] {
    } else if key(x) <= key(s[0]) {
    } else {
      InsertKeepsElements(x, s[1..], key);
      assert s == [s[0]] + s[1..];
    }
  }

  lemma {:induction false} InsertKeepsSorted<T>(x: T, s: seq<T>, key: T -> int)
    requires SortedByKey(s, key)
    ensures SortedByKey(InsertByKey(x, s, key), key)
  {
    if s == [] {
    } else if key(x) <= key(s[0]) {
    } else {
      var t := InsertByKey(x, s[1..], key);
      InsertKeepsSorted(x, s[1..], key);
      InsertKeepsElements(x, s[1..], key);
      forall j | 0 <= j < |t| ensures key(s[0]) <= key(t[j]) {
        assert t[j] in multiset(t);
        assert t[j] == x || t[j] in s[1..];
      }
    }
  }

  lemma {:induction false} SortPermutes<T>(s: seq<T>, key: T -> int)
    ensures multiset(SortByKey(s, key)) == multiset(s) && |SortByKey(s, key)| == |s|
  {
    if s != [] {
      SortPermutes(s[1..], key);
      InsertKeepsElements(s[0], SortByKey(s[1..], key), key);
      assert s == [s[0]] + s[1..];
    }
  }

  lemma {:induction false} SortSorts<T>(s: seq<T>, key: T -> int)
    ensures SortedByKey(SortByKey(s, key), key)
  {
    if s != [] {
      SortSorts(s[1..], key);
      InsertKeepsSorted(s[0], SortByKey(s[1..], key), key);
    }
  }

  /** `x` stands somewhere before `y`. */
  ghost predicate Precedes<T>(s: seq<T>, x: T, y: T) {
    exists i, j :: 0 <= i < j < |s| && s[i] == x && s[j] == y
  }

  lemma InFrontPrecedes<T>(z: T, s: seq<T>, x: T, y: T)
    ensures Precedes(s, x, y) || (x == z && y in s) ==> Precedes([z] + s, x, y)
  {
    var r := [z] + s;
    if Precedes(s, x, y) {
      var i, j :| 0 <= i < j < |s| && s[i] == x && s[j] == y;
      assert r[i + 1] == x && r[j + 1] == y;
    } else if x == z && y in s {
      var j :| 0 <= j < |s| && s[j] == y;
      assert r[0] == x && r[j + 1] == y;
    }
  }

  lemma FrontOrRest<T>(s: seq<T>, x: T, y: T)
    requires s != [] && Precedes(s, x, y)
    ensures Precedes(s[1..], x, y) || (x == s[0] && y in s[1..])
  {
    var i, j :| 0 <= i < j < |s| && s[i] == x && s[j] == y;
    assert s[1..][j - 1] == y;
    if i > 0 { assert s[1..][i - 1] == x; }
  }

  lemma {:induction false} InsertKeepsOrder<T>(z: T, s: seq<T>, key: T -> int, x: T, y: T)
    requires Precedes(s, x, y)
    ensures Precedes(InsertByKey(z, s, key), x, y)
  {
    InFrontPrecedes(z, s, x, y);
    if s != [] && key(z) > key(s[0]) {
      FrontOrRest(s, x, y);
      InsertKeepsElements(z, s[1..], key);
      assert y in s[1..] ==> y in multiset(InsertByKey(z, s[1..], key));
      if Precedes(s[1..], x, y) { InsertKeepsOrder(z, s[1..], key, x, y); }
      InFrontPrecedes(s[0], InsertByKey(z, s[1..], key), x, y);
    }
  }

  lemma {:induction false} InsertComesFirst<T>(x: T, s: seq<T>, key: T -> int, y: T)
    requires y in s && key(x) <= key(y)
    ensures Precedes(InsertByKey(x, s, key), x, y)
  {
    InFrontPrecedes(x, s, x, y);
    if key(x) > key(s[0]) {
      InsertComesFirst(x, s[1..], key, y);
      InFrontPrecedes(s[0], InsertByKey(x, s[1..], key), x, y);
    }
  }

  /** Sorting never takes an element past one that its key does not exceed. */
  lemma {:induction false} SortKeepsOrder<T>(s: seq<T>, key: T -> int, x: T, y: T)
    requires Precedes(s, x, y) && key(x) <= key(y)
    ensures Precedes(SortByKey(s, key), x, y)
  {
    FrontOrRest(s, x, y);
    SortKeepsMembers(s[1..], key);
    if Precedes(s[1..], x, y) {
      SortKeepsOrder(s[1..], key, x, y);
      InsertKeepsOrder(s[0], SortByKey(s[1..], key), key, x, y);
    } else {
      InsertComesFirst(s[0], SortByKey(s[1..], key), key, y);
    }
  }

  lemma SortOrders<T>(s: seq<T>, key: T -> int, x: T, y: T)
    requires x in s && y in s && key(x) < key(y)
    ensures Precedes(SortByKey(s, key), x, y)
  {
    SortSorts(s, key);
    SortKeepsMembers(s, key);
    var t := SortByKey(s, key);
    var i :| 0 <= i < |t| && t[i] == x;
    var j :| 0 <= j < |t| && t[j] == y;
  }

  lemma PrecedesInPrefix<T>(s: seq<T>, t: seq<T>, x: T, y: T)
    requires Precedes(s, x, y)
    ensures Precedes(s + t, x, y)
  {
    var i, j :| 0 <= i < j < |s| && s[i] == x && s[j] == y;
    assert (s + t)[i] == x && (s + t)[j] == y;
  }

  lemma PrecedesLast<T>(s: seq<T>, x: T, y: T)
    requires x in s
    ensures Precedes(s + [y], x, y)
  {
    var i :| 0 <= i < |s| && s[i] == x;
    assert (s + [y])[i] == x && (s + [y])[|s|] == y;
  }

  lemma SortKeepsMembers<T>(s: seq<T>, key: T -> int)
    ensures |SortByKey(s, key)| == |s|
    ensures forall x :: x in SortByKey(s, key) <==> x in s
    ensures NoDup(s) ==> NoDup(SortByKey(s, key))
  {
    SortPermutes(s, key);
    var t := SortByKey(s, key);
    forall x ensures x in t <==> x in s {
      assert x in t <==> x in multiset(t);
      assert x in s <==> x in multiset(s);
    }
    if NoDup(s) {
      NoDupIsMultiplicityOne(s);
      forall x ensures multiset(t)[x] <= 1 {}
      MultiplicityOneIsNoDup(t);
    }
  }

  lemma {:induction false} NoDupIsMultiplicityOne<T>(s: seq<T>)
    requires NoDup(s)
    ensures forall x :: multiset(s)[x] <= 1
  {
    if s == [] {
    } else {
      NoDupIsMultiplicityOne(s[1..]);
      assert s == [s[0]] + s[1..];
      assert s[0] !in s[1..];
    }
  }

  lemma MultiplicityOneIsNoDup<T>(s: seq<T>)
    requires forall x :: multiset(s)[x] <= 1
    ensures NoDup(s)
  {
    forall i, j | 0 <= i < j < |s| ensures s[i] != s[j] {
      var a, b := s[..i + 1], s[i + 1..];
      assert s == a + b;
      assert a[i] in multiset(a);
      assert a[i] == s[i] && multiset(s)[s[i]] == multiset(a)[s[i]] + multiset(b)[s[i]];
      assert s[i] !in multiset(b);
      assert s[j] == b[j - i - 1];
    }
  }
}
