/**
 * `_.sortBy(xs, key)` is a stable ascending sort; the core always follows it
 * with `.reverse()`, which yields a non-increasing order in which entries with
 * equal keys appear in the REVERSE of their input order.
 */
module Sorting {
  import opened SeqUtil

  ghost predicate SortedAsc<T>(s: seq<T>, key: T -> real) {
    forall i, j :: 0 <= i < j < |s| ==> key(s[i]) <= key(s[j])
  }

  ghost predicate SortedDesc<T>(s: seq<T>, key: T -> real) {
    forall i, j :: 0 <= i < j < |s| ==> key(s[i]) >= key(s[j])
  }

  /** `[x]` when `x`'s key is `k`, otherwise nothing. */
  function Tie<T>(x: T, key: T -> real, k: real): seq<T> {
    if key(x) == k then [x] else []
  }

  /** The entries of `s` whose key is `k`, in the order of `s`. */
  function Ties<T>(s: seq<T>, key: T -> real, k: real): seq<T> {
    if s == [] then [] else Tie(s[0], key, k) + Ties(s[1..], key, k)
  }

  /** Places `x` after every entry of the ascending `s` whose key does not exceed `x`'s. */
  function InsertAsc<T>(x: T, s: seq<T>, key: T -> real): (r: seq<T>)
    ensures |r| == |s| + 1
    ensures multiset(r) == multiset(s) + multiset{x}
  {
    if s == [] then [x]
    else if key(s[0]) <= key(x) then
      assert s == [s[0]] + s[1..];
      [s[0]] + InsertAsc(x, s[1..], key)
    else [x] + s
  }

  lemma {:induction false} InsertAscBounded<T>(x: T, s: seq<T>, key: T -> real, lo: real)
    requires lo <= key(x)
    requires forall i :: 0 <= i < |s| ==> lo <= key(s[i])
    ensures forall j :: 0 <= j < |s| + 1 ==> lo <= key(InsertAsc(x, s, key)[j])
  {
    if s != [] && key(s[0]) <= key(x) {
      InsertAscBounded(x, s[1..], key, lo);
    }
  }

  lemma {:induction false} InsertAscSorted<T>(x: T, s: seq<T>, key: T -> real)
    requires SortedAsc(s, key)
    ensures SortedAsc(InsertAsc(x, s, key), key)
  {
    if s != [] && key(s[0]) <= key(x) {
      InsertAscSorted(x, s[1..], key);
      InsertAscBounded(x, s[1..], key, key(s[0]));
    }
  }

  /** `_.sortBy(s, key)`: insertion sort, each later entry going after earlier ones of equal key. */
  function SortAsc<T>(s: seq<T>, key: T -> real): (r: seq<T>)
    ensures |r| == |s|
    ensures multiset(r) == multiset(s)
    ensures SortedAsc(r, key)
  {
    if s == [] then []
    else
      assert s == s[..|s| - 1] + [s[|s| - 1]];
      InsertAscSorted(s[|s| - 1], SortAsc(s[..|s| - 1], key), key);
      InsertAsc(s[|s| - 1], SortAsc(s[..|s| - 1], key), key)
  }

  /** `_.sortBy(s, key).reverse()`: a non-increasing permutation of `s`. */
  function SortByDesc<T>(s: seq<T>, key: T -> real): (r: seq<T>)
    ensures |r| == |s|
    ensures multiset(r) == multiset(s)
    ensures SortedDesc(r, key)
  {
    ReversePermutes(SortAsc(s, key));
    Reverse(SortAsc(s, key))
  }

  lemma {:induction false} TiesAppend<T>(a: seq<T>, b: seq<T>, key: T -> real, k: real)
    ensures Ties(a + b, key, k) == Ties(a, key, k) + Ties(b, key, k)
  {
    if a == [] {
      assert a + b == b;
    } else {
      var t := Tie(a[0], key, k);
      assert (a + b)[0] == a[0];
      assert (a + b)[1..] == a[1..] + b;
      assert Ties(a + b, key, k) == t + Ties(a[1..] + b, key, k);
      TiesAppend(a[1..], b, key, k);
      assert t + (Ties(a[1..], key, k) + Ties(b, key, k)) == (t + Ties(a[1..], key, k)) + Ties(b, key, k);
    }
  }

  lemma {:induction false} TiesAbsent<T>(s: seq<T>, key: T -> real, k: real)
    requires forall i :: 0 <= i < |s| ==> key(s[i]) != k
    ensures Ties(s, key, k) == []
  {
    if s != [] {
      TiesAbsent(s[1..], key, k);
    }
  }

  lemma {:induction false} SortedAscTail<T>(s: seq<T>, key: T -> real)
    requires s != [] && SortedAsc(s, key)
    ensures SortedAsc(s[1..], key)
  {
    forall i, j | 0 <= i < j < |s| - 1 ensures key(s[1..][i]) <= key(s[1..][j]) {
      assert s[1..][i] == s[i + 1] && s[1..][j] == s[j + 1];
    }
  }

  lemma TiesCons<T>(y: T, rest: seq<T>, key: T -> real, k: real)
    ensures Ties([y] + rest, key, k) == Tie(y, key, k) + Ties(rest, key, k)
  {
    assert ([y] + rest)[1..] == rest;
  }

  lemma AppendAssoc<T>(a: seq<T>, b: seq<T>, c: seq<T>)
    ensures a + (b + c) == (a + b) + c
  {
  }

  /** Inserting behind the head: the head's tie comes first, then the ties of the insertion into the tail. */
  lemma InsertAscTiesBehind<T>(x: T, s: seq<T>, key: T -> real, k: real)
    requires s != [] && key(s[0]) <= key(x)
    requires Ties(InsertAsc(x, s[1..], key), key, k) == Ties(s[1..], key, k) + Tie(x, key, k)
    ensures Ties(InsertAsc(x, s, key), key, k) == Ties(s, key, k) + Tie(x, key, k)
  {
    var rest := InsertAsc(x, s[1..], key);
    assert InsertAsc(x, s, key) == [s[0]] + rest;
    TiesCons(s[0], rest, key, k);
    AppendAssoc(Tie(s[0], key, k), Ties(s[1..], key, k), Tie(x, key, k));
  }

  /** Inserting in front of an ascending list whose head has a larger key than `x`. */
  lemma InsertAscTiesFront<T>(x: T, s: seq<T>, key: T -> real, k: real)
    requires SortedAsc(s, key) && s != [] && key(x) < key(s[0])
    ensures Ties(InsertAsc(x, s, key), key, k) == Ties(s, key, k) + Tie(x, key, k)
  {
    assert InsertAsc(x, s, key) == [x] + s;
    if key(x) == k {
      forall i | 0 <= i < |s| ensures key(s[i]) != k {
        assert key(s[0]) <= key(s[i]);
      }
      TiesAbsent(s, key, k);
    }
    TiesAppend([x], s, key, k);
    assert Ties([x], key, k) == Tie(x, key, k) + Ties([], key, k);
  }

  lemma {:induction false} InsertAscTies<T>(x: T, s: seq<T>, key: T -> real, k: real)
    requires SortedAsc(s, key)
    ensures Ties(InsertAsc(x, s, key), key, k) == Ties(s, key, k) + Tie(x, key, k)
  {
    if s == [] {
      assert Ties([x], key, k) == Tie(x, key, k) + Ties([], key, k);
    } else if key(s[0]) <= key(x) {
      SortedAscTail(s, key);
      InsertAscTies(x, s[1..], key, k);
      InsertAscTiesBehind(x, s, key, k);
    } else {
      InsertAscTiesFront(x, s, key, k);
    }
  }

  /** Stability: sorting never reorders entries whose keys are equal. */
  lemma {:induction false} SortAscStable<T>(s: seq<T>, key: T -> real, k: real)
    ensures Ties(SortAsc(s, key), key, k) == Ties(s, key, k)
  {
    if s != [] {
      var init, last := s[..|s| - 1], s[|s| - 1];
      assert s == init + [last];
      assert SortAsc(s, key) == InsertAsc(last, SortAsc(init, key), key);
      SortAscStable(init, key, k);
      InsertAscTies(last, SortAsc(init, key), key, k);
      TiesAppend(init, [last], key, k);
      assert Ties([last], key, k) == Tie(last, key, k) + Ties([], key, k);
    }
  }

  lemma {:induction false} TiesReverse<T>(s: seq<T>, key: T -> real, k: real)
    ensures Ties(Reverse(s), key, k) == Reverse(Ties(s, key, k))
  {
    if s != [] {
      TiesReverse(s[1..], key, k);
      assert Reverse(s) == Reverse(s[1..]) + [s[0]];
      TiesAppend(Reverse(s[1..]), [s[0]], key, k);
      ReverseAppend(Tie(s[0], key, k), Ties(s[1..], key, k));
    }
  }

  /** Entries with equal keys come out of `SortByDesc` in reverse input order. */
  lemma SortByDescTies<T>(s: seq<T>, key: T -> real, k: real)
    ensures Ties(SortByDesc(s, key), key, k) == Reverse(Ties(s, key, k))
  {
    TiesReverse(SortAsc(s, key), key, k);
    SortAscStable(s, key, k);
  }
}
