/** Byte strings in Go's order, and sorting by a key. */
module Order {

  type Byte = b: int | 0 <= b < 256

  type Text = seq<Byte>

  /** Go's `<` on strings: byte by byte, a prefix first. */
  predicate Below(a: Text, b: Text)
    decreases |b|
  {
    b != [] && (a == [] || a[0] < b[0] || (a[0] == b[0] && Below(a[1..], b[1..])))
  }

  lemma {:induction false} BelowIsTransitive(a: Text, b: Text, c: Text)
    requires Below(a, b) && Below(b, c)
    ensures Below(a, c)
    decreases |b|
  {
    if a != [] && a[0] == b[0] == c[0] { BelowIsTransitive(a[1..], b[1..], c[1..]); }
  }

  lemma {:induction false} BelowIsStrict(a: Text, b: Text)
    requires Below(a, b)
    ensures a != b && !Below(b, a)
    decreases |b|
  {
    if a != [] && a[0] == b[0] { BelowIsStrict(a[1..], b[1..]); }
  }

  lemma {:induction false} BelowIsTotal(a: Text, b: Text)
    ensures a == b || Below(a, b) || Below(b, a)
    decreases |b|
  {
    if a != [] && b != [] && a[0] == b[0] {
      BelowIsTotal(a[1..], b[1..]);
      assert a == [a[0]] + a[1..] && b == [b[0]] + b[1..];
    }
  }

  /** No element comes before one with a smaller key. */
  ghost predicate SortedBy<T(!new)>(s: seq<T>, key: T -> Text) {
    forall i, j :: 0 <= i < j < |s| ==> !Below(key(s[j]), key(s[i]))
  }

  ghost predicate DistinctBy<T(!new)>(s: seq<T>, key: T -> Text) {
    forall i, j :: 0 <= i < j < |s| ==> key(s[i]) != key(s[j])
  }

  function InsertBy<T>(x: T, s: seq<T>, key: T -> Text): (r: seq<T>)
    ensures multiset(r) == multiset(s) + multiset{x}
    decreases |s|
  {
    if s == [] then [x]
    else if Below(key(s[0]), key(x)) then
      assert s == [s[0]] + s[1..];
      [s[0]] + InsertBy(x, s[1..], key)
    else [x] + s
  }

  /** Sorting: an order of the same elements. */
  function SortBy<T>(s: seq<T>, key: T -> Text): (r: seq<T>)
    ensures multiset(r) == multiset(s)
    decreases |s|
  {
    if s == [] then []
    else
      assert s == [s[0]] + s[1..];
      InsertBy(s[0], SortBy(s[1..], key), key)
  }

  lemma {:induction false} InsertIsSorted<T(!new)>(x: T, s: seq<T>, key: T -> Text)
    requires SortedBy(s, key)
    ensures SortedBy(InsertBy(x, s, key), key)
    decreases |s|
  {
    if s == [] {
    } else if Below(key(s[0]), key(x)) {
      InsertIsSorted(x, s[1..], key);
      var r := InsertBy(x, s[1..], key);
      BelowIsStrict(key(s[0]), key(x));
      forall j | 0 <= j < |r| ensures !Below(key(r[j]), key(s[0])) {
        assert r[j] in multiset(r);
        if r[j] != x {
          assert r[j] in s[1..];
          var k: nat :| k < |s| - 1 && s[1..][k] == r[j];
          assert s[k + 1] == r[j];
        }
      }
    } else {
      forall j | 0 <= j < |s| ensures !Below(key(s[j]), key(x)) {
        assert j == 0 || !Below(key(s[j]), key(s[0]));
        BelowIsTotal(key(s[0]), key(x));
        if key(s[0]) != key(x) && Below(key(s[j]), key(x)) {
          BelowIsTransitive(key(s[j]), key(x), key(s[0]));
        }
      }
    }
  }

  lemma {:induction false} SortIsSorted<T(!new)>(s: seq<T>, key: T -> Text)
    ensures SortedBy(SortBy(s, key), key)
    decreases |s|
  {
    if s != [] {
      SortIsSorted(s[1..], key);
      InsertIsSorted(s[0], SortBy(s[1..], key), key);
    }
  }

  lemma HeadsAgree<T(!new)>(a: seq<T>, b: seq<T>, key: T -> Text)
    requires SortedBy(a, key) && SortedBy(b, key) && multiset(a) == multiset(b) && a != [] && b != []
    requires DistinctBy(a, key)
    ensures a[0] == b[0]
  {
    assert a[0] in multiset(b) && b[0] in multiset(a);
    var i: nat :| i < |a| && a[i] == b[0];
    var j: nat :| j < |b| && b[j] == a[0];
    assert i > 0 ==> !Below(key(a[i]), key(a[0]));
    assert j > 0 ==> !Below(key(b[j]), key(b[0]));
    BelowIsTotal(key(a[0]), key(b[0]));
  }

  lemma TailsAgree<T>(a: seq<T>, b: seq<T>)
    requires a != [] && b != [] && a[0] == b[0] && multiset(a) == multiset(b)
    ensures multiset(a[1..]) == multiset(b[1..])
  {
    assert a == [a[0]] + a[1..] && b == [b[0]] + b[1..];
    assert multiset(a[1..]) == multiset(a) - multiset{a[0]};
  }

  /** Elements with distinct keys have one sorted order. */
  lemma {:induction false} SortedOrderIsUnique<T(!new)>(a: seq<T>, b: seq<T>, key: T -> Text)
    requires SortedBy(a, key) && SortedBy(b, key) && multiset(a) == multiset(b)
    requires DistinctBy(a, key)
    ensures a == b
    decreases |a|
  {
    assert |a| == |multiset(a)| == |multiset(b)| == |b|;
    if a != [] {
      HeadsAgree(a, b, key);
      TailsAgree(a, b);
      SortedOrderIsUnique(a[1..], b[1..], key);
      assert a == [a[0]] + a[1..] && b == [b[0]] + b[1..];
    }
  }

  /** A sequence already sorted, with distinct keys, is what sorting returns. */
  lemma SortedIsFixed<T(!new)>(s: seq<T>, key: T -> Text)
    requires SortedBy(s, key) && DistinctBy(s, key)
    ensures SortBy(s, key) == s
  {
    SortIsSorted(s, key);
    SortedOrderIsUnique(s, SortBy(s, key), key);
  }

  /** Sorting forgets the order its argument came in. */
  lemma SortForgetsOrder<T(!new)>(a: seq<T>, b: seq<T>, key: T -> Text)
    requires multiset(a) == multiset(b) && DistinctBy(a, key)
    ensures SortBy(a, key) == SortBy(b, key)
  {
    SortIsSorted(a, key);
    SortIsSorted(b, key);
    DistinctIsOrderless(a, SortBy(a, key), key);
    SortedOrderIsUnique(SortBy(a, key), SortBy(b, key), key);
  }

  /** Whether keys are distinct depends on the elements only. */
  lemma {:induction false} DistinctIsOrderless<T(!new)>(a: seq<T>, b: seq<T>, key: T -> Text)
    requires multiset(a) == multiset(b) && DistinctBy(a, key)
    ensures DistinctBy(b, key)
  {
    forall i, j | 0 <= i < j < |b| ensures key(b[i]) != key(b[j]) {
      assert b[i] in multiset(a) && b[j] in multiset(a);
      var x: nat :| x < |a| && a[x] == b[i];
      var y: nat :| y < |a| && a[y] == b[j];
      if x == y {
        CountTwice(b, i, j);
        CountOnce(a, x, key);
      }
    }
  }

  lemma CountTwice<T>(s: seq<T>, i: nat, j: nat)
    requires i < j < |s| && s[i] == s[j]
    ensures multiset(s)[s[i]] >= 2
  {
    assert s == s[..i] + [s[i]] + s[i + 1..j] + [s[j]] + s[j + 1..];
  }

  lemma CountOnce<T(!new)>(s: seq<T>, i: nat, key: T -> Text)
    requires i < |s| && DistinctBy(s, key)
    ensures multiset(s)[s[i]] == 1
  {
    assert s == s[..i] + [s[i]] + s[i + 1..];
    assert s[i] !in s[..i] && s[i] !in s[i + 1..];
  }
}
