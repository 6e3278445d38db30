/** The order in which a Go map is ranged over: any listing of its keys, each once. */
module MapOrder {
  import opened GoText

  predicate Distinct<T(==)>(s: seq<T>) {
    forall i, j :: 0 <= i < j < |s| ==> s[i] != s[j]
  }

  /** One possible iteration order of a map with the given keys. */
  ghost predicate IsOrder(keys: set<Text>, order: seq<Text>) {
    Distinct(order) && forall k: Text :: k in keys <==> k in order
  }

  /** Every finite key set can be ranged over. */
  ghost function SomeOrder(keys: set<Text>): (order: seq<Text>)
    ensures IsOrder(keys, order)
  {
    if keys == {} then []
    else
      var k :| k in keys;
      [k] + SomeOrder(keys - {k})
  }

  /** And any key can come first. */
  ghost function OrderFrom(keys: set<Text>, first: Text): (order: seq<Text>)
    requires first in keys
    ensures IsOrder(keys, order) && |order| > 0 && order[0] == first
  {
    [first] + SomeOrder(keys - {first})
  }

  // Sorting, which forgets the order

  /** Byte-wise lexicographic order. */
  predicate Below(a: Text, b: Text) {
    a == "" || (b != "" && (a[0] < b[0] || (a[0] == b[0] && Below(a[1..], b[1..]))))
  }

  /** The first byte in which two texts differ decides, and a start of a text comes before it. */
  lemma {:induction false} BelowMeaning(start: Text, x: Byte, a: Text, y: Byte, b: Text)
    requires x < y
    ensures Below(start + [x] + a, start + [y] + b) && !Below(start + [y] + b, start + [x] + a)
    ensures Below(start, start + [x] + a) && !Below(start + [x] + a, start)
  {
    if start != "" {
      var rest := start[1..];
      BelowMeaning(rest, x, a, y, b);
      assert (start + [x] + a)[1..] == rest + [x] + a && (start + [y] + b)[1..] == rest + [y] + b;
    }
  }

  lemma {:induction false} BelowTotal(a: Text, b: Text)
    ensures Below(a, b) || Below(b, a)
    ensures Below(a, b) && Below(b, a) ==> a == b
  {
    if a != "" && b != "" {
      BelowTotal(a[1..], b[1..]);
      assert a == [a[0]] + a[1..] && b == [b[0]] + b[1..];
    }
  }

  lemma {:induction false} BelowTransitive(a: Text, b: Text, c: Text)
    requires Below(a, b) && Below(b, c)
    ensures Below(a, c)
  {
    if a != "" && b != "" && c != "" && a[0] == b[0] == c[0] {
      BelowTransitive(a[1..], b[1..], c[1..]);
    }
  }

  predicate Ascending(s: seq<Text>) {
    forall i, j :: 0 <= i < j < |s| ==> Below(s[i], s[j])
  }

  /** Two ascending listings of the same distinct keys are the same listing. */
  lemma {:induction false} AscendingUnique(keys: set<Text>, a: seq<Text>, b: seq<Text>)
    requires IsOrder(keys, a) && IsOrder(keys, b)
    requires Ascending(a) && Ascending(b)
    ensures a == b
    decreases |a|
  {
    assert |b| > 0 ==> b[0] in keys;
    if a != [] {
      assert a[0] in keys && a[0] in b;
      assert b[0] in keys && b[0] in a;
      BelowTotal(a[0], b[0]);
      assert Below(a[0], b[0]) && Below(b[0], a[0]) by {
        BelowReflexive(a[0]);
      }
      var rest := keys - {a[0]};
      assert a == [a[0]] + a[1..] && b == [b[0]] + b[1..];
      AscendingUnique(rest, a[1..], b[1..]);
    }
  }

  lemma {:induction false} BelowReflexive(a: Text)
    ensures Below(a, a)
  {
    if a != "" {
      BelowReflexive(a[1..]);
    }
  }

  /** sort.Strings on keys collected from a map. */
  method SortStrings(order: seq<Text>) returns (sorted: seq<Text>)
    requires Distinct(order)
    ensures Ascending(sorted) && Distinct(sorted)
    ensures forall k: Text :: k in sorted <==> k in order
  {
    sorted := [];
    for n := 0 to |order|
      invariant Ascending(sorted) && Distinct(sorted)
      invariant forall k: Text :: k in sorted <==> k in order[..n]
    {
      var x := order[n];
      var p := 0;
      while p < |sorted| && Below(sorted[p], x)
        invariant 0 <= p <= |sorted|
        invariant forall i :: 0 <= i < p ==> Below(sorted[i], x)
      {
        p := p + 1;
      }
      InsertedAscending(sorted, p, x);
      assert order[..n + 1] == order[..n] + [x];
      assert x !in order[..n];
      InsertedDistinct(sorted, p, x);
      sorted := sorted[..p] + [x] + sorted[p..];
    }
    assert order[..|order|] == order;
  }

  lemma InsertedDistinct(sorted: seq<Text>, p: nat, x: Text)
    requires Distinct(sorted) && p <= |sorted| && x !in sorted
    ensures var after := sorted[..p] + [x] + sorted[p..];
            Distinct(after) && forall k :: k in after <==> k in sorted || k == x
  {
    assert sorted == sorted[..p] + sorted[p..];
  }

  lemma InsertedAscending(sorted: seq<Text>, p: nat, x: Text)
    requires Ascending(sorted) && p <= |sorted|
    requires forall i :: 0 <= i < p ==> Below(sorted[i], x)
    requires p < |sorted| ==> !Below(sorted[p], x)
    ensures Ascending(sorted[..p] + [x] + sorted[p..])
  {
    var after := sorted[..p] + [x] + sorted[p..];
    forall i | p <= i < |sorted|
      ensures Below(x, sorted[i])
    {
      BelowTotal(sorted[p], x);
      if p < i {
        BelowTransitive(x, sorted[p], sorted[i]);
      }
    }
    forall i, j | 0 <= i < j < |after|
      ensures Below(after[i], after[j])
    {
      assert i < p ==> after[i] == sorted[i];
      assert i > p ==> after[i] == sorted[i - 1];
      assert j < p ==> after[j] == sorted[j];
      assert j > p ==> after[j] == sorted[j - 1];
    }
  }
}
