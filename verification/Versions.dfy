/** What a delivered version tells apart: two sets of controls by their keys and contents. */
module Versions {
  import opened GoText
  import opened MapOrder
  import opened Registry
  import opened RouteTable
  import opened RouteCompiler
  import opened XdsServer

  /** No value's encoding starts another's, so concatenated encodings have one reading. */
  predicate PrefixFree<T(!new, ==)>(encode: T -> Option<Text>, values: set<T>) {
    forall a, b :: a in values && b in values && encode(a).Some? && encode(b).Some? && encode(a).value <= encode(b).value ==> a == b
  }

  /** The encoder keeps the keys and the controls of the two maps apart. */
  predicate Readable(e: Encoder, d1: map<Text, ProxyControls>, d2: map<Text, ProxyControls>) {
    && PrefixFree(e.key, d1.Keys + d2.Keys) && PrefixFree(e.control, d1.Values + d2.Values)
    && forall k :: k in d1.Keys + d2.Keys ==> e.key(k) != Some("")
  }

  predicate Encodable(e: Encoder, d: map<Text, ProxyControls>) {
    forall k :: k in d ==> e.key(k).Some? && e.control(d[k]).Some?
  }

  /** The checksum gives two texts this version, or gives one the version of a failed encoding. */
  ghost predicate Clash(e: Encoder, v: Text) {
    (exists a: Text, b: Text :: a != b && e.checksum(a) == v && e.checksum(b) == v)
    || (v == "unknown" && exists a: Text :: e.checksum(a) == v)
  }

  lemma {:induction false} EncodedCons(e: Encoder, d: map<Text, ProxyControls>, k: Text, rest: seq<Text>)
    requires k in d && forall i :: 0 <= i < |rest| ==> rest[i] in d
    requires Encoded(e, d, [k] + rest).Some?
    ensures e.key(k).Some? && e.control(d[k]).Some? && Encoded(e, d, rest).Some?
    ensures Encoded(e, d, [k] + rest).value == e.key(k).value + (e.control(d[k]).value + Encoded(e, d, rest).value)
    decreases |rest|
  {
    var n := |rest|;
    if n == 0 {
      assert ([k] + rest)[..0] == [];
      assert Encoded(e, d, []) == Some("");
    } else {
      assert ([k] + rest)[..n] == [k] + rest[..n - 1];
      EncodedCons(e, d, k, rest[..n - 1]);
    }
  }

  lemma SamePrefix(a: Text, x: Text, b: Text, y: Text)
    requires a + x == b + y
    ensures a <= b || b <= a
    ensures a == b ==> x == y
  {
    assert a == (a + x)[..|a|] && b == (b + y)[..|b|];
    assert x == (a + x)[|a|..] && y == (b + y)[|b|..];
  }

  /** Equal texts start with the same key and control, and go on with equal texts. */
  lemma {:induction false} FirstReads(e: Encoder, d1: map<Text, ProxyControls>, k1: Text, rest1: seq<Text>,
                                      d2: map<Text, ProxyControls>, k2: Text, rest2: seq<Text>)
    requires Readable(e, d1, d2) && k1 in d1 && k2 in d2
    requires (forall i :: 0 <= i < |rest1| ==> rest1[i] in d1) && (forall i :: 0 <= i < |rest2| ==> rest2[i] in d2)
    requires Encoded(e, d1, [k1] + rest1).Some? && Encoded(e, d1, [k1] + rest1) == Encoded(e, d2, [k2] + rest2)
    ensures k1 == k2 && d1[k1] == d2[k2]
    ensures Encoded(e, d1, rest1).Some? && Encoded(e, d1, rest1) == Encoded(e, d2, rest2)
  {
    EncodedCons(e, d1, k1, rest1);
    EncodedCons(e, d2, k2, rest2);
    var c1, c2 := e.control(d1[k1]).value, e.control(d2[k2]).value;
    var t1, t2 := Encoded(e, d1, rest1).value, Encoded(e, d2, rest2).value;
    SamePrefix(e.key(k1).value, c1 + t1, e.key(k2).value, c2 + t2);
    assert k1 in d1.Keys + d2.Keys && k2 in d1.Keys + d2.Keys;
    SamePrefix(c1, t1, c2, t2);
    assert d1[k1] in d1.Values + d2.Values && d2[k2] in d1.Values + d2.Values;
  }

  lemma EmptyReads(e: Encoder, d1: map<Text, ProxyControls>, d2: map<Text, ProxyControls>, s: seq<Text>)
    requires Readable(e, d1, d2)
    ensures (forall i :: 0 <= i < |s| ==> s[i] in d1) && Encoded(e, d1, s) == Some("") ==> s == []
    ensures (forall i :: 0 <= i < |s| ==> s[i] in d2) && Encoded(e, d2, s) == Some("") ==> s == []
  {
    if s != [] {
      var k, rest := s[0], s[1..];
      assert s == [k] + rest;
      if (forall i :: 0 <= i < |s| ==> s[i] in d1) && Encoded(e, d1, s).Some? {
        EncodedCons(e, d1, k, rest);
      }
      if (forall i :: 0 <= i < |s| ==> s[i] in d2) && Encoded(e, d2, s).Some? {
        EncodedCons(e, d2, k, rest);
      }
    }
  }

  /** The maps give the listed keys the same controls. */
  predicate AgreeOn(d1: map<Text, ProxyControls>, d2: map<Text, ProxyControls>, s: seq<Text>) {
    forall k :: k in s ==> k in d1 && k in d2 && d1[k] == d2[k]
  }

  lemma SameMaps(d1: map<Text, ProxyControls>, d2: map<Text, ProxyControls>, s: seq<Text>)
    requires IsOrder(d1.Keys, s) && IsOrder(d2.Keys, s) && AgreeOn(d1, d2, s)
    ensures d1 == d2
  {
    assert d1.Keys == d2.Keys;
    assert forall k :: k in d1 ==> k in s;
  }

  lemma AgreeCons(d1: map<Text, ProxyControls>, d2: map<Text, ProxyControls>, k: Text, rest: seq<Text>)
    requires k in d1 && k in d2 && d1[k] == d2[k] && AgreeOn(d1, d2, rest)
    ensures AgreeOn(d1, d2, [k] + rest)
  {
  }

  /** An encoded text has one reading: one list of keys, each with one control. */
  lemma {:induction false} OneReading(e: Encoder, d1: map<Text, ProxyControls>, s1: seq<Text>, d2: map<Text, ProxyControls>, s2: seq<Text>)
    requires Readable(e, d1, d2)
    requires (forall i :: 0 <= i < |s1| ==> s1[i] in d1) && (forall i :: 0 <= i < |s2| ==> s2[i] in d2)
    requires Encoded(e, d1, s1).Some? && Encoded(e, d1, s1) == Encoded(e, d2, s2)
    ensures s1 == s2 && AgreeOn(d1, d2, s1)
    decreases |s1|
  {
    if s1 == [] || s2 == [] {
      EmptyReads(e, d1, d2, s1);
      EmptyReads(e, d1, d2, s2);
    } else {
      var k1, rest1, k2, rest2 := s1[0], s1[1..], s2[0], s2[1..];
      assert s1 == [k1] + rest1 && s2 == [k2] + rest2;
      assert k1 in d1 && k2 in d2;
      assert (forall i :: 0 <= i < |rest1| ==> rest1[i] in d1) && (forall i :: 0 <= i < |rest2| ==> rest2[i] in d2);
      FirstReads(e, d1, k1, rest1, d2, k2, rest2);
      OneReading(e, d1, rest1, d2, rest2);
      AgreeCons(d1, d2, k1, rest1);
    }
  }

  lemma {:induction false} EncodedIffEncodable(e: Encoder, d: map<Text, ProxyControls>, s: seq<Text>)
    requires forall i :: 0 <= i < |s| ==> s[i] in d
    ensures Encoded(e, d, s).Some? <==> forall i :: 0 <= i < |s| ==> e.key(s[i]).Some? && e.control(d[s[i]]).Some?
  {
    if s != [] {
      EncodedIffEncodable(e, d, s[..|s| - 1]);
    }
  }

  /** A version reads unknown when some control fails to encode, and is a checksum otherwise. */
  lemma VersionText(e: Encoder, d: map<Text, ProxyControls>, v: Text) returns (order: seq<Text>)
    requires IsVersion(e, d, v)
    ensures IsOrder(d.Keys, order) && forall i :: 0 <= i < |order| ==> order[i] in d
    ensures Encodable(e, d) <==> Encoded(e, d, order).Some?
    ensures v == if Encodable(e, d) then e.checksum(Encoded(e, d, order).value) else "unknown"
  {
    order :| IsOrder(d.Keys, order) && Ascending(order)
             && v == match Encoded(e, d, order) case Some(text) => e.checksum(text) case None => "unknown";
    forall i | 0 <= i < |order|
      ensures order[i] in d
    {
      assert order[i] in order;
    }
    EncodedIffEncodable(e, d, order);
    if Encoded(e, d, order).Some? {
      forall k | k in d
        ensures e.key(k).Some? && e.control(d[k]).Some?
      {
        var i :| 0 <= i < |order| && order[i] == k;
      }
    }
  }

  /**
   * A version hides no change: unless the checksum itself clashes, two sets of controls have
   * one version exactly when they are the same set, or neither can be encoded.
   */
  lemma {:induction false} VersionsDistinguish(e: Encoder, d1: map<Text, ProxyControls>, v1: Text, d2: map<Text, ProxyControls>, v2: Text)
    requires IsVersion(e, d1, v1) && IsVersion(e, d2, v2) && Readable(e, d1, d2)
    ensures v1 == v2 ==> d1 == d2 || (!Encodable(e, d1) && !Encodable(e, d2)) || Clash(e, v1)
    ensures d1 == d2 || (!Encodable(e, d1) && !Encodable(e, d2)) ==> v1 == v2
  {
    var s1 := VersionText(e, d1, v1);
    var s2 := VersionText(e, d2, v2);
    if d1 == d2 {
      VersionUnique(e, d1, v1, v2);
    }
    if Encodable(e, d1) && Encodable(e, d2) && Encoded(e, d1, s1) == Encoded(e, d2, s2) {
      OneReading(e, d1, s1, d2, s2);
      SameMaps(d1, d2, s1);
    }
  }

  /** So a delivered snapshot whose version has not moved routes every request as before. */
  lemma {:induction false} SameVersionSameRoutes(x: XdsConfig, e: Encoder, d1: map<Text, ProxyControls>, o1: SnapshotOrder, s1: Snapshot,
                                                 d2: map<Text, ProxyControls>, o2: SnapshotOrder, s2: Snapshot, domain: Text, path: Text)
    requires IsSnapshot(x, e, d1, o1, s1) && IsSnapshot(x, e, d2, o2, s2) && Readable(e, d1, d2)
    requires s1.version == s2.version && Encodable(e, d1) && !Clash(e, s1.version)
    ensures d1 == d2
    ensures var r1, r2 := RouteRequest(s1.hosts, domain, path), RouteRequest(s2.hosts, domain, path);
            (r1.Some? <==> r2.Some?) && (r1.Some? ==> r1.value.prefix == r2.value.prefix)
  {
    VersionsDistinguish(e, d1, s1.version, d2, s2.version);
    SnapshotsAgree(x, e, d1, o1, s1, o2, s2, domain, path);
  }
}
