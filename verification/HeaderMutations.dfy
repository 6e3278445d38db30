/** Request header mutations: what is emitted for a route and what it does to a request. */
module HeaderMutations {
  import opened GoText
  import opened MapOrder
  import opened RouteTable
  import Headers

  const DISALLOWED: set<Text> :=
    {"host", "x-forwarded-for", "x-real-ip", "x-envoy-internal", "x-envoy-decorator-operation"}

  function Lower(s: Text): Text {
    seq(|s|, i requires 0 <= i < |s| => if 'A' <= s[i] <= 'Z' then (s[i] as int + 32) as char as Byte else s[i])
  }

  predicate IsTokenByte(c: Byte) {
    'a' <= c <= 'z' || 'A' <= c <= 'Z' || IsDigit(c) || c in "!#$%&'*+-.^_`|~"
  }

  predicate ValidHeaderName(name: Text) {
    Lower(name) !in DISALLOWED && forall i :: 0 <= i < |name| ==> IsTokenByte(name[i])
  }

  /** A control character starts at i: an ASCII one other than a tab, or the two bytes of U+0080 to U+009F. */
  predicate ControlAt(s: Text, i: nat)
    requires i < |s|
  {
    var b := s[i] as int;
    (b < 32 && b != 9) || b == 127 || (b == 0xc2 && i + 1 < |s| && 0x80 <= s[i + 1] as int <= 0x9f)
  }

  predicate ValidHeaderValue(value: Text) {
    forall i :: 0 <= i < |value| ==> !ControlAt(value, i)
  }

  /** An invalid name or value yields a mutation that does nothing. */
  function SetHeader(name: Text, value: Text): Mutation {
    if ValidHeaderName(name) && ValidHeaderValue(value) then Overwrite(name, value) else NoMutation
  }

  function RemoveAll(names: seq<Text>): (ms: seq<Mutation>)
    ensures |ms| == |names|
  {
    seq(|names|, i requires 0 <= i < |names| => Remove(names[i]))
  }

  function DefaultMutations(subtokenHeader: Text): seq<Mutation> {
    [Remove(subtokenHeader)] + RemoveAll(Headers.DEFAULT_REMOVABLE)
  }

  function SetAll(headers: map<Text, Text>, order: seq<Text>): (ms: seq<Mutation>)
    requires IsOrder(headers.Keys, order)
    ensures |ms| == |order|
  {
    assert forall i :: 0 <= i < |order| ==> order[i] in order;
    seq(|order|, i requires 0 <= i < |order| => SetHeader(order[i], headers[order[i]]))
  }

  function VersionMutation(version: Option<Text>): seq<Mutation> {
    if version.Some? then [SetHeader(Headers.VERSION, version.value)] else []
  }

  /** The list a route carries: the defaults, its own headers, then the optional version. */
  function RouteMutations(subtokenHeader: Text, version: Option<Text>, headers: map<Text, Text>, order: seq<Text>): seq<Mutation>
    requires IsOrder(headers.Keys, order)
  {
    DefaultMutations(subtokenHeader) + SetAll(headers, order) + VersionMutation(version)
  }

  // What the proxy does with a list

  function ApplyOne(headers: map<Text, Text>, m: Mutation): map<Text, Text> {
    match m
    case Remove(name) => headers - {name}
    case Overwrite(name, value) => headers[name := value]
    case NoMutation => headers
  }

  function Apply(headers: map<Text, Text>, ms: seq<Mutation>): map<Text, Text>
    decreases |ms|
  {
    if ms == [] then headers else Apply(ApplyOne(headers, ms[0]), ms[1..])
  }

  lemma {:induction false} ApplyConcat(headers: map<Text, Text>, a: seq<Mutation>, b: seq<Mutation>)
    ensures Apply(headers, a + b) == Apply(Apply(headers, a), b)
    decreases |a|
  {
    if a == [] {
      assert a + b == b;
    } else {
      ApplyConcat(ApplyOne(headers, a[0]), a[1..], b);
      assert (a + b)[1..] == a[1..] + b;
    }
  }

  lemma {:induction false} ApplyRemoveAll(headers: map<Text, Text>, names: seq<Text>)
    ensures Apply(headers, RemoveAll(names)) == headers - set n | n in names
    decreases |names|
  {
    if names != [] {
      ApplyRemoveAll(headers - {names[0]}, names[1..]);
      assert RemoveAll(names)[1..] == RemoveAll(names[1..]);
      assert (set n | n in names) == {names[0]} + set n | n in names[1..];
    }
  }

  /** The headers a client can no longer influence once the defaults have run. */
  function Managed(subtokenHeader: Text): set<Text> {
    {subtokenHeader} + set n | n in Headers.DEFAULT_REMOVABLE
  }

  /** The listed headers of a route that may be set. */
  function Settable(headers: map<Text, Text>, order: seq<Text>): map<Text, Text> {
    map n | n in headers && n in order && ValidHeaderName(n) && ValidHeaderValue(headers[n]) :: headers[n]
  }

  lemma SettableStep(h: map<Text, Text>, headers: map<Text, Text>, first: Text, rest: seq<Text>)
    requires first in headers
    ensures ApplyOne(h, SetHeader(first, headers[first])) + Settable(headers, rest) == h + Settable(headers, [first] + rest)
  {
    forall n: Text
      ensures n in [first] + rest <==> n == first || n in rest
    {
    }
  }

  lemma {:induction false} ApplySetAll(h: map<Text, Text>, headers: map<Text, Text>, order: seq<Text>, ms: seq<Mutation>)
    requires |ms| == |order|
    requires forall i :: 0 <= i < |order| ==> order[i] in headers && ms[i] == SetHeader(order[i], headers[order[i]])
    ensures Apply(h, ms) == h + Settable(headers, order)
    decreases |ms|
  {
    if ms != [] {
      var first, rest := order[0], order[1..];
      assert order == [first] + rest;
      ApplySetAll(ApplyOne(h, ms[0]), headers, rest, ms[1..]);
      SettableStep(h, headers, first, rest);
    }
  }

  /**
   * A route with headers of its own, listed in any order: of what the client sent, the managed
   * headers vanish; the route's own headers that may be set override the rest; the version
   * overrides both.
   */
  lemma {:induction false} ApplyOwnHeaders(subtokenHeader: Text, version: Option<Text>, headers: map<Text, Text>, order: seq<Text>,
                                           client: map<Text, Text>)
    requires IsOrder(headers.Keys, order)
    ensures var own := map n | n in headers && ValidHeaderName(n) && ValidHeaderValue(headers[n]) :: headers[n];
            var kept := client - Managed(subtokenHeader) + own;
            Apply(client, RouteMutations(subtokenHeader, version, headers, order))
            == if version.Some? && ValidHeaderValue(version.value) then kept[Headers.VERSION := version.value] else kept
  {
    var own := map n | n in headers && ValidHeaderName(n) && ValidHeaderValue(headers[n]) :: headers[n];
    assert Settable(headers, order) == own;
    assert forall i :: 0 <= i < |order| ==> order[i] in order;
    ApplyDefaults(subtokenHeader, client);
    var defaults, set0 := DefaultMutations(subtokenHeader), SetAll(headers, order);
    ApplySetAll(client - Managed(subtokenHeader), headers, order, set0);
    ApplyConcat(client, defaults, set0);
    ApplyConcat(client, defaults + set0, VersionMutation(version));
    ApplyVersion(client - Managed(subtokenHeader) + own, version);
  }

  lemma ApplyDefaults(subtokenHeader: Text, client: map<Text, Text>)
    ensures Apply(client, DefaultMutations(subtokenHeader)) == client - Managed(subtokenHeader)
  {
    var names := [subtokenHeader] + Headers.DEFAULT_REMOVABLE;
    assert DefaultMutations(subtokenHeader) == RemoveAll(names);
    assert Managed(subtokenHeader) == set n | n in names;
    ApplyRemoveAll(client, names);
  }

  lemma ApplyVersion(h: map<Text, Text>, version: Option<Text>)
    ensures Apply(h, VersionMutation(version))
            == if version.Some? && ValidHeaderValue(version.value) then h[Headers.VERSION := version.value] else h
  {
    if version.Some? {
      var m := SetHeader(Headers.VERSION, version.value);
      assert Apply(h, [m]) == ApplyOne(h, m) by {
        assert [m][1..] == [];
      }
      VersionNameValid();
    }
  }

  /** For a route without headers of its own: the managed headers vanish, then the version is set. */
  lemma ApplyRouteMutations(subtokenHeader: Text, version: Option<Text>, client: map<Text, Text>)
    ensures var kept := client - Managed(subtokenHeader);
            Apply(client, RouteMutations(subtokenHeader, version, map[], []))
            == if version.Some? && ValidHeaderValue(version.value) then kept[Headers.VERSION := version.value] else kept
  {
    ApplyOwnHeaders(subtokenHeader, version, map[], [], client);
  }

  lemma {:induction false} LowerTwice(s: Text)
    ensures Lower(Lower(s)) == Lower(s)
    ensures forall i :: 0 <= i < |s| ==> (IsTokenByte(Lower(s)[i]) <==> IsTokenByte(s[i]))
  {
  }

  /** Whether a name may be set does not depend on its case; no spelling of a guarded name may. */
  lemma {:induction false} NameCaseBlind(name: Text)
    ensures ValidHeaderName(name) <==> ValidHeaderName(Lower(name))
    ensures Lower(name) in {"host", "x-forwarded-for", "x-real-ip", "x-envoy-internal", "x-envoy-decorator-operation"} ==> !ValidHeaderName(name)
  {
    LowerTwice(name);
  }

  /**
   * Plain text and tabs may be set. A value with any other ASCII control character may not, nor
   * one with U+0080 to U+009F in its two bytes; every other value may.
   */
  lemma {:induction false} HeaderValueMeaning(value: Text)
    ensures (forall i :: 0 <= i < |value| ==> 32 <= value[i] as int < 127 || value[i] == '\t') ==> ValidHeaderValue(value)
    ensures !ValidHeaderValue(value) <==>
              || (exists i :: 0 <= i < |value| && value[i] != '\t' && (value[i] as int < 32 || value[i] as int == 127))
              || (exists i :: 0 <= i < |value| - 1 && value[i] as int == 0xc2 && 0x80 <= value[i + 1] as int <= 0x9f)
  {
    if i :| 0 <= i < |value| && value[i] != '\t' && (value[i] as int < 32 || value[i] as int == 127) {
      assert ControlAt(value, i);
    }
    if i :| 0 <= i < |value| - 1 && value[i] as int == 0xc2 && 0x80 <= value[i + 1] as int <= 0x9f {
      assert ControlAt(value, i);
    }
  }

  lemma VersionNameValid()
    ensures ValidHeaderName(Headers.VERSION)
  {
    var v := Headers.VERSION;
    assert Lower(v)[2] == 'h' && Lower(v)[3] == 'o' && |Lower(v)| == 19;
    assert |"host"| == 4 && |"x-forwarded-for"| == 15 && |"x-real-ip"| == 9 && |"x-envoy-internal"| == 16;
    assert |"x-envoy-decorator-operation"| == 27;
  }
}
