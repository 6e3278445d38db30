/** Route sources, as configured and as published in JSON between services. */
module Sources {
  import opened GoText
  import opened Requests

  /** The URL parser, including what it rejects. */
  type Parser = Text -> Option<URL>

  datatype URLString = URLString(key: Text, url: URL, raw: Text)

  datatype UserRules = UserRules(users: seq<Text>, groups: seq<Text>)

  datatype RawSource = RawSource(
    id: Text,
    source: URLString,
    destination: URLString,
    prefixRewrite: Text,
    communityID: Text,
    disallowed: UserRules,
    allowed: UserRules,
    noAuth: bool)

  /** What the JSON form of a source keeps: raw URLs and no NoAuth flag. */
  datatype WireSource = WireSource(
    id: Text,
    src: Text,
    dst: Text,
    prefixRewrite: Text,
    communityID: Text,
    disallowed: UserRules,
    allowed: UserRules)

  function NormalizedKey(u: URL): Text {
    if u.hostname == "" then u.text else TrimPrefix(u.hostname, "www.")
  }

  /** A host is one key with and without its www. label; a URL without a host is its own key. */
  lemma KeyMeaning(u: URL, host: Text)
    requires host != "" && !("www." <= host)
    ensures u.hostname in [host, "www." + host] ==> NormalizedKey(u) == host
    ensures u.hostname == "" ==> NormalizedKey(u) == u.text
  {
    assert ("www." + host)[4..] == host;
  }

  function NormalizeURL(parse: Parser, raw: Text): Option<URLString> {
    match parse(raw)
    case None => None
    case Some(u) => Some(URLString(NormalizedKey(u), u, raw))
  }

  function EncodeSource(s: RawSource): WireSource {
    WireSource(s.id, s.source.raw, s.destination.raw, s.prefixRewrite, s.communityID, s.disallowed, s.allowed)
  }

  function DecodeSource(parse: Parser, w: WireSource): Option<RawSource> {
    match (NormalizeURL(parse, w.src), NormalizeURL(parse, w.dst))
    case (Some(src), Some(dst)) =>
      Some(RawSource(w.id, src, dst, w.prefixRewrite, w.communityID, w.disallowed, w.allowed, false))
    case _ => None
  }

  /** What a decoded source takes from its wire form: both URLs parsed, and no flag. */
  lemma WireFields(parse: Parser, w: WireSource)
    ensures DecodeSource(parse, w).Some? <==> parse(w.src).Some? && parse(w.dst).Some?
    ensures DecodeSource(parse, w).Some? ==>
              var s := DecodeSource(parse, w).value;
              && s.source.raw == w.src && s.source.url == parse(w.src).value
              && s.destination.raw == w.dst && s.destination.url == parse(w.dst).value
              && s.id == w.id && s.prefixRewrite == w.prefixRewrite && s.communityID == w.communityID
              && s.allowed == w.allowed && s.disallowed == w.disallowed && !s.noAuth
  {
  }

  function EncodeSources(ss: seq<RawSource>): (ws: seq<WireSource>)
    ensures |ws| == |ss|
  {
    seq(|ss|, i requires 0 <= i < |ss| => EncodeSource(ss[i]))
  }

  /** Decoding fails as a whole when any source fails. */
  function DecodeSources(parse: Parser, ws: seq<WireSource>): (r: Option<seq<RawSource>>)
    ensures r.Some? ==> |r.value| == |ws|
    ensures r.Some? ==> forall i :: 0 <= i < |ws| ==> DecodeSource(parse, ws[i]) == Some(r.value[i])
  {
    if ws == [] then Some([])
    else
      match DecodeSource(parse, ws[0])
      case None => None
      case Some(first) =>
        match DecodeSources(parse, ws[1..])
        case None => None
        case Some(rest) => Some([first] + rest)
  }

  /** Both URLs are what the parser makes of their raw text. */
  predicate Parsed(parse: Parser, s: RawSource) {
    && NormalizeURL(parse, s.source.raw) == Some(s.source)
    && NormalizeURL(parse, s.destination.raw) == Some(s.destination)
  }

  function EraseNoAuth(ss: seq<RawSource>): seq<RawSource> {
    seq(|ss|, i requires 0 <= i < |ss| => ss[i].(noAuth := false))
  }

  lemma DecodesConsed(parse: Parser, w: WireSource, ws: seq<WireSource>)
    requires DecodeSource(parse, w).Some? && DecodeSources(parse, ws).Some?
    ensures DecodeSources(parse, [w] + ws) == Some([DecodeSource(parse, w).value] + DecodeSources(parse, ws).value)
  {
    assert ([w] + ws)[1..] == ws;
  }

  lemma PublishedSourceDecodes(parse: Parser, s: RawSource)
    requires Parsed(parse, s)
    ensures DecodeSource(parse, EncodeSource(s)) == Some(s.(noAuth := false))
  {
  }

  /** Publishing then decoding keeps every field of every source except the NoAuth flag. */
  lemma {:induction false} PublishedSourcesDecode(parse: Parser, ss: seq<RawSource>)
    requires forall i :: 0 <= i < |ss| ==> Parsed(parse, ss[i])
    ensures DecodeSources(parse, EncodeSources(ss)) == Some(EraseNoAuth(ss))
  {
    if ss != [] {
      var ws := EncodeSources(ss);
      var first, rest := ss[0], ss[1..];
      PublishedSourceDecodes(parse, first);
      PublishedSourcesDecode(parse, rest);
      DecodesConsed(parse, EncodeSource(first), EncodeSources(rest));
      assert ws == [EncodeSource(first)] + EncodeSources(rest);
      assert EraseNoAuth(ss) == [first.(noAuth := false)] + EraseNoAuth(rest);
    }
  }
}
