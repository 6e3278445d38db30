/** What a granted token says, and what each flow answers. */
module TokenAnswers {
  import opened GoText
  import opened Wormhole
  import opened TokenSpec
  import opened TokenInterleavings
  import Base64Url
  import Keys
  import WholeFlows

  /** A header, an encoded payload and a signature, joined by dots. */
  function Compact(header: Text, json: Text, signature: Text): Text {
    header + "." + Base64Url.Encode(json) + "." + signature
  }

  lemma ThreeParts(a: Text, b: Text, c: Text)
    requires '.' !in a && '.' !in b && '.' !in c
    ensures Split(a + "." + b + "." + c, '.') == [a, b, c]
  {
    SplitOne(c, '.');
    SplitCons(b, c, '.');
    SplitCons(a, b + ['.'] + c, '.');
    assert a + "." + b + "." + c == a + ['.'] + (b + ['.'] + c);
  }

  lemma JoinThree(parts: seq<Text>)
    requires |parts| == 3
    ensures Join(parts, '.') == parts[0] + "." + parts[1] + "." + parts[2]
  {
    assert parts[1..][1..] == [parts[2]];
    assert Join(parts[1..], '.') == parts[1] + ['.'] + parts[2];
    assert Join(parts, '.') == parts[0] + ['.'] + (parts[1] + ['.'] + parts[2]);
  }

  /** A token in compact form carries the payload of its middle part, whatever surrounds it. */
  lemma JWTPayload(cfg: Config, header: Text, json: Text, signature: Text)
    requires '.' !in header && '.' !in signature
    ensures DecodeTrustedJWT(cfg, Compact(header, json, signature)) == cfg.parsePayload(json)
  {
    Base64Url.RoundTrip(json);
    ThreeParts(header, Base64Url.Encode(json), signature);
  }

  /** Three parts without dots, joined by dots. */
  predicate HasParts(jwt: Text, a: Text, b: Text, c: Text) {
    '.' !in a && '.' !in b && '.' !in c && jwt == a + "." + b + "." + c
  }

  lemma DottedParts(jwt: Text)
    requires |Split(jwt, '.')| == 3
    ensures var parts := Split(jwt, '.'); HasParts(jwt, parts[0], parts[1], parts[2])
  {
    var parts := Split(jwt, '.');
    JoinSplit(jwt, '.');
    JoinThree(parts);
    assert parts[0] in parts && parts[1] in parts && parts[2] in parts;
  }

  /**
   * A text yields a payload exactly when it has two dots and the part between them decodes to
   * the JSON of that payload.
   */
  lemma {:induction false} JWTMeaning(cfg: Config, jwt: Text, payload: TokenPayload)
    ensures multiset(jwt)['.'] != 2 ==> DecodeTrustedJWT(cfg, jwt).None?
    ensures DecodeTrustedJWT(cfg, jwt) == Some(payload)
            <==> exists a: Text, b: Text, c: Text ::
                   && HasParts(jwt, a, b, c) && Base64Url.Decode(b).Some?
                   && cfg.parsePayload(Base64Url.Decode(b).value) == Some(payload)
  {
    SplitCount(jwt, '.');
    if |Split(jwt, '.')| == 3 {
      DottedParts(jwt);
    }
    forall a: Text, b: Text, c: Text | HasParts(jwt, a, b, c)
      ensures Split(jwt, '.') == [a, b, c]
    {
      ThreeParts(a, b, c);
    }
  }

  /** A miss followed by a grant authenticates the payload that the granted token carries. */
  lemma {:induction false} GrantAnswers(cfg: Config, b: Bucket, kind: Kind, token: Text, io: FlowIO,
                                        header: Text, json: Text, signature: Text)
    requires '.' !in header && '.' !in signature
    requires LookupResult(cfg, b, KeyFor(cfg, kind, token), token, io.lookup).Miss?
    requires io.exchange == Granted(Compact(header, json, signature))
    ensures WholeFlows.WholeFlow(cfg, b, kind, token, io).result
            == match cfg.parsePayload(json)
               case Some(payload) => Authenticated(payload, Compact(header, json, signature))
               case None => InternalFailed
  {
    JWTPayload(cfg, header, json, signature);
    WholeFlows.WholeFlowMisses(cfg, b, kind, token, io);
  }

  /** The store holds a subtoken of the pair that a read at this time finds and that has not expired. */
  predicate CachedFor(cfg: Config, b: Bucket, parent: Text, communityID: Text, io: SubtokenIO, token: Text) {
    var key := Keys.WormholeAccessSubtoken(parent, communityID);
    && io.get && key in b && (cfg.ttl == 0 || io.now < b[key].at + cfg.ttl)
    && b[key].entry.SubtokenEntry? && b[key].entry.token == token && token != "" && io.now < b[key].entry.exp
  }

  /**
   * The subtoken of a request: none without a community, its own token when that is already a
   * subtoken of the community, a cached one that has not expired, or else a new one.
   */
  lemma {:induction false} SubtokenAnswers(cfg: Config, b: Bucket, ctx: TokenContext, communityID: Text, io: SubtokenIO)
    ensures var out := SubtokenFlow(cfg, b, ctx, communityID, io);
            var own := ctx.payload.externalID == communityID && ctx.payload.parentID != "";
            && (communityID == "" ==> out == SubtokenOutcome(b, NoSubtoken, false))
            && (communityID != "" && own ==> out == SubtokenOutcome(b, Subtoken(ctx.wat), false))
            && (communityID != "" && !own ==>
                  && (forall token: Text :: CachedFor(cfg, b, ctx.payload.tokenID, communityID, io, token) ==>
                        out == SubtokenOutcome(b, Subtoken(token), false))
                  && (out.requested <==> forall token: Text :: !CachedFor(cfg, b, ctx.payload.tokenID, communityID, io, token))
                  && (out.requested ==>
                        out.result == match io.issue(SubtokenRequest(ctx.payload.username, "subtoken", communityID, ctx.payload.tokenID))
                                      case Some(token) => Subtoken(token)
                                      case None => SubtokenFailed))
  {
    var key := Keys.WormholeAccessSubtoken(ctx.payload.tokenID, communityID);
    var e := CachedSubtoken(cfg, b, key, io);
    if e.Some? && io.now < e.value.exp {
      assert CachedFor(cfg, b, ctx.payload.tokenID, communityID, io, e.value.token);
    }
  }
}
