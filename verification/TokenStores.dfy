/** What each operation leaves in the bucket, and what the next flow makes of it. */
module TokenStores {
  import opened GoText
  import opened Wormhole
  import opened Cipher
  import opened TokenSpec
  import opened TokenRuns
  import FloatTime
  import Keys

  /** The id of a token is what comes before its first dot. */
  lemma TokenIDMeaning(id: Text, rest: Text)
    requires '.' !in id
    ensures TokenID(id + "." + rest) == id && TokenID(id) == id
  {
    SplitCons(id, rest, '.');
    SplitOne(id, '.');
  }

  /**
   * A lookup drops its key's entry exactly when a delete that it attempts works: of a dummy that
   * the cipher does not open, of a sealed value that does not open, or of an entry that still
   * counts and is within ten seconds of its expiry or past it. It changes nothing else.
   */
  lemma LookupLeaves(cfg: Config, b: Bucket, key: Text, io: LookupIO)
    requires key in b && b[key].entry.TokenEntry?
    ensures var e := b[key].entry;
            var drops :=
              || (cfg.cipher.Aead? && io.dummyDelete)
              || (io.get && (cfg.ttl == 0 || io.now < b[key].at + cfg.ttl)
                  && (|| (DecryptFails(cfg.cipher, e.jump) && io.jumpDelete)
                      || (DecryptFails(cfg.cipher, e.wat) && io.tokenDelete)
                      || (!e.disallowed && io.now > e.payload.exp - 10_000_000_000 && io.expiredDelete)));
            AfterLookup(cfg, b, key, io) == if drops then b - {key} else b
  {
    DummyDecrypts(cfg.cipher);
  }

  /** Without a request token the flag and the expiry decide. */
  lemma LookupWithoutToken(cfg: Config, b: Bucket, key: Text, e: Entry, at: int, io: LookupIO)
    requires e.TokenEntry?
    ensures LookupResult(cfg, b[key := Stored(e, at)], key, "", io)
            == if !Finds(cfg, io, at) then Miss
               else if e.disallowed || io.now > e.payload.exp - 10_000_000_000 then Reject
               else Hit(e.payload, MustDecrypt(cfg.cipher, e.jump))
  {
    DummyDecrypts(cfg.cipher);
  }

  // Remembered exchanges

  /** The entry of a stored grant: every field of the payload, with the expiry that storing it leaves. */
  lemma GrantStored(cfg: Config, b: Bucket, token: Text, jwt: Text, io: FlowIO)
    requires StoresExchange(cfg, b, Keys.WormholeAccessToken(TokenID(token)), token, jwt, io)
    ensures var key, b1 := Keys.WormholeAccessToken(TokenID(token)), WatFlow(cfg, b, token, io).bucket;
            var granted := DecodeTrustedJWT(cfg, jwt).value;
            && key in b1 && b1[key].at == io.storeAt && b1[key].entry.TokenEntry? && !b1[key].entry.disallowed
            && b1[key].entry.payload.exp == cfg.wire(granted.exp)
            && b1[key].entry.payload.(exp := granted.exp) == granted
  {
    WatStored(cfg, b, token, jwt, io);
  }

  /**
   * A refusal is remembered, and so is a grant that carries no payload: the next flow for the id
   * is turned away without an exchange exactly when it finds that entry. An exchange that failed
   * is not remembered.
   */
  lemma RefusalRemembered(cfg: Config, b: Bucket, token: Text, io: FlowIO, next: Text, nextIO: FlowIO)
    requires token != "" && next != "" && TokenID(next) == TokenID(token)
    requires LookupResult(cfg, b, Keys.WormholeAccessToken(TokenID(token)), token, io.lookup).Miss?
    ensures var b1 := WatFlow(cfg, b, token, io).bucket;
            var out := WatFlow(cfg, b1, next, nextIO);
            && (io.exchange.Failed? ==> b1 == AfterLookup(cfg, b, Keys.WormholeAccessToken(TokenID(token)), io.lookup))
            && (io.put && (io.exchange.Refused? || (io.exchange.Granted? && DecodeTrustedJWT(cfg, io.exchange.jwt).None?)) ==>
                  && (!out.exchanged <==> Finds(cfg, nextIO.lookup, io.storeAt))
                  && (!out.exchanged ==> out.result == AuthFailed))
  {
    var key := Keys.WormholeAccessToken(TokenID(token));
    var after := AfterLookup(cfg, b, key, io.lookup);
    if io.put && (io.exchange.Refused? || (io.exchange.Granted? && DecodeTrustedJWT(cfg, io.exchange.jwt).None?)) {
      assert WatFlow(cfg, b, token, io).bucket == after[key := Stored(DisallowedEntry(cfg), io.storeAt)];
      EntryServed(cfg, after, key, DisallowedEntry(cfg), io.storeAt, next, nextIO.lookup);
      WatAnswers(cfg, WatFlow(cfg, b, token, io).bucket, next, nextIO);
    }
  }

  /** A session's exchange leaves nothing behind unless it was granted with a payload. */
  lemma SessionForgets(cfg: Config, b: Bucket, token: Text, io: FlowIO)
    requires LookupResult(cfg, b, Keys.WormholeOauthSession(cfg.sha, token), token, io.lookup).Miss?
    requires io.exchange.Granted? ==> DecodeTrustedJWT(cfg, io.exchange.jwt).None?
    ensures SessionFlow(cfg, b, token, io).bucket == AfterLookup(cfg, b, Keys.WormholeOauthSession(cfg.sha, token), io.lookup)
  {
  }

  /**
   * A removal turns away the removed subtoken itself: the next flow for its id is rejected
   * without an exchange exactly when it finds the entry.
   */
  lemma {:induction false} RemovalTurnsAway(cfg: Config, b: Bucket, parentID: Text, externalID: Text, id: Text, at: int, delete: bool,
                                            token: Text, io: FlowIO)
    requires token != "" && TokenID(token) == id
    ensures var out := WatFlow(cfg, RemoveSubtoken(cfg, b, parentID, externalID, id, at, true, delete), token, io);
            && (!out.exchanged <==> Finds(cfg, io.lookup, at))
            && (!out.exchanged ==> out.result == AuthFailed)
  {
    var key := Keys.WormholeAccessToken(id);
    Keys.KeySpacesDisjoint(cfg.sha, id, "", parentID, externalID);
    var removed := RemoveSubtoken(cfg, b, parentID, externalID, id, at, true, delete);
    assert removed[key := Stored(DisallowedEntry(cfg), at)] == removed;
    EntryServed(cfg, removed, key, DisallowedEntry(cfg), at, token, io.lookup);
    WatAnswers(cfg, removed, token, io);
  }

  // Stores that fail

  /** Every write and every delete of the operation fails. */
  predicate Fails(op: Op) {
    match op
    case Wat(_, io) => !io.put && NoDelete(io.lookup)
    case Oauth(_, io) => !io.put && NoDelete(io.lookup)
    case Sub(_, _, io) => !io.put && !io.delete
    case Invalidate(_, _, put) => !put
    case RemoveSub(_, _, _, _, put, delete) => !put && !delete
    case Evict(_) => false
  }

  predicate NoDelete(io: LookupIO) {
    !io.dummyDelete && !io.jumpDelete && !io.tokenDelete && !io.expiredDelete
  }

  lemma FailedLookupKeeps(cfg: Config, b: Bucket, key: Text, io: LookupIO)
    requires NoDelete(io)
    ensures AfterLookup(cfg, b, key, io) == b
  {
  }

  /** And then the bucket stays as it was, whatever the operation answers. */
  lemma {:induction false} FailedOperationKeeps(cfg: Config, b: Bucket, op: Op)
    requires Fails(op)
    ensures TokenRuns.Apply(cfg, b, op) == b
  {
    match op
    case Wat(token, io) => FailedLookupKeeps(cfg, b, Keys.WormholeAccessToken(TokenID(token)), io.lookup);
    case Oauth(auth, io) =>
      if auth.Access? {
        FailedLookupKeeps(cfg, b, Keys.WormholeOauthSession(cfg.sha, auth.token), io.lookup);
      }
    case _ =>
  }

  // Stored expiries

  /** An expiry is stored as JSON seconds, for times from 1970 on that float64 seconds keep apart. */
  ghost predicate StoresJSON(cfg: Config) {
    forall t :: 0 <= t < FloatTime.MAX_SECONDS * SECOND ==> FloatTime.RoundTrips(t, cfg.wire(t))
  }

  /**
   * So a cached subtoken is served no later than a microsecond after the expiry of the token it
   * was issued under, whatever storing that expiry as a floating-point number does to it.
   */
  lemma {:induction false} SubtokenServedInTime(cfg: Config, ops: seq<Op>, ctx: TokenContext, communityID: Text, io: SubtokenIO)
    requires StoresJSON(cfg)
    requires var out := SubtokenFlow(cfg, TokenRuns.Run(cfg, map[], ops), ctx, communityID, io);
             out.result.Subtoken? && !out.requested && !IsSubtoken(ctx, communityID)
    ensures var token := SubtokenFlow(cfg, TokenRuns.Run(cfg, map[], ops), ctx, communityID, io).result.token;
            exists i :: 0 <= i < |ops| && Issued(cfg, ops, i, ctx.payload.tokenID, communityID, token)
                        && (0 <= ops[i].ctx.payload.exp < 0x2_0000_0000 * SECOND ==> io.now < ops[i].ctx.payload.exp + 1000)
  {
    SubtokenServed(cfg, ops, ctx, communityID, io);
    var token := SubtokenFlow(cfg, TokenRuns.Run(cfg, map[], ops), ctx, communityID, io).result.token;
    var i :| 0 <= i < |ops| && Issued(cfg, ops, i, ctx.payload.tokenID, communityID, token)
             && io.now < cfg.wire(ops[i].ctx.payload.exp);
    var exp := ops[i].ctx.payload.exp;
    if 0 <= exp < 0x2_0000_0000 * SECOND {
      FloatTime.RoundTripBound(exp, cfg.wire(exp));
    }
  }
}
