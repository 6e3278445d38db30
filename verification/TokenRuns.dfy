/** Runs of whole flows, one after another, over the shared bucket. */
module TokenRuns {
  import opened GoText
  import opened Wormhole
  import opened Cipher
  import opened TokenSpec
  import Keys

  datatype Op =
    | Wat(token: Text, io: FlowIO)
    | Oauth(auth: ProxyAuth, io: FlowIO)
    | Sub(ctx: TokenContext, communityID: Text, subIO: SubtokenIO)
    | Invalidate(tokenID: Text, now: int, put: bool)
    | RemoveSub(parentID: Text, externalID: Text, subtokenID: Text, now: int, put: bool, delete: bool)
    | Evict(key: Text)

  function Apply(cfg: Config, b: Bucket, op: Op): Bucket {
    match op
    case Wat(token, io) => WatFlow(cfg, b, token, io).bucket
    case Oauth(auth, io) => OauthFlow(cfg, b, auth, io).bucket
    case Sub(ctx, communityID, io) => SubtokenFlow(cfg, b, ctx, communityID, io).bucket
    case Invalidate(id, now, put) => InvalidateToken(cfg, b, id, now, put)
    case RemoveSub(p, e, id, now, put, delete) => RemoveSubtoken(cfg, b, p, e, id, now, put, delete)
    case Evict(key) => b - {key}
  }

  function Run(cfg: Config, b: Bucket, ops: seq<Op>): Bucket {
    if ops == [] then b
    else Apply(cfg, Run(cfg, b, ops[..|ops| - 1]), ops[|ops| - 1])
  }

  /** The keys an operation may touch. */
  function OpKeys(cfg: Config, op: Op): set<Text> {
    match op
    case Wat(token, _) => {Keys.WormholeAccessToken(TokenID(token))}
    case Oauth(auth, _) => if auth.Access? then {Keys.WormholeOauthSession(cfg.sha, auth.token)} else {}
    case Sub(ctx, communityID, _) => {Keys.WormholeAccessSubtoken(ctx.payload.tokenID, communityID)}
    case Invalidate(id, _, _) => {Keys.WormholeAccessToken(id)}
    case RemoveSub(p, e, id, _, _, _) => {Keys.WormholeAccessToken(id), Keys.WormholeAccessSubtoken(p, e)}
    case Evict(key) => {key}
  }

  /** Only the key may differ; there, the entry was kept, dropped, or is a fresh token entry. */
  ghost predicate TouchesToken(b: Bucket, b': Bucket, key: Text) {
    && (forall k :: k != key ==> (k in b' <==> k in b) && (k in b ==> b'[k] == b[k]))
    && (key in b' ==>
          || (key in b && b'[key] == b[key])
          || (b'[key].entry.TokenEntry? && (b'[key].entry.disallowed ==> b'[key].entry.wat == "")))
  }

  lemma LookupTouches(cfg: Config, b: Bucket, key: Text, io: LookupIO)
    ensures AfterLookup(cfg, b, key, io) == b || AfterLookup(cfg, b, key, io) == b - {key}
  {
  }

  lemma WatTouches(cfg: Config, b: Bucket, token: Text, io: FlowIO)
    ensures TouchesToken(b, WatFlow(cfg, b, token, io).bucket, Keys.WormholeAccessToken(TokenID(token)))
  {
    LookupTouches(cfg, b, Keys.WormholeAccessToken(TokenID(token)), io.lookup);
  }

  lemma SessionTouches(cfg: Config, b: Bucket, token: Text, io: FlowIO)
    ensures TouchesToken(b, SessionFlow(cfg, b, token, io).bucket, Keys.WormholeOauthSession(cfg.sha, token))
  {
    LookupTouches(cfg, b, Keys.WormholeOauthSession(cfg.sha, token), io.lookup);
  }

  lemma OauthTouches(cfg: Config, b: Bucket, auth: ProxyAuth, io: FlowIO)
    ensures OauthFlow(cfg, b, auth, io).bucket == b
            || (auth.Access? && TouchesToken(b, OauthFlow(cfg, b, auth, io).bucket, Keys.WormholeOauthSession(cfg.sha, auth.token)))
  {
    if auth.Access? {
      SessionTouches(cfg, b, auth.token, io);
    }
  }

  lemma {:induction false} OtherKeysKept(cfg: Config, b: Bucket, op: Op, key: Text)
    requires key !in OpKeys(cfg, op)
    ensures key in Apply(cfg, b, op) <==> key in b
    ensures key in b ==> Apply(cfg, b, op)[key] == b[key]
  {
    match op
    case Wat(token, io) => WatTouches(cfg, b, token, io);
    case Oauth(auth, io) => OauthTouches(cfg, b, auth, io);
    case _ =>
  }

  // Denial

  /** The key holds a disallowed entry, stored at or after the given time. */
  predicate Blocked(cfg: Config, b: Bucket, key: Text, at: int) {
    && key in b && b[key].entry.TokenEntry?
    && b[key].entry.disallowed && b[key].entry.wat == "" && !DecryptFails(cfg.cipher, b[key].entry.jump)
    && b[key].at >= at
  }

  /**
   * Up to the end of the entry's time to live, nothing evicts it and its reads do not fail; nor,
   * under the sealing cipher, does a lookup's decryption of the dummy delete it.
   */
  predicate Calm(cfg: Config, key: Text, at: int, op: Op) {
    key in OpKeys(cfg, op) ==>
      match op
      case Wat(token, io) =>
        token != "" && DummySpares(cfg, io.lookup) && io.lookup.get && (cfg.ttl == 0 || io.lookup.now < at + cfg.ttl)
      case Invalidate(_, now, _) => now >= at
      case RemoveSub(_, _, _, now, _, _) => now >= at
      case Evict(_) => false
      case _ => true
  }

  /** The decryption of the dummy leaves the key alone. */
  predicate DummySpares(cfg: Config, io: LookupIO) {
    cfg.cipher.Noop? || !io.dummyDelete
  }

  lemma BlockedRejects(cfg: Config, b: Bucket, key: Text, at: int, token: Text, io: FlowIO)
    requires DummySpares(cfg, io.lookup) && Blocked(cfg, b, key, at) && token != ""
    requires key == Keys.WormholeAccessToken(TokenID(token))
    requires io.lookup.get && (cfg.ttl == 0 || io.lookup.now < at + cfg.ttl)
    ensures WatFlow(cfg, b, token, io) == FlowOutcome(b, AuthFailed, false)
  {
    DummyDecrypts(cfg.cipher);
  }

  lemma BlockedStep(cfg: Config, b: Bucket, id: Text, at: int, op: Op)
    requires Blocked(cfg, b, Keys.WormholeAccessToken(id), at)
    requires Calm(cfg, Keys.WormholeAccessToken(id), at, op)
    ensures Blocked(cfg, Apply(cfg, b, op), Keys.WormholeAccessToken(id), at)
  {
    var key := Keys.WormholeAccessToken(id);
    if key in OpKeys(cfg, op) {
      match op {
        case Wat(token, io) => BlockedRejects(cfg, b, key, at, token, io);
        case Oauth(auth, _) => Keys.KeySpacesDisjoint(cfg.sha, id, auth.token, "", "");
        case Sub(ctx, e, _) => Keys.KeySpacesDisjoint(cfg.sha, id, "", ctx.payload.tokenID, e);
        case Invalidate(_, _, _) =>
        case RemoveSub(p, e, _, _, _, _) => Keys.KeySpacesDisjoint(cfg.sha, id, "", p, e);
      }
    } else {
      OtherKeysKept(cfg, b, op, key);
    }
  }

  /**
   * Denial is absorbing: from a disallowed entry on, whatever else happens, every flow for a
   * token of that id is rejected without asking the token service, and the entry stays.
   */
  lemma {:induction false} DisallowedAbsorbing(cfg: Config, b: Bucket, id: Text, at: int, ops: seq<Op>, i: nat)
    requires i <= |ops|
    requires Blocked(cfg, b, Keys.WormholeAccessToken(id), at)
    requires forall j :: 0 <= j < |ops| ==> Calm(cfg, Keys.WormholeAccessToken(id), at, ops[j])
    ensures var s := Run(cfg, b, ops[..i]);
            && Blocked(cfg, s, Keys.WormholeAccessToken(id), at)
            && (i < |ops| && ops[i].Wat? && TokenID(ops[i].token) == id ==>
                  WatFlow(cfg, s, ops[i].token, ops[i].io) == FlowOutcome(s, AuthFailed, false))
  {
    if i > 0 {
      DisallowedAbsorbing(cfg, b, id, at, ops, i - 1);
      assert ops[..i][..i - 1] == ops[..i - 1];
      BlockedStep(cfg, Run(cfg, b, ops[..i - 1]), id, at, ops[i - 1]);
    }
    if i < |ops| && ops[i].Wat? && TokenID(ops[i].token) == id {
      BlockedRejects(cfg, Run(cfg, b, ops[..i]), Keys.WormholeAccessToken(id), at, ops[i].token, ops[i].io);
    }
  }

  /**
   * One stored invalidation, one later flow for the id: it is turned away without an exchange
   * exactly when the entry is still live, its read works, and the lookup's own decryption of
   * the dummy has not deleted it. Under the sealing cipher that decryption always fails.
   */
  lemma InvalidationHolds(cfg: Config, b: Bucket, id: Text, at: int, token: Text, io: FlowIO)
    requires token != "" && TokenID(token) == id
    ensures var b' := InvalidateToken(cfg, b, id, at, true);
            !WatFlow(cfg, b', token, io).exchanged
            <==> Finds(cfg, io.lookup, at)
    ensures var out := WatFlow(cfg, InvalidateToken(cfg, b, id, at, true), token, io);
            !out.exchanged ==> out.result == AuthFailed
  {
    DummyDecrypts(cfg.cipher);
  }

  /** Under the sealing cipher a lookup whose deletes work always misses and empties the key. */
  lemma SealedLookupMisses(cfg: Config, b: Bucket, key: Text, reqToken: Text, io: LookupIO)
    requires cfg.cipher.Aead? && io.dummyDelete
    ensures LookupResult(cfg, b, key, reqToken, io) == Miss
    ensures AfterLookup(cfg, b, key, io) == b - {key}
  {
    DummyDecrypts(cfg.cipher);
  }

  // Expired entries

  /** The token, key and io of an operation that looks a token up. */
  datatype Flow = Flow(key: Text, token: Text, io: FlowIO)

  function FlowOf(cfg: Config, op: Op): Option<Flow> {
    match op
    case Wat(token, io) => if token != "" then Some(Flow(Keys.WormholeAccessToken(TokenID(token)), token, io)) else None
    case Oauth(Access(token), io) =>
      if cfg.oauthEnabled && token != "" then Some(Flow(Keys.WormholeOauthSession(cfg.sha, token), token, io)) else None
    case _ => None
  }

  /** The lookup's surroundings let it find an entry stored at the given time. */
  predicate Finds(cfg: Config, io: LookupIO, at: int) {
    DummySpares(cfg, io) && io.get && (cfg.ttl == 0 || io.now < at + cfg.ttl)
  }

  /**
   * Of any token entry, under any cipher, a lookup for a token is answered exactly when the
   * dummy's decryption spares it, its read works, its time to live is not over and its stored
   * token opens to the request's. Neither the flag nor the expiry of the entry matters.
   */
  lemma EntryServed(cfg: Config, b: Bucket, key: Text, e: Entry, at: int, token: Text, io: LookupIO)
    requires e.TokenEntry? && token != ""
    ensures var b' := b[key := Stored(e, at)];
            && (LookupResult(cfg, b', key, token, io).Hit? <==> Finds(cfg, io, at) && MustDecrypt(cfg.cipher, e.wat) == token)
            && (LookupResult(cfg, b', key, token, io).Miss? <==> !Finds(cfg, io, at))
            && (LookupResult(cfg, b', key, token, io).Hit? ==>
                  LookupResult(cfg, b', key, token, io) == Hit(e.payload, MustDecrypt(cfg.cipher, e.jump)))
  {
    DummyDecrypts(cfg.cipher);
  }

  /** The entry that a granted exchange of the token leaves, and its jump token once opened. */
  predicate StoresExchange(cfg: Config, b: Bucket, key: Text, token: Text, jwt: Text, io: FlowIO) {
    && LookupResult(cfg, b, key, token, io.lookup).Miss? && io.exchange == Granted(jwt) && DecodeTrustedJWT(cfg, jwt).Some?
    && io.put && MustEncrypt(cfg.cipher, token, io.tokenRandom) != ""
  }

  lemma {:induction false} UntouchedRun(cfg: Config, b: Bucket, ops: seq<Op>, key: Text)
    requires forall i :: 0 <= i < |ops| ==> key !in OpKeys(cfg, ops[i])
    ensures key in Run(cfg, b, ops) <==> key in b
    ensures key in b ==> Run(cfg, b, ops)[key] == b[key]
  {
    if ops != [] {
      var n := |ops| - 1;
      UntouchedRun(cfg, b, ops[..n], key);
      OtherKeysKept(cfg, Run(cfg, b, ops[..n]), ops[n], key);
    }
  }

  /** What a stored exchange answers to later lookups of its token. */
  lemma StoredLookup(cfg: Config, b: Bucket, key: Text, token: Text, payload: TokenPayload, jwt: Text, io: FlowIO, next: LookupIO)
    requires cfg.cipher.Opens() && cfg.cipher.Entropy(io.tokenRandom) && cfg.cipher.Entropy(io.jumpRandom) && token != ""
    requires MustEncrypt(cfg.cipher, token, io.tokenRandom) != ""
    requires key in b && b[key] == Stored(ExchangedEntry(cfg, payload, token, jwt, io), io.storeAt)
    ensures LookupResult(cfg, b, key, token, next)
            == if Finds(cfg, next, io.storeAt)
               then Hit(Wired(cfg, payload), if MustEncrypt(cfg.cipher, jwt, io.jumpRandom) == "" then "" else jwt) else Miss
  {
    var e := ExchangedEntry(cfg, payload, token, jwt, io);
    EntryServed(cfg, b, key, e, io.storeAt, token, next);
    assert b[key := Stored(e, io.storeAt)] == b;
    EncryptedOpens(cfg.cipher, token, io.tokenRandom);
    EncryptedOpens(cfg.cipher, jwt, io.jumpRandom);
  }

  /** A sealed jump token, or none if it could not be sealed. */
  function SealedJump(cfg: Config, jwt: Text, io: FlowIO): Text {
    if MustEncrypt(cfg.cipher, jwt, io.jumpRandom) == "" then "" else jwt
  }

  /**
   * The cache serves: after a granted flow that stored its sealed token, and whatever operations
   * on other keys, the next flow for the token is answered from the cache with that exchange
   * exactly when its read works within the time to live and the dummy's decryption spares the
   * entry; otherwise, and only then, it asks the service again.
   */
  lemma {:induction false} StoredThenServed(cfg: Config, b: Bucket, token: Text, jwt: Text, io: FlowIO, ops: seq<Op>, next: FlowIO)
    requires cfg.cipher.Opens() && cfg.cipher.Entropy(io.tokenRandom) && cfg.cipher.Entropy(io.jumpRandom) && token != ""
    ensures var key := Keys.WormholeAccessToken(TokenID(token));
            StoresExchange(cfg, b, key, token, jwt, io) && (forall i :: 0 <= i < |ops| ==> key !in OpKeys(cfg, ops[i])) ==>
              var out := WatFlow(cfg, Run(cfg, WatFlow(cfg, b, token, io).bucket, ops), token, next);
              && (!out.exchanged <==> Finds(cfg, next.lookup, io.storeAt))
              && (!out.exchanged ==> out.result == Authenticated(Wired(cfg, DecodeTrustedJWT(cfg, jwt).value), SealedJump(cfg, jwt, io)))
    ensures var key := Keys.WormholeOauthSession(cfg.sha, token);
            StoresExchange(cfg, b, key, token, jwt, io) && (forall i :: 0 <= i < |ops| ==> key !in OpKeys(cfg, ops[i])) ==>
              var out := SessionFlow(cfg, Run(cfg, SessionFlow(cfg, b, token, io).bucket, ops), token, next);
              && (!out.exchanged <==> Finds(cfg, next.lookup, io.storeAt))
              && (!out.exchanged ==> out.result == Authenticated(Wired(cfg, DecodeTrustedJWT(cfg, jwt).value), SealedJump(cfg, jwt, io)))
  {
    var wat, session := Keys.WormholeAccessToken(TokenID(token)), Keys.WormholeOauthSession(cfg.sha, token);
    if StoresExchange(cfg, b, wat, token, jwt, io) && forall i :: 0 <= i < |ops| ==> wat !in OpKeys(cfg, ops[i]) {
      WatStored(cfg, b, token, jwt, io);
      UntouchedRun(cfg, WatFlow(cfg, b, token, io).bucket, ops, wat);
      StoredLookup(cfg, Run(cfg, WatFlow(cfg, b, token, io).bucket, ops), wat, token,
                   DecodeTrustedJWT(cfg, jwt).value, jwt, io, next.lookup);
      WatAnswers(cfg, Run(cfg, WatFlow(cfg, b, token, io).bucket, ops), token, next);
    }
    if StoresExchange(cfg, b, session, token, jwt, io) && forall i :: 0 <= i < |ops| ==> session !in OpKeys(cfg, ops[i]) {
      SessionStored(cfg, b, token, jwt, io);
      UntouchedRun(cfg, SessionFlow(cfg, b, token, io).bucket, ops, session);
      StoredLookup(cfg, Run(cfg, SessionFlow(cfg, b, token, io).bucket, ops), session, token,
                   DecodeTrustedJWT(cfg, jwt).value, jwt, io, next.lookup);
      SessionAnswers(cfg, Run(cfg, SessionFlow(cfg, b, token, io).bucket, ops), token, next);
    }
  }

  lemma WatStored(cfg: Config, b: Bucket, token: Text, jwt: Text, io: FlowIO)
    requires StoresExchange(cfg, b, Keys.WormholeAccessToken(TokenID(token)), token, jwt, io)
    ensures var key, out := Keys.WormholeAccessToken(TokenID(token)), WatFlow(cfg, b, token, io).bucket;
            key in out && out[key] == Stored(ExchangedEntry(cfg, DecodeTrustedJWT(cfg, jwt).value, token, jwt, io), io.storeAt)
  {
  }

  lemma SessionStored(cfg: Config, b: Bucket, token: Text, jwt: Text, io: FlowIO)
    requires StoresExchange(cfg, b, Keys.WormholeOauthSession(cfg.sha, token), token, jwt, io)
    ensures var key, out := Keys.WormholeOauthSession(cfg.sha, token), SessionFlow(cfg, b, token, io).bucket;
            key in out && out[key] == Stored(ExchangedEntry(cfg, DecodeTrustedJWT(cfg, jwt).value, token, jwt, io), io.storeAt)
  {
  }

  lemma WatAnswers(cfg: Config, b: Bucket, token: Text, io: FlowIO)
    ensures var lookup := LookupResult(cfg, b, Keys.WormholeAccessToken(TokenID(token)), token, io.lookup);
            && (WatFlow(cfg, b, token, io).exchanged <==> lookup.Miss?)
            && (lookup.Hit? ==> WatFlow(cfg, b, token, io).result == Authenticated(lookup.payload, lookup.jump))
  {
  }

  lemma SessionAnswers(cfg: Config, b: Bucket, token: Text, io: FlowIO)
    ensures var lookup := LookupResult(cfg, b, Keys.WormholeOauthSession(cfg.sha, token), token, io.lookup);
            && (SessionFlow(cfg, b, token, io).exchanged <==> lookup.Miss?)
            && (lookup.Hit? ==> SessionFlow(cfg, b, token, io).result == Authenticated(lookup.payload, lookup.jump))
  {
  }

  /**
   * So an expiry is not enforced on a matching token: an expired entry is served under exactly
   * that condition. It stays, to be served again, unless a delete that this very lookup attempts
   * works.
   */
  lemma ExpiredEntryServed(cfg: Config, b: Bucket, key: Text, e: Entry, at: int, token: Text, io: LookupIO)
    requires e.TokenEntry? && token != "" && Expired(e.payload, io.now)
    ensures var b' := b[key := Stored(e, at)];
            && (LookupResult(cfg, b', key, token, io).Hit? <==> Finds(cfg, io, at) && MustDecrypt(cfg.cipher, e.wat) == token)
            && (LookupResult(cfg, b', key, token, io).Hit? ==>
                  && LookupResult(cfg, b', key, token, io) == Hit(e.payload, MustDecrypt(cfg.cipher, e.jump))
                  && AfterLookup(cfg, b', key, io)
                     == if (!e.disallowed && io.expiredDelete) || (DecryptFails(cfg.cipher, e.jump) && io.jumpDelete)
                        then b' - {key} else b')
  {
    EntryServed(cfg, b, key, e, at, token, io);
    DummyDecrypts(cfg.cipher);
  }

  /** So the flows are answered from the cache, without the service, under exactly that condition. */
  lemma ExpiredFlowServed(cfg: Config, b: Bucket, e: Entry, at: int, token: Text, io: FlowIO)
    requires e.TokenEntry? && token != "" && Expired(e.payload, io.lookup.now)
    ensures var b' := b[Keys.WormholeAccessToken(TokenID(token)) := Stored(e, at)];
            var out := WatFlow(cfg, b', token, io);
            out.result.Authenticated? && !out.exchanged <==>
              Finds(cfg, io.lookup, at) && MustDecrypt(cfg.cipher, e.wat) == token
    ensures var b' := b[Keys.WormholeOauthSession(cfg.sha, token) := Stored(e, at)];
            var out := SessionFlow(cfg, b', token, io);
            out.result.Authenticated? && !out.exchanged <==>
              Finds(cfg, io.lookup, at) && MustDecrypt(cfg.cipher, e.wat) == token
  {
    ExpiredEntryServed(cfg, b, Keys.WormholeAccessToken(TokenID(token)), e, at, token, io.lookup);
    ExpiredEntryServed(cfg, b, Keys.WormholeOauthSession(cfg.sha, token), e, at, token, io.lookup);
  }

  /** The access token flow only runs for a token the request carried. */
  predicate Proper(op: Op) {
    op.Wat? ==> op.token != ""
  }

  /** The operation is answered from the key's entry. */
  predicate HitsKey(cfg: Config, b: Bucket, op: Op, key: Text) {
    FlowOf(cfg, op).Some? && FlowOf(cfg, op).value.key == key
    && LookupResult(cfg, b, key, FlowOf(cfg, op).value.token, FlowOf(cfg, op).value.io.lookup).Hit?
  }

  /** A hit later than ten seconds before the stored expiry, whose delete of the entry works. */
  predicate LateHit(cfg: Config, b: Bucket, op: Op, key: Text) {
    && HitsKey(cfg, b, op, key)
    && var io := FlowOf(cfg, op).value.io.lookup;
       Expired(LookupResult(cfg, b, key, FlowOf(cfg, op).value.token, io).payload, io.now) && io.expiredDelete
  }

  predicate Exchanges(cfg: Config, b: Bucket, op: Op, key: Text) {
    && FlowOf(cfg, op).Some? && FlowOf(cfg, op).value.key == key
    && LookupResult(cfg, b, key, FlowOf(cfg, op).value.token, FlowOf(cfg, op).value.io.lookup).Miss?
  }

  /** Nothing at the key can be hit. */
  predicate Unhittable(b: Bucket, key: Text) {
    key in b && b[key].entry.TokenEntry? ==> b[key].entry.wat == ""
  }

  predicate DisallowedEmpty(b: Bucket) {
    forall k :: k in b && b[k].entry.TokenEntry? && b[k].entry.disallowed ==> b[k].entry.wat == ""
  }

  /** Every disallowed entry of every reachable bucket has an empty stored token. */
  lemma {:induction false} DisallowedStaysEmpty(cfg: Config, b: Bucket, ops: seq<Op>)
    requires DisallowedEmpty(b)
    ensures DisallowedEmpty(Run(cfg, b, ops))
  {
    if ops != [] {
      DisallowedStaysEmpty(cfg, b, ops[..|ops| - 1]);
      DisallowedEmptyStep(cfg, Run(cfg, b, ops[..|ops| - 1]), ops[|ops| - 1]);
    }
  }

  lemma DisallowedEmptyStep(cfg: Config, b: Bucket, op: Op)
    requires DisallowedEmpty(b)
    ensures DisallowedEmpty(Apply(cfg, b, op))
  {
    match op
    case Wat(token, io) => WatTouches(cfg, b, token, io);
    case Oauth(auth, io) => OauthTouches(cfg, b, auth, io);
    case _ =>
  }

  lemma LateHitEmpties(cfg: Config, b: Bucket, op: Op, key: Text)
    requires DisallowedEmpty(b) && LateHit(cfg, b, op, key)
    ensures key !in Apply(cfg, b, op)
  {
  }

  lemma {:induction false} UnhittableStep(cfg: Config, b: Bucket, op: Op, key: Text)
    requires Unhittable(b, key) && !Exchanges(cfg, b, op, key)
    requires Proper(op)
    ensures Unhittable(Apply(cfg, b, op), key)
  {
    if key !in OpKeys(cfg, op) {
      OtherKeysKept(cfg, b, op, key);
    }
  }

  lemma RunStep(cfg: Config, b: Bucket, ops: seq<Op>, n: nat)
    requires n < |ops|
    ensures Run(cfg, b, ops[..n + 1]) == Apply(cfg, Run(cfg, b, ops[..n]), ops[n])
  {
    assert ops[..n + 1][..n] == ops[..n];
  }

  lemma LateHitEmptiesRun(cfg: Config, b: Bucket, ops: seq<Op>, i: nat, key: Text)
    requires DisallowedEmpty(b) && i < |ops|
    requires LateHit(cfg, Run(cfg, b, ops[..i]), ops[i], key)
    ensures key !in Run(cfg, b, ops[..i + 1])
  {
    assert ops[..i + 1][..i] == ops[..i];
    DisallowedStaysEmpty(cfg, b, ops[..i]);
    LateHitEmpties(cfg, Run(cfg, b, ops[..i]), ops[i], key);
  }

  /**
   * An expired entry serves one more request at most: between a late hit and any later hit of
   * the same key some flow has exchanged a token for that key again.
   */
  lemma {:induction false} ExpiredSingleUse(cfg: Config, b: Bucket, ops: seq<Op>, i: nat, j: nat, key: Text)
    requires DisallowedEmpty(b) && i < j < |ops|
    requires forall k :: 0 <= k < |ops| ==> Proper(ops[k])
    ensures LateHit(cfg, Run(cfg, b, ops[..i]), ops[i], key) && HitsKey(cfg, Run(cfg, b, ops[..j]), ops[j], key) ==>
              exists k :: i < k < j && Exchanges(cfg, Run(cfg, b, ops[..k]), ops[k], key)
  {
    if LateHit(cfg, Run(cfg, b, ops[..i]), ops[i], key) && HitsKey(cfg, Run(cfg, b, ops[..j]), ops[j], key) {
      LateHitEmptiesRun(cfg, b, ops, i, key);
      BeforeIsRun(cfg, b, ops, i + 1);
      BeforeIsRun(cfg, b, ops, j);
      UnhittableNoHit(cfg, Before(cfg, b, ops, j), ops[j], key);
      var k := ExchangeBetween(cfg, b, ops, i + 1, j, key);
      BeforeIsRun(cfg, b, ops, k);
    }
  }

  /** The bucket before the n-th operation. */
  function Before(cfg: Config, b: Bucket, ops: seq<Op>, n: nat): Bucket
    requires n <= |ops|
  {
    if n == 0 then b else Apply(cfg, Before(cfg, b, ops, n - 1), ops[n - 1])
  }

  lemma {:induction false} BeforeIsRun(cfg: Config, b: Bucket, ops: seq<Op>, n: nat)
    requires n <= |ops|
    ensures Before(cfg, b, ops, n) == Run(cfg, b, ops[..n])
  {
    if n > 0 {
      BeforeIsRun(cfg, b, ops, n - 1);
      RunStep(cfg, b, ops, n - 1);
    }
  }

  /** Walking from a point where the key cannot be hit to a hit passes an exchange. */
  lemma {:induction false} ExchangeBetween(cfg: Config, b: Bucket, ops: seq<Op>, m: nat, j: nat, key: Text) returns (k: nat)
    requires m <= j <= |ops| && Unhittable(Before(cfg, b, ops, m), key)
    requires forall i :: 0 <= i < |ops| ==> Proper(ops[i])
    requires !Unhittable(Before(cfg, b, ops, j), key)
    ensures m <= k < j && Exchanges(cfg, Before(cfg, b, ops, k), ops[k], key)
    decreases j - m
  {
    if Exchanges(cfg, Before(cfg, b, ops, m), ops[m], key) {
      k := m;
    } else {
      UnhittableStep(cfg, Before(cfg, b, ops, m), ops[m], key);
      k := ExchangeBetween(cfg, b, ops, m + 1, j, key);
    }
  }

  lemma UnhittableNoHit(cfg: Config, b: Bucket, op: Op, key: Text)
    ensures HitsKey(cfg, b, op, key) ==> !Unhittable(b, key)
  {
  }

  // Subtokens

  /** Token keys hold token entries and subtoken keys hold subtoken entries. */
  predicate Typed(b: Bucket) {
    forall k :: k in b ==> (b[k].entry.SubtokenEntry? <==> "was.v1." <= k)
  }

  lemma KeyPrefixes(cfg: Config, id: Text, access: Text, parentID: Text, externalID: Text)
    ensures "was.v1." <= Keys.WormholeAccessSubtoken(parentID, externalID)
    ensures !("was.v1." <= Keys.WormholeAccessToken(id))
    ensures !("was.v1." <= Keys.WormholeOauthSession(cfg.sha, access))
  {
    assert Keys.WormholeAccessToken(id)[2] == 't' && Keys.WormholeOauthSession(cfg.sha, access)[1] == 'o';
    var prefix: Text := "was.v1.";
    assert prefix[1] == 'a' && prefix[2] == 's';
  }

  lemma TokenTouchTyped(b: Bucket, b': Bucket, key: Text)
    requires Typed(b) && TouchesToken(b, b', key) && !("was.v1." <= key)
    ensures Typed(b')
  {
  }

  lemma TypedStep(cfg: Config, b: Bucket, op: Op)
    requires Typed(b)
    ensures Typed(Apply(cfg, b, op))
  {
    match op
    case Wat(token, io) =>
      KeyPrefixes(cfg, TokenID(token), "", "", "");
      WatTouches(cfg, b, token, io);
      TokenTouchTyped(b, Apply(cfg, b, op), Keys.WormholeAccessToken(TokenID(token)));
    case Oauth(auth, io) =>
      OauthTouches(cfg, b, auth, io);
      if auth.Access? && Apply(cfg, b, op) != b {
        KeyPrefixes(cfg, "", auth.token, "", "");
        TokenTouchTyped(b, Apply(cfg, b, op), Keys.WormholeOauthSession(cfg.sha, auth.token));
      }
    case Sub(ctx, e, _) => KeyPrefixes(cfg, "", "", ctx.payload.tokenID, e);
    case Invalidate(id, _, _) => KeyPrefixes(cfg, id, "", "", "");
    case RemoveSub(p, e, id, _, _, _) => KeyPrefixes(cfg, id, "", p, e);
    case Evict(_) =>
  }

  /** In every reachable bucket no token entry is ever read as a subtoken entry, nor the reverse. */
  lemma {:induction false} BucketTyped(cfg: Config, b: Bucket, ops: seq<Op>)
    requires Typed(b)
    ensures Typed(Run(cfg, b, ops))
  {
    if ops != [] {
      BucketTyped(cfg, b, ops[..|ops| - 1]);
      TypedStep(cfg, Run(cfg, b, ops[..|ops| - 1]), ops[|ops| - 1]);
    }
  }

  /** Operation i asked the service for a subtoken of (parent, external) and was issued the token. */
  predicate Issued(cfg: Config, ops: seq<Op>, i: nat, parentID: Text, externalID: Text, token: Text) {
    && i < |ops| && ops[i].Sub?
    && ops[i].ctx.payload.tokenID == parentID && ops[i].communityID == externalID
    && SubtokenFlow(cfg, Run(cfg, map[], ops[..i]), ops[i].ctx, ops[i].communityID, ops[i].subIO).requested
    && ops[i].subIO.issue(SubtokenRequest(ops[i].ctx.payload.username, "subtoken", externalID, parentID)) == Some(token)
  }

  /** The entry under (P, E) holds a token issued for P and E, expiring with that parent. */
  predicate EntryIssued(cfg: Config, ops: seq<Op>, b: Bucket, parentID: Text, externalID: Text) {
    var key := Keys.WormholeAccessSubtoken(parentID, externalID);
    key in b && b[key].entry.SubtokenEntry? ==>
      && b[key].entry.id == parentID && b[key].entry.externalID == externalID
      && exists i :: 0 <= i < |ops| && Issued(cfg, ops, i, parentID, externalID, b[key].entry.token)
                     && b[key].entry.exp == cfg.wire(ops[i].ctx.payload.exp)
                     && b[key].entry.parentID == ops[i].ctx.payload.parentID
  }

  lemma {:induction false} SubtokenEntriesIssued(cfg: Config, ops: seq<Op>, parentID: Text, externalID: Text)
    ensures EntryIssued(cfg, ops, Run(cfg, map[], ops), parentID, externalID)
  {
    if ops != [] {
      var n := |ops| - 1;
      SubtokenEntriesIssued(cfg, ops[..n], parentID, externalID);
      var before := Run(cfg, map[], ops[..n]);
      IssuedLonger(cfg, ops, before, parentID, externalID);
      IssuedStep(cfg, ops, parentID, externalID);
    }
  }

  lemma IssuedLonger(cfg: Config, ops: seq<Op>, b: Bucket, parentID: Text, externalID: Text)
    requires |ops| > 0 && EntryIssued(cfg, ops[..|ops| - 1], b, parentID, externalID)
    ensures EntryIssued(cfg, ops, b, parentID, externalID)
  {
    var n := |ops| - 1;
    var key := Keys.WormholeAccessSubtoken(parentID, externalID);
    if key in b && b[key].entry.SubtokenEntry? {
      var i :| 0 <= i < n && Issued(cfg, ops[..n], i, parentID, externalID, b[key].entry.token)
               && b[key].entry.exp == cfg.wire(ops[..n][i].ctx.payload.exp)
               && b[key].entry.parentID == ops[..n][i].ctx.payload.parentID;
      assert ops[..n][..i] == ops[..i] && ops[..n][i] == ops[i];
      assert Issued(cfg, ops, i, parentID, externalID, b[key].entry.token);
    }
  }

  lemma IssuedBySub(cfg: Config, ops: seq<Op>, parentID: Text, externalID: Text)
    requires |ops| > 0 && ops[|ops| - 1].Sub?
    requires var op := ops[|ops| - 1];
             Keys.WormholeAccessSubtoken(op.ctx.payload.tokenID, op.communityID) == Keys.WormholeAccessSubtoken(parentID, externalID)
    requires var key := Keys.WormholeAccessSubtoken(parentID, externalID);
             var before, after := Run(cfg, map[], ops[..|ops| - 1]), Run(cfg, map[], ops);
             key in after && !(key in before && after[key] == before[key])
    ensures EntryIssued(cfg, ops, Run(cfg, map[], ops), parentID, externalID)
  {
    var n := |ops| - 1;
    var key := Keys.WormholeAccessSubtoken(parentID, externalID);
    Keys.SubtokenKeyInjective(ops[n].ctx.payload.tokenID, ops[n].communityID, parentID, externalID);
    assert Issued(cfg, ops, n, parentID, externalID, Run(cfg, map[], ops)[key].entry.token);
  }

  lemma IssuedStep(cfg: Config, ops: seq<Op>, parentID: Text, externalID: Text)
    requires |ops| > 0 && EntryIssued(cfg, ops, Run(cfg, map[], ops[..|ops| - 1]), parentID, externalID)
    ensures EntryIssued(cfg, ops, Run(cfg, map[], ops), parentID, externalID)
  {
    var n := |ops| - 1;
    var key := Keys.WormholeAccessSubtoken(parentID, externalID);
    var before, after := Run(cfg, map[], ops[..n]), Run(cfg, map[], ops);
    var op := ops[n];
    if key !in OpKeys(cfg, op) {
      OtherKeysKept(cfg, before, op, key);
    } else if key in after && after[key].entry.SubtokenEntry? && !(key in before && after[key] == before[key]) {
      match op {
        case Wat(token, _) => Keys.KeySpacesDisjoint(cfg.sha, TokenID(token), "", parentID, externalID);
        case Oauth(auth, _) => Keys.KeySpacesDisjoint(cfg.sha, "", auth.token, parentID, externalID);
        case Invalidate(id, _, _) => Keys.KeySpacesDisjoint(cfg.sha, id, "", parentID, externalID);
        case RemoveSub(_, _, id, _, _, _) => Keys.KeySpacesDisjoint(cfg.sha, id, "", parentID, externalID);
        case Evict(_) =>
        case Sub(_, _, _) => IssuedBySub(cfg, ops, parentID, externalID);
      }
    }
  }

  /**
   * A subtoken that a flow serves from the cache was issued by the service to an earlier
   * request with the same parent and community, and is served strictly before that parent's
   * stored expiry.
   */
  lemma {:induction false} SubtokenServed(cfg: Config, ops: seq<Op>, ctx: TokenContext, communityID: Text, io: SubtokenIO)
    requires var out := SubtokenFlow(cfg, Run(cfg, map[], ops), ctx, communityID, io);
             out.result.Subtoken? && !out.requested && !IsSubtoken(ctx, communityID)
    ensures var token := SubtokenFlow(cfg, Run(cfg, map[], ops), ctx, communityID, io).result.token;
            exists i :: 0 <= i < |ops| && Issued(cfg, ops, i, ctx.payload.tokenID, communityID, token)
                        && io.now < cfg.wire(ops[i].ctx.payload.exp)
  {
    SubtokenEntriesIssued(cfg, ops, ctx.payload.tokenID, communityID);
  }

  /** The operation is no flow for the pair. */
  predicate OtherPair(op: Op, parentID: Text, externalID: Text) {
    op.Sub? ==> op.ctx.payload.tokenID != parentID || op.communityID != externalID
  }

  lemma {:induction false} RemovedStaysRemoved(cfg: Config, b: Bucket, ops: seq<Op>, parentID: Text, externalID: Text)
    requires Keys.WormholeAccessSubtoken(parentID, externalID) !in b
    requires forall k :: 0 <= k < |ops| ==> OtherPair(ops[k], parentID, externalID)
    ensures Keys.WormholeAccessSubtoken(parentID, externalID) !in Run(cfg, b, ops)
  {
    if ops != [] {
      var n := |ops| - 1;
      var key := Keys.WormholeAccessSubtoken(parentID, externalID);
      RemovedStaysRemoved(cfg, b, ops[..n], parentID, externalID);
      var op := ops[n];
      if key !in OpKeys(cfg, op) {
        OtherKeysKept(cfg, Run(cfg, b, ops[..n]), op, key);
      } else {
        match op {
          case Wat(token, _) => Keys.KeySpacesDisjoint(cfg.sha, TokenID(token), "", parentID, externalID);
          case Oauth(auth, _) => Keys.KeySpacesDisjoint(cfg.sha, "", auth.token, parentID, externalID);
          case Invalidate(id, _, _) => Keys.KeySpacesDisjoint(cfg.sha, id, "", parentID, externalID);
          case RemoveSub(_, _, id, _, _, _) => Keys.KeySpacesDisjoint(cfg.sha, id, "", parentID, externalID);
          case Evict(_) =>
          case Sub(ctx, e, _) => Keys.SubtokenKeyInjective(ctx.payload.tokenID, e, parentID, externalID);
        }
      }
    }
  }

  /** After a stored removal the next flow for the pair requests a new token, whatever whole operations ran in between. */
  lemma {:induction false} RemovalForcesRequest(cfg: Config, b: Bucket, parentID: Text, externalID: Text, tokenID: Text, at: int, put: bool,
                             ops: seq<Op>, ctx: TokenContext, io: SubtokenIO)
    requires forall k :: 0 <= k < |ops| ==> OtherPair(ops[k], parentID, externalID)
    requires ctx.payload.tokenID == parentID && externalID != "" && !IsSubtoken(ctx, externalID)
    ensures var removed := RemoveSubtoken(cfg, b, parentID, externalID, tokenID, at, put, true);
            SubtokenFlow(cfg, Run(cfg, removed, ops), ctx, externalID, io).requested
  {
    var removed := RemoveSubtoken(cfg, b, parentID, externalID, tokenID, at, put, true);
    RemovedStaysRemoved(cfg, removed, ops, parentID, externalID);
  }
}
