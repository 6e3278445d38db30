/** The token bucket and the flows over it, as functions of what the outside world answers. */
module TokenSpec {
  import opened GoText
  import opened Wormhole
  import opened Cipher
  import Base64Url
  import Keys

  // The bucket

  datatype Entry =
    | TokenEntry(disallowed: bool, payload: TokenPayload, wat: Text, jump: Text)
    | SubtokenEntry(id: Text, token: Text, parentID: Text, externalID: Text, exp: int)

  datatype Stored = Stored(entry: Entry, at: int)

  type Bucket = map<Text, Stored>

  /** An entry past the bucket's time to live is gone; no time to live means it stays. */
  predicate Live(s: Stored, now: int, ttl: nat) {
    ttl == 0 || now < s.at + ttl
  }

  function Put(b: Bucket, key: Text, entry: Entry, now: int, ok: bool): Bucket {
    if ok then b[key := Stored(entry, now)] else b
  }

  function Delete(b: Bucket, key: Text, ok: bool): Bucket {
    if ok then b - {key} else b
  }

  /** A failing read is indistinguishable from a missing key. */
  function Get(b: Bucket, key: Text, now: int, ttl: nat, ok: bool): Option<Entry> {
    if ok && key in b && Live(b[key], now, ttl) then Some(b[key].entry) else None
  }

  // The service and its surroundings

  /** parsePayload reads the JSON of a payload; wire is what storing an expiry as JSON makes of it. */
  datatype Config = Config(
    cipher: Cipherer,
    sha: Text -> Text,
    parsePayload: Text -> Option<TokenPayload>,
    wire: int -> int,
    ttl: nat,
    oauthEnabled: bool)

  /** The clock and the fate of each store operation during one lookup. */
  datatype LookupIO = LookupIO(now: int, dummyDelete: bool, get: bool, jumpDelete: bool, tokenDelete: bool, expiredDelete: bool)

  datatype Exchange = Granted(jwt: Text) | Refused | Failed

  datatype FlowIO = FlowIO(lookup: LookupIO, exchange: Exchange, storeAt: int,
                           jumpRandom: Option<Text>, tokenRandom: Option<Text>, put: bool)

  // Lookup

  datatype Lookup = Miss | Reject | Hit(payload: TokenPayload, jump: Text)

  const EXP_SKEW: int := 10 * SECOND

  predicate Expired(payload: TokenPayload, now: int) {
    now > payload.exp - EXP_SKEW
  }

  predicate DecryptFails(c: Cipherer, token: Text) {
    token != "" && c.Decrypt(token).None?
  }

  function MustDecrypt(c: Cipherer, token: Text): Text {
    if token == "" || c.Decrypt(token).None? then "" else c.Decrypt(token).value
  }

  function MustEncrypt(c: Cipherer, plain: Text, random: Option<Text>): Text {
    if plain == "" || c.Encrypt(plain, random).None? then "" else c.Encrypt(plain, random).value
  }

  /** What was sealed opens to itself; what could not be sealed is empty. */
  lemma EncryptedOpens(c: Cipherer, plain: Text, random: Option<Text>)
    requires c.Opens() && c.Entropy(random)
    ensures MustDecrypt(c, MustEncrypt(c, plain, random)) == if MustEncrypt(c, plain, random) == "" then "" else plain
  {
    if c.Encrypt(plain, random).Some? {
      c.DecryptEncrypt(plain, random);
    }
  }

  function GetToken(cfg: Config, b: Bucket, key: Text, io: LookupIO): (e: Option<Entry>)
    ensures e.Some? ==> e.value.TokenEntry? && key in b && b[key].entry == e.value && Live(b[key], io.now, cfg.ttl)
  {
    match Get(b, key, io.now, cfg.ttl, io.get)
    case Some(TokenEntry(d, p, w, j)) => Some(TokenEntry(d, p, w, j))
    case _ => None
  }

  /** The bucket once the dummy has been decrypted. */
  function AfterDummy(cfg: Config, b: Bucket, key: Text, io: LookupIO): Bucket {
    if DecryptFails(cfg.cipher, DUMMY_CIPHERTEXT) then Delete(b, key, io.dummyDelete) else b
  }

  /**
   * The verdict on an entry. With a request token the comparison alone decides: the flag and
   * the expiry are forgotten.
   */
  function Judge(cfg: Config, e: Entry, reqToken: Text, now: int): Lookup
    requires e.TokenEntry?
  {
    var invalid := e.disallowed || Expired(e.payload, now);
    var verdict := if reqToken != "" then MustDecrypt(cfg.cipher, e.wat) != reqToken else invalid;
    if verdict then Reject else Hit(e.payload, MustDecrypt(cfg.cipher, e.jump))
  }

  function LookupResult(cfg: Config, b: Bucket, key: Text, reqToken: Text, io: LookupIO): Lookup {
    match GetToken(cfg, AfterDummy(cfg, b, key, io), key, io)
    case None => Miss
    case Some(e) => Judge(cfg, e, reqToken, io.now)
  }

  function AfterLookup(cfg: Config, b: Bucket, key: Text, io: LookupIO): Bucket {
    var b1 := AfterDummy(cfg, b, key, io);
    match GetToken(cfg, b1, key, io)
    case None => b1
    case Some(e) =>
      var b2 := if DecryptFails(cfg.cipher, e.jump) then Delete(b1, key, io.jumpDelete) else b1;
      var b3 := if DecryptFails(cfg.cipher, e.wat) then Delete(b2, key, io.tokenDelete) else b2;
      if !e.disallowed && Expired(e.payload, io.now) then Delete(b3, key, io.expiredDelete) else b3
  }

  // Flows

  /** The payload inside a JSON web token from the trusted service. */
  function DecodeTrustedJWT(cfg: Config, jwt: Text): Option<TokenPayload> {
    var parts := Split(jwt, '.');
    if |parts| != 3 then None
    else
      match Base64Url.Decode(parts[1])
      case None => None
      case Some(json) => cfg.parsePayload(json)
  }

  function Wired(cfg: Config, payload: TokenPayload): TokenPayload {
    payload.(exp := cfg.wire(payload.exp))
  }

  function ExchangedEntry(cfg: Config, payload: TokenPayload, token: Text, jwt: Text, io: FlowIO): Entry {
    TokenEntry(false, Wired(cfg, payload), MustEncrypt(cfg.cipher, token, io.tokenRandom), MustEncrypt(cfg.cipher, jwt, io.jumpRandom))
  }

  function DisallowedEntry(cfg: Config): Entry {
    TokenEntry(true, Wired(cfg, NO_PAYLOAD), "", "")
  }

  datatype FlowResult = Authenticated(payload: TokenPayload, jump: Text) | AuthFailed | InternalFailed | LoginRequired

  /** Where a flow leaves the bucket, its answer, and whether it asked the token service. */
  datatype FlowOutcome = FlowOutcome(bucket: Bucket, result: FlowResult, exchanged: bool)

  function TokenID(token: Text): Text {
    Split(token, '.')[0]
  }

  function WatFlow(cfg: Config, b: Bucket, token: Text, io: FlowIO): FlowOutcome {
    var key := Keys.WormholeAccessToken(TokenID(token));
    var after := AfterLookup(cfg, b, key, io.lookup);
    match LookupResult(cfg, b, key, token, io.lookup)
    case Reject => FlowOutcome(after, AuthFailed, false)
    case Hit(payload, jump) => FlowOutcome(after, Authenticated(payload, jump), false)
    case Miss =>
      match io.exchange
      case Refused => FlowOutcome(Put(after, key, DisallowedEntry(cfg), io.storeAt, io.put), AuthFailed, true)
      case Failed => FlowOutcome(after, AuthFailed, true)
      case Granted(jwt) =>
        match DecodeTrustedJWT(cfg, jwt)
        case None => FlowOutcome(Put(after, key, DisallowedEntry(cfg), io.storeAt, io.put), InternalFailed, true)
        case Some(payload) =>
          FlowOutcome(Put(after, key, ExchangedEntry(cfg, payload, token, jwt, io), io.storeAt, io.put), Authenticated(payload, jwt), true)
  }

  /** What the login proxy makes of the request's cookies. */
  datatype ProxyAuth = ProxyRefused | NoAccessToken | Access(token: Text)

  function OauthFlow(cfg: Config, b: Bucket, auth: ProxyAuth, io: FlowIO): FlowOutcome {
    if !cfg.oauthEnabled then FlowOutcome(b, AuthFailed, false)
    else
      match auth
      case ProxyRefused => FlowOutcome(b, LoginRequired, false)
      case NoAccessToken => FlowOutcome(b, InternalFailed, false)
      case Access(token) =>
        if token == "" then FlowOutcome(b, InternalFailed, false)
        else SessionFlow(cfg, b, token, io)
  }

  function SessionFlow(cfg: Config, b: Bucket, token: Text, io: FlowIO): FlowOutcome {
    var key := Keys.WormholeOauthSession(cfg.sha, token);
    var after := AfterLookup(cfg, b, key, io.lookup);
    match LookupResult(cfg, b, key, token, io.lookup)
    case Reject => FlowOutcome(after, LoginRequired, false)
    case Hit(payload, jump) => FlowOutcome(after, Authenticated(payload, jump), false)
    case Miss =>
      match io.exchange
      case Refused => FlowOutcome(after, AuthFailed, true)
      case Failed => FlowOutcome(after, AuthFailed, true)
      case Granted(jwt) =>
        match DecodeTrustedJWT(cfg, jwt)
        case None => FlowOutcome(after, InternalFailed, true)
        case Some(payload) =>
          FlowOutcome(Put(after, key, ExchangedEntry(cfg, payload, token, jwt, io), io.storeAt, io.put), Authenticated(payload, jwt), true)
  }

  // Subtokens

  /** What the service is asked for on behalf of a user: a token under a parent, for a community. */
  datatype SubtokenRequest = SubtokenRequest(user: Text, name: Text, externalID: Text, parentID: Text)

  function BuildSubtokenReq(ctx: TokenContext, communityID: Text): SubtokenRequest {
    SubtokenRequest(ctx.payload.username, "subtoken", communityID, ctx.payload.tokenID)
  }

  /** The service answers a request with a token, or not at all. */
  datatype SubtokenIO = SubtokenIO(now: int, get: bool, delete: bool, issue: SubtokenRequest -> Option<Text>, storeAt: int, put: bool)

  /** The token for the upstream service, none when there is no community, or the failed request. */
  datatype SubtokenResult = NoSubtoken | Subtoken(token: Text) | SubtokenFailed

  datatype SubtokenOutcome = SubtokenOutcome(bucket: Bucket, result: SubtokenResult, requested: bool)

  /** The request itself carries a subtoken of the community. */
  predicate IsSubtoken(ctx: TokenContext, communityID: Text) {
    ctx.payload.externalID == communityID && ctx.payload.parentID != ""
  }

  function CachedSubtoken(cfg: Config, b: Bucket, key: Text, io: SubtokenIO): (e: Option<Entry>)
    ensures e.Some? ==> e.value.SubtokenEntry? && e.value.token != "" && key in b && b[key].entry == e.value
  {
    match Get(b, key, io.now, cfg.ttl, io.get)
    case Some(SubtokenEntry(id, token, p, x, exp)) =>
      if token != "" then Some(SubtokenEntry(id, token, p, x, exp)) else None
    case _ => None
  }

  function SubtokenFlow(cfg: Config, b: Bucket, ctx: TokenContext, communityID: Text, io: SubtokenIO): SubtokenOutcome {
    if communityID == "" then SubtokenOutcome(b, NoSubtoken, false)
    else if IsSubtoken(ctx, communityID) then SubtokenOutcome(b, Subtoken(ctx.wat), false)
    else
      var key := Keys.WormholeAccessSubtoken(ctx.payload.tokenID, communityID);
      match CachedSubtoken(cfg, b, key, io)
      case Some(e) =>
        if io.now < e.exp then SubtokenOutcome(b, Subtoken(e.token), false)
        else GenerateSubtoken(cfg, Delete(b, key, io.delete), ctx, communityID, io)
      case None => GenerateSubtoken(cfg, b, ctx, communityID, io)
  }

  function GenerateSubtoken(cfg: Config, b: Bucket, ctx: TokenContext, communityID: Text, io: SubtokenIO): SubtokenOutcome {
    match io.issue(BuildSubtokenReq(ctx, communityID))
    case None => SubtokenOutcome(b, SubtokenFailed, true)
    case Some(token) =>
      var key := Keys.WormholeAccessSubtoken(ctx.payload.tokenID, communityID);
      var e := SubtokenEntry(ctx.payload.tokenID, token, ctx.payload.parentID, communityID, cfg.wire(ctx.payload.exp));
      SubtokenOutcome(Put(b, key, e, io.storeAt, io.put), Subtoken(token), true)
  }

  function InvalidateToken(cfg: Config, b: Bucket, tokenID: Text, now: int, put: bool): Bucket {
    Put(b, Keys.WormholeAccessToken(tokenID), DisallowedEntry(cfg), now, put)
  }

  function RemoveSubtoken(cfg: Config, b: Bucket, parentID: Text, externalID: Text, tokenID: Text, now: int,
                          put: bool, delete: bool): Bucket
  {
    Delete(InvalidateToken(cfg, b, tokenID, now, put), Keys.WormholeAccessSubtoken(parentID, externalID), delete)
  }
}
