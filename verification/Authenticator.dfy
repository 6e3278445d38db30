/** The authenticator over a key/value store that it reads, deletes from and writes to in sequence. */
module Authenticators {
  import opened GoText
  import opened Wormhole
  import opened Cipher
  import opened TokenSpec
  import Keys

  class KVStore {
    var entries: Bucket

    constructor ()
      ensures entries == map[]
    {
      entries := map[];
    }

    method Fetch(key: Text, now: int, ttl: nat, ok: bool) returns (e: Option<Entry>)
      ensures e == Get(entries, key, now, ttl, ok)
    {
      if ok && key in entries && Live(entries[key], now, ttl) {
        return Some(entries[key].entry);
      }
      return None;
    }

    method Remove(key: Text, ok: bool)
      modifies this
      ensures entries == Delete(old(entries), key, ok)
    {
      if ok {
        entries := entries - {key};
      }
    }

    method Store(key: Text, entry: Entry, now: int, ok: bool)
      modifies this
      ensures entries == Put(old(entries), key, entry, now, ok)
    {
      if ok {
        entries := entries[key := Stored(entry, now)];
      }
    }
  }

  class Authenticator {
    const cfg: Config
    const kv: KVStore

    constructor (cfg: Config, kv: KVStore)
      ensures this.cfg == cfg && this.kv == kv
    {
      this.cfg, this.kv := cfg, kv;
    }

    /** A value that does not decrypt costs the key its entry. */
    method Open(key: Text, token: Text, deleteOk: bool) returns (plain: Text)
      modifies kv
      ensures plain == MustDecrypt(cfg.cipher, token)
      ensures kv.entries == if DecryptFails(cfg.cipher, token) then Delete(old(kv.entries), key, deleteOk) else old(kv.entries)
    {
      if token == "" {
        return "";
      }
      var plainText := cfg.cipher.Decrypt(token);
      if plainText.None? {
        kv.Remove(key, deleteOk);
        return "";
      }
      return plainText.value;
    }

    method GetCache(key: Text, reqToken: Text, io: LookupIO) returns (r: Lookup)
      modifies kv
      ensures r == LookupResult(cfg, old(kv.entries), key, reqToken, io)
      ensures kv.entries == AfterLookup(cfg, old(kv.entries), key, io)
    {
      var _ := Open(key, DUMMY_CIPHERTEXT, io.dummyDelete);
      var got := kv.Fetch(key, io.now, cfg.ttl, io.get);
      if got.None? || !got.value.TokenEntry? {
        return Miss;
      }
      var cs := got.value;
      var jump := Open(key, cs.jump, io.jumpDelete);
      var token := Open(key, cs.wat, io.tokenDelete);
      var invalid := false;
      if cs.disallowed {
        invalid := true;
      } else if Expired(cs.payload, io.now) {
        kv.Remove(key, io.expiredDelete);
        invalid := true;
      }
      if reqToken != "" {
        invalid := token != reqToken;
      }
      if invalid {
        return Reject;
      }
      return Hit(cs.payload, jump);
    }

    method StoreCache(key: Text, payload: TokenPayload, token: Text, jwt: Text, io: FlowIO)
      modifies kv
      ensures kv.entries == Put(old(kv.entries), key, ExchangedEntry(cfg, payload, token, jwt, io), io.storeAt, io.put)
    {
      var e := TokenEntry(false, Wired(cfg, payload), MustEncrypt(cfg.cipher, token, io.tokenRandom),
                          MustEncrypt(cfg.cipher, jwt, io.jumpRandom));
      kv.Store(key, e, io.storeAt, io.put);
    }

    method StoreInvalidCache(key: Text, io: FlowIO)
      modifies kv
      ensures kv.entries == Put(old(kv.entries), key, DisallowedEntry(cfg), io.storeAt, io.put)
    {
      kv.Store(key, DisallowedEntry(cfg), io.storeAt, io.put);
    }

    /** A refusal by the token service is remembered against the proposed id. */
    method ExchangeToken(key: Text, io: FlowIO) returns (jwt: Option<Text>)
      modifies kv
      ensures jwt == if io.exchange.Granted? then Some(io.exchange.jwt) else None
      ensures kv.entries == if io.exchange.Refused? then Put(old(kv.entries), key, DisallowedEntry(cfg), io.storeAt, io.put)
                            else old(kv.entries)
    {
      match io.exchange {
        case Granted(j) => return Some(j);
        case Refused => StoreInvalidCache(key, io);
        case Failed =>
      }
      return None;
    }

    method WormholeAccessTokenFlow(token: Text, io: FlowIO) returns (r: FlowResult)
      modifies kv
      ensures r == WatFlow(cfg, old(kv.entries), token, io).result
      ensures kv.entries == WatFlow(cfg, old(kv.entries), token, io).bucket
    {
      var key := Keys.WormholeAccessToken(TokenID(token));
      var cached := GetCache(key, token, io.lookup);
      if cached.Reject? {
        return AuthFailed;
      } else if cached.Hit? {
        return Authenticated(cached.payload, cached.jump);
      }
      var jwt := ExchangeToken(key, io);
      if jwt.None? {
        return AuthFailed;
      }
      var payload := DecodeTrustedJWT(cfg, jwt.value);
      if payload.None? {
        StoreInvalidCache(key, io);
        return InternalFailed;
      }
      StoreCache(key, payload.value, token, jwt.value, io);
      return Authenticated(payload.value, jwt.value);
    }

    method OauthSessionFlow(auth: ProxyAuth, io: FlowIO) returns (r: FlowResult)
      modifies kv
      ensures r == OauthFlow(cfg, old(kv.entries), auth, io).result
      ensures kv.entries == OauthFlow(cfg, old(kv.entries), auth, io).bucket
    {
      if !cfg.oauthEnabled {
        return AuthFailed;
      }
      if auth.ProxyRefused? {
        return LoginRequired;
      }
      if auth.NoAccessToken? || auth.token == "" {
        return InternalFailed;
      }
      var key := Keys.WormholeOauthSession(cfg.sha, auth.token);
      var cached := GetCache(key, auth.token, io.lookup);
      if cached.Reject? {
        return LoginRequired;
      } else if cached.Hit? {
        return Authenticated(cached.payload, cached.jump);
      }
      if !io.exchange.Granted? {
        return AuthFailed;
      }
      var payload := DecodeTrustedJWT(cfg, io.exchange.jwt);
      if payload.None? {
        return InternalFailed;
      }
      StoreCache(key, payload.value, auth.token, io.exchange.jwt, io);
      return Authenticated(payload.value, io.exchange.jwt);
    }

    method SubtokenFlowFor(ctx: TokenContext, communityID: Text, io: SubtokenIO) returns (r: SubtokenResult)
      modifies kv
      ensures r == SubtokenFlow(cfg, old(kv.entries), ctx, communityID, io).result
      ensures kv.entries == SubtokenFlow(cfg, old(kv.entries), ctx, communityID, io).bucket
    {
      if communityID == "" {
        return NoSubtoken;
      }
      if ctx.payload.externalID == communityID && ctx.payload.parentID != "" {
        return Subtoken(ctx.wat);
      }
      var key := Keys.WormholeAccessSubtoken(ctx.payload.tokenID, communityID);
      var got := kv.Fetch(key, io.now, cfg.ttl, io.get);
      if got.Some? && got.value.SubtokenEntry? && got.value.token != "" {
        if io.now < got.value.exp {
          return Subtoken(got.value.token);
        }
        kv.Remove(key, io.delete);
      }
      var issued := io.issue(BuildSubtokenReq(ctx, communityID));
      if issued.None? {
        return SubtokenFailed;
      }
      kv.Store(key, SubtokenEntry(ctx.payload.tokenID, issued.value, ctx.payload.parentID, communityID, cfg.wire(ctx.payload.exp)),
               io.storeAt, io.put);
      return Subtoken(issued.value);
    }

    method Invalidate(tokenID: Text, now: int, put: bool)
      modifies kv
      ensures kv.entries == InvalidateToken(cfg, old(kv.entries), tokenID, now, put)
    {
      kv.Store(Keys.WormholeAccessToken(tokenID), DisallowedEntry(cfg), now, put);
    }

    method RemoveSub(parentID: Text, externalID: Text, tokenID: Text, now: int, put: bool, delete: bool)
      modifies kv
      ensures kv.entries == RemoveSubtoken(cfg, old(kv.entries), parentID, externalID, tokenID, now, put, delete)
    {
      Invalidate(tokenID, now, put);
      kv.Remove(Keys.WormholeAccessSubtoken(parentID, externalID), delete);
    }
  }
}
