/** Flows taken apart into their reads, requests and writes, interleaved in every possible way. */
module TokenInterleavings {
  import opened GoText
  import opened Wormhole
  import opened Cipher
  import opened TokenSpec
  import FloatTime
  import Keys

  datatype Kind = AccessToken | Session

  function KeyFor(cfg: Config, kind: Kind, token: Text): Text {
    match kind
    case AccessToken => Keys.WormholeAccessToken(TokenID(token))
    case Session => Keys.WormholeOauthSession(cfg.sha, token)
  }

  /** Where a flow in flight has got to: before its read, before its request, before its write. */
  datatype Phase =
    | Looking(kind: Kind, token: Text)
    | Asking(kind: Kind, token: Text)
    | Keeping(kind: Kind, token: Text, jwt: Text, payload: TokenPayload)
    | Refusing(token: Text)
    | SubLooking(ctx: TokenContext, communityID: Text)
    | SubAsking(ctx: TokenContext, communityID: Text)
    | SubKeeping(ctx: TokenContext, communityID: Text, subtoken: Text)

  /** What happened, for the record: sealed says whether the jump token was encrypted. */
  datatype Event =
    | Exchanged(flow: nat, kind: Kind, token: Text, jwt: Text, at: int)
    | Kept(flow: nat, key: Text, at: int, sealed: bool)
    | Served(flow: nat, kind: Kind, token: Text, payload: TokenPayload, jump: Text, at: int)
    | SubIssued(flow: nat, request: SubtokenRequest, subtoken: Text, parentExp: int)
    | SubServed(flow: nat, parentID: Text, externalID: Text, subtoken: Text, exp: int, at: int)

  datatype State = State(now: int, bucket: Bucket, flows: map<nat, Phase>, next: nat, log: seq<Event>)

  datatype Step =
    | Tick(later: int)
    | Vanish(key: Text)
    | Begin(kind: Kind, token: Text)
    | Look(flow: nat, get: bool)
    | Ask(flow: nat, exchange: Exchange)
    | Keep(flow: nat, tokenRandom: Option<Text>, jumpRandom: Option<Text>, put: bool)
    | Disallow(tokenID: Text, put: bool)
    | BeginSub(ctx: TokenContext, communityID: Text)
    | SubAsk(flow: nat, issued: Option<Text>)

  function Init(now: int): State {
    State(now, map[], map[], 0, [])
  }

  function Start(s: State, phase: Phase): State {
    s.(flows := s.flows[s.next := phase], next := s.next + 1)
  }

  function Record(s: State, e: Event): State {
    s.(log := s.log + [e])
  }

  function Finish(s: State, flow: nat): State {
    s.(flows := s.flows - {flow})
  }

  function LookStep(cfg: Config, s: State, flow: nat, kind: Kind, token: Text, get: bool): State {
    match Get(s.bucket, KeyFor(cfg, kind, token), s.now, cfg.ttl, get)
    case Some(TokenEntry(d, p, w, j)) =>
      (match Judge(cfg, TokenEntry(d, p, w, j), token, s.now)
       case Hit(payload, jump) => Finish(Record(s, Served(flow, kind, token, payload, jump, s.now)), flow)
       case _ => Finish(s, flow))
    case _ => s.(flows := s.flows[flow := Asking(kind, token)])
  }

  function AskStep(cfg: Config, s: State, flow: nat, kind: Kind, token: Text, exchange: Exchange): State {
    match exchange
    case Failed => Finish(s, flow)
    case Refused => if kind.AccessToken? then s.(flows := s.flows[flow := Refusing(token)]) else Finish(s, flow)
    case Granted(jwt) =>
      match DecodeTrustedJWT(cfg, jwt)
      case None => if kind.AccessToken? then s.(flows := s.flows[flow := Refusing(token)]) else Finish(s, flow)
      case Some(payload) =>
        Record(s.(flows := s.flows[flow := Keeping(kind, token, jwt, payload)]), Exchanged(flow, kind, token, jwt, s.now))
  }

  function KeepStep(cfg: Config, s: State, flow: nat, phase: Phase, tokenRandom: Option<Text>, jumpRandom: Option<Text>, put: bool): State
    requires phase.Keeping?
  {
    if !put then Finish(s, flow)
    else
      var key := KeyFor(cfg, phase.kind, phase.token);
      var jump := MustEncrypt(cfg.cipher, phase.jwt, jumpRandom);
      var e := TokenEntry(false, Wired(cfg, phase.payload), MustEncrypt(cfg.cipher, phase.token, tokenRandom), jump);
      Finish(Record(s.(bucket := Put(s.bucket, key, e, s.now, true)), Kept(flow, key, s.now, jump != "")), flow)
  }

  function SubLookStep(cfg: Config, s: State, flow: nat, ctx: TokenContext, communityID: Text, get: bool): State {
    match Get(s.bucket, Keys.WormholeAccessSubtoken(ctx.payload.tokenID, communityID), s.now, cfg.ttl, get)
    case Some(SubtokenEntry(id, token, p, x, exp)) =>
      if token != "" && s.now < exp then
        Finish(Record(s, SubServed(flow, ctx.payload.tokenID, communityID, token, exp, s.now)), flow)
      else s.(flows := s.flows[flow := SubAsking(ctx, communityID)])
    case _ => s.(flows := s.flows[flow := SubAsking(ctx, communityID)])
  }

  function SubKeepStep(cfg: Config, s: State, flow: nat, phase: Phase, put: bool): State
    requires phase.SubKeeping?
  {
    var key := Keys.WormholeAccessSubtoken(phase.ctx.payload.tokenID, phase.communityID);
    var e := SubtokenEntry(phase.ctx.payload.tokenID, phase.subtoken, phase.ctx.payload.parentID, phase.communityID,
                           cfg.wire(phase.ctx.payload.exp));
    Finish(s.(bucket := Put(s.bucket, key, e, s.now, put)), flow)
  }

  /**
   * One step of any flow, of an invalidation, or of the surroundings; a step that is not
   * enabled changes nothing. Vanish covers every deletion: by a flow's own clean-up, by the
   * time to live, or by losing the bucket.
   */
  function Next(cfg: Config, s: State, step: Step): State {
    match step
    case Tick(later) => if later > s.now then s.(now := later) else s
    case Vanish(key) => s.(bucket := s.bucket - {key})
    case Begin(kind, token) => if token != "" then Start(s, Looking(kind, token)) else s
    case Look(flow, get) =>
      if flow !in s.flows then s
      else (
        match s.flows[flow]
        case Looking(kind, token) => LookStep(cfg, s, flow, kind, token, get)
        case SubLooking(ctx, communityID) => SubLookStep(cfg, s, flow, ctx, communityID, get)
        case _ => s)
    case Ask(flow, exchange) =>
      if flow in s.flows && s.flows[flow].Asking? then AskStep(cfg, s, flow, s.flows[flow].kind, s.flows[flow].token, exchange) else s
    case Keep(flow, tokenRandom, jumpRandom, put) =>
      if flow !in s.flows || !cfg.cipher.Entropy(tokenRandom) || !cfg.cipher.Entropy(jumpRandom) then s
      else (
        match s.flows[flow]
        case Keeping(_, _, _, _) => KeepStep(cfg, s, flow, s.flows[flow], tokenRandom, jumpRandom, put)
        case Refusing(token) =>
          Finish(s.(bucket := Put(s.bucket, Keys.WormholeAccessToken(TokenID(token)), DisallowedEntry(cfg), s.now, put)), flow)
        case SubKeeping(_, _, _) => SubKeepStep(cfg, s, flow, s.flows[flow], put)
        case _ => s)
    case Disallow(id, put) => s.(bucket := InvalidateToken(cfg, s.bucket, id, s.now, put))
    case BeginSub(ctx, communityID) =>
      if communityID != "" && !IsSubtoken(ctx, communityID) then Start(s, SubLooking(ctx, communityID)) else s
    case SubAsk(flow, issued) =>
      if flow !in s.flows || !s.flows[flow].SubAsking? then s
      else
        var SubAsking(ctx, communityID) := s.flows[flow];
        match issued
        case None => Finish(s, flow)
        case Some(token) =>
          Record(s.(flows := s.flows[flow := SubKeeping(ctx, communityID, token)]),
                 SubIssued(flow, BuildSubtokenReq(ctx, communityID), token, ctx.payload.exp))
  }

  /** Every interleaving is a sequence of steps. */
  function Run(cfg: Config, s: State, steps: seq<Step>): State {
    if steps == [] then s
    else Next(cfg, Run(cfg, s, steps[..|steps| - 1]), steps[|steps| - 1])
  }

  // Where entries come from

  /** Flow steps i and j of the log: an exchange, and the store of its outcome under the key. */
  predicate KeptExchange(cfg: Config, log: seq<Event>, i: nat, j: nat, key: Text, at: int) {
    && i < j < |log| && log[i].Exchanged? && log[j].Kept?
    && log[j].flow == log[i].flow && log[j].key == key && log[j].at == at
    && key == KeyFor(cfg, log[i].kind, log[i].token) && log[i].at <= at
  }

  /** What the cache gives out for the exchange: its decoded payload, and its token if that was sealed. */
  predicate GivesOut(cfg: Config, log: seq<Event>, i: nat, j: nat, payload: TokenPayload, jump: Text)
    requires i < |log| && log[i].Exchanged? && j < |log| && log[j].Kept?
  {
    && DecodeTrustedJWT(cfg, log[i].jwt).Some?
    && payload == Wired(cfg, DecodeTrustedJWT(cfg, log[i].jwt).value)
    && jump == if log[j].sealed then log[i].jwt else ""
  }

  /** An entry with a token was stored by a flow that had exchanged that token. */
  ghost predicate Backed(cfg: Config, log: seq<Event>, key: Text, stored: Stored) {
    match stored.entry
    case TokenEntry(disallowed, payload, wat, jump) =>
      && (disallowed ==> wat == "")
      && (wat != "" ==>
            exists i: nat, j: nat ::
              && KeptExchange(cfg, log, i, j, key, stored.at)
              && log[i].token == MustDecrypt(cfg.cipher, wat)
              && GivesOut(cfg, log, i, j, payload, MustDecrypt(cfg.cipher, jump)))
    case SubtokenEntry(id, token, _, externalID, exp) =>
      && key == Keys.WormholeAccessSubtoken(id, externalID)
      && exists i :: 0 <= i < |log| && IssuedAt(cfg, log, i, id, externalID, token, exp)
  }

  /** The service issued the token for the pair, to a parent with the expiry. */
  predicate IssuedAt(cfg: Config, log: seq<Event>, i: nat, parentID: Text, externalID: Text, token: Text, exp: int)
    requires i < |log|
  {
    && log[i].SubIssued? && log[i].request.parentID == parentID && log[i].request.externalID == externalID
    && log[i].request.name == "subtoken"
    && log[i].subtoken == token && cfg.wire(log[i].parentExp) == exp
  }

  ghost predicate PhaseBacked(cfg: Config, log: seq<Event>, now: int, flow: nat, phase: Phase) {
    match phase
    case Looking(_, token) => token != ""
    case Asking(_, token) => token != ""
    case Keeping(kind, token, jwt, payload) =>
      && token != "" && DecodeTrustedJWT(cfg, jwt) == Some(payload)
      && exists i :: 0 <= i < |log| && ExchangedAt(log, i, flow, kind, token, jwt, now)
    case SubKeeping(ctx, communityID, token) =>
      exists i :: 0 <= i < |log| && IssuedAt(cfg, log, i, ctx.payload.tokenID, communityID, token, cfg.wire(ctx.payload.exp))
    case _ => true
  }

  predicate ExchangedAt(log: seq<Event>, i: nat, flow: nat, kind: Kind, token: Text, jwt: Text, now: int)
    requires i < |log|
  {
    log[i].Exchanged? && log[i].flow == flow && log[i].kind == kind && log[i].token == token && log[i].jwt == jwt && log[i].at <= now
  }

  /**
   * A hit at position k gives out what an earlier exchange of exactly its token produced, stored
   * by the flow that exchanged it, no longer ago than the time to live.
   */
  ghost predicate Justified(cfg: Config, log: seq<Event>, k: nat)
    requires k < |log|
  {
    match log[k]
    case Served(_, kind, token, payload, jump, at) =>
      exists i: nat, j: nat, stored: int ::
        && KeptExchange(cfg, log, i, j, KeyFor(cfg, kind, token), stored) && j < k
        && log[i].token == token && log[i].kind == kind
        && GivesOut(cfg, log, i, j, payload, jump)
        && stored <= at && (cfg.ttl == 0 || at < stored + cfg.ttl)
    case SubServed(_, parentID, externalID, token, exp, at) =>
      && at < exp
      && exists i :: 0 <= i < k && IssuedAt(cfg, log, i, parentID, externalID, token, exp)
    case _ => true
  }

  ghost predicate Sound(cfg: Config, log: seq<Event>) {
    forall k :: 0 <= k < |log| ==> Justified(cfg, log, k)
  }

  ghost predicate Invariant(cfg: Config, s: State) {
    && (forall key :: key in s.bucket ==> Backed(cfg, s.log, key, s.bucket[key]) && s.bucket[key].at <= s.now)
    && (forall f :: f in s.flows ==> f < s.next && PhaseBacked(cfg, s.log, s.now, f, s.flows[f]))
    && Sound(cfg, s.log)
  }

  lemma BackedLonger(cfg: Config, log: seq<Event>, e: Event, key: Text, stored: Stored)
    requires Backed(cfg, log, key, stored)
    ensures Backed(cfg, log + [e], key, stored)
  {
    match stored.entry
    case TokenEntry(_, payload, wat, jump) =>
      if wat != "" {
        var i: nat, j: nat :| KeptExchange(cfg, log, i, j, key, stored.at) && log[i].token == MustDecrypt(cfg.cipher, wat)
                    && GivesOut(cfg, log, i, j, payload, MustDecrypt(cfg.cipher, jump));
        assert KeptExchange(cfg, log + [e], i, j, key, stored.at);
        assert GivesOut(cfg, log + [e], i, j, payload, MustDecrypt(cfg.cipher, jump));
      }
    case SubtokenEntry(id, token, _, x, exp) =>
      var i :| 0 <= i < |log| && IssuedAt(cfg, log, i, id, x, token, exp);
      assert IssuedAt(cfg, log + [e], i, id, x, token, exp);
  }

  lemma PhaseLonger(cfg: Config, log: seq<Event>, e: Event, now: int, flow: nat, phase: Phase)
    requires PhaseBacked(cfg, log, now, flow, phase)
    ensures PhaseBacked(cfg, log + [e], now, flow, phase)
  {
    match phase
    case Keeping(kind, token, jwt, _) =>
      var i :| 0 <= i < |log| && ExchangedAt(log, i, flow, kind, token, jwt, now);
      assert ExchangedAt(log + [e], i, flow, kind, token, jwt, now);
    case SubKeeping(ctx, x, token) =>
      var exp := cfg.wire(ctx.payload.exp);
      var i :| 0 <= i < |log| && IssuedAt(cfg, log, i, ctx.payload.tokenID, x, token, exp);
      assert IssuedAt(cfg, log + [e], i, ctx.payload.tokenID, x, token, exp);
    case _ =>
  }

  lemma JustifiedLonger(cfg: Config, log: seq<Event>, e: Event, k: nat)
    requires k < |log| && Justified(cfg, log, k)
    ensures Justified(cfg, log + [e], k)
  {
    var log' := log + [e];
    match log[k]
    case Served(_, kind, token, payload, jump, at) =>
      var i: nat, j: nat, stored: int :|
        && KeptExchange(cfg, log, i, j, KeyFor(cfg, kind, token), stored) && j < k
        && log[i].token == token && log[i].kind == kind
        && GivesOut(cfg, log, i, j, payload, jump)
        && stored <= at && (cfg.ttl == 0 || at < stored + cfg.ttl);
      assert KeptExchange(cfg, log', i, j, KeyFor(cfg, kind, token), stored);
      assert GivesOut(cfg, log', i, j, payload, jump);
    case SubServed(_, p, x, token, exp, _) =>
      var i :| 0 <= i < k && IssuedAt(cfg, log, i, p, x, token, exp);
      assert IssuedAt(cfg, log', i, p, x, token, exp);
    case _ =>
  }

  /** Recording an event that is itself justified keeps everything. */
  lemma RecordKeeps(cfg: Config, s: State, e: Event)
    requires Invariant(cfg, s)
    requires Justified(cfg, s.log + [e], |s.log|)
    ensures Invariant(cfg, Record(s, e))
  {
    var log := s.log;
    forall key | key in s.bucket
      ensures Backed(cfg, log + [e], key, s.bucket[key])
    {
      BackedLonger(cfg, log, e, key, s.bucket[key]);
    }
    forall f | f in s.flows
      ensures PhaseBacked(cfg, log + [e], s.now, f, s.flows[f])
    {
      PhaseLonger(cfg, log, e, s.now, f, s.flows[f]);
    }
    forall k | 0 <= k < |log|
      ensures Justified(cfg, log + [e], k)
    {
      JustifiedLonger(cfg, log, e, k);
    }
  }

  lemma KindOfKey(cfg: Config, k1: Kind, t1: Text, k2: Kind, t2: Text)
    requires KeyFor(cfg, k1, t1) == KeyFor(cfg, k2, t2)
    ensures k1 == k2
  {
    Keys.KeySpacesDisjoint(cfg.sha, TokenID(t1), t2, "", "");
    Keys.KeySpacesDisjoint(cfg.sha, TokenID(t2), t1, "", "");
  }

  lemma {:induction false} LookKeeps(cfg: Config, s: State, flow: nat, kind: Kind, token: Text, get: bool)
    requires Invariant(cfg, s) && token != "" && flow < s.next
    ensures Invariant(cfg, LookStep(cfg, s, flow, kind, token, get))
  {
    var key := KeyFor(cfg, kind, token);
    match Get(s.bucket, key, s.now, cfg.ttl, get)
    case Some(TokenEntry(d, p, w, j)) =>
      var e := TokenEntry(d, p, w, j);
      if Judge(cfg, e, token, s.now).Hit? {
        HitJustified(cfg, s, flow, kind, token, e);
        RecordKeeps(cfg, s, Served(flow, kind, token, p, MustDecrypt(cfg.cipher, j), s.now));
      }
    case _ =>
  }

  lemma HitJustified(cfg: Config, s: State, flow: nat, kind: Kind, token: Text, e: Entry)
    requires Invariant(cfg, s) && token != ""
    requires var key := KeyFor(cfg, kind, token);
             key in s.bucket && s.bucket[key].entry == e && Live(s.bucket[key], s.now, cfg.ttl)
    requires e.TokenEntry? && MustDecrypt(cfg.cipher, e.wat) == token
    ensures var served := Served(flow, kind, token, e.payload, MustDecrypt(cfg.cipher, e.jump), s.now);
            Justified(cfg, s.log + [served], |s.log|)
  {
    var key := KeyFor(cfg, kind, token);
    var log := s.log;
    var jump := MustDecrypt(cfg.cipher, e.jump);
    var log' := log + [Served(flow, kind, token, e.payload, jump, s.now)];
    var stored := s.bucket[key].at;
    assert Backed(cfg, log, key, s.bucket[key]);
    var i: nat, j: nat :| KeptExchange(cfg, log, i, j, key, stored) && log[i].token == token && GivesOut(cfg, log, i, j, e.payload, jump);
    KindOfKey(cfg, log[i].kind, log[i].token, kind, token);
    assert KeptExchange(cfg, log', i, j, key, stored);
    assert GivesOut(cfg, log', i, j, e.payload, jump);
  }

  lemma AskKeeps(cfg: Config, s: State, flow: nat, kind: Kind, token: Text, exchange: Exchange)
    requires Invariant(cfg, s) && token != "" && flow < s.next
    ensures Invariant(cfg, AskStep(cfg, s, flow, kind, token, exchange))
  {
    if exchange.Granted? && DecodeTrustedJWT(cfg, exchange.jwt).Some? {
      var jwt := exchange.jwt;
      var e := Exchanged(flow, kind, token, jwt, s.now);
      RecordKeeps(cfg, s, e);
      assert ExchangedAt(s.log + [e], |s.log|, flow, kind, token, jwt, s.now);
    }
  }

  lemma KeepKeeps(cfg: Config, s: State, flow: nat, tokenRandom: Option<Text>, jumpRandom: Option<Text>, put: bool)
    requires cfg.cipher.Opens() && cfg.cipher.Entropy(tokenRandom) && cfg.cipher.Entropy(jumpRandom)
    requires Invariant(cfg, s) && flow in s.flows && s.flows[flow].Keeping?
    ensures Invariant(cfg, KeepStep(cfg, s, flow, s.flows[flow], tokenRandom, jumpRandom, put))
  {
    if put {
      var Keeping(kind, token, jwt, payload) := s.flows[flow];
      var key := KeyFor(cfg, kind, token);
      var wat, jump := MustEncrypt(cfg.cipher, token, tokenRandom), MustEncrypt(cfg.cipher, jwt, jumpRandom);
      var kept := Kept(flow, key, s.now, jump != "");
      RecordKeeps(cfg, s, kept);
      var stored := Stored(TokenEntry(false, Wired(cfg, payload), wat, jump), s.now);
      KeptIsBacked(cfg, s, flow, tokenRandom, jumpRandom, stored);
    }
  }

  lemma KeptIsBacked(cfg: Config, s: State, flow: nat, tokenRandom: Option<Text>, jumpRandom: Option<Text>, stored: Stored)
    requires cfg.cipher.Opens() && cfg.cipher.Entropy(tokenRandom) && cfg.cipher.Entropy(jumpRandom)
    requires Invariant(cfg, s) && flow in s.flows && s.flows[flow].Keeping?
    requires var phase := s.flows[flow];
             stored == Stored(TokenEntry(false, Wired(cfg, phase.payload), MustEncrypt(cfg.cipher, phase.token, tokenRandom),
                                         MustEncrypt(cfg.cipher, phase.jwt, jumpRandom)), s.now)
    ensures var key := KeyFor(cfg, s.flows[flow].kind, s.flows[flow].token);
            Backed(cfg, s.log + [Kept(flow, key, s.now, stored.entry.jump != "")], key, stored)
  {
    var Keeping(kind, token, jwt, payload) := s.flows[flow];
    var key := KeyFor(cfg, kind, token);
    var log := s.log;
    var log' := log + [Kept(flow, key, s.now, stored.entry.jump != "")];
    assert PhaseBacked(cfg, log, s.now, flow, s.flows[flow]);
    var i :| 0 <= i < |log| && ExchangedAt(log, i, flow, kind, token, jwt, s.now);
    EncryptedOpens(cfg.cipher, token, tokenRandom);
    EncryptedOpens(cfg.cipher, jwt, jumpRandom);
    assert KeptExchange(cfg, log', i, |log|, key, s.now);
    assert GivesOut(cfg, log', i, |log|, Wired(cfg, payload), MustDecrypt(cfg.cipher, stored.entry.jump));
  }

  lemma SubLookKeeps(cfg: Config, s: State, flow: nat, ctx: TokenContext, communityID: Text, get: bool)
    requires Invariant(cfg, s) && flow < s.next
    ensures Invariant(cfg, SubLookStep(cfg, s, flow, ctx, communityID, get))
  {
    var key := Keys.WormholeAccessSubtoken(ctx.payload.tokenID, communityID);
    match Get(s.bucket, key, s.now, cfg.ttl, get)
    case Some(SubtokenEntry(id, token, p, x, exp)) =>
      if token != "" && s.now < exp {
        assert Backed(cfg, s.log, key, s.bucket[key]);
        Keys.SubtokenKeyInjective(id, x, ctx.payload.tokenID, communityID);
        var i :| 0 <= i < |s.log| && IssuedAt(cfg, s.log, i, id, x, token, exp);
        var e := SubServed(flow, ctx.payload.tokenID, communityID, token, exp, s.now);
        assert IssuedAt(cfg, s.log + [e], i, id, x, token, exp);
        RecordKeeps(cfg, s, e);
      }
    case _ =>
  }

  lemma SubAskKeeps(cfg: Config, s: State, flow: nat, issued: Option<Text>)
    requires Invariant(cfg, s)
    ensures Invariant(cfg, Next(cfg, s, SubAsk(flow, issued)))
  {
    if flow in s.flows && s.flows[flow].SubAsking? && issued.Some? {
      var SubAsking(ctx, x) := s.flows[flow];
      var e := SubIssued(flow, BuildSubtokenReq(ctx, x), issued.value, ctx.payload.exp);
      RecordKeeps(cfg, s, e);
      assert IssuedAt(cfg, s.log + [e], |s.log|, ctx.payload.tokenID, x, issued.value, cfg.wire(ctx.payload.exp));
    }
  }

  lemma TickKeeps(cfg: Config, s: State, later: int)
    requires Invariant(cfg, s) && later > s.now
    ensures Invariant(cfg, s.(now := later))
  {
    forall f | f in s.flows
      ensures PhaseBacked(cfg, s.log, later, f, s.flows[f])
    {
      assert PhaseBacked(cfg, s.log, s.now, f, s.flows[f]);
      if s.flows[f].Keeping? {
        var Keeping(kind, token, jwt, payload) := s.flows[f];
        var i :| 0 <= i < |s.log| && ExchangedAt(s.log, i, f, kind, token, jwt, s.now);
        assert ExchangedAt(s.log, i, f, kind, token, jwt, later);
      }
    }
  }

  lemma NextKeeps(cfg: Config, s: State, step: Step)
    requires cfg.cipher.Opens() && Invariant(cfg, s)
    ensures Invariant(cfg, Next(cfg, s, step))
  {
    match step
    case Tick(later) => if later > s.now { TickKeeps(cfg, s, later); }
    case Look(flow, get) =>
      if flow in s.flows {
        assert PhaseBacked(cfg, s.log, s.now, flow, s.flows[flow]);
        match s.flows[flow] {
          case Looking(kind, token) => LookKeeps(cfg, s, flow, kind, token, get);
          case SubLooking(ctx, x) => SubLookKeeps(cfg, s, flow, ctx, x, get);
          case _ =>
        }
      }
    case Ask(flow, exchange) =>
      if flow in s.flows && s.flows[flow].Asking? {
        assert PhaseBacked(cfg, s.log, s.now, flow, s.flows[flow]);
        AskKeeps(cfg, s, flow, s.flows[flow].kind, s.flows[flow].token, exchange);
      }
    case Keep(flow, tokenRandom, jumpRandom, put) => KeepNextKeeps(cfg, s, flow, tokenRandom, jumpRandom, put);
    case SubAsk(flow, issued) => SubAskKeeps(cfg, s, flow, issued);
    case _ =>
  }

  lemma KeepNextKeeps(cfg: Config, s: State, flow: nat, tokenRandom: Option<Text>, jumpRandom: Option<Text>, put: bool)
    requires cfg.cipher.Opens() && Invariant(cfg, s)
    ensures Invariant(cfg, Next(cfg, s, Keep(flow, tokenRandom, jumpRandom, put)))
  {
    if flow in s.flows && cfg.cipher.Entropy(tokenRandom) && cfg.cipher.Entropy(jumpRandom) {
      assert PhaseBacked(cfg, s.log, s.now, flow, s.flows[flow]);
      if s.flows[flow].Keeping? {
        KeepKeeps(cfg, s, flow, tokenRandom, jumpRandom, put);
      }
    }
  }

  /**
   * In every interleaving every hit is justified: it gives out an exchange of exactly the
   * requested token, stored within the time to live by the flow that made the exchange; every
   * cached or served subtoken was issued for its own parent and community, with the expiry
   * of that very parent, which is still ahead when it is served; and no disallowed entry
   * holds a token.
   */
  lemma {:induction false} CacheSound(cfg: Config, now: int, steps: seq<Step>)
    requires cfg.cipher.Opens()
    ensures Invariant(cfg, Run(cfg, Init(now), steps))
  {
    if steps != [] {
      CacheSound(cfg, now, steps[..|steps| - 1]);
      NextKeeps(cfg, Run(cfg, Init(now), steps[..|steps| - 1]), steps[|steps| - 1]);
    }
  }

  /** Stored expiries go through a float64. */
  ghost predicate FloatWire(cfg: Config) {
    forall t :: 0 <= t < FloatTime.MAX_SECONDS * SECOND ==> FloatTime.RoundTrips(t, cfg.wire(t))
  }

  /**
   * What a caller can rely on for the k-th event of any interleaving, when it is a hit: the
   * service granted a token for this very request token, not later than the hit; the payload is
   * that token's own up to a microsecond of its expiry; the jump token is that token, or empty
   * when it could not be sealed; and its store is younger than the time to live.
   */
  lemma HitMeaning(cfg: Config, now: int, steps: seq<Step>, k: nat)
    requires cfg.cipher.Opens() && FloatWire(cfg)
    requires k < |Run(cfg, Init(now), steps).log| && Run(cfg, Init(now), steps).log[k].Served?
    ensures var log := Run(cfg, Init(now), steps).log;
            exists i: nat, j: nat ::
              && i < j < k && log[i].Exchanged? && log[i].token == log[k].token && log[i].kind == log[k].kind
              && log[j].Kept? && log[j].flow == log[i].flow && log[j].key == KeyFor(cfg, log[k].kind, log[k].token)
              && log[i].at <= log[j].at <= log[k].at && (cfg.ttl == 0 || log[k].at - cfg.ttl < log[j].at)
              && log[k].jump == (if log[j].sealed then log[i].jwt else "")
              && NearPayload(log[k].payload, DecodeTrustedJWT(cfg, log[i].jwt))
  {
    CacheSound(cfg, now, steps);
    var log := Run(cfg, Init(now), steps).log;
    assert Justified(cfg, log, k);
    var Served(_, kind, token, payload, jump, at) := log[k];
    var i: nat, j: nat, stored: int :|
      && KeptExchange(cfg, log, i, j, KeyFor(cfg, kind, token), stored) && j < k
      && log[i].token == token && log[i].kind == kind
      && GivesOut(cfg, log, i, j, payload, jump)
      && stored <= at && (cfg.ttl == 0 || at < stored + cfg.ttl);
    NearWired(cfg, DecodeTrustedJWT(cfg, log[i].jwt).value);
  }

  lemma NearWired(cfg: Config, payload: TokenPayload)
    requires FloatWire(cfg)
    ensures NearPayload(Wired(cfg, payload), Some(payload))
  {
    if 0 <= payload.exp < FloatTime.MAX_SECONDS * SECOND {
      FloatTime.RoundTripBound(payload.exp, cfg.wire(payload.exp));
    }
  }

  /** The payload, with its expiry off by less than a microsecond if it is in range. */
  predicate NearPayload(cached: TokenPayload, decoded: Option<TokenPayload>) {
    && decoded.Some?
    && cached == decoded.value.(exp := cached.exp)
    && (0 <= decoded.value.exp < FloatTime.MAX_SECONDS * SECOND ==> -1000 < cached.exp - decoded.value.exp < 1000)
  }

  /** Every new flow has a number of its own. */
  lemma FreshFlow(cfg: Config, now: int, steps: seq<Step>)
    requires cfg.cipher.Opens()
    ensures var s := Run(cfg, Init(now), steps); s.next !in s.flows
  {
    CacheSound(cfg, now, steps);
  }

  lemma RunAppend(cfg: Config, s: State, steps: seq<Step>, step: Step)
    ensures Run(cfg, s, steps + [step]) == Next(cfg, Run(cfg, s, steps), step)
  {
    assert (steps + [step])[..|steps|] == steps;
  }

  lemma ThreeSteps(cfg: Config, s: State, a: Step, b: Step, c: Step)
    ensures Run(cfg, s, [a, b, c]) == Next(cfg, Next(cfg, Next(cfg, s, a), b), c)
    ensures Run(cfg, s, [a, b]) == Next(cfg, Next(cfg, s, a), b)
    ensures Run(cfg, s, [a]) == Next(cfg, s, a)
  {
    assert [a, b, c] == [] + [a] + [b] + [c] && [a, b] == [] + [a] + [b] && [a] == [] + [a];
    RunAppend(cfg, s, [], a);
    RunAppend(cfg, s, [] + [a], b);
    RunAppend(cfg, s, [] + [a] + [b], c);
  }
}
