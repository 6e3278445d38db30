/** When an invalidation or a removal holds against flows that are interleaved with it. */
module InterleavedDenial {
  import opened GoText
  import opened Wormhole
  import opened Cipher
  import opened TokenSpec
  import opened TokenInterleavings
  import Base64Url
  import Keys
  import TokenRuns

  // Encrypting

  /** Some random bytes of the length the cipher asks for. */
  function SomeNonce(c: Cipherer): (random: Option<Text>)
    ensures c.Entropy(random) && (c.Aead? ==> random.Some?)
  {
    match c
    case Noop => None
    case Aead(nonceSize, _, _) => Some(seq(nonceSize, _ => '0'))
  }

  /** A token sealed with random bytes is kept, and opens to itself. */
  lemma SealedOpens(c: Cipherer, plain: Text)
    requires c.Opens() && plain != ""
    ensures MustDecrypt(c, MustEncrypt(c, plain, SomeNonce(c))) == plain
  {
    var random := SomeNonce(c);
    EncryptedOpens(c, plain, random);
    if c.Aead? {
      var raw := random.value + c.seal(random.value, plain);
      Base64Url.RoundTrip(raw);
      assert raw[0] == '0';
      assert Base64Url.Decode("") == Some("");
    }
  }

  // Invalidation

  /** An access token flow for the id is between its lookup and its store. */
  predicate InFlight(phase: Phase, id: Text) {
    (phase.Asking? || phase.Keeping?) && phase.kind.AccessToken? && TokenID(phase.token) == id
  }

  predicate NoneInFlight(s: State, id: Text) {
    forall f :: f in s.flows ==> !InFlight(s.flows[f], id)
  }

  /** The token service can answer with something that decodes. */
  ghost predicate CanGrant(cfg: Config) {
    exists jwt :: DecodeTrustedJWT(cfg, jwt).Some?
  }

  predicate LooksUp(s: State, step: Step, id: Text) {
    && step.Look? && step.flow in s.flows && s.flows[step.flow].Looking?
    && s.flows[step.flow].kind.AccessToken? && TokenID(s.flows[step.flow].token) == id
  }

  /** The step neither deletes the id's entry nor reads past it, by failing or by coming too late. */
  predicate CalmStep(cfg: Config, s: State, id: Text, at: int, step: Step) {
    && (step.Vanish? ==> step.key != Keys.WormholeAccessToken(id))
    && (LooksUp(s, step, id) ==> step.get && (cfg.ttl == 0 || s.now < at + cfg.ttl))
  }

  predicate Calm(cfg: Config, s: State, id: Text, at: int, steps: seq<Step>)
    decreases |steps|
  {
    if steps == [] then true
    else
      var n := |steps| - 1;
      Calm(cfg, s, id, at, steps[..n]) && CalmStep(cfg, Run(cfg, s, steps[..n]), id, at, steps[n])
  }

  predicate ServesID(e: Event, id: Text) {
    e.Served? && e.kind.AccessToken? && TokenID(e.token) == id
  }

  /** The log goes on without serving the id. */
  predicate NothingServed(log: seq<Event>, log': seq<Event>, id: Text) {
    log <= log' && forall k :: |log| <= k < |log'| ==> !ServesID(log'[k], id)
  }

  /** No calm continuation serves a token of the id from the cache. */
  ghost predicate Denied(cfg: Config, s: State, id: Text, at: int) {
    forall steps :: Calm(cfg, s, id, at, steps) ==> NothingServed(s.log, Run(cfg, s, steps).log, id)
  }

  /** The entry is disallowed, and no flow can still overwrite it with a token. */
  ghost predicate Shut(cfg: Config, s: State, id: Text, at: int) {
    && TokenRuns.Blocked(cfg, s.bucket, Keys.WormholeAccessToken(id), at) && at <= s.now
    && forall f :: f in s.flows ==> ShutPhase(cfg, s.flows[f], id)
  }

  ghost predicate ShutPhase(cfg: Config, phase: Phase, id: Text) {
    && (phase.Looking? ==> phase.token != "")
    && (InFlight(phase, id) ==> phase.Asking? && !CanGrant(cfg))
  }

  lemma OtherKey(cfg: Config, kind: Kind, token: Text, id: Text)
    ensures KeyFor(cfg, kind, token) == Keys.WormholeAccessToken(id) <==> kind.AccessToken? && TokenID(token) == id
  {
    if kind.AccessToken? {
      if Keys.WormholeAccessToken(TokenID(token)) == Keys.WormholeAccessToken(id) {
        Keys.AccessTokenKeyInjective(TokenID(token), id);
      }
    } else {
      Keys.KeySpacesDisjoint(cfg.sha, id, token, "", "");
    }
  }

  lemma ShutLook(cfg: Config, s: State, id: Text, at: int, flow: nat, get: bool)
    requires Shut(cfg, s, id, at) && CalmStep(cfg, s, id, at, Look(flow, get))
    requires flow in s.flows && s.flows[flow].Looking?
    ensures var s' := Next(cfg, s, Look(flow, get));
            Shut(cfg, s', id, at) && NothingServed(s.log, s'.log, id)
  {
    var Looking(kind, token) := s.flows[flow];
    assert ShutPhase(cfg, s.flows[flow], id);
    OtherKey(cfg, kind, token, id);
  }

  lemma ShutAsk(cfg: Config, s: State, id: Text, at: int, flow: nat, exchange: Exchange)
    requires Shut(cfg, s, id, at) && flow in s.flows && s.flows[flow].Asking?
    ensures var s' := Next(cfg, s, Ask(flow, exchange));
            Shut(cfg, s', id, at) && NothingServed(s.log, s'.log, id)
  {
    assert ShutPhase(cfg, s.flows[flow], id);
  }

  lemma ShutKeep(cfg: Config, s: State, id: Text, at: int, flow: nat, tokenRandom: Option<Text>, jumpRandom: Option<Text>, put: bool)
    requires Shut(cfg, s, id, at) && flow in s.flows
    ensures var s' := Next(cfg, s, Keep(flow, tokenRandom, jumpRandom, put));
            Shut(cfg, s', id, at) && NothingServed(s.log, s'.log, id)
  {
    assert ShutPhase(cfg, s.flows[flow], id);
    match s.flows[flow]
    case Keeping(kind, token, _, _) => OtherKey(cfg, kind, token, id);
    case SubKeeping(ctx, x, _) => Keys.KeySpacesDisjoint(cfg.sha, id, "", ctx.payload.tokenID, x);
    case _ =>
  }

  lemma ShutStep(cfg: Config, s: State, id: Text, at: int, step: Step)
    requires Shut(cfg, s, id, at) && CalmStep(cfg, s, id, at, step)
    ensures var s' := Next(cfg, s, step);
            Shut(cfg, s', id, at) && NothingServed(s.log, s'.log, id)
  {
    match step
    case Look(flow, get) =>
      if flow in s.flows && s.flows[flow].Looking? {
        ShutLook(cfg, s, id, at, flow, get);
      }
    case Ask(flow, exchange) =>
      if flow in s.flows && s.flows[flow].Asking? {
        ShutAsk(cfg, s, id, at, flow, exchange);
      }
    case Keep(flow, tokenRandom, jumpRandom, put) =>
      if flow in s.flows {
        ShutKeep(cfg, s, id, at, flow, tokenRandom, jumpRandom, put);
      }
    case _ =>
  }

  /**
   * Once shut, always shut: through every calm interleaving the disallowed entry stays and no
   * token of the id is served. This asks nothing of the cipher.
   */
  lemma {:induction false} StaysShut(cfg: Config, s: State, id: Text, at: int, steps: seq<Step>)
    requires Shut(cfg, s, id, at) && Calm(cfg, s, id, at, steps)
    ensures var s' := Run(cfg, s, steps);
            Shut(cfg, s', id, at) && NothingServed(s.log, s'.log, id)
    decreases |steps|
  {
    if steps != [] {
      var n := |steps| - 1;
      StaysShut(cfg, s, id, at, steps[..n]);
      ShutStep(cfg, Run(cfg, s, steps[..n]), id, at, steps[n]);
    }
  }

  // The race

  /** Whatever the state and the cipher: storing the outcome of an exchange replaces an invalidation made since. */
  lemma RaceOverwrites(cfg: Config, s: State, flow: nat, tokenRandom: Option<Text>, jumpRandom: Option<Text>)
    requires flow in s.flows && s.flows[flow].Keeping? && s.flows[flow].kind.AccessToken?
    requires cfg.cipher.Entropy(tokenRandom) && cfg.cipher.Entropy(jumpRandom)
    ensures var Keeping(_, token, jwt, payload) := s.flows[flow];
            var s' := Next(cfg, Next(cfg, s, Disallow(TokenID(token), true)), Keep(flow, tokenRandom, jumpRandom, true));
            var e := TokenEntry(false, Wired(cfg, payload), MustEncrypt(cfg.cipher, token, tokenRandom),
                                MustEncrypt(cfg.cipher, jwt, jumpRandom));
            && s'.bucket == s.bucket[Keys.WormholeAccessToken(TokenID(token)) := Stored(e, s.now)]
            && s'.now == s.now && s'.flows == s.flows - {flow} && s'.next == s.next
  {
  }

  /** A request for the token of an entry stored this instant is answered from it. */
  lemma RaceServes(cfg: Config, s: State, token: Text, e: Entry)
    requires token != "" && e.TokenEntry? && MustDecrypt(cfg.cipher, e.wat) == token
    requires var key := Keys.WormholeAccessToken(TokenID(token)); key in s.bucket && s.bucket[key] == Stored(e, s.now)
    ensures Next(cfg, Next(cfg, s, Begin(AccessToken, token)), Look(s.next, true)).log
            == s.log + [Served(s.next, AccessToken, token, e.payload, MustDecrypt(cfg.cipher, e.jump), s.now)]
  {
    var s1 := Start(s, Looking(AccessToken, token));
    assert Next(cfg, s, Begin(AccessToken, token)) == s1;
    assert Next(cfg, s1, Look(s.next, true)) == LookStep(cfg, s1, s.next, AccessToken, token, true);
  }

  lemma KeptStores(cfg: Config, s: State, flow: nat)
    requires flow in s.flows && s.flows[flow].Keeping? && s.flows[flow].kind.AccessToken?
    ensures var Keeping(_, token, jwt, payload) := s.flows[flow];
            var random := SomeNonce(cfg.cipher);
            var s1 := Next(cfg, s, Keep(flow, random, random, true));
            var key := Keys.WormholeAccessToken(TokenID(token));
            var e := TokenEntry(false, Wired(cfg, payload), MustEncrypt(cfg.cipher, token, random), MustEncrypt(cfg.cipher, jwt, random));
            && s1.now == s.now && s1.next == s.next
            && key in s1.bucket && s1.bucket[key] == Stored(e, s.now)
            && s1.log == s.log + [Kept(flow, key, s.now, e.jump != "")]
  {
  }

  /** The store, then a new request for the same token, which is answered from what was stored. */
  function ServingSteps(cfg: Config, s: State, flow: nat): seq<Step>
    requires flow in s.flows && s.flows[flow].Keeping?
  {
    var random := SomeNonce(cfg.cipher);
    [Keep(flow, random, random, true), Begin(AccessToken, s.flows[flow].token), Look(s.next, true)]
  }

  lemma CalmThree(cfg: Config, s: State, id: Text, at: int, a: Step, b: Step, c: Step)
    requires CalmStep(cfg, s, id, at, a) && CalmStep(cfg, Next(cfg, s, a), id, at, b)
    requires CalmStep(cfg, Next(cfg, Next(cfg, s, a), b), id, at, c)
    ensures Calm(cfg, s, id, at, [a, b, c])
  {
    ThreeSteps(cfg, s, a, b, c);
    assert [a, b, c][..2] == [a, b] && [a, b][..1] == [a] && [a][..0] == [];
    assert Calm(cfg, s, id, at, [a]);
    assert Calm(cfg, s, id, at, [a, b]);
  }

  lemma KeepingServes(cfg: Config, s: State, flow: nat, at: int)
    requires cfg.cipher.Opens() && flow in s.flows && s.flows[flow].Keeping? && s.flows[flow].kind.AccessToken?
    requires s.flows[flow].token != "" && (cfg.ttl == 0 || s.now < at + cfg.ttl)
    ensures var id := TokenID(s.flows[flow].token);
            var log := Run(cfg, s, ServingSteps(cfg, s, flow)).log;
            && Calm(cfg, s, id, at, ServingSteps(cfg, s, flow))
            && |log| == |s.log| + 2
            && log[|s.log| + 1] == Served(s.next, AccessToken, s.flows[flow].token, Wired(cfg, s.flows[flow].payload),
                                          s.flows[flow].jwt, s.now)
  {
    var Keeping(_, token, jwt, payload) := s.flows[flow];
    var random := SomeNonce(cfg.cipher);
    var keep, begin, look := Keep(flow, random, random, true), Begin(AccessToken, token), Look(s.next, true);
    KeptStores(cfg, s, flow);
    SealedOpens(cfg.cipher, token);
    if jwt != "" {
      SealedOpens(cfg.cipher, jwt);
    }
    var s1 := Next(cfg, s, keep);
    RaceServes(cfg, s1, token, s1.bucket[Keys.WormholeAccessToken(TokenID(token))].entry);
    ThreeSteps(cfg, s, keep, begin, look);
    CalmThree(cfg, s, TokenID(token), at, keep, begin, look);
  }

  /** A calm first step can be put in front of calm steps. */
  lemma {:induction false} CalmAfter(cfg: Config, s: State, id: Text, at: int, first: Step, steps: seq<Step>)
    requires CalmStep(cfg, s, id, at, first) && Calm(cfg, Next(cfg, s, first), id, at, steps)
    ensures Run(cfg, s, [first] + steps) == Run(cfg, Next(cfg, s, first), steps)
    ensures Calm(cfg, s, id, at, [first] + steps)
    decreases |steps|
  {
    if steps == [] {
      assert [first] + steps == [first] && [first][..0] == [];
      assert Run(cfg, s, [first]) == Next(cfg, s, first);
    } else {
      var n := |steps| - 1;
      CalmAfter(cfg, s, id, at, first, steps[..n]);
      var all := [first] + steps;
      assert all[..|all| - 1] == [first] + steps[..n] && all[|all| - 1] == steps[n];
    }
  }

  /** A flow in flight gives a calm continuation that serves its token. */
  lemma InFlightServes(cfg: Config, s: State, flow: nat, id: Text, at: int) returns (steps: seq<Step>)
    requires cfg.cipher.Opens() && Invariant(cfg, s) && (cfg.ttl == 0 || s.now < at + cfg.ttl)
    requires flow in s.flows && InFlight(s.flows[flow], id) && CanGrant(cfg)
    ensures Calm(cfg, s, id, at, steps) && !NothingServed(s.log, Run(cfg, s, steps).log, id)
  {
    assert PhaseBacked(cfg, s.log, s.now, flow, s.flows[flow]);
    if s.flows[flow].Keeping? {
      steps := ServingSteps(cfg, s, flow);
      KeepingServes(cfg, s, flow, at);
    } else {
      var jwt :| DecodeTrustedJWT(cfg, jwt).Some?;
      var ask := Ask(flow, Granted(jwt));
      var s1 := Next(cfg, s, ask);
      assert |s1.log| == |s.log| + 1;
      steps := ServingSteps(cfg, s1, flow);
      KeepingServes(cfg, s1, flow, at);
      CalmAfter(cfg, s, id, at, ask, steps);
      steps := [ask] + steps;
      assert ServesID(Run(cfg, s, steps).log[|s.log| + 2], id);
    }
  }

  ghost predicate Reachable(cfg: Config, s: State) {
    exists now, steps :: Run(cfg, Init(now), steps) == s
  }

  /**
   * In every interleaving a stored invalidation holds, until its entry is deleted, a read fails
   * or its time to live is over, exactly when at the moment of the invalidation no flow for the
   * id is between its lookup and its store; or no flow can ever be granted a token at all.
   */
  lemma {:induction false} InvalidationDenies(cfg: Config, s: State, id: Text)
    requires cfg.cipher.Opens() && Reachable(cfg, s)
    ensures Denied(cfg, Next(cfg, s, Disallow(id, true)), id, s.now) <==> NoneInFlight(s, id) || !CanGrant(cfg)
  {
    var now, before :| Run(cfg, Init(now), before) == s;
    CacheSound(cfg, now, before);
    var s' := Next(cfg, s, Disallow(id, true));
    if NoneInFlight(s, id) || !CanGrant(cfg) {
      InvalidationShuts(cfg, s, id);
      forall steps | Calm(cfg, s', id, s.now, steps)
        ensures NothingServed(s'.log, Run(cfg, s', steps).log, id)
      {
        StaysShut(cfg, s', id, s.now, steps);
      }
    } else {
      var f :| f in s.flows && InFlight(s.flows[f], id);
      NextKeeps(cfg, s, Disallow(id, true));
      var steps := InFlightServes(cfg, s', f, id, s.now);
    }
  }

  lemma InvalidationShuts(cfg: Config, s: State, id: Text)
    requires Invariant(cfg, s) && (NoneInFlight(s, id) || !CanGrant(cfg))
    ensures Shut(cfg, Next(cfg, s, Disallow(id, true)), id, s.now)
  {
    forall f | f in s.flows
      ensures ShutPhase(cfg, s.flows[f], id)
    {
      assert PhaseBacked(cfg, s.log, s.now, f, s.flows[f]);
    }
  }

  /** The state of a flow that has exchanged its token and not yet stored the outcome. */
  lemma RaceExchanged(cfg: Config, token: Text, jwt: Text)
    requires token != "" && DecodeTrustedJWT(cfg, jwt).Some?
    ensures Run(cfg, Init(0), [Begin(AccessToken, token), Look(0, true), Ask(0, Granted(jwt))])
            == State(0, map[], map[0 := Keeping(AccessToken, token, jwt, DecodeTrustedJWT(cfg, jwt).value)], 1,
                     [Exchanged(0, AccessToken, token, jwt, 0)])
  {
    ThreeSteps(cfg, Init(0), Begin(AccessToken, token), Look(0, true), Ask(0, Granted(jwt)));
    var s1 := State(0, map[], map[0 := Looking(AccessToken, token)], 1, []);
    assert Next(cfg, Init(0), Begin(AccessToken, token)) == s1;
    assert Next(cfg, s1, Look(0, true)) == State(0, map[], map[0 := Asking(AccessToken, token)], 1, []);
  }

  /**
   * So an invalidation can be lost, under either cipher, to a flow that has exchanged its token:
   * its store replaces the disallowed entry, and the next request is served the jump token.
   */
  lemma InvalidationRace(cfg: Config, token: Text, jwt: Text)
    requires cfg.cipher.Opens() && token != "" && DecodeTrustedJWT(cfg, jwt).Some?
    ensures var s := Run(cfg, Init(0), [Begin(AccessToken, token), Look(0, true), Ask(0, Granted(jwt))]);
            var s' := Next(cfg, s, Disallow(TokenID(token), true));
            && !Denied(cfg, s', TokenID(token), 0)
            && 0 in s'.flows && s'.flows[0].Keeping?
            && var log := Run(cfg, s', ServingSteps(cfg, s', 0)).log;
               |log| == 3 && log[2] == Served(1, AccessToken, token, Wired(cfg, DecodeTrustedJWT(cfg, jwt).value), jwt, 0)
  {
    RaceExchanged(cfg, token, jwt);
    LostTo(cfg, Run(cfg, Init(0), [Begin(AccessToken, token), Look(0, true), Ask(0, Granted(jwt))]), 0);
  }

  lemma LostTo(cfg: Config, s: State, flow: nat)
    requires cfg.cipher.Opens() && Reachable(cfg, s)
    requires flow in s.flows && s.flows[flow].Keeping? && s.flows[flow].kind.AccessToken?
    ensures var Keeping(_, token, jwt, payload) := s.flows[flow];
            var s' := Next(cfg, s, Disallow(TokenID(token), true));
            && !Denied(cfg, s', TokenID(token), s.now) && flow in s'.flows && s'.flows[flow] == s.flows[flow]
            && var log := Run(cfg, s', ServingSteps(cfg, s', flow)).log;
               |log| == |s.log| + 2 && log[|s.log| + 1] == Served(s.next, AccessToken, token, Wired(cfg, payload), jwt, s.now)
  {
    var Keeping(_, token, jwt, _) := s.flows[flow];
    var now, before :| Run(cfg, Init(now), before) == s;
    CacheSound(cfg, now, before);
    assert PhaseBacked(cfg, s.log, s.now, flow, s.flows[flow]);
    assert InFlight(s.flows[flow], TokenID(token));
    InvalidationDenies(cfg, s, TokenID(token));
    KeepingServes(cfg, Next(cfg, s, Disallow(TokenID(token), true)), flow, s.now);
  }

  // Removal of a subtoken

  predicate OfPair(phase: Phase, parentID: Text, externalID: Text) {
    && (phase.SubLooking? || phase.SubAsking? || phase.SubKeeping?)
    && phase.ctx.payload.tokenID == parentID && phase.communityID == externalID
  }

  /** A flow for the pair is between its lookup and its store, and could store a subtoken that a lookup accepts. */
  predicate Pending(cfg: Config, now: int, phase: Phase, parentID: Text, externalID: Text) {
    && OfPair(phase, parentID, externalID) && !phase.SubLooking?
    && now < cfg.wire(phase.ctx.payload.exp) && (phase.SubKeeping? ==> phase.subtoken != "")
  }

  predicate NonePending(cfg: Config, s: State, parentID: Text, externalID: Text) {
    forall f :: f in s.flows ==> !Pending(cfg, s.now, s.flows[f], parentID, externalID)
  }

  predicate Acceptable(e: Entry, now: int) {
    e.SubtokenEntry? && e.token != "" && now < e.exp
  }

  /** A lookup for the pair would be answered from the cache now. */
  predicate Cached(cfg: Config, s: State, parentID: Text, externalID: Text) {
    var e := Get(s.bucket, Keys.WormholeAccessSubtoken(parentID, externalID), s.now, cfg.ttl, true);
    e.Some? && Acceptable(e.value, s.now)
  }

  /** Which is what happens to the next flow for the pair: served from the cache, or asking the service. */
  lemma NextFlowServedOrAsks(cfg: Config, s: State, ctx: TokenContext, externalID: Text)
    requires externalID != "" && !IsSubtoken(ctx, externalID)
    ensures var parentID := ctx.payload.tokenID;
            var s' := Next(cfg, Next(cfg, s, BeginSub(ctx, externalID)), Look(s.next, true));
            if Cached(cfg, s, parentID, externalID) then
              var e := s.bucket[Keys.WormholeAccessSubtoken(parentID, externalID)].entry;
              s'.log == s.log + [SubServed(s.next, parentID, externalID, e.token, e.exp, s.now)]
            else s'.log == s.log && s.next in s'.flows && s'.flows[s.next] == SubAsking(ctx, externalID)
  {
    var s1 := Start(s, SubLooking(ctx, externalID));
    assert Next(cfg, s, BeginSub(ctx, externalID)) == s1;
    assert Next(cfg, s1, Look(s.next, true)) == SubLookStep(cfg, s1, s.next, ctx, externalID, true);
  }

  /** No flow for the pair makes its lookup during the steps. */
  predicate NoLookups(cfg: Config, s: State, parentID: Text, externalID: Text, steps: seq<Step>)
    decreases |steps|
  {
    if steps == [] then true
    else
      var n := |steps| - 1;
      NoLookups(cfg, s, parentID, externalID, steps[..n]) && !LooksUpPair(Run(cfg, s, steps[..n]), steps[n], parentID, externalID)
  }

  predicate LooksUpPair(s: State, step: Step, parentID: Text, externalID: Text) {
    && step.Look? && step.flow in s.flows && s.flows[step.flow].SubLooking?
    && OfPair(s.flows[step.flow], parentID, externalID)
  }

  /** Whatever else is interleaved, the first flow to look the pair up asks the service. */
  ghost predicate ForcesRequest(cfg: Config, s: State, parentID: Text, externalID: Text) {
    forall steps :: NoLookups(cfg, s, parentID, externalID, steps) ==> !Cached(cfg, Run(cfg, s, steps), parentID, externalID)
  }

  predicate Removed(cfg: Config, s: State, parentID: Text, externalID: Text) {
    var key := Keys.WormholeAccessSubtoken(parentID, externalID);
    && (key in s.bucket ==> !Acceptable(s.bucket[key].entry, s.now))
    && NonePending(cfg, s, parentID, externalID)
  }

  lemma RemovedKeep(cfg: Config, s: State, parentID: Text, externalID: Text, flow: nat,
                    tokenRandom: Option<Text>, jumpRandom: Option<Text>, put: bool)
    requires Removed(cfg, s, parentID, externalID) && flow in s.flows
    ensures Removed(cfg, Next(cfg, s, Keep(flow, tokenRandom, jumpRandom, put)), parentID, externalID)
  {
    match s.flows[flow]
    case Keeping(_, _, _, _) =>
      if cfg.cipher.Entropy(tokenRandom) && cfg.cipher.Entropy(jumpRandom) {
        RemovedTokenKeep(cfg, s, parentID, externalID, flow, tokenRandom, jumpRandom, put);
      }
    case Refusing(token) => Keys.KeySpacesDisjoint(cfg.sha, TokenID(token), "", parentID, externalID);
    case SubKeeping(_, _, _) =>
      if cfg.cipher.Entropy(tokenRandom) && cfg.cipher.Entropy(jumpRandom) {
        RemovedSubKeep(cfg, s, parentID, externalID, flow, put);
      }
    case _ =>
  }

  lemma RemovedTokenKeep(cfg: Config, s: State, parentID: Text, externalID: Text, flow: nat,
                         tokenRandom: Option<Text>, jumpRandom: Option<Text>, put: bool)
    requires Removed(cfg, s, parentID, externalID) && flow in s.flows && s.flows[flow].Keeping?
    ensures Removed(cfg, KeepStep(cfg, s, flow, s.flows[flow], tokenRandom, jumpRandom, put), parentID, externalID)
  {
    var token := s.flows[flow].token;
    Keys.KeySpacesDisjoint(cfg.sha, TokenID(token), token, parentID, externalID);
  }

  lemma RemovedSubKeep(cfg: Config, s: State, parentID: Text, externalID: Text, flow: nat, put: bool)
    requires Removed(cfg, s, parentID, externalID) && flow in s.flows && s.flows[flow].SubKeeping?
    ensures Removed(cfg, SubKeepStep(cfg, s, flow, s.flows[flow], put), parentID, externalID)
  {
    var SubKeeping(ctx, x, _) := s.flows[flow];
    assert !Pending(cfg, s.now, s.flows[flow], parentID, externalID);
    if Keys.WormholeAccessSubtoken(ctx.payload.tokenID, x) == Keys.WormholeAccessSubtoken(parentID, externalID) {
      Keys.SubtokenKeyInjective(ctx.payload.tokenID, x, parentID, externalID);
    }
  }

  lemma RemovedLook(cfg: Config, s: State, parentID: Text, externalID: Text, flow: nat, get: bool)
    requires Removed(cfg, s, parentID, externalID) && !LooksUpPair(s, Look(flow, get), parentID, externalID)
    ensures Removed(cfg, Next(cfg, s, Look(flow, get)), parentID, externalID)
  {
    if flow in s.flows {
      match s.flows[flow] {
        case Looking(kind, token) => assert LookStep(cfg, s, flow, kind, token, get).bucket == s.bucket;
        case SubLooking(ctx, x) => assert SubLookStep(cfg, s, flow, ctx, x, get).bucket == s.bucket;
        case _ =>
      }
    }
  }

  lemma RemovedSubAsk(cfg: Config, s: State, parentID: Text, externalID: Text, flow: nat, issued: Option<Text>)
    requires Removed(cfg, s, parentID, externalID)
    ensures Removed(cfg, Next(cfg, s, SubAsk(flow, issued)), parentID, externalID)
  {
    if flow in s.flows {
      assert !Pending(cfg, s.now, s.flows[flow], parentID, externalID);
    }
  }

  lemma RemovedStep(cfg: Config, s: State, parentID: Text, externalID: Text, step: Step)
    requires Removed(cfg, s, parentID, externalID) && !LooksUpPair(s, step, parentID, externalID)
    ensures Removed(cfg, Next(cfg, s, step), parentID, externalID)
  {
    match step
    case Keep(flow, tokenRandom, jumpRandom, put) =>
      if flow in s.flows {
        RemovedKeep(cfg, s, parentID, externalID, flow, tokenRandom, jumpRandom, put);
      }
    case Disallow(id, _) => Keys.KeySpacesDisjoint(cfg.sha, id, "", parentID, externalID);
    case Look(flow, get) => RemovedLook(cfg, s, parentID, externalID, flow, get);
    case SubAsk(flow, issued) => RemovedSubAsk(cfg, s, parentID, externalID, flow, issued);
    case _ =>
  }

  lemma {:induction false} StaysRemoved(cfg: Config, s: State, parentID: Text, externalID: Text, steps: seq<Step>)
    requires Removed(cfg, s, parentID, externalID) && NoLookups(cfg, s, parentID, externalID, steps)
    ensures Removed(cfg, Run(cfg, s, steps), parentID, externalID)
    decreases |steps|
  {
    if steps != [] {
      var n := |steps| - 1;
      StaysRemoved(cfg, s, parentID, externalID, steps[..n]);
      RemovedStep(cfg, Run(cfg, s, steps[..n]), parentID, externalID, steps[n]);
    }
  }

  /** A flow that has asked for its subtoken stores it again after the removal: the very one removed. */
  lemma RemovalRace(cfg: Config, s: State, flow: nat)
    requires flow in s.flows && s.flows[flow].SubKeeping?
    requires Pending(cfg, s.now, s.flows[flow], s.flows[flow].ctx.payload.tokenID, s.flows[flow].communityID)
    ensures var SubKeeping(ctx, externalID, subtoken) := s.flows[flow];
            var s' := Run(cfg, s, [Keep(flow, None, None, true)]);
            var key := Keys.WormholeAccessSubtoken(ctx.payload.tokenID, externalID);
            && NoLookups(cfg, s, ctx.payload.tokenID, externalID, [Keep(flow, None, None, true)])
            && Cached(cfg, s', ctx.payload.tokenID, externalID) && s'.bucket[key].entry.token == subtoken
  {
    ThreeSteps(cfg, s, Keep(flow, None, None, true), Tick(0), Tick(0));
    assert [Keep(flow, None, None, true)][..0] == [];
  }

  lemma PendingCaches(cfg: Config, s: State, flow: nat, parentID: Text, externalID: Text) returns (steps: seq<Step>)
    requires flow in s.flows && Pending(cfg, s.now, s.flows[flow], parentID, externalID)
    ensures NoLookups(cfg, s, parentID, externalID, steps) && Cached(cfg, Run(cfg, s, steps), parentID, externalID)
  {
    if s.flows[flow].SubKeeping? {
      steps := [Keep(flow, None, None, true)];
      RemovalRace(cfg, s, flow);
    } else {
      var ask, keep := SubAsk(flow, Some("token")), Keep(flow, None, None, true);
      steps := [ask, keep];
      ThreeSteps(cfg, s, ask, keep, keep);
      RemovalRace(cfg, Next(cfg, s, ask), flow);
      ThreeSteps(cfg, Next(cfg, s, ask), keep, keep, keep);
      assert [ask, keep][..1] == [ask] && [ask][..0] == [];
      assert NoLookups(cfg, s, parentID, externalID, [ask]);
    }
  }

  /** The steps of a stored removal. */
  function AfterRemoval(cfg: Config, s: State, parentID: Text, externalID: Text, tokenID: Text): State {
    Next(cfg, Next(cfg, s, Disallow(tokenID, true)), Vanish(Keys.WormholeAccessSubtoken(parentID, externalID)))
  }

  /**
   * In every interleaving a stored removal makes the next flow for the pair ask the service,
   * exactly when at the moment of the removal no flow for the pair is between its lookup and
   * its store with a parent that has not expired.
   */
  lemma {:induction false} RemovalHolds(cfg: Config, s: State, parentID: Text, externalID: Text, tokenID: Text)
    ensures ForcesRequest(cfg, AfterRemoval(cfg, s, parentID, externalID, tokenID), parentID, externalID)
            <==> NonePending(cfg, s, parentID, externalID)
  {
    var s' := AfterRemoval(cfg, s, parentID, externalID, tokenID);
    assert s'.flows == s.flows && s'.now == s.now;
    if NonePending(cfg, s, parentID, externalID) {
      forall steps | NoLookups(cfg, s', parentID, externalID, steps)
        ensures !Cached(cfg, Run(cfg, s', steps), parentID, externalID)
      {
        StaysRemoved(cfg, s', parentID, externalID, steps);
      }
    } else {
      var f :| f in s.flows && Pending(cfg, s.now, s.flows[f], parentID, externalID);
      var steps := PendingCaches(cfg, s', f, parentID, externalID);
    }
  }
}
