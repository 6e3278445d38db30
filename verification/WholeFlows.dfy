/** A flow that nothing interrupts is one of the interleavings of its steps. */
module WholeFlows {
  import opened GoText
  import opened Wormhole
  import opened Cipher
  import opened TokenSpec
  import opened TokenInterleavings
  import Keys

  function WholeFlow(cfg: Config, b: Bucket, kind: Kind, token: Text, io: FlowIO): FlowOutcome {
    match kind
    case AccessToken => WatFlow(cfg, b, token, io)
    case Session => SessionFlow(cfg, b, token, io)
  }

  function StartSteps(cfg: Config, s: State, kind: Kind, token: Text, io: FlowIO): seq<Step> {
    var key := KeyFor(cfg, kind, token);
    [Tick(io.lookup.now)]
    + (if AfterDummy(cfg, s.bucket, key, io.lookup) != s.bucket then [Vanish(key)] else [])
    + [Begin(kind, token)]
  }

  /** The first steps of an uninterrupted flow: up to its read, and the deletions around it. */
  function ReadSteps(cfg: Config, s: State, kind: Kind, token: Text, io: FlowIO): seq<Step> {
    var key := KeyFor(cfg, kind, token);
    StartSteps(cfg, s, kind, token, io) + [Look(s.next, io.lookup.get)]
    + (if AfterLookup(cfg, s.bucket, key, io.lookup) != AfterDummy(cfg, s.bucket, key, io.lookup) then [Vanish(key)] else [])
  }

  function FlowSteps(cfg: Config, s: State, kind: Kind, token: Text, io: FlowIO): seq<Step> {
    ReadSteps(cfg, s, kind, token, io)
    + if LookupResult(cfg, s.bucket, KeyFor(cfg, kind, token), token, io.lookup).Miss?
      then [Ask(s.next, io.exchange), Tick(io.storeAt), Keep(s.next, io.tokenRandom, io.jumpRandom, io.put)] else []
  }

  predicate Orderly(cfg: Config, s: State, token: Text, io: FlowIO) {
    && token != "" && s.now <= io.lookup.now <= io.storeAt && s.next !in s.flows
    && cfg.cipher.Entropy(io.tokenRandom) && cfg.cipher.Entropy(io.jumpRandom)
  }

  lemma ReadsLikeAWholeFlow(cfg: Config, s: State, kind: Kind, token: Text, io: FlowIO)
    requires Orderly(cfg, s, token, io)
    ensures var s' := Run(cfg, s, ReadSteps(cfg, s, kind, token, io));
            var key := KeyFor(cfg, kind, token);
            && s'.now == io.lookup.now && s'.bucket == AfterLookup(cfg, s.bucket, key, io.lookup) && s'.next == s.next + 1
            && match LookupResult(cfg, s.bucket, key, token, io.lookup)
               case Miss => s'.flows == s.flows[s.next := Asking(kind, token)] && s'.log == s.log
               case Reject => s'.flows == s.flows && s'.log == s.log
               case Hit(payload, jump) =>
                 s'.flows == s.flows && s'.log == s.log + [Served(s.next, kind, token, payload, jump, io.lookup.now)]
  {
    var key := KeyFor(cfg, kind, token);
    var dummy := AfterDummy(cfg, s.bucket, key, io.lookup);
    var after := AfterLookup(cfg, s.bucket, key, io.lookup);
    LookupOnlyDeletes(cfg, s.bucket, key, io.lookup);
    var t := StartSteps(cfg, s, kind, token, io);
    StartsLikeAWholeFlow(cfg, s, kind, token, io);
    var s1 := Run(cfg, s, t);
    var look := Look(s.next, io.lookup.get);
    RunAppend(cfg, s, t, look);
    var s2 := LookStep(cfg, s1, s.next, kind, token, io.lookup.get);
    LooksLikeAWholeFlow(cfg, s, s1, kind, token, io);
    if after != dummy {
      RunAppend(cfg, s, t + [look], Vanish(key));
      assert ReadSteps(cfg, s, kind, token, io) == t + [look] + [Vanish(key)];
    } else {
      assert ReadSteps(cfg, s, kind, token, io) == t + [look];
    }
  }

  lemma LookupOnlyDeletes(cfg: Config, b: Bucket, key: Text, io: LookupIO)
    ensures var dummy, after := AfterDummy(cfg, b, key, io), AfterLookup(cfg, b, key, io);
            (dummy == b || dummy == b - {key}) && (after == dummy || after == dummy - {key})
  {
  }

  lemma StartsLikeAWholeFlow(cfg: Config, s: State, kind: Kind, token: Text, io: FlowIO)
    requires Orderly(cfg, s, token, io)
    ensures Run(cfg, s, StartSteps(cfg, s, kind, token, io))
            == Start(s.(now := io.lookup.now, bucket := AfterDummy(cfg, s.bucket, KeyFor(cfg, kind, token), io.lookup)),
                     Looking(kind, token))
  {
    var key := KeyFor(cfg, kind, token);
    var dummy := AfterDummy(cfg, s.bucket, key, io.lookup);
    LookupOnlyDeletes(cfg, s.bucket, key, io.lookup);
    var t: seq<Step> := [Tick(io.lookup.now)];
    RunAppend(cfg, s, [], Tick(io.lookup.now));
    assert [] + t == t;
    if dummy != s.bucket {
      RunAppend(cfg, s, t, Vanish(key));
      RunAppend(cfg, s, t + [Vanish(key)], Begin(kind, token));
      assert StartSteps(cfg, s, kind, token, io) == t + [Vanish(key)] + [Begin(kind, token)];
    } else {
      RunAppend(cfg, s, t, Begin(kind, token));
      assert StartSteps(cfg, s, kind, token, io) == t + [Begin(kind, token)];
    }
  }

  lemma LooksLikeAWholeFlow(cfg: Config, s: State, s1: State, kind: Kind, token: Text, io: FlowIO)
    requires Orderly(cfg, s, token, io)
    requires s1 == Start(s.(now := io.lookup.now, bucket := AfterDummy(cfg, s.bucket, KeyFor(cfg, kind, token), io.lookup)),
                     Looking(kind, token))
    ensures var s2 := LookStep(cfg, s1, s.next, kind, token, io.lookup.get);
            && s2.now == s1.now && s2.bucket == s1.bucket && s2.next == s1.next
            && match LookupResult(cfg, s.bucket, KeyFor(cfg, kind, token), token, io.lookup)
               case Miss => s2.flows == s.flows[s.next := Asking(kind, token)] && s2.log == s.log
               case Reject => s2.flows == s.flows && s2.log == s.log
               case Hit(payload, jump) =>
                 s2.flows == s.flows && s2.log == s.log + [Served(s.next, kind, token, payload, jump, io.lookup.now)]
  {
    assert s1.flows - {s.next} == s.flows;
  }

  /**
   * What a whole flow with the given outcome leaves in the log: its answer from the cache, or
   * the exchange that its answer comes from and the store of it; nothing when it is not answered.
   */
  function FlowEvents(cfg: Config, flow: nat, kind: Kind, token: Text, io: FlowIO, out: FlowOutcome): seq<Event> {
    match out.result
    case Authenticated(payload, jump) =>
      if !out.exchanged then [Served(flow, kind, token, payload, jump, io.lookup.now)]
      else
        [Exchanged(flow, kind, token, jump, io.lookup.now)]
        + if io.put then [Kept(flow, KeyFor(cfg, kind, token), io.storeAt, MustEncrypt(cfg.cipher, jump, io.jumpRandom) != "")] else []
    case _ => []
  }

  /**
   * An uninterrupted flow is one of the interleavings: run on its own, its steps leave the
   * bucket as the whole flow does, and log its answer and where the answer comes from.
   */
  lemma {:induction false} WholeFlowsAreInterleavings(cfg: Config, s: State, kind: Kind, token: Text, io: FlowIO)
    requires Orderly(cfg, s, token, io)
    ensures var s' := Run(cfg, s, FlowSteps(cfg, s, kind, token, io));
            var out := WholeFlow(cfg, s.bucket, kind, token, io);
            s'.bucket == out.bucket && s'.flows == s.flows && s'.log == s.log + FlowEvents(cfg, s.next, kind, token, io, out)
  {
    ReadsLikeAWholeFlow(cfg, s, kind, token, io);
    var read := ReadSteps(cfg, s, kind, token, io);
    var s0 := Run(cfg, s, read);
    if LookupResult(cfg, s.bucket, KeyFor(cfg, kind, token), token, io.lookup).Miss? {
      var ask, keep := Ask(s.next, io.exchange), Keep(s.next, io.tokenRandom, io.jumpRandom, io.put);
      RunThree(cfg, s, read, ask, Tick(io.storeAt), keep);
      assert FlowSteps(cfg, s, kind, token, io) == read + [ask] + [Tick(io.storeAt)] + [keep];
      MissFinishes(cfg, s, s0, kind, token, io);
    } else {
      assert FlowSteps(cfg, s, kind, token, io) == read;
      FoundFinishes(cfg, s, kind, token, io);
    }
  }

  lemma RunThree(cfg: Config, s: State, steps: seq<Step>, x: Step, y: Step, z: Step)
    ensures Run(cfg, s, steps + [x] + [y] + [z]) == Next(cfg, Next(cfg, Next(cfg, Run(cfg, s, steps), x), y), z)
  {
    RunAppend(cfg, s, steps, x);
    RunAppend(cfg, s, steps + [x], y);
    RunAppend(cfg, s, steps + [x] + [y], z);
  }

  /** A lookup that answers leaves the whole flow's bucket, and logs a hit alone. */
  lemma FoundFinishes(cfg: Config, s: State, kind: Kind, token: Text, io: FlowIO)
    requires !LookupResult(cfg, s.bucket, KeyFor(cfg, kind, token), token, io.lookup).Miss?
    ensures var out := WholeFlow(cfg, s.bucket, kind, token, io);
            && out.bucket == AfterLookup(cfg, s.bucket, KeyFor(cfg, kind, token), io.lookup)
            && FlowEvents(cfg, s.next, kind, token, io, out)
               == match LookupResult(cfg, s.bucket, KeyFor(cfg, kind, token), token, io.lookup)
                  case Hit(payload, jump) => [Served(s.next, kind, token, payload, jump, io.lookup.now)]
                  case _ => []
  {
  }

  lemma {:induction false} MissFinishes(cfg: Config, s: State, s0: State, kind: Kind, token: Text, io: FlowIO)
    requires Orderly(cfg, s, token, io) && LookupResult(cfg, s.bucket, KeyFor(cfg, kind, token), token, io.lookup).Miss?
    requires s0.now == io.lookup.now && s0.flows == s.flows[s.next := Asking(kind, token)]
    requires s0.bucket == AfterLookup(cfg, s.bucket, KeyFor(cfg, kind, token), io.lookup)
    ensures var s1 := Next(cfg, Next(cfg, s0, Ask(s.next, io.exchange)), Tick(io.storeAt));
            var s2 := Next(cfg, s1, Keep(s.next, io.tokenRandom, io.jumpRandom, io.put));
            var out := WholeFlow(cfg, s.bucket, kind, token, io);
            s2.bucket == out.bucket && s2.flows == s.flows && s2.log == s0.log + FlowEvents(cfg, s.next, kind, token, io, out)
  {
    var asked := AskStep(cfg, s0, s.next, kind, token, io.exchange);
    WholeFlowMisses(cfg, s.bucket, kind, token, io);
    assert Next(cfg, s0, Ask(s.next, io.exchange)) == asked;
    var s1 := Next(cfg, asked, Tick(io.storeAt));
    assert s1 == asked.(now := io.storeAt);
    if s.next in asked.flows {
      MissStores(cfg, s, s0, kind, token, io);
    } else {
      assert asked == Finish(s0, s.next) && s0.flows - {s.next} == s.flows;
      assert Next(cfg, s1, Keep(s.next, io.tokenRandom, io.jumpRandom, io.put)) == s1;
    }
  }

  lemma MissStores(cfg: Config, s: State, s0: State, kind: Kind, token: Text, io: FlowIO)
    requires Orderly(cfg, s, token, io) && LookupResult(cfg, s.bucket, KeyFor(cfg, kind, token), token, io.lookup).Miss?
    requires s0.now == io.lookup.now && s0.flows == s.flows[s.next := Asking(kind, token)]
    requires s0.bucket == AfterLookup(cfg, s.bucket, KeyFor(cfg, kind, token), io.lookup)
    requires s.next in AskStep(cfg, s0, s.next, kind, token, io.exchange).flows
    ensures var s1 := AskStep(cfg, s0, s.next, kind, token, io.exchange).(now := io.storeAt);
            var s2 := Next(cfg, s1, Keep(s.next, io.tokenRandom, io.jumpRandom, io.put));
            var out := WholeFlow(cfg, s.bucket, kind, token, io);
            s2.bucket == out.bucket && s2.flows == s.flows && s2.log == s0.log + FlowEvents(cfg, s.next, kind, token, io, out)
  {
    var s1 := AskStep(cfg, s0, s.next, kind, token, io.exchange).(now := io.storeAt);
    WholeFlowMisses(cfg, s.bucket, kind, token, io);
    AskAdvances(cfg, s, s0, kind, token, io.exchange);
    StoreFinishes(cfg, s, s1, kind, token, io);
  }

  lemma AskAdvances(cfg: Config, s: State, s0: State, kind: Kind, token: Text, exchange: Exchange)
    requires s.next !in s.flows && s0.flows == s.flows[s.next := Asking(kind, token)]
    requires s.next in AskStep(cfg, s0, s.next, kind, token, exchange).flows
    ensures var asked := AskStep(cfg, s0, s.next, kind, token, exchange);
            var payload := if exchange.Granted? then DecodeTrustedJWT(cfg, exchange.jwt) else None;
            && asked.flows - {s.next} == s.flows && asked.bucket == s0.bucket
            && asked.flows[s.next] == (if payload.Some? then Keeping(kind, token, exchange.jwt, payload.value) else Refusing(token))
            && (payload.None? ==> kind.AccessToken? && !exchange.Failed?)
            && asked.log == s0.log + (if payload.Some? then [Exchanged(s.next, kind, token, exchange.jwt, s0.now)] else [])
  {
  }

  lemma WholeFlowMisses(cfg: Config, b: Bucket, kind: Kind, token: Text, io: FlowIO)
    requires LookupResult(cfg, b, KeyFor(cfg, kind, token), token, io.lookup).Miss?
    ensures var out := WholeFlow(cfg, b, kind, token, io);
            var key := KeyFor(cfg, kind, token);
            var after := AfterLookup(cfg, b, key, io.lookup);
            var payload := if io.exchange.Granted? then DecodeTrustedJWT(cfg, io.exchange.jwt) else None;
            && out.exchanged
            && (out.result.Authenticated? <==> payload.Some?)
            && (payload.Some? ==> out.result == Authenticated(payload.value, io.exchange.jwt))
            && out.bucket ==
               if payload.Some? then Put(after, key, ExchangedEntry(cfg, payload.value, token, io.exchange.jwt, io), io.storeAt, io.put)
               else if kind.AccessToken? && !io.exchange.Failed? then Put(after, key, DisallowedEntry(cfg), io.storeAt, io.put)
               else after
  {
  }

  lemma StoreFinishes(cfg: Config, s: State, s1: State, kind: Kind, token: Text, io: FlowIO)
    requires Orderly(cfg, s, token, io) && s1.now == io.storeAt
    requires s.next in s1.flows && s1.flows - {s.next} == s.flows
    requires match s1.flows[s.next]
             case Keeping(k, t, jwt, payload) => k == kind && t == token
             case Refusing(t) => kind.AccessToken? && t == token
             case _ => false
    ensures var s2 := Next(cfg, s1, Keep(s.next, io.tokenRandom, io.jumpRandom, io.put));
            && s2.flows == s.flows
            && s2.log == s1.log + (
                 if s1.flows[s.next].Keeping? && io.put
                 then [Kept(s.next, KeyFor(cfg, kind, token), io.storeAt,
                            MustEncrypt(cfg.cipher, s1.flows[s.next].jwt, io.jumpRandom) != "")]
                 else [])
            && s2.bucket == Put(s1.bucket, KeyFor(cfg, kind, token),
                                match s1.flows[s.next]
                                case Keeping(_, _, jwt, payload) => ExchangedEntry(cfg, payload, token, jwt, io)
                                case _ => DisallowedEntry(cfg), io.storeAt, io.put)
  {
  }

  // Subtoken flows

  function SubReadSteps(cfg: Config, s: State, ctx: TokenContext, communityID: Text, io: SubtokenIO): seq<Step> {
    var key := Keys.WormholeAccessSubtoken(ctx.payload.tokenID, communityID);
    var cached := CachedSubtoken(cfg, s.bucket, key, io);
    [Tick(io.now), BeginSub(ctx, communityID), Look(s.next, io.get)]
    + if cached.Some? && io.now >= cached.value.exp && io.delete then [Vanish(key)] else []
  }

  /** A flow without a community, or whose own token is the subtoken, touches nothing. */
  function SubFlowSteps(cfg: Config, s: State, ctx: TokenContext, communityID: Text, io: SubtokenIO): seq<Step> {
    if communityID == "" || IsSubtoken(ctx, communityID) then []
    else
      SubReadSteps(cfg, s, ctx, communityID, io)
      + if SubtokenFlow(cfg, s.bucket, ctx, communityID, io).requested
        then [SubAsk(s.next, io.issue(BuildSubtokenReq(ctx, communityID))), Tick(io.storeAt), Keep(s.next, None, None, io.put)] else []
  }

  function SubFlowEvents(cfg: Config, flow: nat, b: Bucket, ctx: TokenContext, communityID: Text, io: SubtokenIO): seq<Event> {
    var out := SubtokenFlow(cfg, b, ctx, communityID, io);
    var key := Keys.WormholeAccessSubtoken(ctx.payload.tokenID, communityID);
    if !out.result.Subtoken? || IsSubtoken(ctx, communityID) then []
    else if out.requested then [SubIssued(flow, BuildSubtokenReq(ctx, communityID), out.result.token, ctx.payload.exp)]
    else
      [SubServed(flow, ctx.payload.tokenID, communityID, out.result.token,
                 if key in b && b[key].entry.SubtokenEntry? then b[key].entry.exp else 0, io.now)]
  }

  predicate SubOrderly(s: State, io: SubtokenIO) {
    s.now <= io.now <= io.storeAt && s.next !in s.flows
  }

  /** The lookup of a subtoken flow that has just begun. */
  lemma SubLooks(cfg: Config, s: State, ctx: TokenContext, communityID: Text, io: SubtokenIO)
    requires SubOrderly(s, io) && communityID != "" && !IsSubtoken(ctx, communityID)
    ensures var s3 := SubLookStep(cfg, Start(s.(now := io.now), SubLooking(ctx, communityID)), s.next, ctx, communityID, io.get);
            && s3.now == io.now && s3.bucket == s.bucket
            && if SubtokenFlow(cfg, s.bucket, ctx, communityID, io).requested
               then s3.log == s.log && s3.flows == s.flows[s.next := SubAsking(ctx, communityID)]
               else s3.flows == s.flows && s3.log == s.log + SubFlowEvents(cfg, s.next, s.bucket, ctx, communityID, io)
  {
    var s2 := Start(s.(now := io.now), SubLooking(ctx, communityID));
    assert s2.flows - {s.next} == s.flows;
  }

  lemma SubLookSteps(cfg: Config, s: State, ctx: TokenContext, communityID: Text, io: SubtokenIO)
    requires SubOrderly(s, io) && communityID != "" && !IsSubtoken(ctx, communityID)
    ensures Run(cfg, s, [Tick(io.now), BeginSub(ctx, communityID), Look(s.next, io.get)])
            == SubLookStep(cfg, Start(s.(now := io.now), SubLooking(ctx, communityID)), s.next, ctx, communityID, io.get)
  {
    var tick, begin, look := Tick(io.now), BeginSub(ctx, communityID), Look(s.next, io.get);
    ThreeSteps(cfg, s, tick, begin, look);
    var s1 := s.(now := io.now);
    var s2 := Start(s1, SubLooking(ctx, communityID));
    assert Next(cfg, s, tick) == s1;
    assert Next(cfg, s1, begin) == s2;
    assert Next(cfg, s2, look) == SubLookStep(cfg, s2, s.next, ctx, communityID, io.get);
  }

  lemma SubReadsLikeAWholeFlow(cfg: Config, s: State, ctx: TokenContext, communityID: Text, io: SubtokenIO)
    requires SubOrderly(s, io) && communityID != "" && !IsSubtoken(ctx, communityID)
    ensures var s' := Run(cfg, s, SubReadSteps(cfg, s, ctx, communityID, io));
            var out := SubtokenFlow(cfg, s.bucket, ctx, communityID, io);
            var key := Keys.WormholeAccessSubtoken(ctx.payload.tokenID, communityID);
            var cached := CachedSubtoken(cfg, s.bucket, key, io);
            && s'.now == io.now
            && if out.requested then
                 && s'.log == s.log && s'.flows == s.flows[s.next := SubAsking(ctx, communityID)]
                 && s'.bucket == (if cached.Some? then Delete(s.bucket, key, io.delete) else s.bucket)
               else
                 && s'.flows == s.flows && s'.bucket == s.bucket
                 && s'.log == s.log + SubFlowEvents(cfg, s.next, s.bucket, ctx, communityID, io)
  {
    var key := Keys.WormholeAccessSubtoken(ctx.payload.tokenID, communityID);
    var steps: seq<Step> := [Tick(io.now), BeginSub(ctx, communityID), Look(s.next, io.get)];
    SubLooks(cfg, s, ctx, communityID, io);
    SubLookSteps(cfg, s, ctx, communityID, io);
    var cached := CachedSubtoken(cfg, s.bucket, key, io);
    if cached.Some? && io.now >= cached.value.exp && io.delete {
      RunAppend(cfg, s, steps, Vanish(key));
      assert SubReadSteps(cfg, s, ctx, communityID, io) == steps + [Vanish(key)];
    } else {
      assert SubReadSteps(cfg, s, ctx, communityID, io) == steps;
    }
  }

  lemma SubStoreFinishes(cfg: Config, s: State, s1: State, ctx: TokenContext, communityID: Text, io: SubtokenIO)
    requires io.issue(BuildSubtokenReq(ctx, communityID)).Some? && s.next !in s.flows && s1.now == io.storeAt
    requires s1.flows == s.flows[s.next := SubKeeping(ctx, communityID, io.issue(BuildSubtokenReq(ctx, communityID)).value)]
    ensures var s2 := Next(cfg, s1, Keep(s.next, None, None, io.put));
            && s2.flows == s.flows && s2.log == s1.log
            && s2.bucket == GenerateSubtoken(cfg, s1.bucket, ctx, communityID, io).bucket
  {
    assert s1.flows - {s.next} == s.flows;
  }

  lemma SubRequestFinishes(cfg: Config, s: State, s0: State, ctx: TokenContext, communityID: Text, io: SubtokenIO)
    requires SubOrderly(s, io) && communityID != "" && !IsSubtoken(ctx, communityID)
    requires s0.now == io.now && s0.flows == s.flows[s.next := SubAsking(ctx, communityID)]
    ensures var s1 := Next(cfg, Next(cfg, s0, SubAsk(s.next, io.issue(BuildSubtokenReq(ctx, communityID)))), Tick(io.storeAt));
            var s2 := Next(cfg, s1, Keep(s.next, None, None, io.put));
            var out := GenerateSubtoken(cfg, s0.bucket, ctx, communityID, io);
            && s2.flows == s.flows && s2.bucket == out.bucket
            && s2.log == s0.log + (
                 if out.result.Subtoken?
                 then [SubIssued(s.next, BuildSubtokenReq(ctx, communityID), out.result.token, ctx.payload.exp)] else [])
  {
    var s1 := Next(cfg, Next(cfg, s0, SubAsk(s.next, io.issue(BuildSubtokenReq(ctx, communityID)))), Tick(io.storeAt));
    if io.issue(BuildSubtokenReq(ctx, communityID)).Some? {
      assert s1.flows == s.flows[s.next := SubKeeping(ctx, communityID, io.issue(BuildSubtokenReq(ctx, communityID)).value)];
      SubStoreFinishes(cfg, s, s1, ctx, communityID, io);
    } else {
      assert s1.flows == s0.flows - {s.next} == s.flows;
      assert s1.bucket == s0.bucket && s1.log == s0.log;
    }
  }

  /** The same for the subtoken flow: its bucket, and the issue or the hit its answer comes from. */
  lemma {:induction false} WholeSubtokenFlowsAreInterleavings(cfg: Config, s: State, ctx: TokenContext, communityID: Text, io: SubtokenIO)
    requires SubOrderly(s, io)
    ensures var s' := Run(cfg, s, SubFlowSteps(cfg, s, ctx, communityID, io));
            && s'.bucket == SubtokenFlow(cfg, s.bucket, ctx, communityID, io).bucket && s'.flows == s.flows
            && s'.log == s.log + SubFlowEvents(cfg, s.next, s.bucket, ctx, communityID, io)
  {
    if communityID != "" && !IsSubtoken(ctx, communityID) {
      SubReadsLikeAWholeFlow(cfg, s, ctx, communityID, io);
      var read := SubReadSteps(cfg, s, ctx, communityID, io);
      if SubtokenFlow(cfg, s.bucket, ctx, communityID, io).requested {
        var ask, keep := SubAsk(s.next, io.issue(BuildSubtokenReq(ctx, communityID))), Keep(s.next, None, None, io.put);
        RunThree(cfg, s, read, ask, Tick(io.storeAt), keep);
        assert SubFlowSteps(cfg, s, ctx, communityID, io) == read + [ask] + [Tick(io.storeAt)] + [keep];
        SubRequestFinishes(cfg, s, Run(cfg, s, read), ctx, communityID, io);
      } else {
        assert SubFlowSteps(cfg, s, ctx, communityID, io) == read;
      }
    }
  }
}
