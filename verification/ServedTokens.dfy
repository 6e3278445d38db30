/** A forwarded request, traced back to a grant of the token service. */
module ServedTokens {
  import opened GoText
  import opened Sources
  import opened Wormhole
  import opened TokenSpec
  import opened Registry
  import opened XdsServer
  import opened AuthServers
  import opened TokenInterleavings
  import opened EndToEnd
  import InterleavedDenial
  import WholeFlows

  /** The service granted the token in this very flow. */
  predicate GrantedNow(cfg: Config, io: FlowIO, payload: TokenPayload, jump: Text) {
    io.exchange == Granted(jump) && DecodeTrustedJWT(cfg, jump) == Some(payload)
  }

  /** The service granted it to an earlier flow, which stored the outcome within the time to live. */
  ghost predicate GrantedBefore(cfg: Config, log: seq<Event>, kind: Kind, token: Text, now: int, payload: TokenPayload, jump: Text) {
    exists i: nat, j: nat, stored: int ::
      && KeptExchange(cfg, log, i, j, KeyFor(cfg, kind, token), stored)
      && log[i].kind == kind && log[i].token == token && GivesOut(cfg, log, i, j, payload, jump)
      && stored <= now && (cfg.ttl == 0 || now < stored + cfg.ttl)
  }

  ghost predicate GrantedTo(cfg: Config, log: seq<Event>, kind: Kind, token: Text, io: FlowIO, payload: TokenPayload, jump: Text) {
    GrantedNow(cfg, io, payload, jump) || GrantedBefore(cfg, log, kind, token, io.lookup.now, payload, jump)
  }

  lemma HitGranted(cfg: Config, s: State, kind: Kind, token: Text, io: LookupIO)
    requires cfg.cipher.Opens() && Invariant(cfg, s) && token != "" && s.now <= io.now
    ensures var hit := LookupResult(cfg, s.bucket, KeyFor(cfg, kind, token), token, io);
            hit.Hit? ==> GrantedBefore(cfg, s.log, kind, token, io.now, hit.payload, hit.jump)
  {
    var key := KeyFor(cfg, kind, token);
    var hit := LookupResult(cfg, s.bucket, key, token, io);
    if hit.Hit? {
      var e := GetToken(cfg, AfterDummy(cfg, s.bucket, key, io), key, io).value;
      assert key in s.bucket && s.bucket[key].entry == e && Live(s.bucket[key], io.now, cfg.ttl);
      assert Backed(cfg, s.log, key, s.bucket[key]);
      var i: nat, j: nat :| KeptExchange(cfg, s.log, i, j, key, s.bucket[key].at) && s.log[i].token == token
                            && GivesOut(cfg, s.log, i, j, e.payload, MustDecrypt(cfg.cipher, e.jump));
      KindOfKey(cfg, s.log[i].kind, s.log[i].token, kind, token);
    }
  }

  /** Whoever a flow authenticates, the service granted for this very token. */
  lemma FlowGranted(cfg: Config, s: State, kind: Kind, token: Text, io: FlowIO)
    requires cfg.cipher.Opens() && Invariant(cfg, s) && token != "" && s.now <= io.lookup.now
    ensures var result := WholeFlows.WholeFlow(cfg, s.bucket, kind, token, io).result;
            result.Authenticated? ==> GrantedTo(cfg, s.log, kind, token, io, result.payload, result.jump)
  {
    HitGranted(cfg, s, kind, token, io.lookup);
    if LookupResult(cfg, s.bucket, KeyFor(cfg, kind, token), token, io.lookup).Miss? {
      WholeFlows.WholeFlowMisses(cfg, s.bucket, kind, token, io);
    }
  }

  /** The token a request stands on: its own, or that of its login session. */
  datatype Credential = Credential(kind: Kind, token: Text)

  function CredentialOf(args: AuthArgs, d: RequestDetails, io: CheckIO): Option<Credential> {
    if RequestToken(args, d) != "" then Some(Credential(AccessToken, RequestToken(args, d)))
    else if io.login.Access? && io.login.token != "" then Some(Credential(Session, io.login.token))
    else None
  }

  lemma IdentityGranted(cfg: Config, args: AuthArgs, s: State, d: RequestDetails, io: CheckIO)
    requires cfg.cipher.Opens() && Invariant(cfg, s) && s.now <= io.flow.lookup.now
    requires Identify(cfg, args, s.bucket, d, io).Identified?
    ensures CredentialOf(args, d, io).Some?
    ensures var c := CredentialOf(args, d, io).value;
            var result := Authentication(cfg, args, s.bucket, d, io).result;
            && result.Authenticated? && Identify(cfg, args, s.bucket, d, io).ctx.payload == result.payload
            && GrantedTo(cfg, s.log, c.kind, c.token, io.flow, result.payload, result.jump)
  {
    if RequestToken(args, d) != "" {
      FlowGranted(cfg, s, AccessToken, RequestToken(args, d), io.flow);
    } else {
      FlowGranted(cfg, s, Session, io.login.token, io.flow);
    }
  }

  /** The checker's rules for the route admit a payload that the service granted for the request's own token. */
  ghost predicate AdmittedByGrant(dep: Deployment, ts: State, rs: RawSource, client: map<Text, Text>, io: CheckIO) {
    var d := EstablishDetails(Mutated(dep, client), AuthzContext(rs));
    var c := CredentialOf(dep.args, d, io);
    var rules := LastWith(dep.checker.sources, rs.id);
    && c.Some? && rules.Some?
    && exists payload, jump ::
         GrantedTo(dep.cfg, ts.log, c.value.kind, c.value.token, io.flow, payload, jump) && Admits(rules.value, payload)
  }

  lemma CheckedByGrant(dep: Deployment, ts: State, rs: RawSource, client: map<Text, Text>, io: CheckIO)
    requires dep.cfg.cipher.Opens() && Invariant(dep.cfg, ts) && ts.now <= io.flow.lookup.now
    ensures CheckedBy(dep, rs, client, ts.bucket, io) ==> AdmittedByGrant(dep, ts, rs, client, io)
  {
    if CheckedBy(dep, rs, client, ts.bucket, io) {
      IdentityGranted(dep.cfg, dep.args, ts, EstablishDetails(Mutated(dep, client), AuthzContext(rs)), io);
    }
  }

  /**
   * In whatever state of whatever interleaving of flows a check finds the bucket: a request that
   * is forwarded on a route with authorisation carries a token of its own, or of its login
   * session, for which the service granted a payload that the checker's rules admit, either to
   * this check or to an earlier flow that stored it within the time to live.
   */
  lemma {:induction false} ForwardedByGrant(dep: Deployment, ts: State, o: SnapshotOrder, s: Snapshot, domain: Text, path: Text,
                                            client: map<Text, Text>, io: CheckIO)
    requires dep.cfg.cipher.Opens() && InterleavedDenial.Reachable(dep.cfg, ts) && ts.now <= io.flow.lookup.now
    requires IsSnapshot(dep.x, dep.encoder, dep.compiler.Controls().proxy, o, s)
    ensures var out := Serve(dep, s.hosts, domain, path, client, ts.bucket, io);
            out.Forwarded? ==>
              exists j :: 0 <= j < |dep.compiler.sources|
                && Wins(dep.compiler.sources, j, ServingHost(dep.compiler.sources, domain), path)
                && (dep.compiler.sources[j].noAuth || AdmittedByGrant(dep, ts, dep.compiler.sources[j], client, io))
  {
    var now, steps :| TokenInterleavings.Run(dep.cfg, Init(now), steps) == ts;
    CacheSound(dep.cfg, now, steps);
    RequestServedSkewed(dep, o, s, domain, path, client, ts.bucket, io);
    var out := Serve(dep, s.hosts, domain, path, client, ts.bucket, io);
    if out.Forwarded? {
      var j :| 0 <= j < |dep.compiler.sources|
               && ServedBy(dep, out, j, ServingHost(dep.compiler.sources, domain), path, client, ts.bucket, io);
      CheckedByGrant(dep, ts, dep.compiler.sources[j], client, io);
    }
  }
}
