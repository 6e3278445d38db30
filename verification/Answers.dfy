/** Every answer a routed request can be stopped with, by its token, the sources and the login page. */
module Answers {
  import opened GoText
  import opened Sources
  import opened Wormhole
  import opened TokenSpec
  import opened Registry
  import opened RouteTable
  import opened XdsServer
  import opened AuthServers
  import opened TokenInterleavings
  import opened EndToEnd
  import opened ServedTokens
  import TokenAnswers
  import WholeFlows
  import TokenRuns
  import Headers
  import Keys

  /** What the check reads of a request that one source routed. */
  function DetailsOf(dep: Deployment, rs: RawSource, client: map<Text, Text>): RequestDetails {
    EstablishDetails(Mutated(dep, client), AuthzContext(rs))
  }

  function RequestTokenOf(dep: Deployment, rs: RawSource, client: map<Text, Text>): Text {
    RequestToken(dep.args, DetailsOf(dep, rs, client))
  }

  predicate Malformed(dep: Deployment, token: Text) {
    token != "" && !dep.args.validToken(token)
  }

  /** What the store says of the credential a request stands on. */
  function Look(dep: Deployment, c: Credential, b: Bucket, io: CheckIO): Lookup {
    LookupResult(dep.cfg, b, KeyFor(dep.cfg, c.kind, c.token), c.token, io.flow.lookup)
  }

  /** A request without a token may log in, and its session does not stand. */
  predicate LoginDue(dep: Deployment, token: Text, b: Bucket, io: CheckIO) {
    && token == "" && dep.cfg.oauthEnabled
    && match io.login
       case ProxyRefused => true
       case NoAccessToken => false
       case Access(session) => session != "" && Look(dep, Credential(Session, session), b, io).Reject?
  }

  /** The target is on an administrator's host, or on the host of a source the checker holds. */
  predicate Trusted(dep: Deployment, url: Text) {
    && dep.parse(url).Some?
    && var key := NormalizedKey(dep.parse(url).value);
       key != "" && (key in dep.checker.admin || exists i :: 0 <= i < |dep.checker.sources| && dep.checker.sources[i].source.key == key)
  }

  /** The credential that decides: none while logging in is off, or for a token out of shape. */
  function Deciding(dep: Deployment, token: Text, io: CheckIO): Option<Credential> {
    if token != "" then if dep.args.validToken(token) then Some(Credential(AccessToken, token)) else None
    else if dep.cfg.oauthEnabled && io.login.Access? && io.login.token != "" then Some(Credential(Session, io.login.token))
    else None
  }

  /** The payload found in the store, or granted on a miss. */
  function Proven(dep: Deployment, c: Credential, b: Bucket, io: CheckIO): Option<TokenPayload> {
    match Look(dep, c, b, io)
    case Hit(payload, _) => Some(payload)
    case Reject => None
    case Miss => if io.flow.exchange.Granted? then DecodeTrustedJWT(dep.cfg, io.flow.exchange.jwt) else None
  }

  /** 401: the credential is refused, or a request without one cannot log in. */
  predicate Refused(dep: Deployment, token: Text, b: Bucket, io: CheckIO) {
    (token == "" && !dep.cfg.oauthEnabled)
    || (Deciding(dep, token, io).Some?
        && var c := Deciding(dep, token, io).value;
           (c.kind.AccessToken? && Look(dep, c, b, io).Reject?) || (Look(dep, c, b, io).Miss? && !io.flow.exchange.Granted?))
  }

  /** 500: a login that yields no session token, or a grant that carries no payload. */
  predicate Broken(dep: Deployment, token: Text, b: Bucket, io: CheckIO) {
    (token == "" && dep.cfg.oauthEnabled && (io.login.NoAccessToken? || io.login == Access("")))
    || (Deciding(dep, token, io).Some?
        && var c := Deciding(dep, token, io).value;
           Look(dep, c, b, io).Miss? && io.flow.exchange.Granted? && DecodeTrustedJWT(dep.cfg, io.flow.exchange.jwt).None?)
  }

  /** The answer once the payload is known: the id, the checker's last source with it, the subtoken. */
  ghost predicate AnswersPayload(dep: Deployment, rs: RawSource, p: TokenPayload, out: Outcome, client: map<Text, Text>, b: Bucket, io: CheckIO) {
    var rules := LastWith(dep.checker.sources, rs.id);
    if rs.id == "" then out == Stopped(Denied(500))
    else if !dep.isUUID(rs.id) then out == Stopped(Denied(400))
    else if rules.None? then out == Stopped(Denied(404))
    else if !Admits(rules.value, p) then out == Stopped(Denied(401))
    else if SubtokenFor(dep, rs, client, b, io) == SubtokenFailed then out == Stopped(Denied(500))
    else out.Forwarded?
  }

  /** The answer to a request that a source with authorisation has routed. */
  ghost predicate Answered(dep: Deployment, rs: RawSource, out: Outcome, client: map<Text, Text>, b: Bucket, io: CheckIO) {
    var token := RequestTokenOf(dep, rs, client);
    var url := dep.args.loginURL(DetailsOf(dep, rs, client));
    && (out.Stopped? && out.answer.Redirected? <==> LoginDue(dep, token, b, io) && Trusted(dep, url))
    && (LoginDue(dep, token, b, io) && Trusted(dep, url) ==>
          out == Stopped(Redirected(url, rs.source.url.scheme, rs.source.url.host)))
    && (LoginDue(dep, token, b, io) && !Trusted(dep, url) ==> out == Stopped(Denied(400)))
    && (Malformed(dep, token) ==> out == Stopped(Denied(400)))
    && (Refused(dep, token, b, io) ==> out == Stopped(Denied(401)))
    && (Broken(dep, token, b, io) ==> out == Stopped(Denied(500)))
    && (Deciding(dep, token, io).Some? && Proven(dep, Deciding(dep, token, io).value, b, io).Some? ==>
          AnswersPayload(dep, rs, Proven(dep, Deciding(dep, token, io).value, b, io).value, out, client, b, io))
  }

  /** One of the cases always applies. */
  lemma CasesCover(dep: Deployment, token: Text, b: Bucket, io: CheckIO)
    ensures LoginDue(dep, token, b, io) || Malformed(dep, token) || Refused(dep, token, b, io) || Broken(dep, token, b, io)
            || (Deciding(dep, token, io).Some? && Proven(dep, Deciding(dep, token, io).value, b, io).Some?)
  {
  }

  lemma TrustedMeaning(dep: Deployment, url: Text)
    ensures TrustedRedirect(dep.Rules(), url) <==> Trusted(dep, url)
  {
    BuildRedirects(dep.checker.admin, dep.checker.sources);
  }

  /** What a flow answers, by what the store and the service say. */
  lemma FlowAnswers(dep: Deployment, c: Credential, b: Bucket, io: CheckIO)
    ensures var result := WholeFlows.WholeFlow(dep.cfg, b, c.kind, c.token, io.flow).result;
            match Look(dep, c, b, io)
            case Reject => result == if c.kind.AccessToken? then AuthFailed else LoginRequired
            case Hit(payload, jump) => result == Authenticated(payload, jump)
            case Miss =>
              if !io.flow.exchange.Granted? then result == AuthFailed
              else if Proven(dep, c, b, io).None? then result == InternalFailed
              else result == Authenticated(Proven(dep, c, b, io).value, io.flow.exchange.jwt)
  {
  }

  /** Who a request is, for a token of its own and for a login session. */
  ghost predicate IdentityAnswers(dep: Deployment, identity: Identity, d: RequestDetails, b: Bucket, io: CheckIO) {
    var token := RequestToken(dep.args, d);
    var c := Deciding(dep, token, io);
    && (LoginDue(dep, token, b, io) <==> identity.NeedsLogin?)
    && (identity.NeedsLogin? ==> identity.url == dep.args.loginURL(d))
    && (Malformed(dep, token) ==> identity == Unidentified(400))
    && (Refused(dep, token, b, io) ==> identity == Unidentified(401))
    && (Broken(dep, token, b, io) ==> identity == Unidentified(500))
    && (c.Some? && Proven(dep, c.value, b, io).Some? ==>
          identity.Identified? && identity.ctx.payload == Proven(dep, c.value, b, io).value && identity.ctx.wat == token)
  }

  lemma TokenIdentity(dep: Deployment, d: RequestDetails, b: Bucket, io: CheckIO)
    requires RequestToken(dep.args, d) != ""
    ensures IdentityAnswers(dep, Identify(dep.cfg, dep.args, b, d, io), d, b, io)
  {
    var c := Credential(AccessToken, RequestToken(dep.args, d));
    FlowAnswers(dep, c, b, io);
    assert Authentication(dep.cfg, dep.args, b, d, io).result == WholeFlows.WholeFlow(dep.cfg, b, c.kind, c.token, io.flow).result;
  }

  lemma SessionIdentity(dep: Deployment, d: RequestDetails, b: Bucket, io: CheckIO)
    requires RequestToken(dep.args, d) == ""
    ensures IdentityAnswers(dep, Identify(dep.cfg, dep.args, b, d, io), d, b, io)
  {
    if dep.cfg.oauthEnabled && io.login.Access? && io.login.token != "" {
      var c := Credential(Session, io.login.token);
      FlowAnswers(dep, c, b, io);
      assert Authentication(dep.cfg, dep.args, b, d, io).result == WholeFlows.WholeFlow(dep.cfg, b, c.kind, c.token, io.flow).result;
    }
  }

  lemma IdentifyAnswers(dep: Deployment, rs: RawSource, client: map<Text, Text>, b: Bucket, io: CheckIO)
    ensures var d := DetailsOf(dep, rs, client);
            IdentityAnswers(dep, Identify(dep.cfg, dep.args, b, d, io), d, b, io)
  {
    var d := DetailsOf(dep, rs, client);
    if RequestToken(dep.args, d) == "" {
      SessionIdentity(dep, d, b, io);
    } else {
      TokenIdentity(dep, d, b, io);
    }
  }

  lemma ServedByCheck(dep: Deployment, rs: RawSource, path: Text, client: map<Text, Text>, b: Bucket, io: CheckIO)
    requires !rs.noAuth
    ensures var answer := CheckAnswer(dep.cfg, dep.args, dep.Rules(), b, DetailsOf(dep, rs, client), io);
            var out := ServeRoute(dep, CompiledRoute(dep, rs), path, client, b, io);
            if answer.Allowed? then out.Forwarded? else out == Stopped(answer)
  {
    assert CompiledRoute(dep, rs).authz == CheckSettings(AuthzContext(rs));
  }

  lemma DenialMeaning(dep: Deployment, id: Text, p: TokenPayload)
    ensures var denial := Authorize(dep.checker.Controls().auth, dep.isUUID, id, p);
            var rules := LastWith(dep.checker.sources, id);
            if id == "" then denial.Some? && DenialCode(denial.value) == 500
            else if !dep.isUUID(id) then denial.Some? && DenialCode(denial.value) == 400
            else if rules.None? then denial.Some? && DenialCode(denial.value) == 404
            else if !Admits(rules.value, p) then denial.Some? && DenialCode(denial.value) == 401
            else denial.None?
  {
    AuthorizeMeaning(dep.checker.admin, dep.checker.sources, dep.isUUID, id, p);
    BuildIndexes(dep.checker.admin, dep.checker.sources, id);
  }

  lemma {:induction false} PayloadAnswers(dep: Deployment, rs: RawSource, path: Text, client: map<Text, Text>, b: Bucket, io: CheckIO)
    requires !rs.noAuth
    requires Identify(dep.cfg, dep.args, b, DetailsOf(dep, rs, client), io).Identified?
    ensures var p := Identify(dep.cfg, dep.args, b, DetailsOf(dep, rs, client), io).ctx.payload;
            AnswersPayload(dep, rs, p, ServeRoute(dep, CompiledRoute(dep, rs), path, client, b, io), client, b, io)
  {
    ContextValues(rs);
    DenialMeaning(dep, rs.id, Identify(dep.cfg, dep.args, b, DetailsOf(dep, rs, client), io).ctx.payload);
    ServedByCheck(dep, rs, path, client, b, io);
  }

  lemma {:induction false} RouteAnswers(dep: Deployment, rs: RawSource, path: Text, client: map<Text, Text>, b: Bucket, io: CheckIO)
    requires !rs.noAuth
    ensures Answered(dep, rs, ServeRoute(dep, CompiledRoute(dep, rs), path, client, b, io), client, b, io)
  {
    var d := DetailsOf(dep, rs, client);
    ContextValues(rs);
    TrustedMeaning(dep, dep.args.loginURL(d));
    IdentifyAnswers(dep, rs, client, b, io);
    ServedByCheck(dep, rs, path, client, b, io);
    if Identify(dep.cfg, dep.args, b, d, io).Identified? {
      PayloadAnswers(dep, rs, path, client, b, io);
    }
  }

  /**
   * Every routed request, for whatever the two services hold: the winning source either skips
   * authorisation and forwards, or the answer follows from the request's credential, the
   * checker's sources and the login page. It is a redirect exactly when a login is due and the
   * page is on a trusted host.
   */
  lemma {:induction false} RequestAnswered(dep: Deployment, o: SnapshotOrder, s: Snapshot, domain: Text, path: Text,
                                           client: map<Text, Text>, b: Bucket, io: CheckIO)
    requires IsSnapshot(dep.x, dep.encoder, dep.compiler.Controls().proxy, o, s)
    ensures var host := ServingHost(dep.compiler.sources, domain);
            var out := Serve(dep, s.hosts, domain, path, client, b, io);
            !out.NoRoute? ==>
              exists j :: 0 <= j < |dep.compiler.sources| && Wins(dep.compiler.sources, j, host, path)
                && if dep.compiler.sources[j].noAuth then out.Forwarded?
                   else Answered(dep, dep.compiler.sources[j], out, client, b, io)
  {
    CompiledTable(dep, o, s, domain, path);
    var host := ServingHost(dep.compiler.sources, domain);
    var r := RouteRequest(s.hosts, domain, path);
    if r.Some? {
      var j :| 0 <= j < |dep.compiler.sources| && Wins(dep.compiler.sources, j, host, path)
               && r.value == CompiledRoute(dep, dep.compiler.sources[j]);
      var rs := dep.compiler.sources[j];
      if rs.noAuth {
        ServedByRoute(dep, rs, path, client, b, io);
      } else {
        RouteAnswers(dep, rs, path, client, b, io);
      }
    }
  }

  /** A request whose own token is a subtoken of the route's community takes that token upstream. */
  lemma {:induction false} OwnSubtokenSent(dep: Deployment, rs: RawSource, client: map<Text, Text>, b: Bucket, io: CheckIO)
    requires var token := RequestTokenOf(dep, rs, client);
             && Deciding(dep, token, io).Some? && Proven(dep, Deciding(dep, token, io).value, b, io).Some?
    ensures var token := RequestTokenOf(dep, rs, client);
            var p := Proven(dep, Deciding(dep, token, io).value, b, io).value;
            rs.communityID != "" && p.externalID == rs.communityID && p.parentID != "" ==>
              SubtokenFor(dep, rs, client, b, io) == Subtoken(token)
  {
    var d := DetailsOf(dep, rs, client);
    IdentifyAnswers(dep, rs, client, b, io);
    TokenAnswers.SubtokenAnswers(dep.cfg, AfterIdentify(dep.cfg, dep.args, b, d, io), Identify(dep.cfg, dep.args, b, d, io).ctx,
                                 rs.communityID, io.subtoken);
  }

  /** The token is read from the client's own header, which no mutation touches. */
  lemma ClientToken(dep: Deployment, rs: RawSource, client: map<Text, Text>)
    requires dep.x.subtokenHeader == dep.args.subtokenHeader && DistinctNames(dep.args)
    ensures RequestTokenOf(dep, rs, client) == dep.args.clean(Headers.Value(client, dep.args.tokenHeader))
  {
    MutatedHeaders(dep, client);
  }

  /** A login page on a listed source's host is trusted, with the www. label or without. */
  lemma SourceHostTrusted(dep: Deployment, url: Text, i: nat, host: Text)
    requires i < |dep.checker.sources| && Parsed(dep.parse, dep.checker.sources[i])
    requires host != "" && !("www." <= host) && dep.checker.sources[i].source.url.hostname in [host, "www." + host]
    ensures dep.parse(url).Some? && dep.parse(url).value.hostname in [host, "www." + host] ==> Trusted(dep, url)
  {
    KeyMeaning(dep.checker.sources[i].source.url, host);
    if dep.parse(url).Some? {
      KeyMeaning(dep.parse(url).value, host);
    }
  }

  // What a check leaves in the store

  predicate Proves(dep: Deployment, token: Text, b: Bucket, io: CheckIO) {
    Deciding(dep, token, io).Some? && Proven(dep, Deciding(dep, token, io).value, b, io).Some?
  }

  /** The checker's last source with the route's id admits the payload. */
  predicate Passes(dep: Deployment, rs: RawSource, p: TokenPayload) {
    var rules := LastWith(dep.checker.sources, rs.id);
    rs.id != "" && dep.isUUID(rs.id) && rules.Some? && Admits(rules.value, p)
  }

  function FirstFlow(token: Text, io: CheckIO): TokenRuns.Op {
    if token == "" then TokenRuns.Oauth(io.login, io.flow) else TokenRuns.Wat(token, io.flow)
  }

  function ContextFor(token: Text, p: TokenPayload): TokenContext {
    TokenContext(token, if token == "" then "" else TokenID(token), p)
  }

  /** The whole flows of a check: one for the credential, and one for the subtoken of an admitted request. */
  function CheckFlows(dep: Deployment, rs: RawSource, token: Text, b: Bucket, io: CheckIO): seq<TokenRuns.Op> {
    if Malformed(dep, token) then []
    else
      [FirstFlow(token, io)]
      + (if !Proves(dep, token, b, io) then []
         else
           var p := Proven(dep, Deciding(dep, token, io).value, b, io).value;
           if Passes(dep, rs, p) then [TokenRuns.Sub(ContextFor(token, p), rs.communityID, io.subtoken)] else [])
  }

  lemma RunOne(cfg: Config, b: Bucket, op: TokenRuns.Op)
    ensures TokenRuns.Run(cfg, b, [op]) == TokenRuns.Apply(cfg, b, op)
  {
    assert [op][..0] == [];
  }

  lemma RunTwo(cfg: Config, b: Bucket, op: TokenRuns.Op, next: TokenRuns.Op)
    ensures TokenRuns.Run(cfg, b, [op] + [next]) == TokenRuns.Apply(cfg, TokenRuns.Apply(cfg, b, op), next)
  {
    assert ([op] + [next])[..1] == [op];
    RunOne(cfg, b, op);
  }

  lemma IdentifyLeaves(dep: Deployment, d: RequestDetails, b: Bucket, io: CheckIO)
    requires !Malformed(dep, RequestToken(dep.args, d))
    ensures AfterIdentify(dep.cfg, dep.args, b, d, io) == TokenRuns.Apply(dep.cfg, b, FirstFlow(RequestToken(dep.args, d), io))
  {
  }

  lemma AuthorizedLeaves(dep: Deployment, rs: RawSource, client: map<Text, Text>, b: Bucket, io: CheckIO)
    requires Identify(dep.cfg, dep.args, b, DetailsOf(dep, rs, client), io).Identified?
    ensures var d := DetailsOf(dep, rs, client);
            var ctx := Identify(dep.cfg, dep.args, b, d, io).ctx;
            var b1 := AfterIdentify(dep.cfg, dep.args, b, d, io);
            && ctx == ContextFor(RequestTokenOf(dep, rs, client), ctx.payload)
            && AfterCheck(dep.cfg, dep.args, dep.Rules(), b, d, io)
               == if Passes(dep, rs, ctx.payload)
                  then TokenRuns.Apply(dep.cfg, b1, TokenRuns.Sub(ctx, rs.communityID, io.subtoken)) else b1
  {
    var d := DetailsOf(dep, rs, client);
    var ctx := Identify(dep.cfg, dep.args, b, d, io).ctx;
    ContextValues(rs);
    assert d.routeID == rs.id && d.communityID == rs.communityID;
    PassesMeaning(dep, rs, ctx.payload);
    assert AfterCheck(dep.cfg, dep.args, dep.Rules(), b, d, io)
        == if Authorize(dep.checker.Controls().auth, dep.isUUID, rs.id, ctx.payload).Some? then AfterIdentify(dep.cfg, dep.args, b, d, io)
           else SubtokenFlow(dep.cfg, AfterIdentify(dep.cfg, dep.args, b, d, io), ctx, rs.communityID, io.subtoken).bucket;
  }

  lemma PassesMeaning(dep: Deployment, rs: RawSource, p: TokenPayload)
    ensures Passes(dep, rs, p) <==> Authorize(dep.checker.Controls().auth, dep.isUUID, rs.id, p).None?
  {
    AuthorizeMeaning(dep.checker.admin, dep.checker.sources, dep.isUUID, rs.id, p);
  }

  /** A check leaves the bucket that a run of its whole flows leaves. */
  lemma {:induction false} CheckLeaves(dep: Deployment, rs: RawSource, client: map<Text, Text>, b: Bucket, io: CheckIO)
    ensures AfterCheck(dep.cfg, dep.args, dep.Rules(), b, DetailsOf(dep, rs, client), io)
            == TokenRuns.Run(dep.cfg, b, CheckFlows(dep, rs, RequestTokenOf(dep, rs, client), b, io))
  {
    var token, d := RequestTokenOf(dep, rs, client), DetailsOf(dep, rs, client);
    IdentifyAnswers(dep, rs, client, b, io);
    CasesCover(dep, token, b, io);
    if !Malformed(dep, token) {
      IdentifyLeaves(dep, d, b, io);
      RunOne(dep.cfg, b, FirstFlow(token, io));
      if Proves(dep, token, b, io) {
        var p := Proven(dep, Deciding(dep, token, io).value, b, io).value;
        AuthorizedLeaves(dep, rs, client, b, io);
        RunTwo(dep.cfg, b, FirstFlow(token, io), TokenRuns.Sub(ContextFor(token, p), rs.communityID, io.subtoken));
      }
    }
  }
}
