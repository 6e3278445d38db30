/** The authorisation server: one check, from the request's headers and bound context to its answer. */
module AuthServers {
  import opened GoText
  import opened MapOrder
  import opened Wormhole
  import opened TokenSpec
  import opened RouteTable
  import Sources
  import Registry
  import Authenticators
  import Headers

  /** What the check knows of a request: its headers, and the context bound to its route. */
  datatype RequestDetails = RequestDetails(
    headers: map<Text, Text>,
    communityID: Text,
    routeID: Text,
    host: Text,
    scheme: Text)

  /**
   * The configured header names; the cleaning of a token header, the token's shape and the
   * login page of a request are given.
   */
  datatype AuthArgs = AuthArgs(
    tokenHeader: Text,
    subtokenHeader: Text,
    clean: Text -> Text,
    validToken: Text -> bool,
    loginURL: RequestDetails -> Text)

  /** What the login proxy, the token service and the store answer during one check. */
  datatype CheckIO = CheckIO(flow: FlowIO, login: ProxyAuth, subtoken: SubtokenIO)

  const UNAUTHORIZED: nat := 401
  const BAD_REQUEST: nat := 400
  const NOT_FOUND: nat := 404
  const INTERNAL: nat := 500

  datatype Identity =
    | Identified(ctx: TokenContext, setHeaders: map<Text, Text>)
    | NeedsLogin(url: Text)
    | Unidentified(code: nat)

  datatype Answer =
    | Allowed(setHeaders: map<Text, Text>)
    | Redirected(location: Text, scheme: Text, host: Text)
    | Denied(code: nat)

  function EstablishDetails(headers: map<Text, Text>, context: map<Text, Text>): RequestDetails {
    RequestDetails(headers, Headers.Value(context, Headers.COMMUNITY), Headers.Value(context, Headers.ROUTE_ID),
                   Headers.Value(context, Headers.WORMHOLE_HOST), Headers.Value(context, Headers.WORMHOLE_SCHEME))
  }

  function RequestToken(args: AuthArgs, d: RequestDetails): Text {
    args.clean(Headers.Value(d.headers, args.tokenHeader))
  }

  /** A request token must look like one; without a request token the login session decides. */
  function Authentication(cfg: Config, args: AuthArgs, b: Bucket, d: RequestDetails, io: CheckIO): FlowOutcome {
    var token := RequestToken(args, d);
    if token == "" then OauthFlow(cfg, b, io.login, io.flow) else WatFlow(cfg, b, token, io.flow)
  }

  predicate MalformedToken(args: AuthArgs, d: RequestDetails) {
    RequestToken(args, d) != "" && !args.validToken(RequestToken(args, d))
  }

  function ContextOf(args: AuthArgs, d: RequestDetails, payload: TokenPayload): TokenContext {
    var token := RequestToken(args, d);
    TokenContext(token, if token == "" then "" else TokenID(token), payload)
  }

  function TokenHeaders(args: AuthArgs, jump: Text, d: RequestDetails): map<Text, Text> {
    var headers := map[args.tokenHeader := jump][Headers.ROUTE_ID := d.routeID];
    if d.communityID != "" then headers[Headers.COMMUNITY := d.communityID] else headers
  }

  function Identify(cfg: Config, args: AuthArgs, b: Bucket, d: RequestDetails, io: CheckIO): Identity {
    if MalformedToken(args, d) then Unidentified(BAD_REQUEST)
    else
      match Authentication(cfg, args, b, d, io).result
      case Authenticated(payload, jump) => Identified(ContextOf(args, d, payload), TokenHeaders(args, jump, d))
      case AuthFailed => Unidentified(UNAUTHORIZED)
      case InternalFailed => Unidentified(INTERNAL)
      case LoginRequired => NeedsLogin(args.loginURL(d))
  }

  function AfterIdentify(cfg: Config, args: AuthArgs, b: Bucket, d: RequestDetails, io: CheckIO): Bucket {
    if MalformedToken(args, d) then b else Authentication(cfg, args, b, d, io).bucket
  }

  function DenialCode(d: Registry.Denial): nat {
    match d
    case InvalidRouteID => BAD_REQUEST
    case MissingRouteID => INTERNAL
    case UnknownRoute => NOT_FOUND
    case _ => UNAUTHORIZED
  }

  /** The registry a check consults. */
  datatype Rules = Rules(parse: Sources.Parser, isUUID: Text -> bool, controls: Registry.Controls)

  predicate TrustedRedirect(rules: Rules, url: Text) {
    rules.parse(url).Some? && Sources.NormalizedKey(rules.parse(url).value) in rules.controls.redirect - {""}
  }

  function UpstreamHeaders(args: AuthArgs, set0: map<Text, Text>, d: RequestDetails, subtoken: SubtokenResult): map<Text, Text> {
    (if subtoken.Subtoken? && subtoken.token != "" then set0[args.subtokenHeader := subtoken.token] else set0)
    [Headers.ROUTE_ID := d.routeID][Headers.WORMHOLE_HOST := d.host][Headers.WORMHOLE_SCHEME := d.scheme]
  }

  /** The answer to a check: identify, authorise against the bound route, then see to a subtoken. */
  function CheckAnswer(cfg: Config, args: AuthArgs, rules: Rules, b: Bucket, d: RequestDetails, io: CheckIO): Answer {
    match Identify(cfg, args, b, d, io)
    case Unidentified(code) => Denied(code)
    case NeedsLogin(url) => if TrustedRedirect(rules, url) then Redirected(url, d.scheme, d.host) else Denied(BAD_REQUEST)
    case Identified(ctx, set0) =>
      match Registry.Authorize(rules.controls.auth, rules.isUUID, d.routeID, ctx.payload)
      case Some(denial) => Denied(DenialCode(denial))
      case None =>
        var subtoken := SubtokenFlow(cfg, AfterIdentify(cfg, args, b, d, io), ctx, d.communityID, io.subtoken).result;
        if subtoken.SubtokenFailed? then Denied(INTERNAL) else Allowed(UpstreamHeaders(args, set0, d, subtoken))
  }

  function AfterCheck(cfg: Config, args: AuthArgs, rules: Rules, b: Bucket, d: RequestDetails, io: CheckIO): Bucket {
    var b1 := AfterIdentify(cfg, args, b, d, io);
    match Identify(cfg, args, b, d, io)
    case Identified(ctx, _) =>
      if Registry.Authorize(rules.controls.auth, rules.isUUID, d.routeID, ctx.payload).Some? then b1
      else SubtokenFlow(cfg, b1, ctx, d.communityID, io.subtoken).bucket
    case _ => b1
  }

  /** The response as sent: the headers of an allowed request are listed in map order. */
  datatype CheckResponse = Ok(headers: seq<Mutation>) | Found(location: Text, scheme: Text, host: Text) | Deny(code: nat)

  function OverwriteAll(headers: map<Text, Text>, order: seq<Text>): (ms: seq<Mutation>)
    requires IsOrder(headers.Keys, order)
    ensures |ms| == |order|
  {
    assert forall i :: 0 <= i < |order| ==> order[i] in order;
    seq(|order|, i requires 0 <= i < |order| => Overwrite(order[i], headers[order[i]]))
  }

  ghost predicate Lists(ms: seq<Mutation>, headers: map<Text, Text>) {
    exists order :: IsOrder(headers.Keys, order) && ms == OverwriteAll(headers, order)
  }

  ghost predicate Responds(r: CheckResponse, a: Answer) {
    match a
    case Allowed(headers) => r.Ok? && Lists(r.headers, headers)
    case Redirected(url, scheme, host) => r == Found(url, scheme, host)
    case Denied(code) => r == Deny(code)
  }

  method AllowRequest(headers: map<Text, Text>) returns (ms: seq<Mutation>)
    ensures Lists(ms, headers)
  {
    ms := [];
    var rest := headers.Keys;
    ghost var order: seq<Text> := [];
    while rest != {}
      invariant rest <= headers.Keys
      invariant IsOrder(headers.Keys - rest, order)
      invariant |ms| == |order|
      invariant forall i :: 0 <= i < |order| ==> order[i] in headers && ms[i] == Overwrite(order[i], headers[order[i]])
    {
      var k :| k in rest;
      assert k !in order;
      ms, order, rest := ms + [Overwrite(k, headers[k])], order + [k], rest - {k};
    }
    assert headers.Keys - rest == headers.Keys;
    assert ms == OverwriteAll(headers, order);
  }

  class AuthServer {
    const args: AuthArgs
    const tokenAuth: Authenticators.Authenticator
    const routeReg: Registry.Router

    constructor (args: AuthArgs, tokenAuth: Authenticators.Authenticator, routeReg: Registry.Router)
      ensures this.args == args && this.tokenAuth == tokenAuth && this.routeReg == routeReg
    {
      this.args, this.tokenAuth, this.routeReg := args, tokenAuth, routeReg;
    }

    function RegistryRules(): Rules
      reads routeReg
    {
      Rules(routeReg.parse, routeReg.isUUID, routeReg.Current())
    }

    method RequestHeader(d: RequestDetails, io: CheckIO) returns (r: Identity)
      modifies tokenAuth.kv
      ensures r == Identify(tokenAuth.cfg, args, old(tokenAuth.kv.entries), d, io)
      ensures tokenAuth.kv.entries == AfterIdentify(tokenAuth.cfg, args, old(tokenAuth.kv.entries), d, io)
    {
      var token := RequestToken(args, d);
      var result: FlowResult;
      if token != "" {
        if !args.validToken(token) {
          return Unidentified(BAD_REQUEST);
        }
        result := tokenAuth.WormholeAccessTokenFlow(token, io.flow);
      } else {
        result := tokenAuth.OauthSessionFlow(io.login, io.flow);
      }
      match result {
        case Authenticated(payload, jump) => r := Identified(ContextOf(args, d, payload), TokenHeaders(args, jump, d));
        case AuthFailed => r := Unidentified(UNAUTHORIZED);
        case InternalFailed => r := Unidentified(INTERNAL);
        case LoginRequired => r := NeedsLogin(args.loginURL(d));
      }
    }

    method Check(headers: map<Text, Text>, context: map<Text, Text>, io: CheckIO) returns (r: CheckResponse)
      modifies tokenAuth.kv
      ensures Responds(r, CheckAnswer(tokenAuth.cfg, args, old(RegistryRules()), old(tokenAuth.kv.entries),
                                      EstablishDetails(headers, context), io))
      ensures tokenAuth.kv.entries
              == AfterCheck(tokenAuth.cfg, args, old(RegistryRules()), old(tokenAuth.kv.entries), EstablishDetails(headers, context), io)
    {
      var d := EstablishDetails(headers, context);
      var identity := RequestHeader(d, io);
      if identity.NeedsLogin? {
        var trusted := routeReg.AllowedRedirect(identity.url);
        return if trusted then Found(identity.url, d.scheme, d.host) else Deny(BAD_REQUEST);
      }
      if identity.Unidentified? {
        return Deny(identity.code);
      }
      var denial := routeReg.AuthorizeProxyCtls(d.routeID, identity.ctx.payload);
      if denial.Some? {
        return Deny(DenialCode(denial.value));
      }
      var subtoken := tokenAuth.SubtokenFlowFor(identity.ctx, d.communityID, io.subtoken);
      if subtoken.SubtokenFailed? {
        return Deny(INTERNAL);
      }
      var toSet := identity.setHeaders;
      if subtoken.Subtoken? && subtoken.token != "" {
        toSet := toSet[args.subtokenHeader := subtoken.token];
      }
      toSet := toSet[Headers.ROUTE_ID := d.routeID][Headers.WORMHOLE_HOST := d.host][Headers.WORMHOLE_SCHEME := d.scheme];
      var ms := AllowRequest(toSet);
      return Ok(ms);
    }
  }
}
