/**
 * A request through the delivered routes, the header mutations and the authorisation check,
 * stated in terms of the listed route sources alone.
 */
module EndToEnd {
  import opened GoText
  import opened Requests
  import opened Sources
  import opened MapOrder
  import opened RouteTable
  import opened HeaderMutations
  import opened ClusterNames
  import opened Clusters
  import opened Registry
  import opened RouteCompiler
  import opened XdsServer
  import opened Wormhole
  import opened TokenSpec
  import opened AuthServers
  import Distribution
  import Headers

  /** What one service holds at a moment: its redirect hosts, and its sources in order. */
  datatype Held = Held(admin: set<Text>, sources: seq<RawSource>)
  {
    function Controls(): Registry.Controls {
      Build(admin, sources)
    }
  }

  /** The route compiler and the authorisation server each act on what they hold themselves. */
  datatype Deployment = Deployment(
    x: XdsConfig,
    encoder: Encoder,
    cfg: Config,
    args: AuthArgs,
    parse: Parser,
    isUUID: Text -> bool,
    compiler: Held,
    checker: Held)
  {
    function Rules(): AuthServers.Rules {
      AuthServers.Rules(parse, isUUID, checker.Controls())
    }
  }

  /** A forwarded request names the cluster, the host and the path that go upstream, and its headers. */
  datatype Outcome =
    | NoRoute
    | Stopped(answer: Answer)
    | Forwarded(cluster: Text, host: Text, path: Text, headers: map<Text, Text>)

  /** The router replaces the matched prefix of the path, if the route rewrites it, and the host. */
  function Forward(r: Route, path: Text, headers: map<Text, Text>): Outcome {
    var rewritten := if r.prefixRewrite == "" then path else r.prefixRewrite + TrimPrefix(path, r.prefix);
    Forwarded(r.cluster, r.hostRewrite, rewritten, headers)
  }

  /** The filters in order: the route's mutations, the check unless disabled, then the router. */
  function ServeRoute(dep: Deployment, r: Route, path: Text, client: map<Text, Text>, b: Bucket, io: CheckIO): Outcome {
    var mutated := Apply(client, r.requestMutations);
    match r.authz
    case Disabled => Forward(r, path, mutated)
    case CheckSettings(context) =>
      var answer := CheckAnswer(dep.cfg, dep.args, dep.Rules(), b, EstablishDetails(mutated, context), io);
      if answer.Allowed? then Forward(r, path, mutated + answer.setHeaders) else Stopped(answer)
  }

  function Serve(dep: Deployment, hosts: seq<HostRoutes>, domain: Text, path: Text, client: map<Text, Text>,
                 b: Bucket, io: CheckIO): Outcome {
    match RouteRequest(hosts, domain, path)
    case None => NoRoute
    case Some(r) => ServeRoute(dep, r, path, client, b, io)
  }

  // The reference: what the sources say

  /** No later source replaces the j-th one. */
  predicate InForce(sources: seq<RawSource>, j: nat)
    requires j < |sources|
  {
    forall k :: j < k < |sources| ==> sources[k].id != sources[j].id
  }

  predicate Serves(sources: seq<RawSource>, host: Text) {
    exists j :: 0 <= j < |sources| && InForce(sources, j) && Domain(sources[j].source.url) == host
  }

  /** The sources that answer for a domain: its own, or else those for any domain. */
  function ServingHost(sources: seq<RawSource>, domain: Text): Text {
    if Serves(sources, domain) then domain else ANY_DOMAIN
  }

  predicate Applies(sources: seq<RawSource>, j: nat, host: Text, path: Text)
    requires j < |sources|
  {
    InForce(sources, j) && Domain(sources[j].source.url) == host && NormalizePath(sources[j].source.url) <= path
  }

  /** The j-th source is one with the longest prefix that applies. */
  predicate Wins(sources: seq<RawSource>, j: nat, host: Text, path: Text)
    requires j < |sources|
  {
    && Applies(sources, j, host, path)
    && forall k :: 0 <= k < |sources| && Applies(sources, k, host, path) ==>
         |NormalizePath(sources[k].source.url)| <= |NormalizePath(sources[j].source.url)|
  }

  /**
   * The request, routed by one source, is authenticated as a token that the given rules admit,
   * and no subtoken it needs is missing.
   */
  ghost predicate Authorised(dep: Deployment, rs: RawSource, rules: RawSource, client: map<Text, Text>, b: Bucket, io: CheckIO) {
    var d := EstablishDetails(Mutated(dep, client), AuthzContext(rs));
    var identity := Identify(dep.cfg, dep.args, b, d, io);
    && identity.Identified?
    && rs.id != "" && dep.isUUID(rs.id) && Admits(rules, identity.ctx.payload)
    && !SubtokenFor(dep, rs, client, b, io).SubtokenFailed?
  }

  /** The client's headers once the route's mutations have run. */
  function Mutated(dep: Deployment, client: map<Text, Text>): map<Text, Text> {
    Apply(client, RouteMutations(dep.x.subtokenHeader, dep.x.version, map[], []))
  }

  function SubtokenFor(dep: Deployment, rs: RawSource, client: map<Text, Text>, b: Bucket, io: CheckIO): SubtokenResult {
    var d := EstablishDetails(Mutated(dep, client), AuthzContext(rs));
    match Identify(dep.cfg, dep.args, b, d, io)
    case Identified(ctx, _) => SubtokenFlow(dep.cfg, AfterIdentify(dep.cfg, dep.args, b, d, io), ctx, rs.communityID, io.subtoken).result
    case _ => NoSubtoken
  }

  /** The host is a loopback one, or the wildcard itself. */
  predicate ForAnyDomain(u: URL) {
    u.hostname == "localhost" || "127." <= u.hostname || u.hostname == "*"
  }

  /**
   * A source is used for its own host name only, unless it names a loopback host: those serve
   * every domain that no other source names.
   */
  lemma WinnerHost(sources: seq<RawSource>, j: nat, domain: Text, path: Text)
    requires j < |sources| && domain != "*"
    ensures Wins(sources, j, ServingHost(sources, domain), path) ==>
              if exists k :: 0 <= k < |sources| && InForce(sources, k) && sources[k].source.url.hostname == domain
                             && !ForAnyDomain(sources[k].source.url)
              then sources[j].source.url.hostname == domain else ForAnyDomain(sources[j].source.url)
    ensures (forall k :: 0 <= k < |sources| && InForce(sources, k) && sources[k].source.url.hostname == domain
                         ==> ForAnyDomain(sources[k].source.url))
            && InForce(sources, j) && ForAnyDomain(sources[j].source.url) && NormalizePath(sources[j].source.url) <= path ==>
              Applies(sources, j, ServingHost(sources, domain), path)
  {
    assert |"*"| == 1 && |"localhost"| == 9 && "localhost"[0] == 'l' && "127."[0] == '1';
    forall k | 0 <= k < |sources|
      ensures Domain(sources[k].source.url) == (if ForAnyDomain(sources[k].source.url) then "*" else sources[k].source.url.hostname)
    {
      assert "127." <= "127.0.0.1";
    }
  }

  // Sources and controls

  lemma {:induction false} InForceIsLast(sources: seq<RawSource>, j: nat)
    requires j < |sources| && InForce(sources, j)
    ensures LastWith(sources, sources[j].id) == Some(sources[j])
  {
    if j < |sources| - 1 {
      InForceIsLast(sources[..|sources| - 1], j);
    }
  }

  lemma {:induction false} InForceControl(admin: set<Text>, sources: seq<RawSource>, j: nat)
    requires j < |sources| && InForce(sources, j)
    ensures var proxy := Build(admin, sources).proxy;
            sources[j].id in proxy && proxy[sources[j].id] == ProxyOf(sources[j])
  {
    InForceIsLast(sources, j);
    BuildIndexes(admin, sources, sources[j].id);
  }

  lemma ControlInForce(admin: set<Text>, sources: seq<RawSource>, id: Text) returns (j: nat)
    requires id in Build(admin, sources).proxy
    ensures j < |sources| && InForce(sources, j) && sources[j].id == id
    ensures LastWith(sources, id) == Some(sources[j]) && Build(admin, sources).proxy[id] == ProxyOf(sources[j])
  {
    BuildIndexes(admin, sources, id);
    j :| 0 <= j < |sources| && sources[j] == LastWith(sources, id).value && sources[j].id == id
         && forall k :: j < k < |sources| ==> sources[k].id != id;
  }

  /** Every control the registry builds carries its own id and no headers of its own. */
  lemma {:induction false} BuiltWellKeyed(admin: set<Text>, sources: seq<RawSource>)
    ensures WellKeyed(Build(admin, sources).proxy)
    ensures forall id :: id in Build(admin, sources).proxy ==> Build(admin, sources).proxy[id].requestHeaders == map[]
  {
    forall id | id in Build(admin, sources).proxy
      ensures Headers.Value(Build(admin, sources).proxy[id].authzContext, Headers.ROUTE_ID) == id
      ensures Build(admin, sources).proxy[id].requestHeaders == map[]
    {
      var j := ControlInForce(admin, sources, id);
      ContextValues(sources[j]);
    }
  }

  /** So for built controls the winning route id ignores map order exactly when no two routes clash. */
  lemma {:induction false} BuiltOrderFree(x: XdsConfig, admin: set<Text>, sources: seq<RawSource>)
    ensures OrderFree(x, Build(admin, sources).proxy) <==> DistinctPairs(Build(admin, sources).proxy)
  {
    BuiltWellKeyed(admin, sources);
    RouteIDOrderFree(x, Build(admin, sources).proxy);
  }

  lemma ContextValues(rs: RawSource)
    ensures var d := EstablishDetails(map[], AuthzContext(rs));
            d.routeID == rs.id && d.host == rs.source.url.host && d.scheme == rs.source.url.scheme && d.communityID == rs.communityID
  {
  }

  lemma {:induction false} SameHost(admin: set<Text>, sources: seq<RawSource>, domain: Text)
    ensures ServingHost(sources, domain) == VirtualHostOf(Build(admin, sources).proxy, domain)
  {
    var proxy := Build(admin, sources).proxy;
    if Serves(sources, domain) {
      var j :| 0 <= j < |sources| && InForce(sources, j) && Domain(sources[j].source.url) == domain;
      InForceControl(admin, sources, j);
    }
    if HasDomain(proxy, domain) {
      var k :| k in proxy && Domain(proxy[k].source.url) == domain;
      var j := ControlInForce(admin, sources, k);
    }
  }

  /** The route a source compiles to. */
  function CompiledRoute(dep: Deployment, rs: RawSource): Route {
    SingleRoute(dep.x, ProxyOf(rs), RouteMutations(dep.x.subtokenHeader, dep.x.version, map[], []))
  }

  /** The fields of a compiled route, each by the source it comes from. */
  predicate CompiledFrom(dep: Deployment, rs: RawSource, r: Route) {
    && r.prefix == NormalizePath(rs.source.url)
    && r.cluster == ClusterName(dep.x.sha, rs.destination.url)
    && r.hostRewrite == rs.destination.url.host && r.prefixRewrite == rs.prefixRewrite
    && r.metadata.Keys == {"route_id", "host", "scheme"}
                          + (if rs.communityID == "" then {} else {"community"}) + (if rs.noAuth then {"features"} else {})
    && r.metadata["route_id"] == rs.id && r.metadata["host"] == rs.source.url.host && r.metadata["scheme"] == rs.source.url.scheme
    && (rs.communityID != "" ==> r.metadata["community"] == rs.communityID)
    && (rs.noAuth ==> r.metadata["features"] == "noauth" && r.authz == Disabled)
    && (!rs.noAuth ==> r.authz == CheckSettings(AuthzContext(rs)))
  }

  lemma CompiledFields(dep: Deployment, rs: RawSource)
    ensures CompiledFrom(dep, rs, CompiledRoute(dep, rs))
  {
    ContextValues(rs);
    assert |"host"| == 4 && |"scheme"| == 6 && |"route_id"| == 8 && |"community"| == 9 && "features"[0] == 'f';
  }

  lemma OrderStartsInside(keys: set<Text>, order: seq<Text>)
    requires IsOrder(keys, order)
    ensures order == [] || order[0] in keys
  {
    if order != [] {
      assert order[0] in order;
    }
  }

  lemma {:induction false} AppliesMatches(admin: set<Text>, sources: seq<RawSource>, j: nat, host: Text, path: Text)
    requires j < |sources|
    ensures var proxy := Build(admin, sources).proxy;
            Applies(sources, j, host, path) ==> sources[j].id in proxy && proxy[sources[j].id] == ProxyOf(sources[j])
                                                && Matches(proxy[sources[j].id], host, path)
  {
    if InForce(sources, j) {
      InForceControl(admin, sources, j);
    }
  }

  /** A matching control with the longest prefix comes from a winning source. */
  lemma {:induction false} ControlWins(admin: set<Text>, sources: seq<RawSource>, id: Text, host: Text, path: Text) returns (j: nat)
    requires var proxy := Build(admin, sources).proxy;
             id in proxy && Matches(proxy[id], host, path)
             && forall k :: k in proxy && Matches(proxy[k], host, path) ==>
                  |NormalizePath(proxy[k].source.url)| <= |NormalizePath(proxy[id].source.url)|
    ensures j < |sources| && Wins(sources, j, host, path)
    ensures Build(admin, sources).proxy[id] == ProxyOf(sources[j])
  {
    j := ControlInForce(admin, sources, id);
    forall k | 0 <= k < |sources| && Applies(sources, k, host, path)
      ensures |NormalizePath(sources[k].source.url)| <= |NormalizePath(sources[j].source.url)|
    {
      AppliesMatches(admin, sources, k, host, path);
    }
  }

  /**
   * Compilation: whatever order the maps were ranged over, a delivered table routes a request
   * by a source in force with the longest prefix that applies, and to nothing only when none does.
   */
  lemma {:induction false} CompiledTable(dep: Deployment, o: SnapshotOrder, s: Snapshot, domain: Text, path: Text)
    requires IsSnapshot(dep.x, dep.encoder, dep.compiler.Controls().proxy, o, s)
    ensures var host := ServingHost(dep.compiler.sources, domain);
            match RouteRequest(s.hosts, domain, path)
            case None => forall j :: 0 <= j < |dep.compiler.sources| ==> !Applies(dep.compiler.sources, j, host, path)
            case Some(r) => exists j ::
              0 <= j < |dep.compiler.sources| && Wins(dep.compiler.sources, j, host, path)
              && r == CompiledRoute(dep, dep.compiler.sources[j]) && CompiledFrom(dep, dep.compiler.sources[j], r)
  {
    var proxy := dep.compiler.Controls().proxy;
    var host := ServingHost(dep.compiler.sources, domain);
    TableRoutes(dep.x.sha, s.hosts, Bindings(dep.x, proxy, o.routes), domain, path);
    SelectedControl(dep.x, proxy, o.routes, domain, path);
    SameHost(dep.compiler.admin, dep.compiler.sources, domain);
    var r := RouteRequest(s.hosts, domain, path);
    if r.Some? {
      var k :| k in proxy && Matches(proxy[k], host, path) && r.value == BindingOf(dep.x, proxy[k], o.routes.headers[k]).route
               && forall j :: j in proxy && Matches(proxy[j], host, path) ==> |NormalizePath(proxy[j].source.url)| <= |r.value.prefix|;
      assert r.value.prefix == NormalizePath(proxy[k].source.url);
      var j := ControlWins(dep.compiler.admin, dep.compiler.sources, k, host, path);
      ControlCompiles(dep, dep.compiler.sources[j], o.routes.headers[k]);
      CompiledFields(dep, dep.compiler.sources[j]);
    } else {
      NothingApplies(dep.compiler.admin, dep.compiler.sources, host, path);
    }
  }

  lemma NothingApplies(admin: set<Text>, sources: seq<RawSource>, host: Text, path: Text)
    requires var proxy := Build(admin, sources).proxy; forall k :: k in proxy ==> !Matches(proxy[k], host, path)
    ensures forall j :: 0 <= j < |sources| ==> !Applies(sources, j, host, path)
  {
    forall j | 0 <= j < |sources|
      ensures !Applies(sources, j, host, path)
    {
      AppliesMatches(admin, sources, j, host, path);
    }
  }

  lemma ControlCompiles(dep: Deployment, rs: RawSource, order: seq<Text>)
    requires IsOrder({}, order)
    ensures BindingOf(dep.x, ProxyOf(rs), order).route == CompiledRoute(dep, rs)
  {
    OrderStartsInside({}, order);
  }

  // The check against the source

  /** The checker goes by its own last source with the route's id. */
  ghost predicate CheckedBy(dep: Deployment, rs: RawSource, client: map<Text, Text>, b: Bucket, io: CheckIO) {
    var rules := LastWith(dep.checker.sources, rs.id);
    rules.Some? && Authorised(dep, rs, rules.value, client, b, io)
  }

  lemma {:induction false} CheckedAgainst(dep: Deployment, rs: RawSource, client: map<Text, Text>, b: Bucket, io: CheckIO)
    ensures var d := EstablishDetails(Mutated(dep, client), AuthzContext(rs));
            CheckAnswer(dep.cfg, dep.args, dep.Rules(), b, d, io).Allowed? <==> CheckedBy(dep, rs, client, b, io)
  {
    var d := EstablishDetails(Mutated(dep, client), AuthzContext(rs));
    ContextValues(rs);
    match Identify(dep.cfg, dep.args, b, d, io)
    case Identified(ctx, _) => AuthorizeMeaning(dep.checker.admin, dep.checker.sources, dep.isUUID, rs.id, ctx.payload);
    case _ =>
  }

  /** What goes upstream for a source: its own cluster and host, and the path it rewrites. */
  predicate SentTo(dep: Deployment, rs: RawSource, path: Text, out: Outcome)
    requires out.Forwarded? && NormalizePath(rs.source.url) <= path
  {
    && out.cluster == ClusterName(dep.x.sha, rs.destination.url)
    && out.host == rs.destination.url.host
    && out.path == if rs.prefixRewrite == "" then path else rs.prefixRewrite + path[|NormalizePath(rs.source.url)|..]
  }

  lemma ServedByRoute(dep: Deployment, rs: RawSource, path: Text, client: map<Text, Text>, b: Bucket, io: CheckIO)
    requires NormalizePath(rs.source.url) <= path
    ensures var d := EstablishDetails(Mutated(dep, client), AuthzContext(rs));
            var answer := CheckAnswer(dep.cfg, dep.args, dep.Rules(), b, d, io);
            var out := ServeRoute(dep, CompiledRoute(dep, rs), path, client, b, io);
            if rs.noAuth then out.Forwarded? && SentTo(dep, rs, path, out) && out.headers == Mutated(dep, client)
            else if answer.Allowed? then
              out.Forwarded? && SentTo(dep, rs, path, out) && out.headers == Mutated(dep, client) + answer.setHeaders
            else out == Stopped(answer)
  {
    var r := CompiledRoute(dep, rs);
    assert r.authz == if rs.noAuth then Disabled else CheckSettings(AuthzContext(rs));
  }

  /** The outcome for a winning source: its own endpoint and path, and the checker's rules for its id. */
  ghost predicate ServedBy(dep: Deployment, out: Outcome, j: nat, host: Text, path: Text, client: map<Text, Text>, b: Bucket, io: CheckIO)
    requires j < |dep.compiler.sources|
  {
    var rs := dep.compiler.sources[j];
    && Wins(dep.compiler.sources, j, host, path)
    && (out.Forwarded? <==> rs.noAuth || CheckedBy(dep, rs, client, b, io))
    && (out.Forwarded? ==> SentTo(dep, rs, path, out))
  }

  /** The same by the winning source's own rules. */
  ghost predicate ServedByOwnRules(dep: Deployment, out: Outcome, j: nat, host: Text, path: Text, client: map<Text, Text>,
                                   b: Bucket, io: CheckIO)
    requires j < |dep.compiler.sources|
  {
    var rs := dep.compiler.sources[j];
    && Wins(dep.compiler.sources, j, host, path)
    && (out.Forwarded? <==> rs.noAuth || Authorised(dep, rs, rs, client, b, io))
    && (out.Forwarded? ==> SentTo(dep, rs, path, out))
  }

  /**
   * Whatever each service holds, for every iteration order: a request is routed exactly when
   * one of the compiler's sources applies. It then goes to the winning one's cluster, and is
   * forwarded exactly when that source skips authorisation or the checker's last source with
   * its id authorises the request.
   */
  lemma {:induction false} RequestServedSkewed(dep: Deployment, o: SnapshotOrder, s: Snapshot, domain: Text, path: Text,
                                               client: map<Text, Text>, b: Bucket, io: CheckIO)
    requires IsSnapshot(dep.x, dep.encoder, dep.compiler.Controls().proxy, o, s)
    ensures var host := ServingHost(dep.compiler.sources, domain);
            var out := Serve(dep, s.hosts, domain, path, client, b, io);
            && (out.NoRoute? <==> forall j :: 0 <= j < |dep.compiler.sources| ==> !Applies(dep.compiler.sources, j, host, path))
            && (!out.NoRoute? ==> exists j :: 0 <= j < |dep.compiler.sources| && ServedBy(dep, out, j, host, path, client, b, io))
  {
    CompiledTable(dep, o, s, domain, path);
    var host := ServingHost(dep.compiler.sources, domain);
    var r := RouteRequest(s.hosts, domain, path);
    if r.Some? {
      var j :| 0 <= j < |dep.compiler.sources| && Wins(dep.compiler.sources, j, host, path)
               && r.value == CompiledRoute(dep, dep.compiler.sources[j]);
      ServedByRoute(dep, dep.compiler.sources[j], path, client, b, io);
      CheckedAgainst(dep, dep.compiler.sources[j], client, b, io);
      assert ServedBy(dep, Serve(dep, s.hosts, domain, path, client, b, io), j, host, path, client, b, io);
    }
  }

  lemma OwnRules(dep: Deployment, out: Outcome, j: nat, host: Text, path: Text, client: map<Text, Text>, b: Bucket, io: CheckIO)
    requires dep.checker.sources == dep.compiler.sources && j < |dep.compiler.sources|
    requires ServedBy(dep, out, j, host, path, client, b, io)
    ensures ServedByOwnRules(dep, out, j, host, path, client, b, io)
  {
    InForceIsLast(dep.compiler.sources, j);
  }

  /**
   * End to end, when both services hold the same sources: the winning source, whose cluster is
   * used, either skips authorisation or authorises the request by its own community and rules.
   */
  lemma {:induction false} RequestServed(dep: Deployment, o: SnapshotOrder, s: Snapshot, domain: Text, path: Text,
                                         client: map<Text, Text>, b: Bucket, io: CheckIO)
    requires dep.checker.sources == dep.compiler.sources
    requires IsSnapshot(dep.x, dep.encoder, dep.compiler.Controls().proxy, o, s)
    ensures var host := ServingHost(dep.compiler.sources, domain);
            var out := Serve(dep, s.hosts, domain, path, client, b, io);
            && (out.NoRoute? <==> forall j :: 0 <= j < |dep.compiler.sources| ==> !Applies(dep.compiler.sources, j, host, path))
            && (!out.NoRoute? ==>
                  exists j :: 0 <= j < |dep.compiler.sources| && ServedByOwnRules(dep, out, j, host, path, client, b, io))
  {
    RequestServedSkewed(dep, o, s, domain, path, client, b, io);
    var host := ServingHost(dep.compiler.sources, domain);
    var out := Serve(dep, s.hosts, domain, path, client, b, io);
    if !out.NoRoute? {
      var j :| 0 <= j < |dep.compiler.sources| && ServedBy(dep, out, j, host, path, client, b, io);
      OwnRules(dep, out, j, host, path, client, b, io);
    }
  }

  // Distributed sources

  /** What a subscriber holds: its own sources, then the newest message it has handled. */
  function HeldBy(d: Distribution.State, sub: Distribution.Subscriber): Held {
    Held(sub.admin, sub.fixed + Distribution.Newest(d.published, sub.handled))
  }

  /** Drained, and not barred by an acknowledgement of another process of its durable name. */
  predicate UpToDate(d: Distribution.State, sub: Distribution.Subscriber) {
    Distribution.Drained(d, sub) && |d.published| !in Distribution.Barred(sub)
  }

  lemma UpToDateHeld(parse: Parser, d: Distribution.State, i: nat, k: nat)
    requires Distribution.Reachable(parse, d) && i < |d.subscribers| && k < |d.subscribers|
    requires UpToDate(d, d.subscribers[i]) && UpToDate(d, d.subscribers[k])
    requires d.subscribers[i].fixed == d.subscribers[k].fixed
    ensures HeldBy(d, d.subscribers[i]).sources == HeldBy(d, d.subscribers[k]).sources
  {
    Distribution.DrainedNewest(parse, d, i);
    Distribution.DrainedNewest(parse, d, k);
  }

  /**
   * In every reachable state of the distribution, whichever messages the two subscribers have
   * handled: routes compiled from one's indexes and checks against the other's serve requests by
   * what each holds; and once both are up to date, with the same sources of their own, by the
   * winning source's own rules.
   */
  lemma {:induction false} RequestServedInRun(dep: Deployment, d: Distribution.State, i: nat, k: nat, o: SnapshotOrder, s: Snapshot,
                                              domain: Text, path: Text, client: map<Text, Text>, b: Bucket, io: CheckIO)
    requires Distribution.Reachable(dep.parse, d) && i < |d.subscribers| && k < |d.subscribers|
    requires dep.compiler == HeldBy(d, d.subscribers[i]) && dep.checker == HeldBy(d, d.subscribers[k])
    requires IsSnapshot(dep.x, dep.encoder, d.subscribers[i].controls.proxy, o, s)
    ensures dep.Rules().controls == d.subscribers[k].controls
    ensures var host := ServingHost(dep.compiler.sources, domain);
            var out := Serve(dep, s.hosts, domain, path, client, b, io);
            && (out.NoRoute? <==> forall j :: 0 <= j < |dep.compiler.sources| ==> !Applies(dep.compiler.sources, j, host, path))
            && (!out.NoRoute? ==> exists j :: 0 <= j < |dep.compiler.sources| && ServedBy(dep, out, j, host, path, client, b, io))
            && (!out.NoRoute? && UpToDate(d, d.subscribers[i]) && UpToDate(d, d.subscribers[k])
                && d.subscribers[i].fixed == d.subscribers[k].fixed ==>
                  exists j :: 0 <= j < |dep.compiler.sources| && ServedByOwnRules(dep, out, j, host, path, client, b, io))
  {
    Distribution.Safety(dep.parse, d, i);
    Distribution.Safety(dep.parse, d, k);
    RequestServedSkewed(dep, o, s, domain, path, client, b, io);
    if UpToDate(d, d.subscribers[i]) && UpToDate(d, d.subscribers[k]) && d.subscribers[i].fixed == d.subscribers[k].fixed {
      UpToDateHeld(dep.parse, d, i, k);
      RequestServed(dep, o, s, domain, path, client, b, io);
    }
  }

  /** And when no two destinations share a cluster name, that cluster is the winner's own endpoint. */
  lemma {:induction false} ServedByItsOwnEndpoint(dep: Deployment, o: SnapshotOrder, s: Snapshot, j: nat)
    requires IsSnapshot(dep.x, dep.encoder, dep.compiler.Controls().proxy, o, s) && NoCollisions(dep.x.sha, dep.compiler.Controls().proxy)
    requires j < |dep.compiler.sources| && InForce(dep.compiler.sources, j)
    ensures FindCluster(s.clusters, CompiledRoute(dep, dep.compiler.sources[j]).cluster)
            == Some(Cluster(ClusterName(dep.x.sha, dep.compiler.sources[j].destination.url),
                            dep.compiler.sources[j].destination.url.hostname, IdentifyPort(dep.compiler.sources[j].destination.url)))
  {
    InForceControl(dep.compiler.admin, dep.compiler.sources, j);
    NoCollisionsResolve(dep.x.sha, dep.compiler.Controls().proxy, o.clusters, dep.compiler.sources[j].id);
  }

  // Managed headers

  /** The configured names differ from each other and from the fixed ones. */
  predicate DistinctNames(args: AuthArgs) {
    && args.tokenHeader != args.subtokenHeader
    && args.tokenHeader !in Headers.DEFAULT_REMOVABLE
    && args.subtokenHeader !in Headers.DEFAULT_REMOVABLE
  }

  predicate Carries(headers: map<Text, Text>, name: Text, value: Option<Text>) {
    if value.Some? then name in headers && headers[name] == value.value else name !in headers
  }

  function Community(rs: RawSource): Option<Text> {
    if rs.communityID != "" then Some(rs.communityID) else None
  }

  function Version(dep: Deployment): Option<Text> {
    if dep.x.version.Some? && ValidHeaderValue(dep.x.version.value) then dep.x.version else None
  }

  /** After the mutations nothing a client sent under a managed name is left. */
  lemma MutatedHeaders(dep: Deployment, client: map<Text, Text>)
    requires dep.x.subtokenHeader == dep.args.subtokenHeader && DistinctNames(dep.args)
    ensures var m := Mutated(dep, client);
            && Carries(m, Headers.VERSION, Version(dep))
            && (forall n :: n in Managed(dep.args.subtokenHeader) && n != Headers.VERSION ==> n !in m)
            && (forall n :: n !in Managed(dep.args.subtokenHeader) ==> (n in m <==> n in client) && (n in client ==> m[n] == client[n]))
  {
    ApplyRouteMutations(dep.x.subtokenHeader, dep.x.version, client);
    FixedNames();
  }

  function FixedHeaders(): set<Text> {
    {Headers.COMMUNITY, Headers.OAUTH_ACCESS_TOKEN, Headers.ROUTE_ID, Headers.VERSION, Headers.WORMHOLE_HOST, Headers.WORMHOLE_SCHEME}
  }

  lemma FixedNames()
    ensures FixedHeaders() == set n | n in Headers.DEFAULT_REMOVABLE
    ensures Distinct(Headers.DEFAULT_REMOVABLE)
  {
    var names := Headers.DEFAULT_REMOVABLE;
    assert names[0] == Headers.COMMUNITY && names[1] == Headers.OAUTH_ACCESS_TOKEN && names[2] == Headers.ROUTE_ID
           && names[3] == Headers.VERSION && names[4] == Headers.WORMHOLE_HOST && names[5] == Headers.WORMHOLE_SCHEME;
    assert Headers.COMMUNITY[2] == 'w' && |Headers.COMMUNITY| == 20;
    assert |Headers.OAUTH_ACCESS_TOKEN| == 27 && |Headers.ROUTE_ID| == 15 && Headers.ROUTE_ID[2] == 'p' && |Headers.VERSION| == 19;
    assert |Headers.WORMHOLE_HOST| == 15 && Headers.WORMHOLE_HOST[2] == 'w' && |Headers.WORMHOLE_SCHEME| == 17;
  }

  function IssuedSubtoken(subtoken: SubtokenResult): Option<Text> {
    if subtoken.Subtoken? && subtoken.token != "" then Some(subtoken.token) else None
  }

  /**
   * What an authorised request carries upstream: the winning source's id, community, host and
   * scheme, the subtoken of its flow, the build's version and the jump token; no access token
   * of a login session; and everything else as the client sent it.
   */
  ghost predicate AuthenticatedHeaders(dep: Deployment, rs: RawSource, client: map<Text, Text>, up: map<Text, Text>,
                                       jump: Text, subtoken: Option<Text>) {
    && Carries(up, Headers.ROUTE_ID, Some(rs.id))
    && Carries(up, Headers.WORMHOLE_HOST, Some(rs.source.url.host))
    && Carries(up, Headers.WORMHOLE_SCHEME, Some(rs.source.url.scheme))
    && Carries(up, Headers.COMMUNITY, Community(rs))
    && Carries(up, Headers.OAUTH_ACCESS_TOKEN, None)
    && Carries(up, Headers.VERSION, Version(dep))
    && Carries(up, dep.args.subtokenHeader, subtoken)
    && Carries(up, dep.args.tokenHeader, Some(jump))
    && OthersKept(dep, client, up)
  }

  ghost predicate OthersKept(dep: Deployment, client: map<Text, Text>, up: map<Text, Text>) {
    forall n: Text :: n !in Managed(dep.args.subtokenHeader) && n != dep.args.tokenHeader ==>
      (n in up <==> n in client) && (n in client ==> up[n] == client[n])
  }

  /** What the check sets, name by name. */
  lemma SetByCheck(dep: Deployment, rs: RawSource, m: map<Text, Text>, jump: Text, subtoken: SubtokenResult)
    requires DistinctNames(dep.args)
    ensures var d := EstablishDetails(m, AuthzContext(rs));
            var headers := UpstreamHeaders(dep.args, TokenHeaders(dep.args, jump, d), d, subtoken);
            && Carries(headers, Headers.ROUTE_ID, Some(rs.id))
            && Carries(headers, Headers.WORMHOLE_HOST, Some(rs.source.url.host))
            && Carries(headers, Headers.WORMHOLE_SCHEME, Some(rs.source.url.scheme))
            && Carries(headers, Headers.COMMUNITY, Community(rs))
            && Carries(headers, dep.args.subtokenHeader, IssuedSubtoken(subtoken))
            && Carries(headers, dep.args.tokenHeader, Some(jump))
            && forall n :: n in headers ==> n in {Headers.ROUTE_ID, Headers.WORMHOLE_HOST, Headers.WORMHOLE_SCHEME,
                                                  Headers.COMMUNITY, dep.args.subtokenHeader, dep.args.tokenHeader}
  {
    FixedNames();
    ContextValues(rs);
    assert dep.args.tokenHeader !in FixedHeaders() && dep.args.subtokenHeader !in FixedHeaders();
  }

  /** The headers of a check's answer over the mutated ones of the request. */
  lemma ManagedHeaders(dep: Deployment, rs: RawSource, client: map<Text, Text>, jump: Text, subtoken: SubtokenResult)
    requires dep.x.subtokenHeader == dep.args.subtokenHeader && DistinctNames(dep.args)
    ensures var m := Mutated(dep, client);
            var d := EstablishDetails(m, AuthzContext(rs));
            AuthenticatedHeaders(dep, rs, client, m + UpstreamHeaders(dep.args, TokenHeaders(dep.args, jump, d), d, subtoken),
                                 jump, IssuedSubtoken(subtoken))
  {
    var m := Mutated(dep, client);
    var d := EstablishDetails(m, AuthzContext(rs));
    var set0 := UpstreamHeaders(dep.args, TokenHeaders(dep.args, jump, d), d, subtoken);
    MutatedHeaders(dep, client);
    SetByCheck(dep, rs, m, jump, subtoken);
    FixedNames();
    ManagedMerge(dep, rs, client, m, set0, jump, IssuedSubtoken(subtoken));
  }

  /** Setting a header overrides it, and an unset one stays as the mutations left it. */
  lemma ManagedMerge(dep: Deployment, rs: RawSource, client: map<Text, Text>, m: map<Text, Text>, set0: map<Text, Text>,
                     jump: Text, subtoken: Option<Text>)
    requires DistinctNames(dep.args) && FixedHeaders() == set n | n in Headers.DEFAULT_REMOVABLE
    requires Distinct(Headers.DEFAULT_REMOVABLE)
    requires Carries(m, Headers.VERSION, Version(dep))
    requires forall n :: n in Managed(dep.args.subtokenHeader) && n != Headers.VERSION ==> n !in m
    requires forall n :: n !in Managed(dep.args.subtokenHeader) ==> (n in m <==> n in client) && (n in client ==> m[n] == client[n])
    requires Carries(set0, Headers.ROUTE_ID, Some(rs.id)) && Carries(set0, Headers.WORMHOLE_HOST, Some(rs.source.url.host))
    requires Carries(set0, Headers.WORMHOLE_SCHEME, Some(rs.source.url.scheme)) && Carries(set0, Headers.COMMUNITY, Community(rs))
    requires Carries(set0, dep.args.subtokenHeader, subtoken) && Carries(set0, dep.args.tokenHeader, Some(jump))
    requires forall n :: n in set0 ==> n in {Headers.ROUTE_ID, Headers.WORMHOLE_HOST, Headers.WORMHOLE_SCHEME,
                                            Headers.COMMUNITY, dep.args.subtokenHeader, dep.args.tokenHeader}
    ensures AuthenticatedHeaders(dep, rs, client, m + set0, jump, subtoken)
  {
    assert Managed(dep.args.subtokenHeader) == {dep.args.subtokenHeader} + FixedHeaders();
    assert Headers.DEFAULT_REMOVABLE[1] == Headers.OAUTH_ACCESS_TOKEN && Headers.DEFAULT_REMOVABLE[3] == Headers.VERSION;
  }

  /** A request that skips authorisation carries no managed header but the version. */
  ghost predicate OpenHeaders(dep: Deployment, client: map<Text, Text>, up: map<Text, Text>) {
    && Carries(up, Headers.VERSION, Version(dep))
    && (forall n :: n in Managed(dep.args.subtokenHeader) && n != Headers.VERSION ==> n !in up)
    && forall n: Text :: n !in Managed(dep.args.subtokenHeader) ==> (n in up <==> n in client) && (n in client ==> up[n] == client[n])
  }

  ghost predicate ForwardedFor(dep: Deployment, up: map<Text, Text>, j: nat, host: Text, path: Text, client: map<Text, Text>,
                               b: Bucket, io: CheckIO)
    requires j < |dep.compiler.sources|
  {
    var rs := dep.compiler.sources[j];
    var d := EstablishDetails(Mutated(dep, client), AuthzContext(rs));
    && Wins(dep.compiler.sources, j, host, path)
    && if rs.noAuth then OpenHeaders(dep, client, up)
       else
         var result := Authentication(dep.cfg, dep.args, b, d, io).result;
         && result.Authenticated?
         && AuthenticatedHeaders(dep, rs, client, up, result.jump, IssuedSubtoken(SubtokenFor(dep, rs, client, b, io)))
  }

  /** Every request that is forwarded carries the winning source's headers, whatever the client sent. */
  lemma {:induction false} ForwardedHeaders(dep: Deployment, o: SnapshotOrder, s: Snapshot, domain: Text, path: Text,
                                            client: map<Text, Text>, b: Bucket, io: CheckIO)
    requires IsSnapshot(dep.x, dep.encoder, dep.compiler.Controls().proxy, o, s)
    requires dep.x.subtokenHeader == dep.args.subtokenHeader && DistinctNames(dep.args)
    ensures var out := Serve(dep, s.hosts, domain, path, client, b, io);
            out.Forwarded? ==>
              exists j :: 0 <= j < |dep.compiler.sources|
                && ForwardedFor(dep, out.headers, j, ServingHost(dep.compiler.sources, domain), path, client, b, io)
  {
    if Serve(dep, s.hosts, domain, path, client, b, io).Forwarded? {
      var j := ForwardedByWinner(dep, o, s, domain, path, client, b, io);
    }
  }

  lemma ForwardedByWinner(dep: Deployment, o: SnapshotOrder, s: Snapshot, domain: Text, path: Text, client: map<Text, Text>,
                          b: Bucket, io: CheckIO) returns (j: nat)
    requires IsSnapshot(dep.x, dep.encoder, dep.compiler.Controls().proxy, o, s)
    requires dep.x.subtokenHeader == dep.args.subtokenHeader && DistinctNames(dep.args)
    requires Serve(dep, s.hosts, domain, path, client, b, io).Forwarded?
    ensures j < |dep.compiler.sources|
    ensures var up := Serve(dep, s.hosts, domain, path, client, b, io).headers;
            ForwardedFor(dep, up, j, ServingHost(dep.compiler.sources, domain), path, client, b, io)
  {
    CompiledTable(dep, o, s, domain, path);
    var host := ServingHost(dep.compiler.sources, domain);
    j :| 0 <= j < |dep.compiler.sources| && Wins(dep.compiler.sources, j, host, path)
         && RouteRequest(s.hosts, domain, path).value == CompiledRoute(dep, dep.compiler.sources[j]);
    var rs := dep.compiler.sources[j];
    ServedByRoute(dep, rs, path, client, b, io);
    var up := Serve(dep, s.hosts, domain, path, client, b, io).headers;
    if rs.noAuth {
      MutatedHeaders(dep, client);
    } else {
      AllowedHeaders(dep, rs, client, b, io);
    }
  }

  lemma {:induction false} AllowedHeaders(dep: Deployment, rs: RawSource, client: map<Text, Text>, b: Bucket, io: CheckIO)
    requires dep.x.subtokenHeader == dep.args.subtokenHeader && DistinctNames(dep.args)
    requires CheckAnswer(dep.cfg, dep.args, dep.Rules(), b, EstablishDetails(Mutated(dep, client), AuthzContext(rs)), io).Allowed?
    ensures var d := EstablishDetails(Mutated(dep, client), AuthzContext(rs));
            var answer := CheckAnswer(dep.cfg, dep.args, dep.Rules(), b, d, io);
            var result := Authentication(dep.cfg, dep.args, b, d, io).result;
            && result.Authenticated?
            && AuthenticatedHeaders(dep, rs, client, Mutated(dep, client) + answer.setHeaders, result.jump,
                                    IssuedSubtoken(SubtokenFor(dep, rs, client, b, io)))
  {
    var d := EstablishDetails(Mutated(dep, client), AuthzContext(rs));
    ContextValues(rs);
    ManagedHeaders(dep, rs, client, Authentication(dep.cfg, dep.args, b, d, io).result.jump, SubtokenFor(dep, rs, client, b, io));
  }

  // The response's own order

  function Restrict(headers: map<Text, Text>, order: seq<Text>): map<Text, Text> {
    map k | k in headers && k in order :: headers[k]
  }

  lemma RestrictStep(h: map<Text, Text>, headers: map<Text, Text>, order: seq<Text>)
    requires |order| > 0 && order[0] in headers
    ensures h[order[0] := headers[order[0]]] + Restrict(headers, order[1..]) == h + Restrict(headers, order)
  {
    forall k: Text
      ensures k in order <==> k == order[0] || k in order[1..]
    {
      assert order == [order[0]] + order[1..];
    }
  }

  lemma {:induction false} ApplyOverwrites(h: map<Text, Text>, headers: map<Text, Text>, order: seq<Text>, ms: seq<Mutation>)
    requires |ms| == |order|
    requires forall i :: 0 <= i < |order| ==> order[i] in headers && ms[i] == Overwrite(order[i], headers[order[i]])
    ensures Apply(h, ms) == h + Restrict(headers, order)
    decreases |ms|
  {
    if ms != [] {
      ApplyOverwrites(h[order[0] := headers[order[0]]], headers, order[1..], ms[1..]);
      RestrictStep(h, headers, order);
    }
  }

  /** The headers of an allowed request have the same effect in whatever order they are listed. */
  lemma AnyResponseOrder(h: map<Text, Text>, headers: map<Text, Text>, ms: seq<Mutation>)
    requires Lists(ms, headers)
    ensures Apply(h, ms) == h + headers
  {
    var order :| IsOrder(headers.Keys, order) && ms == OverwriteAll(headers, order);
    assert forall i :: 0 <= i < |order| ==> order[i] in order;
    ApplyOverwrites(h, headers, order, ms);
    assert Restrict(headers, order) == headers;
  }
}
