/** The compiled meaning of proxy controls, and what map iteration order can and cannot change. */
module RouteCompiler {
  import opened GoText
  import opened Requests
  import opened MapOrder
  import opened RouteTable
  import opened HeaderMutations
  import opened ClusterNames
  import opened Registry
  import Headers

  datatype XdsConfig = XdsConfig(sha: Text -> Text, subtokenHeader: Text, version: Option<Text>)

  /** The iteration order of the controls, and for each of them that of its own headers. */
  datatype RangeOrder = RangeOrder(routes: seq<Text>, headers: map<Text, seq<Text>>)

  ghost predicate Orders(ctls: map<Text, ProxyControls>, o: RangeOrder) {
    && IsOrder(ctls.Keys, o.routes)
    && o.headers.Keys == ctls.Keys
    && forall k :: k in ctls ==> IsOrder(ctls[k].requestHeaders.Keys, o.headers[k])
  }

  function Domain(u: URL): Text {
    if IsLocalhost(u) then ANY_DOMAIN else u.hostname
  }

  function VirtualHostName(sha: Text -> Text, domain: Text): Text {
    Hex(sha(domain))
  }

  const ROUTE_ID_KEY: Text := "route_id"

  function RouteMetadata(ctl: ProxyControls): map<Text, Text> {
    var base: map<Text, Text> := map[
      ROUTE_ID_KEY := Headers.Value(ctl.authzContext, Headers.ROUTE_ID),
      "host" := ctl.source.url.host,
      "scheme" := ctl.source.url.scheme];
    var withCommunity := if ctl.communityID != "" then base["community" := ctl.communityID] else base;
    if ctl.noAuth then withCommunity["features" := "noauth"] else withCommunity
  }

  function RouteAuthz(ctl: ProxyControls): PerRouteAuthz {
    if ctl.noAuth then Disabled else CheckSettings(ctl.authzContext)
  }

  function SingleRoute(x: XdsConfig, ctl: ProxyControls, mutations: seq<Mutation>): Route {
    Route(NormalizePath(ctl.source.url), ClusterName(x.sha, ctl.destination.url), ctl.destination.url.host,
          ctl.prefixRewrite, RouteMetadata(ctl), mutations, RouteAuthz(ctl))
  }

  function BindingOf(x: XdsConfig, ctl: ProxyControls, headerOrder: seq<Text>): Binding
    requires IsOrder(ctl.requestHeaders.Keys, headerOrder)
  {
    Binding(Domain(ctl.source.url),
            SingleRoute(x, ctl, RouteMutations(x.subtokenHeader, x.version, ctl.requestHeaders, headerOrder)))
  }

  /** The bindings in the order the controls are processed. */
  function Bindings(x: XdsConfig, ctls: map<Text, ProxyControls>, o: RangeOrder): (bindings: seq<Binding>)
    requires Orders(ctls, o)
    ensures |bindings| == |o.routes|
  {
    assert forall i :: 0 <= i < |o.routes| ==> o.routes[i] in ctls;
    seq(|o.routes|, i requires 0 <= i < |o.routes| => BindingOf(x, ctls[o.routes[i]], o.headers[o.routes[i]]))
  }

  function Selected(x: XdsConfig, ctls: map<Text, ProxyControls>, o: RangeOrder, domain: Text, path: Text): Option<Route>
    requires Orders(ctls, o)
  {
    Select(Bindings(x, ctls, o), domain, path)
  }

  lemma BindingMembers(x: XdsConfig, ctls: map<Text, ProxyControls>, o: RangeOrder)
    requires Orders(ctls, o)
    ensures forall b :: b in Bindings(x, ctls, o) ==> exists k :: k in ctls && b == BindingOf(x, ctls[k], o.headers[k])
    ensures forall k :: k in ctls ==> BindingOf(x, ctls[k], o.headers[k]) in Bindings(x, ctls, o)
  {
    var bs := Bindings(x, ctls, o);
    forall k | k in ctls
      ensures BindingOf(x, ctls[k], o.headers[k]) in bs
    {
      var i :| 0 <= i < |o.routes| && o.routes[i] == k;
      assert bs[i] == BindingOf(x, ctls[k], o.headers[k]);
    }
    forall b | b in bs
      ensures exists k :: k in ctls && b == BindingOf(x, ctls[k], o.headers[k])
    {
      var i :| 0 <= i < |bs| && bs[i] == b;
      assert o.routes[i] in ctls;
    }
  }

  // What a request selects, in terms of the controls

  predicate HasDomain(ctls: map<Text, ProxyControls>, domain: Text) {
    exists k :: k in ctls && Domain(ctls[k].source.url) == domain
  }

  function VirtualHostOf(ctls: map<Text, ProxyControls>, domain: Text): Text {
    if HasDomain(ctls, domain) then domain else ANY_DOMAIN
  }

  /** The control serves the virtual host and its prefix starts the path. */
  predicate Matches(ctl: ProxyControls, host: Text, path: Text) {
    Domain(ctl.source.url) == host && NormalizePath(ctl.source.url) <= path
  }

  lemma HostOfControls(x: XdsConfig, ctls: map<Text, ProxyControls>, o: RangeOrder, domain: Text)
    requires Orders(ctls, o)
    ensures HostOf(Bindings(x, ctls, o), domain) == VirtualHostOf(ctls, domain)
  {
    var bs := Bindings(x, ctls, o);
    BindingMembers(x, ctls, o);
    if Known(bs, domain) {
      var i :| 0 <= i < |bs| && bs[i].domain == domain;
      assert bs[i] in bs;
    }
    if HasDomain(ctls, domain) {
      var k :| k in ctls && Domain(ctls[k].source.url) == domain;
      var b := BindingOf(x, ctls[k], o.headers[k]);
      var i :| 0 <= i < |bs| && bs[i] == b;
    }
  }

  /**
   * Compilation is correct for every iteration order: the selected route is that of a
   * matching control with the longest prefix, and nothing is selected only when no control
   * of the virtual host matches.
   */
  lemma SelectedControl(x: XdsConfig, ctls: map<Text, ProxyControls>, o: RangeOrder, domain: Text, path: Text)
    requires Orders(ctls, o)
    ensures var host := VirtualHostOf(ctls, domain);
            match Selected(x, ctls, o, domain, path)
            case None => forall k :: k in ctls ==> !Matches(ctls[k], host, path)
            case Some(r) => exists k ::
              && k in ctls && Matches(ctls[k], host, path)
              && r == BindingOf(x, ctls[k], o.headers[k]).route
              && forall j :: j in ctls && Matches(ctls[j], host, path) ==> |NormalizePath(ctls[j].source.url)| <= |r.prefix|
  {
    var bs := Bindings(x, ctls, o);
    var host := VirtualHostOf(ctls, domain);
    HostOfControls(x, ctls, o, domain);
    FirstMatchIsLongest(bs, host, path);
    assert Selected(x, ctls, o, domain, path) == Longest(Processed(bs, host), path);
    MatchesProcessed(x, ctls, o, host, path);
    if Longest(Processed(bs, host), path).Some? {
      var k := ProcessedControl(x, ctls, o, host, Longest(Processed(bs, host), path).value);
    }
  }

  /** Every matching control has its route among those processed for the host. */
  lemma MatchesProcessed(x: XdsConfig, ctls: map<Text, ProxyControls>, o: RangeOrder, host: Text, path: Text)
    requires Orders(ctls, o)
    ensures forall k :: k in ctls && Matches(ctls[k], host, path) ==>
              BindingOf(x, ctls[k], o.headers[k]).route in Processed(Bindings(x, ctls, o), host)
              && BindingOf(x, ctls[k], o.headers[k]).route.prefix == NormalizePath(ctls[k].source.url)
  {
    BindingMembers(x, ctls, o);
    forall k | k in ctls && Matches(ctls[k], host, path)
      ensures BindingOf(x, ctls[k], o.headers[k]).route in Processed(Bindings(x, ctls, o), host)
    {
      var b := BindingOf(x, ctls[k], o.headers[k]);
      assert b == Binding(host, b.route) && b in Bindings(x, ctls, o);
    }
  }

  /** Every route processed for the host is some control's. */
  lemma ProcessedControl(x: XdsConfig, ctls: map<Text, ProxyControls>, o: RangeOrder, host: Text, r: Route) returns (k: Text)
    requires Orders(ctls, o) && r in Processed(Bindings(x, ctls, o), host)
    ensures k in ctls && Domain(ctls[k].source.url) == host && r == BindingOf(x, ctls[k], o.headers[k]).route
    ensures r.prefix == NormalizePath(ctls[k].source.url)
  {
    BindingMembers(x, ctls, o);
    assert Binding(host, r) in Bindings(x, ctls, o);
    k :| k in ctls && Binding(host, r) == BindingOf(x, ctls[k], o.headers[k]);
  }

  // Iteration order

  function PrefixesOf(ctls: map<Text, ProxyControls>, host: Text): set<Text> {
    set k | k in ctls && Domain(ctls[k].source.url) == host :: NormalizePath(ctls[k].source.url)
  }

  lemma {:induction false} ProcessedPrefixes(x: XdsConfig, ctls: map<Text, ProxyControls>, o: RangeOrder, host: Text)
    requires Orders(ctls, o)
    ensures Prefixes(Processed(Bindings(x, ctls, o), host)) == PrefixesOf(ctls, host)
  {
    var routes := Processed(Bindings(x, ctls, o), host);
    BindingMembers(x, ctls, o);
    forall p | p in Prefixes(routes)
      ensures p in PrefixesOf(ctls, host)
    {
      var r :| r in routes && r.prefix == p;
      assert Binding(host, r) in Bindings(x, ctls, o);
    }
    forall p | p in PrefixesOf(ctls, host)
      ensures p in Prefixes(routes)
    {
      var k :| k in ctls && Domain(ctls[k].source.url) == host && NormalizePath(ctls[k].source.url) == p;
      var b := BindingOf(x, ctls[k], o.headers[k]);
      assert b == Binding(host, b.route) && b in Bindings(x, ctls, o);
    }
  }

  /** Any two iteration orders choose the same prefix for every domain and path. */
  lemma OrderKeepsPrefix(x: XdsConfig, ctls: map<Text, ProxyControls>, o1: RangeOrder, o2: RangeOrder, domain: Text, path: Text)
    requires Orders(ctls, o1) && Orders(ctls, o2)
    ensures var r1, r2 := Selected(x, ctls, o1, domain, path), Selected(x, ctls, o2, domain, path);
            (r1.Some? <==> r2.Some?) && (r1.Some? ==> r1.value.prefix == r2.value.prefix)
  {
    var host := VirtualHostOf(ctls, domain);
    var bs1, bs2 := Bindings(x, ctls, o1), Bindings(x, ctls, o2);
    HostOfControls(x, ctls, o1, domain);
    HostOfControls(x, ctls, o2, domain);
    FirstMatchIsLongest(bs1, host, path);
    FirstMatchIsLongest(bs2, host, path);
    ProcessedPrefixes(x, ctls, o1, host);
    ProcessedPrefixes(x, ctls, o2, host);
    LongestPrefixUnique(Processed(bs1, host), Processed(bs2, host), path);
  }

  /** Each control carries its own key as its route id, as the registry builds them. */
  predicate WellKeyed(ctls: map<Text, ProxyControls>) {
    forall k :: k in ctls ==> Headers.Value(ctls[k].authzContext, Headers.ROUTE_ID) == k
  }

  function SelectedID(x: XdsConfig, ctls: map<Text, ProxyControls>, o: RangeOrder, domain: Text, path: Text): Option<Text>
    requires Orders(ctls, o)
  {
    match Selected(x, ctls, o, domain, path)
    case None => None
    case Some(r) => if ROUTE_ID_KEY in r.metadata then Some(r.metadata[ROUTE_ID_KEY]) else None
  }

  predicate DistinctPairs(ctls: map<Text, ProxyControls>) {
    forall k, j :: k in ctls && j in ctls && k != j ==>
      Domain(ctls[k].source.url) != Domain(ctls[j].source.url) || NormalizePath(ctls[k].source.url) != NormalizePath(ctls[j].source.url)
  }

  /** No domain and path can tell two iteration orders apart by the route id they lead to. */
  ghost predicate OrderFree(x: XdsConfig, ctls: map<Text, ProxyControls>) {
    forall o1, o2, domain, path :: Orders(ctls, o1) && Orders(ctls, o2) ==>
      SelectedID(x, ctls, o1, domain, path) == SelectedID(x, ctls, o2, domain, path)
  }

  lemma SelectedIDIsKey(x: XdsConfig, ctls: map<Text, ProxyControls>, o: RangeOrder, domain: Text, path: Text)
    requires Orders(ctls, o) && WellKeyed(ctls)
    ensures var r, id := Selected(x, ctls, o, domain, path), SelectedID(x, ctls, o, domain, path);
            && (r.Some? <==> id.Some?)
            && (r.Some? ==> id.value in ctls && Matches(ctls[id.value], VirtualHostOf(ctls, domain), path)
                            && r.value == BindingOf(x, ctls[id.value], o.headers[id.value]).route)
  {
    SelectedControl(x, ctls, o, domain, path);
    var r := Selected(x, ctls, o, domain, path);
    if r.Some? {
      var k :| k in ctls && Matches(ctls[k], VirtualHostOf(ctls, domain), path)
               && r.value == BindingOf(x, ctls[k], o.headers[k]).route;
      MetadataHoldsID(ctls[k]);
      assert r.value.metadata == RouteMetadata(ctls[k]);
    }
  }

  lemma DistinctPairsOrderFree(x: XdsConfig, ctls: map<Text, ProxyControls>, o1: RangeOrder, o2: RangeOrder, domain: Text, path: Text)
    requires Orders(ctls, o1) && Orders(ctls, o2) && WellKeyed(ctls) && DistinctPairs(ctls)
    ensures SelectedID(x, ctls, o1, domain, path) == SelectedID(x, ctls, o2, domain, path)
  {
    OrderKeepsPrefix(x, ctls, o1, o2, domain, path);
    SelectedIDIsKey(x, ctls, o1, domain, path);
    SelectedIDIsKey(x, ctls, o2, domain, path);
  }

  /** An order that starts with k makes k win the path equal to its own prefix. */
  lemma {:induction false} FirstProcessedWins(x: XdsConfig, ctls: map<Text, ProxyControls>, k: Text) returns (o: RangeOrder)
    requires k in ctls && WellKeyed(ctls)
    ensures Orders(ctls, o)
    ensures SelectedID(x, ctls, o, Domain(ctls[k].source.url), NormalizePath(ctls[k].source.url)) == Some(k)
  {
    o := RangeOrder(OrderFrom(ctls.Keys, k), map j | j in ctls :: SomeOrder(ctls[j].requestHeaders.Keys));
    FirstBindingWins(x, ctls, o, k);
    MetadataHoldsID(ctls[k]);
  }

  lemma MetadataHoldsID(ctl: ProxyControls)
    ensures ROUTE_ID_KEY in RouteMetadata(ctl)
    ensures RouteMetadata(ctl)[ROUTE_ID_KEY] == Headers.Value(ctl.authzContext, Headers.ROUTE_ID)
  {
  }

  lemma FirstBindingWins(x: XdsConfig, ctls: map<Text, ProxyControls>, o: RangeOrder, k: Text)
    requires k in ctls && Orders(ctls, o) && |o.routes| > 0 && o.routes[0] == k
    ensures Selected(x, ctls, o, Domain(ctls[k].source.url), NormalizePath(ctls[k].source.url))
            == Some(BindingOf(x, ctls[k], o.headers[k]).route)
  {
    var bs := Bindings(x, ctls, o);
    var host, path := Domain(ctls[k].source.url), NormalizePath(ctls[k].source.url);
    assert bs[0] == BindingOf(x, ctls[k], o.headers[k]);
    ProcessedStartsWithFirst(bs, host);
    FirstMatchIsLongest(bs, host, path);
    FirstExactWins(Processed(bs, host), path);
    assert HostOf(bs, host) == host;
  }

  lemma {:induction false} ProcessedStartsWithFirst(bindings: seq<Binding>, domain: Text)
    requires |bindings| > 0 && bindings[0].domain == domain
    ensures |Processed(bindings, domain)| > 0 && Processed(bindings, domain)[0] == bindings[0].route
  {
    if |bindings| > 1 {
      ProcessedStartsWithFirst(bindings[..|bindings| - 1], domain);
    } else {
      assert Processed(bindings[..0], domain) == [];
    }
  }

  /**
   * The winning route id is the same in every iteration order exactly when no two controls
   * share both domain and prefix.
   */
  lemma RouteIDOrderFree(x: XdsConfig, ctls: map<Text, ProxyControls>)
    requires WellKeyed(ctls)
    ensures OrderFree(x, ctls) <==> DistinctPairs(ctls)
  {
    if DistinctPairs(ctls) {
      forall o1, o2, domain, path | Orders(ctls, o1) && Orders(ctls, o2)
        ensures SelectedID(x, ctls, o1, domain, path) == SelectedID(x, ctls, o2, domain, path)
      {
        DistinctPairsOrderFree(x, ctls, o1, o2, domain, path);
      }
    }
    if OrderFree(x, ctls) {
      forall k, j | k in ctls && j in ctls && k != j
        ensures Domain(ctls[k].source.url) != Domain(ctls[j].source.url)
                || NormalizePath(ctls[k].source.url) != NormalizePath(ctls[j].source.url)
      {
        var o1 := FirstProcessedWins(x, ctls, k);
        var o2 := FirstProcessedWins(x, ctls, j);
        assert SelectedID(x, ctls, o1, Domain(ctls[k].source.url), NormalizePath(ctls[k].source.url))
            == SelectedID(x, ctls, o2, Domain(ctls[k].source.url), NormalizePath(ctls[k].source.url));
      }
    }
  }
}
