/** Builds the clusters, routes and version of a snapshot, with Go's in-place slices and maps. */
module XdsServer {
  import opened GoText
  import opened GoSlices
  import opened Requests
  import opened MapOrder
  import opened RouteTable
  import opened HeaderMutations
  import opened ClusterNames
  import opened Clusters
  import opened Registry
  import opened RouteCompiler
  import Headers

  /** A virtual host as delivered: its routes are searched in order. */
  datatype HostRoutes = HostRoutes(name: Text, domain: Text, routes: seq<Route>)

  ghost predicate IsTable(sha: Text -> Text, hosts: seq<HostRoutes>, bindings: seq<Binding>) {
    && (forall i, j :: 0 <= i < j < |hosts| ==> hosts[i].domain != hosts[j].domain)
    && (forall d :: Known(bindings, d) <==> HasHost(hosts, d))
    && (forall i :: 0 <= i < |hosts| ==>
          && hosts[i].name == VirtualHostName(sha, hosts[i].domain)
          && hosts[i].routes == Routes(bindings, hosts[i].domain))
  }

  predicate HasHost(hosts: seq<HostRoutes>, domain: Text) {
    exists i :: 0 <= i < |hosts| && hosts[i].domain == domain
  }

  function HostList(hosts: seq<HostRoutes>, domain: Text): (routes: seq<Route>)
    ensures HasHost(hosts, domain) ==> exists i :: 0 <= i < |hosts| && hosts[i].domain == domain && routes == hosts[i].routes
    ensures !HasHost(hosts, domain) ==> routes == []
  {
    if hosts == [] then []
    else if hosts[0].domain == domain then hosts[0].routes
    else
      assert forall i :: 0 < i < |hosts| ==> hosts[i] == hosts[1..][i - 1];
      HostList(hosts[1..], domain)
  }

  /** How the proxy routes with a delivered table. */
  function RouteRequest(hosts: seq<HostRoutes>, domain: Text, path: Text): Option<Route> {
    FirstMatch(HostList(hosts, if HasHost(hosts, domain) then domain else ANY_DOMAIN), path)
  }

  lemma TableRoutes(sha: Text -> Text, hosts: seq<HostRoutes>, bindings: seq<Binding>, domain: Text, path: Text)
    requires IsTable(sha, hosts, bindings)
    ensures RouteRequest(hosts, domain, path) == Select(bindings, domain, path)
  {
    var host := HostOf(bindings, domain);
    assert Known(bindings, domain) <==> HasHost(hosts, domain);
    assert Known(bindings, host) <==> HasHost(hosts, host);
    if !Known(bindings, host) {
      UnknownHasNoRoutes(bindings, host);
    }
  }

  /** Virtual hosts share a name exactly when their domains share a digest. */
  lemma {:induction false} HostNamesShared(sha: Text -> Text, hosts: seq<HostRoutes>, bindings: seq<Binding>, i: nat, j: nat)
    requires IsTable(sha, hosts, bindings) && i < j < |hosts|
    ensures hosts[i].name == hosts[j].name <==> sha(hosts[i].domain) == sha(hosts[j].domain)
  {
    if hosts[i].name == hosts[j].name {
      HexInjective(sha(hosts[i].domain), sha(hosts[j].domain));
    }
  }

  lemma {:induction false} UnknownHasNoRoutes(bindings: seq<Binding>, domain: Text)
    requires !Known(bindings, domain)
    ensures Routes(bindings, domain) == []
  {
    if bindings != [] {
      UnknownHasNoRoutes(bindings[..|bindings| - 1], domain);
    }
  }

  // Snapshot version

  /** The JSON encoders of keys and controls, and the rendered checksum of the encoded bytes. */
  datatype Encoder = Encoder(key: Text -> Option<Text>, control: ProxyControls -> Option<Text>, checksum: Text -> Text)

  function Encoded(e: Encoder, data: map<Text, ProxyControls>, keys: seq<Text>): Option<Text>
    requires forall i :: 0 <= i < |keys| ==> keys[i] in data
  {
    if keys == [] then Some("")
    else
      var n := |keys| - 1;
      match (Encoded(e, data, keys[..n]), e.key(keys[n]), e.control(data[keys[n]]))
      case (Some(before), Some(k), Some(v)) => Some(before + k + v)
      case _ => None
  }

  ghost predicate IsVersion(e: Encoder, data: map<Text, ProxyControls>, version: Text) {
    exists sorted ::
      && IsOrder(data.Keys, sorted) && Ascending(sorted)
      && version == match Encoded(e, data, sorted) case Some(text) => e.checksum(text) case None => "unknown"
  }

  /** The version is a function of the controls alone, whatever order their map was ranged over. */
  lemma VersionUnique(e: Encoder, data: map<Text, ProxyControls>, v1: Text, v2: Text)
    requires IsVersion(e, data, v1) && IsVersion(e, data, v2)
    ensures v1 == v2
  {
    var s1 :| IsOrder(data.Keys, s1) && Ascending(s1)
              && v1 == match Encoded(e, data, s1) case Some(text) => e.checksum(text) case None => "unknown";
    var s2 :| IsOrder(data.Keys, s2) && Ascending(s2)
              && v2 == match Encoded(e, data, s2) case Some(text) => e.checksum(text) case None => "unknown";
    AscendingUnique(data.Keys, s1, s2);
  }

  method ComputeChecksum(e: Encoder, data: map<Text, ProxyControls>, order: seq<Text>) returns (version: Text)
    requires IsOrder(data.Keys, order)
    ensures IsVersion(e, data, version)
  {
    var keys := SortStrings(order);
    assert IsOrder(data.Keys, keys);
    assert forall i :: 0 <= i < |keys| ==> keys[i] in keys;
    var buffer: Text := "";
    for n := 0 to |keys|
      invariant Encoded(e, data, keys[..n]) == Some(buffer)
    {
      assert keys[..n + 1][..n] == keys[..n];
      var k, v := e.key(keys[n]), e.control(data[keys[n]]);
      if k.None? || v.None? {
        EncodedPrefixFails(e, data, keys, n + 1);
        return "unknown";
      }
      buffer := buffer + k.value + v.value;
    }
    assert keys[..|keys|] == keys;
    version := e.checksum(buffer);
  }

  lemma {:induction false} EncodedPrefixFails(e: Encoder, data: map<Text, ProxyControls>, keys: seq<Text>, n: nat)
    requires n <= |keys| && forall i :: 0 <= i < |keys| ==> keys[i] in data
    requires Encoded(e, data, keys[..n]).None?
    ensures Encoded(e, data, keys).None?
    decreases |keys|
  {
    if n == |keys| {
      assert keys[..n] == keys;
    } else {
      var init := keys[..|keys| - 1];
      assert init[..n] == keys[..n];
      EncodedPrefixFails(e, data, init, n);
    }
  }

  // The server

  datatype SnapshotOrder = SnapshotOrder(checksum: seq<Text>, clusters: seq<Text>, routes: RangeOrder)

  datatype Snapshot = Snapshot(version: Text, clusters: seq<Cluster>, hosts: seq<HostRoutes>)

  ghost predicate SnapshotOrders(ctls: map<Text, ProxyControls>, o: SnapshotOrder) {
    IsOrder(ctls.Keys, o.checksum) && IsOrder(ctls.Keys, o.clusters) && Orders(ctls, o.routes)
  }

  ghost predicate IsSnapshot(x: XdsConfig, e: Encoder, ctls: map<Text, ProxyControls>, o: SnapshotOrder, s: Snapshot) {
    && SnapshotOrders(ctls, o)
    && IsVersion(e, ctls, s.version)
    && s.clusters == ClustersOf(x.sha, Destinations(ctls, o.clusters))
    && IsTable(x.sha, s.hosts, Bindings(x, ctls, o.routes))
  }

  /** Two snapshots of the same controls have one version and pick the same prefix for every request. */
  lemma {:induction false} SnapshotsAgree(x: XdsConfig, e: Encoder, ctls: map<Text, ProxyControls>, o1: SnapshotOrder, s1: Snapshot,
                       o2: SnapshotOrder, s2: Snapshot, domain: Text, path: Text)
    requires IsSnapshot(x, e, ctls, o1, s1) && IsSnapshot(x, e, ctls, o2, s2)
    ensures s1.version == s2.version
    ensures var r1, r2 := RouteRequest(s1.hosts, domain, path), RouteRequest(s2.hosts, domain, path);
            (r1.Some? <==> r2.Some?) && (r1.Some? ==> r1.value.prefix == r2.value.prefix)
    ensures WellKeyed(ctls) && DistinctPairs(ctls) ==>
              var r1, r2 := RouteRequest(s1.hosts, domain, path), RouteRequest(s2.hosts, domain, path);
              r1.Some? ==> ROUTE_ID_KEY in r1.value.metadata && ROUTE_ID_KEY in r2.value.metadata
                           && r1.value.metadata[ROUTE_ID_KEY] == r2.value.metadata[ROUTE_ID_KEY]
  {
    VersionUnique(e, ctls, s1.version, s2.version);
    TableRoutes(x.sha, s1.hosts, Bindings(x, ctls, o1.routes), domain, path);
    TableRoutes(x.sha, s2.hosts, Bindings(x, ctls, o2.routes), domain, path);
    OrderKeepsPrefix(x, ctls, o1.routes, o2.routes, domain, path);
    if WellKeyed(ctls) && DistinctPairs(ctls) {
      DistinctPairsOrderFree(x, ctls, o1.routes, o2.routes, domain, path);
      SelectedIDIsKey(x, ctls, o1.routes, domain, path);
      SelectedIDIsKey(x, ctls, o2.routes, domain, path);
    }
  }

  class VirtualHost {
    const name: Text
    const domain: Text
    var routes: Slice<Route>

    constructor (name: Text, domain: Text, routes: Slice<Route>)
      ensures this.name == name && this.domain == domain && this.routes == routes
    {
      this.name, this.domain, this.routes := name, domain, routes;
    }

    /** Finds the first shorter prefix and inserts before it, reusing the array when it has room. */
    method AddRoute(r: Route)
      requires routes.Valid()
      modifies this, routes.buf
      ensures routes.Valid() && (routes.buf == old(routes.buf) || fresh(routes.buf))
      ensures routes.Elements() == InsertRoute(old(routes.Elements()), r)
    {
      var position := routes.len;
      for i := 0 to routes.len
        invariant position == routes.len
        invariant forall j :: 0 <= j < i ==> |r.prefix| <= |routes.Elements()[j].prefix|
      {
        if |r.prefix| > |routes.buf[routes.off + i].prefix| {
          position := i;
          break;
        }
      }
      PositionUnique(routes.Elements(), r, position);
      routes := Insert(routes, position, r);
    }
  }

  lemma PositionUnique(routes: seq<Route>, r: Route, p: nat)
    requires p <= |routes|
    requires forall j :: 0 <= j < p ==> |r.prefix| <= |routes[j].prefix|
    requires p < |routes| ==> |r.prefix| > |routes[p].prefix|
    ensures p == InsertPosition(routes, r)
  {
  }

  class Server {
    const cfg: XdsConfig
    const encoder: Encoder
    const defaultRequestHeaders: Slice<Mutation>

    ghost predicate Valid()
      reads defaultRequestHeaders.buf
    {
      && defaultRequestHeaders.Valid()
      && defaultRequestHeaders.Elements() == DefaultMutations(cfg.subtokenHeader)
    }

    /** The defaults are appended one by one, which may leave spare capacity behind them. */
    constructor (cfg: XdsConfig, encoder: Encoder)
      ensures Valid() && this.cfg == cfg && this.encoder == encoder
      ensures fresh(defaultRequestHeaders.buf)
    {
      var removable := Headers.DEFAULT_REMOVABLE;
      var mutations := Literal([Remove(cfg.subtokenHeader)]);
      ghost var defaults := DefaultMutations(cfg.subtokenHeader);
      assert defaults[..1] == [Remove(cfg.subtokenHeader)];
      for n := 0 to |removable|
        invariant mutations.Valid() && fresh(mutations.buf)
        invariant mutations.Elements() == defaults[..n + 1]
      {
        var one := Literal([Remove(removable[n])]);
        mutations := Append(mutations, one);
        assert defaults[..n + 2] == defaults[..n + 1] + [Remove(removable[n])];
      }
      assert defaults[..|removable| + 1] == defaults;
      this.cfg, this.encoder := cfg, encoder;
      defaultRequestHeaders := mutations;
    }

    /**
     * Each call appends to the shared defaults, so the first extra mutation of every route may
     * be written into the same spare slot; the list is marshalled before the next call.
     */
    method RequestHeaderFilterCfg(headers: map<Text, Text>, order: seq<Text>) returns (marshalled: seq<Mutation>)
      requires Valid() && IsOrder(headers.Keys, order)
      modifies defaultRequestHeaders.buf
      ensures Valid()
      ensures marshalled == RouteMutations(cfg.subtokenHeader, cfg.version, headers, order)
    {
      var mutations := defaultRequestHeaders;
      ghost var defaults := DefaultMutations(cfg.subtokenHeader);
      assert forall i :: 0 <= i < |order| ==> order[i] in order;
      ghost var all := SetAll(headers, order);
      assert all[..0] == [] && defaults + [] == defaults;
      for n := 0 to |order|
        invariant mutations.Valid() && (mutations.buf == defaultRequestHeaders.buf || fresh(mutations.buf))
        invariant mutations.buf == defaultRequestHeaders.buf ==>
                    mutations.off == defaultRequestHeaders.off && mutations.len >= defaultRequestHeaders.len
        invariant Valid()
        invariant mutations.Elements() == defaults + all[..n]
      {
        var one := Literal([SetHeader(order[n], headers[order[n]])]);
        mutations := AppendBehind(mutations, one);
        assert all[..n + 1] == all[..n] + [all[n]];
        assert defaults + all[..n + 1] == defaults + all[..n] + [all[n]];
      }
      assert all[..|order|] == all;
      if cfg.version.Some? {
        var one := Literal([SetHeader(Headers.VERSION, cfg.version.value)]);
        mutations := AppendBehind(mutations, one);
      } else {
        assert VersionMutation(cfg.version) == [];
      }
      marshalled := mutations.Elements();
    }

    /** One append that may land in the shared array, behind the defaults. */
    method AppendBehind(mutations: Slice<Mutation>, one: Slice<Mutation>) returns (r: Slice<Mutation>)
      requires Valid() && mutations.Valid() && one.Valid()
      requires mutations.buf == defaultRequestHeaders.buf ==>
                 mutations.off == defaultRequestHeaders.off && mutations.len >= defaultRequestHeaders.len
      modifies mutations.buf
      ensures Valid() && r.Valid() && (r.buf == mutations.buf || fresh(r.buf))
      ensures r.buf == mutations.buf ==> r.off == mutations.off && r.len >= mutations.len
      ensures r.Elements() == old(mutations.Elements()) + old(one.Elements())
    {
      var d := defaultRequestHeaders;
      ghost var was := d.Elements();
      if mutations.buf == d.buf {
        SharedPrefix(d, mutations);
      }
      r := Append(mutations, one);
      if mutations.buf == d.buf {
        SharedPrefix(d, mutations);
      }
      assert d.Elements() == was;
    }

    method SingleRouteFor(ctl: ProxyControls, order: seq<Text>) returns (b: Binding)
      requires Valid() && IsOrder(ctl.requestHeaders.Keys, order)
      modifies defaultRequestHeaders.buf
      ensures Valid() && b == BindingOf(cfg, ctl, order)
    {
      var mutations := RequestHeaderFilterCfg(ctl.requestHeaders, order);
      b := Binding(Domain(ctl.source.url), SingleRoute(cfg, ctl, mutations));
    }

    method MakeClusters(ctls: map<Text, ProxyControls>, order: seq<Text>) returns (clusters: seq<Cluster>)
      requires IsOrder(ctls.Keys, order)
      ensures clusters == ClustersOf(cfg.sha, Destinations(ctls, order))
    {
      ghost var us := Destinations(ctls, order);
      ghost var done: seq<URL> := [];
      var mappings: set<Text> := {};
      clusters := [];
      assert forall i :: 0 <= i < |order| ==> order[i] in order;
      for n := 0 to |order|
        invariant done == us[..n]
        invariant clusters == ClustersOf(cfg.sha, done)
        invariant forall name :: name in mappings <==> Named(clusters, name)
      {
        var u := ctls[order[n]].destination.url;
        ClustersStep(cfg.sha, done, u);
        done := done + [u];
        var c := ClusterOf(cfg.sha, u);
        if c.name !in mappings {
          ghost var before := clusters;
          mappings := mappings + {c.name};
          clusters := clusters + [c];
          NamedAppend(before, c);
        }
      }
      assert done == us;
    }

    /** One iteration: compiles a control and places its route. */
    method PlaceControl(mappings: map<Text, VirtualHost>, ghost owner: map<array<Route>, Text>,
                        ctl: ProxyControls, order: seq<Text>, ghost bindings: seq<Binding>)
      returns (r: map<Text, VirtualHost>, ghost owner': map<array<Route>, Text>)
      requires Valid() && IsOrder(ctl.requestHeaders.Keys, order)
      requires HostsHold(cfg.sha, mappings, owner, bindings)
      requires forall a :: a in owner ==> a as object != defaultRequestHeaders.buf
      modifies defaultRequestHeaders.buf
      modifies set d | d in mappings && d == Domain(ctl.source.url) :: mappings[d]
      modifies set d | d in mappings && d == Domain(ctl.source.url) :: mappings[d].routes.buf
      ensures Valid()
      ensures HostsHold(cfg.sha, r, owner', bindings + [BindingOf(cfg, ctl, order)])
      ensures forall d :: d in r ==> (d in mappings && r[d] == mappings[d]) || fresh(r[d])
      ensures forall a :: a in owner' ==> a in owner || fresh(a)
    {
      var b := SingleRouteFor(ctl, order);
      forall d | d in mappings
        ensures HostHolds(cfg.sha, mappings[d], owner, d, Routes(bindings, d))
      {
        assert old(HostHolds(cfg.sha, mappings[d], owner, d, Routes(bindings, d)));
      }
      if b.domain in mappings {
        owner' := PlaceInHost(cfg.sha, mappings, owner, b, bindings);
        r := mappings;
      } else {
        var vh;
        vh, owner' := PlaceNewHost(cfg.sha, mappings, owner, b, bindings);
        r := mappings[b.domain := vh];
      }
    }

    method MakeRoutes(ctls: map<Text, ProxyControls>, o: RangeOrder) returns (hosts: seq<HostRoutes>)
      requires Valid() && Orders(ctls, o)
      modifies defaultRequestHeaders.buf
      ensures Valid()
      ensures IsTable(cfg.sha, hosts, Bindings(cfg, ctls, o))
    {
      var mappings;
      ghost var owner;
      mappings, owner := PlaceControls(ctls, o);
      hosts := CollectHosts(mappings, cfg.sha, owner, Bindings(cfg, ctls, o));
    }

    /** The loop over the controls: compiles and places each in turn. */
    method PlaceControls(ctls: map<Text, ProxyControls>, o: RangeOrder)
      returns (mappings: map<Text, VirtualHost>, ghost owner: map<array<Route>, Text>)
      requires Valid() && Orders(ctls, o)
      modifies defaultRequestHeaders.buf
      ensures Valid()
      ensures HostsHold(cfg.sha, mappings, owner, Bindings(cfg, ctls, o))
    {
      ghost var bs := Bindings(cfg, ctls, o);
      mappings := map[];
      owner := map[];
      ghost var done: seq<Binding> := [];
      assert forall i :: 0 <= i < |o.routes| ==> o.routes[i] in o.routes;
      for n := 0 to |o.routes|
        invariant Valid()
        invariant forall d :: d in mappings ==> fresh(mappings[d])
        invariant forall a :: a in owner ==> fresh(a)
        invariant done == bs[..n]
        invariant HostsHold(cfg.sha, mappings, owner, done)
      {
        var k := o.routes[n];
        mappings, owner := PlaceControl(mappings, owner, ctls[k], o.headers[k], done);
        done := done + [BindingOf(cfg, ctls[k], o.headers[k])];
        BindingsStep(cfg, ctls, o, n);
      }
      assert bs[..|bs|] == bs;
    }

    method GenerateSnapshot(ctls: map<Text, ProxyControls>, o: SnapshotOrder) returns (s: Snapshot)
      requires Valid() && SnapshotOrders(ctls, o)
      modifies defaultRequestHeaders.buf
      ensures Valid()
      ensures IsSnapshot(cfg, encoder, ctls, o, s)
    {
      var version := ComputeChecksum(encoder, ctls, o.checksum);
      var clusters := MakeClusters(ctls, o.clusters);
      var hosts := MakeRoutes(ctls, o.routes);
      s := Snapshot(version, clusters, hosts);
    }
  }

  lemma ClustersStep(sha: Text -> Text, us: seq<URL>, u: URL)
    ensures var before, c := ClustersOf(sha, us), ClusterOf(sha, u);
            ClustersOf(sha, us + [u]) == if Named(before, c.name) then before else before + [c]
  {
    assert (us + [u])[..|us|] == us;
  }

  lemma BindingsStep(x: XdsConfig, ctls: map<Text, ProxyControls>, o: RangeOrder, n: nat)
    requires Orders(ctls, o) && n < |o.routes| && o.routes[n] in ctls
    ensures var bs, k := Bindings(x, ctls, o), o.routes[n];
            bs[..n + 1] == bs[..n] + [BindingOf(x, ctls[k], o.headers[k])]
  {
  }

  lemma NamedAppend(clusters: seq<Cluster>, c: Cluster)
    ensures forall name :: Named(clusters + [c], name) <==> Named(clusters, name) || name == c.name
  {
    forall name
      ensures Named(clusters + [c], name) <==> Named(clusters, name) || name == c.name
    {
      var after := clusters + [c];
      assert after[|clusters|] == c;
      if Named(clusters, name) {
        var i :| 0 <= i < |clusters| && clusters[i].name == name;
        assert after[i].name == name;
      }
    }
  }

  /** The host of one domain delivers the routes processed for it, from an array that only it owns. */
  ghost predicate HostHolds(sha: Text -> Text, vh: VirtualHost, owner: map<array<Route>, Text>, domain: Text, routes: seq<Route>)
    reads vh, vh.routes.buf
  {
    && vh.domain == domain && vh.name == VirtualHostName(sha, domain)
    && vh.routes.Valid() && vh.routes.Elements() == routes
    && vh.routes.buf in owner && owner[vh.routes.buf] == domain
  }

  ghost predicate HostsHold(sha: Text -> Text, mappings: map<Text, VirtualHost>, owner: map<array<Route>, Text>, bindings: seq<Binding>)
    reads mappings.Values, set vh | vh in mappings.Values :: vh.routes.buf
  {
    && (forall d :: d in mappings <==> Known(bindings, d))
    && (forall d :: d in mappings ==> mappings[d] in mappings.Values && HostHolds(sha, mappings[d], owner, d, Routes(bindings, d)))
  }

  lemma RoutesStep(bindings: seq<Binding>, b: Binding)
    ensures forall d :: Known(bindings + [b], d) <==> Known(bindings, d) || d == b.domain
    ensures forall d :: Routes(bindings + [b], d)
                        == if b.domain == d then InsertRoute(Routes(bindings, d), b.route) else Routes(bindings, d)
    ensures !Known(bindings, b.domain) ==> Routes(bindings + [b], b.domain) == [b.route]
  {
    var after := bindings + [b];
    assert after[|bindings|] == b && after[..|bindings|] == bindings;
    assert forall i :: 0 <= i < |bindings| ==> after[i] == bindings[i];
    if !Known(bindings, b.domain) {
      UnknownHasNoRoutes(bindings, b.domain);
    }
  }

  /** Inserts into the domain's existing host; the other hosts are untouched. */
  method PlaceInHost(sha: Text -> Text, mappings: map<Text, VirtualHost>, ghost owner: map<array<Route>, Text>,
                     b: Binding, ghost bindings: seq<Binding>) returns (ghost owner': map<array<Route>, Text>)
    requires b.domain in mappings && HostsHold(sha, mappings, owner, bindings)
    modifies mappings[b.domain], mappings[b.domain].routes.buf
    ensures HostsHold(sha, mappings, owner', bindings + [b])
    ensures forall a :: a in owner' ==> a in owner || fresh(a)
  {
    var vh := mappings[b.domain];
    assert HostHolds(sha, vh, owner, b.domain, Routes(bindings, b.domain));
    vh.AddRoute(b.route);
    owner' := owner[vh.routes.buf := b.domain];
    forall d | d in mappings && d != b.domain
      ensures HostHolds(sha, mappings[d], owner, d, Routes(bindings, d)) && mappings[d].routes.buf != vh.routes.buf
    {
      assert old(HostHolds(sha, mappings[d], owner, d, Routes(bindings, d)));
      assert mappings[d].domain != vh.domain;
    }
    HostGrows(sha, mappings, owner, b, bindings);
  }

  /** One host has grown by a route, in an array that no other host owns. */
  lemma HostGrows(sha: Text -> Text, mappings: map<Text, VirtualHost>, owner: map<array<Route>, Text>, b: Binding, bindings: seq<Binding>)
    requires b.domain in mappings && forall d :: d in mappings <==> Known(bindings, d)
    requires forall d :: d in mappings ==> mappings[d] in mappings.Values
    requires forall d :: d in mappings && d != b.domain ==>
               HostHolds(sha, mappings[d], owner, d, Routes(bindings, d)) && mappings[d].routes.buf != mappings[b.domain].routes.buf
    requires var vh := mappings[b.domain];
             && vh.domain == b.domain && vh.name == VirtualHostName(sha, b.domain)
             && vh.routes.Valid() && vh.routes.Elements() == InsertRoute(Routes(bindings, b.domain), b.route)
    ensures HostsHold(sha, mappings, owner[mappings[b.domain].routes.buf := b.domain], bindings + [b])
  {
    RoutesStep(bindings, b);
    var owner' := owner[mappings[b.domain].routes.buf := b.domain];
    forall d | d in mappings
      ensures HostHolds(sha, mappings[d], owner', d, Routes(bindings + [b], d))
    {
      if d != b.domain {
        assert HostHolds(sha, mappings[d], owner, d, Routes(bindings, d));
      }
    }
  }

  method PlaceNewHost(sha: Text -> Text, mappings: map<Text, VirtualHost>, ghost owner: map<array<Route>, Text>,
                      b: Binding, ghost bindings: seq<Binding>)
    returns (vh: VirtualHost, ghost owner': map<array<Route>, Text>)
    requires b.domain !in mappings && HostsHold(sha, mappings, owner, bindings)
    ensures fresh(vh)
    ensures HostsHold(sha, mappings[b.domain := vh], owner', bindings + [b])
    ensures forall a :: a in owner' ==> a in owner || fresh(a)
  {
    var first := Literal([b.route]);
    assert first.buf !in owner;
    vh := new VirtualHost(VirtualHostName(sha, b.domain), b.domain, first);
    assert HostsHold(sha, mappings, owner, bindings);
    owner' := owner[first.buf := b.domain];
    HostJoins(sha, mappings, owner, vh, b, bindings);
  }

  /** A new host with an array of its own joins the others. */
  lemma HostJoins(sha: Text -> Text, mappings: map<Text, VirtualHost>, owner: map<array<Route>, Text>, vh: VirtualHost,
                  b: Binding, bindings: seq<Binding>)
    requires b.domain !in mappings && HostsHold(sha, mappings, owner, bindings) && vh.routes.buf !in owner
    requires vh.domain == b.domain && vh.name == VirtualHostName(sha, b.domain)
    requires vh.routes.Valid() && vh.routes.Elements() == [b.route]
    ensures HostsHold(sha, mappings[b.domain := vh], owner[vh.routes.buf := b.domain], bindings + [b])
  {
    RoutesStep(bindings, b);
    var mappings', owner' := mappings[b.domain := vh], owner[vh.routes.buf := b.domain];
    forall d | d in mappings'
      ensures mappings'[d] in mappings'.Values && HostHolds(sha, mappings'[d], owner', d, Routes(bindings + [b], d))
    {
      if d != b.domain {
        assert HostHolds(sha, mappings[d], owner, d, Routes(bindings, d));
      }
    }
  }

  /** The table of the domains collected so far. */
  ghost predicate Collected(sha: Text -> Text, hosts: seq<HostRoutes>, domains: set<Text>, bindings: seq<Binding>) {
    && (forall i, j :: 0 <= i < j < |hosts| ==> hosts[i].domain != hosts[j].domain)
    && (forall d :: HasHost(hosts, d) <==> d in domains)
    && forall i :: 0 <= i < |hosts| ==> hosts[i] == HostFor(sha, bindings, hosts[i].domain)
  }

  function HostFor(sha: Text -> Text, bindings: seq<Binding>, domain: Text): HostRoutes {
    HostRoutes(VirtualHostName(sha, domain), domain, Routes(bindings, domain))
  }

  lemma CollectStep(sha: Text -> Text, hosts: seq<HostRoutes>, domains: set<Text>, bindings: seq<Binding>, d: Text)
    requires Collected(sha, hosts, domains, bindings) && d !in domains
    ensures Collected(sha, hosts + [HostFor(sha, bindings, d)], domains + {d}, bindings)
  {
    HasHostAppend(hosts, HostFor(sha, bindings, d));
    assert forall i :: 0 <= i < |hosts| ==> HasHost(hosts, hosts[i].domain);
  }

  /** Collects the virtual hosts in some order of their map. */
  method CollectHosts(mappings: map<Text, VirtualHost>, sha: Text -> Text, ghost owner: map<array<Route>, Text>,
                      ghost bindings: seq<Binding>)
    returns (hosts: seq<HostRoutes>)
    requires HostsHold(sha, mappings, owner, bindings)
    ensures Collected(sha, hosts, mappings.Keys, bindings)
  {
    var lists := map d | d in mappings :: HostRoutes(mappings[d].name, mappings[d].domain, mappings[d].routes.Elements());
    assert forall d :: d in lists ==> lists[d] == HostFor(sha, bindings, d);
    hosts := CollectLists(lists, sha, bindings);
  }

  method CollectLists(lists: map<Text, HostRoutes>, sha: Text -> Text, ghost bindings: seq<Binding>) returns (hosts: seq<HostRoutes>)
    requires forall d :: d in lists ==> lists[d] == HostFor(sha, bindings, d)
    ensures Collected(sha, hosts, lists.Keys, bindings)
  {
    hosts := [];
    var rest := lists.Keys;
    while rest != {}
      invariant rest <= lists.Keys
      invariant Collected(sha, hosts, lists.Keys - rest, bindings)
      decreases |rest|
    {
      var d :| d in rest;
      CollectStep(sha, hosts, lists.Keys - rest, bindings, d);
      hosts := hosts + [lists[d]];
      assert lists.Keys - (rest - {d}) == (lists.Keys - rest) + {d};
      rest := rest - {d};
    }
    assert lists.Keys - {} == lists.Keys;
  }

  lemma HasHostAppend(hosts: seq<HostRoutes>, h: HostRoutes)
    ensures forall d :: HasHost(hosts + [h], d) <==> HasHost(hosts, d) || d == h.domain
  {
    var after := hosts + [h];
    assert after[|hosts|] == h;
    assert forall i :: 0 <= i < |hosts| ==> after[i] == hosts[i];
  }
}
