/** Cluster definitions, and when a route's cluster leads to the route's own destination. */
module Clusters {
  import opened GoText
  import opened Requests
  import opened MapOrder
  import opened ClusterNames
  import opened Registry

  datatype Cluster = Cluster(name: Text, host: Text, port: nat)

  function ClusterOf(sha: Text -> Text, u: URL): Cluster {
    Cluster(ClusterName(sha, u), u.hostname, IdentifyPort(u))
  }

  predicate Named(clusters: seq<Cluster>, name: Text) {
    exists i :: 0 <= i < |clusters| && clusters[i].name == name
  }

  /** One cluster per name, defined by the first destination that has it. */
  function ClustersOf(sha: Text -> Text, destinations: seq<URL>): seq<Cluster> {
    if destinations == [] then []
    else
      var n := |destinations| - 1;
      var clusters := ClustersOf(sha, destinations[..n]);
      var c := ClusterOf(sha, destinations[n]);
      if Named(clusters, c.name) then clusters else clusters + [c]
  }

  function FindCluster(clusters: seq<Cluster>, name: Text): Option<Cluster> {
    if clusters == [] then None
    else if clusters[0].name == name then Some(clusters[0])
    else FindCluster(clusters[1..], name)
  }

  lemma {:induction false} FindClusterMeaning(clusters: seq<Cluster>, name: Text)
    ensures FindCluster(clusters, name).Some? <==> Named(clusters, name)
    ensures FindCluster(clusters, name).Some? ==>
              FindCluster(clusters, name).value.name == name && FindCluster(clusters, name).value in clusters
  {
    if clusters != [] && clusters[0].name != name {
      FindClusterMeaning(clusters[1..], name);
      if Named(clusters, name) {
        var i :| 0 <= i < |clusters| && clusters[i].name == name;
        assert clusters[1..][i - 1].name == name;
      }
    }
  }

  lemma {:induction false} ClusterNamesUnique(sha: Text -> Text, destinations: seq<URL>)
    ensures forall i, j :: 0 <= i < j < |ClustersOf(sha, destinations)| ==>
              ClustersOf(sha, destinations)[i].name != ClustersOf(sha, destinations)[j].name
  {
    if destinations != [] {
      ClusterNamesUnique(sha, destinations[..|destinations| - 1]);
    }
  }

  lemma {:induction false} DestinationNamed(sha: Text -> Text, destinations: seq<URL>, u: URL)
    requires u in destinations
    ensures Named(ClustersOf(sha, destinations), ClusterName(sha, u))
  {
    var n := |destinations| - 1;
    var before, cs := ClustersOf(sha, destinations[..n]), ClustersOf(sha, destinations);
    var c := ClusterOf(sha, destinations[n]);
    assert destinations == destinations[..n] + [destinations[n]];
    if u == destinations[n] {
      if !Named(before, c.name) {
        assert cs[|before|].name == c.name;
      }
    } else {
      DestinationNamed(sha, destinations[..n], u);
      var j :| 0 <= j < |before| && before[j].name == ClusterName(sha, u);
      assert cs[j] == before[j];
    }
  }

  lemma {:induction false} ClusterHasDestination(sha: Text -> Text, destinations: seq<URL>, c: Cluster)
    requires c in ClustersOf(sha, destinations)
    ensures exists u :: u in destinations && c == ClusterOf(sha, u)
  {
    var n := |destinations| - 1;
    var last := ClusterOf(sha, destinations[n]);
    if c == last {
      assert destinations[n] in destinations;
    } else {
      ClusterHasDestination(sha, destinations[..n], c);
      var u :| u in destinations[..n] && c == ClusterOf(sha, u);
    }
  }

  lemma {:induction false} FirstDestinationDefines(sha: Text -> Text, destinations: seq<URL>)
    requires |destinations| > 0
    ensures |ClustersOf(sha, destinations)| > 0 && ClustersOf(sha, destinations)[0] == ClusterOf(sha, destinations[0])
  {
    if |destinations| > 1 {
      FirstDestinationDefines(sha, destinations[..|destinations| - 1]);
    } else {
      assert ClustersOf(sha, destinations[..0]) == [];
    }
  }

  // Routes and clusters together

  function Destinations(ctls: map<Text, ProxyControls>, order: seq<Text>): (us: seq<URL>)
    requires IsOrder(ctls.Keys, order)
    ensures |us| == |order|
  {
    assert forall i :: 0 <= i < |order| ==> order[i] in order;
    seq(|order|, i requires 0 <= i < |order| => ctls[order[i]].destination.url)
  }

  lemma DestinationMembers(ctls: map<Text, ProxyControls>, order: seq<Text>)
    requires IsOrder(ctls.Keys, order)
    ensures forall u :: u in Destinations(ctls, order) ==> exists k :: k in ctls && u == ctls[k].destination.url
    ensures forall k :: k in ctls ==> ctls[k].destination.url in Destinations(ctls, order)
  {
    var us := Destinations(ctls, order);
    assert forall i :: 0 <= i < |order| ==> order[i] in order;
    forall k | k in ctls
      ensures ctls[k].destination.url in us
    {
      var i :| 0 <= i < |order| && order[i] == k;
      assert us[i] == ctls[k].destination.url;
    }
  }

  /** The cluster a control's route names exists and has the control's own host and port. */
  predicate Resolves(sha: Text -> Text, clusters: seq<Cluster>, u: URL) {
    FindCluster(clusters, ClusterName(sha, u)) == Some(ClusterOf(sha, u))
  }

  ghost predicate AlwaysResolves(sha: Text -> Text, ctls: map<Text, ProxyControls>) {
    forall order, k :: IsOrder(ctls.Keys, order) && k in ctls ==>
      Resolves(sha, ClustersOf(sha, Destinations(ctls, order)), ctls[k].destination.url)
  }

  /** Destinations that share a cluster name are the same host and port. */
  predicate NoCollisions(sha: Text -> Text, ctls: map<Text, ProxyControls>) {
    forall k, j :: k in ctls && j in ctls && ClusterName(sha, ctls[k].destination.url) == ClusterName(sha, ctls[j].destination.url) ==>
      ClusterOf(sha, ctls[k].destination.url) == ClusterOf(sha, ctls[j].destination.url)
  }

  lemma {:induction false} NoCollisionsResolve(sha: Text -> Text, ctls: map<Text, ProxyControls>, order: seq<Text>, k: Text)
    requires IsOrder(ctls.Keys, order) && k in ctls && NoCollisions(sha, ctls)
    ensures Resolves(sha, ClustersOf(sha, Destinations(ctls, order)), ctls[k].destination.url)
  {
    var us := Destinations(ctls, order);
    DestinationMembers(ctls, order);
    var cs := ClustersOf(sha, us);
    var u := ctls[k].destination.url;
    DestinationNamed(sha, us, u);
    FindClusterMeaning(cs, ClusterName(sha, u));
    var c := FindCluster(cs, ClusterName(sha, u)).value;
    ClusterHasDestination(sha, us, c);
    var v :| v in us && c == ClusterOf(sha, v);
  }

  /**
   * Every route reaches its own destination in every iteration order exactly when no two
   * destinations with different endpoints share a name: the first one ranged over wins.
   */
  lemma ClusterResolution(sha: Text -> Text, ctls: map<Text, ProxyControls>)
    ensures AlwaysResolves(sha, ctls) <==> NoCollisions(sha, ctls)
  {
    if NoCollisions(sha, ctls) {
      forall order, k | IsOrder(ctls.Keys, order) && k in ctls
        ensures Resolves(sha, ClustersOf(sha, Destinations(ctls, order)), ctls[k].destination.url)
      {
        NoCollisionsResolve(sha, ctls, order, k);
      }
    }
    if AlwaysResolves(sha, ctls) {
      forall k, j | k in ctls && j in ctls && ClusterName(sha, ctls[k].destination.url) == ClusterName(sha, ctls[j].destination.url)
        ensures ClusterOf(sha, ctls[k].destination.url) == ClusterOf(sha, ctls[j].destination.url)
      {
        var order := OrderFrom(ctls.Keys, k);
        FirstDestinationDefines(sha, Destinations(ctls, order));
        assert Resolves(sha, ClustersOf(sha, Destinations(ctls, order)), ctls[j].destination.url);
      }
    }
  }

  /** Destinations over the allowed alphabet whose names fit never collide. */
  lemma {:induction false} PlainHostsResolve(sha: Text -> Text, ctls: map<Text, ProxyControls>)
    requires forall k :: k in ctls ==>
      AllNameBytes(ctls[k].destination.url.hostname) && |RawClusterName(ctls[k].destination.url)| <= MAX_NAME
    ensures AlwaysResolves(sha, ctls)
  {
    forall k, j | k in ctls && j in ctls && ClusterName(sha, ctls[k].destination.url) == ClusterName(sha, ctls[j].destination.url)
      ensures ClusterOf(sha, ctls[k].destination.url) == ClusterOf(sha, ctls[j].destination.url)
    {
      ClusterNameInjective(sha, ctls[k].destination.url, ctls[j].destination.url);
    }
    ClusterResolution(sha, ctls);
  }
}
