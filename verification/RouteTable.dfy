/** First-match route lists kept longest-prefix first, and what matching against them selects. */
module RouteTable {
  import opened GoText

  datatype Mutation = Remove(name: Text) | Overwrite(name: Text, value: Text) | NoMutation

  datatype PerRouteAuthz = Disabled | CheckSettings(contextExtensions: map<Text, Text>)

  datatype Route = Route(
    prefix: Text,
    cluster: Text,
    hostRewrite: Text,
    prefixRewrite: Text,
    metadata: map<Text, Text>,
    requestMutations: seq<Mutation>,
    authz: PerRouteAuthz)

  datatype Binding = Binding(domain: Text, route: Route)

  const ANY_DOMAIN: Text := "*"

  // Insertion

  /** The position of the first route with a shorter prefix, or the end. */
  function InsertPosition(routes: seq<Route>, r: Route): (p: nat)
    ensures p <= |routes|
    ensures forall i :: 0 <= i < p ==> |r.prefix| <= |routes[i].prefix|
    ensures p < |routes| ==> |r.prefix| > |routes[p].prefix|
  {
    if routes == [] || |r.prefix| > |routes[0].prefix| then 0
    else 1 + InsertPosition(routes[1..], r)
  }

  function InsertRoute(routes: seq<Route>, r: Route): seq<Route> {
    var p := InsertPosition(routes, r);
    routes[..p] + [r] + routes[p..]
  }

  /** The list of one virtual host after processing the bindings in order. */
  function Routes(bindings: seq<Binding>, domain: Text): seq<Route> {
    if bindings == [] then []
    else
      var n := |bindings| - 1;
      var routes := Routes(bindings[..n], domain);
      if bindings[n].domain == domain then InsertRoute(routes, bindings[n].route) else routes
  }

  /** The routes of one domain, in processing order. */
  function Processed(bindings: seq<Binding>, domain: Text): (routes: seq<Route>)
    ensures forall r :: r in routes <==> Binding(domain, r) in bindings
  {
    if bindings == [] then []
    else
      var n := |bindings| - 1;
      assert bindings == bindings[..n] + [bindings[n]];
      Processed(bindings[..n], domain) + if bindings[n].domain == domain then [bindings[n].route] else []
  }

  predicate LongestFirst(routes: seq<Route>) {
    forall i, j :: 0 <= i < j < |routes| ==> |routes[i].prefix| >= |routes[j].prefix|
  }

  function OfLength(routes: seq<Route>, n: nat): seq<Route> {
    if routes == [] then []
    else (if |routes[0].prefix| == n then [routes[0]] else []) + OfLength(routes[1..], n)
  }

  lemma OfLengthConsed(r: Route, routes: seq<Route>, n: nat)
    ensures OfLength([r] + routes, n) == OfLength([r], n) + OfLength(routes, n)
  {
    assert ([r] + routes)[1..] == routes && [r][1..] == [];
  }

  lemma {:induction false} OfLengthConcat(a: seq<Route>, b: seq<Route>, n: nat)
    ensures OfLength(a + b, n) == OfLength(a, n) + OfLength(b, n)
  {
    if a == [] {
      assert a + b == b;
    } else {
      var first, rest := a[0], a[1..];
      OfLengthConcat(rest, b, n);
      assert a == [first] + rest && a + b == [first] + (rest + b);
      OfLengthConsed(first, rest, n);
      OfLengthConsed(first, rest + b, n);
    }
  }

  lemma {:induction false} OfLengthNone(routes: seq<Route>, n: nat)
    requires forall r :: r in routes ==> |r.prefix| != n
    ensures OfLength(routes, n) == []
  {
    if routes != [] {
      assert routes[0] in routes;
      OfLengthNone(routes[1..], n);
    }
  }

  lemma OfLengthSingle(r: Route, n: nat)
    ensures OfLength([r], n) == if |r.prefix| == n then [r] else []
  {
    assert [r][1..] == [];
  }

  lemma ShorterBehind(routes: seq<Route>, r: Route)
    requires LongestFirst(routes)
    ensures forall x :: x in routes[InsertPosition(routes, r)..] ==> |x.prefix| < |r.prefix|
  {
    var p := InsertPosition(routes, r);
    forall i | p <= i < |routes|
      ensures |routes[i].prefix| < |r.prefix|
    {
      assert |routes[i].prefix| <= |routes[p].prefix|;
    }
  }

  lemma OfLengthBetween(before: seq<Route>, r: Route, after: seq<Route>, n: nat)
    requires |r.prefix| == n ==> OfLength(after, n) == []
    ensures OfLength(before + [r] + after, n) == OfLength(before + after, n) + OfLength([r], n)
  {
    OfLengthConcat(before + [r], after, n);
    OfLengthConcat(before, [r], n);
    OfLengthConcat(before, after, n);
    OfLengthSingle(r, n);
  }

  lemma InsertOfLength(routes: seq<Route>, r: Route, n: nat)
    requires LongestFirst(routes)
    ensures OfLength(InsertRoute(routes, r), n) == OfLength(routes, n) + OfLength([r], n)
  {
    var p := InsertPosition(routes, r);
    var before, after := routes[..p], routes[p..];
    assert routes == before + after;
    if |r.prefix| == n {
      ShorterBehind(routes, r);
      OfLengthNone(after, n);
    }
    OfLengthBetween(before, r, after, n);
  }

  lemma InsertPermutes(routes: seq<Route>, r: Route)
    ensures multiset(InsertRoute(routes, r)) == multiset(routes) + multiset{r}
  {
    var p := InsertPosition(routes, r);
    assert routes == routes[..p] + routes[p..];
  }

  lemma InsertKeepsOrder(routes: seq<Route>, r: Route)
    requires LongestFirst(routes)
    ensures LongestFirst(InsertRoute(routes, r))
  {
    var p := InsertPosition(routes, r);
    var after := InsertRoute(routes, r);
    forall i, j | 0 <= i < j < |after|
      ensures |after[i].prefix| >= |after[j].prefix|
    {
      if j < p {
        assert after[i] == routes[i] && after[j] == routes[j];
      } else if j == p {
        assert after[i] == routes[i] && after[j] == r;
      } else {
        assert after[j] == routes[j - 1];
        if i < p {
          assert after[i] == routes[i];
        } else if i == p {
          assert after[i] == r && |r.prefix| > |routes[p].prefix| >= |routes[j - 1].prefix|;
        } else {
          assert after[i] == routes[i - 1];
        }
      }
    }
  }

  /**
   * Every virtual host's list is sorted by non-increasing prefix length, holds exactly the
   * routes processed for its domain, and keeps routes of equal length in processing order.
   */
  lemma {:induction false} RoutesSortedStable(bindings: seq<Binding>, domain: Text)
    ensures LongestFirst(Routes(bindings, domain))
    ensures multiset(Routes(bindings, domain)) == multiset(Processed(bindings, domain))
    ensures forall n: nat :: OfLength(Routes(bindings, domain), n) == OfLength(Processed(bindings, domain), n)
  {
    if bindings != [] {
      var k := |bindings| - 1;
      RoutesSortedStable(bindings[..k], domain);
      RoutesLongestFirst(bindings, domain);
      var routes := Routes(bindings[..k], domain);
      var r := bindings[k].route;
      if bindings[k].domain == domain {
        InsertPermutes(routes, r);
        forall n: nat
          ensures OfLength(Routes(bindings, domain), n) == OfLength(Processed(bindings, domain), n)
        {
          InsertOfLength(routes, r, n);
          OfLengthConcat(Processed(bindings[..k], domain), [r], n);
        }
      } else {
        assert Processed(bindings, domain) == Processed(bindings[..k], domain);
      }
    }
  }

  // Matching

  /** The proxy takes the first route whose prefix the path starts with. */
  function FirstMatch(routes: seq<Route>, path: Text): Option<Route> {
    if routes == [] then None
    else if routes[0].prefix <= path then Some(routes[0])
    else FirstMatch(routes[1..], path)
  }

  predicate Known(bindings: seq<Binding>, domain: Text) {
    exists i :: 0 <= i < |bindings| && bindings[i].domain == domain
  }

  function HostOf(bindings: seq<Binding>, domain: Text): Text {
    if Known(bindings, domain) then domain else ANY_DOMAIN
  }

  /** The virtual host is the exact domain or else "*", and only its own list is searched. */
  function Select(bindings: seq<Binding>, domain: Text, path: Text): Option<Route> {
    FirstMatch(Routes(bindings, HostOf(bindings, domain)), path)
  }

  /** The reference: of the matching routes the one with the longest prefix, the earliest on a tie. */
  function Longest(routes: seq<Route>, path: Text): (best: Option<Route>)
    ensures best.None? <==> forall r :: r in routes ==> !(r.prefix <= path)
    ensures best.Some? ==>
              && best.value in routes && best.value.prefix <= path
              && forall r :: r in routes && r.prefix <= path ==> |r.prefix| <= |best.value.prefix|
  {
    if routes == [] then None
    else
      var n := |routes| - 1;
      assert routes == routes[..n] + [routes[n]];
      var best := Longest(routes[..n], path);
      if routes[n].prefix <= path && (best.None? || |routes[n].prefix| > |best.value.prefix|) then Some(routes[n])
      else best
  }

  function Prefixes(routes: seq<Route>): set<Text> {
    set r | r in routes :: r.prefix
  }

  lemma InsertBehind(routes: seq<Route>, r: Route)
    requires |routes| > 0 && |r.prefix| <= |routes[0].prefix|
    ensures InsertRoute(routes, r) == [routes[0]] + InsertRoute(routes[1..], r)
  {
    var p := InsertPosition(routes[1..], r);
    assert InsertPosition(routes, r) == p + 1;
    assert routes[..p + 1] == [routes[0]] + routes[1..][..p] && routes[p + 1..] == routes[1..][p..];
  }

  lemma MatchConsed(r: Route, routes: seq<Route>, path: Text)
    ensures FirstMatch([r] + routes, path) == if r.prefix <= path then Some(r) else FirstMatch(routes, path)
  {
    assert ([r] + routes)[1..] == routes;
  }

  lemma {:induction false} FirstMatchInsert(routes: seq<Route>, r: Route, path: Text)
    requires LongestFirst(routes)
    ensures var was := FirstMatch(routes, path);
            FirstMatch(InsertRoute(routes, r), path)
            == if r.prefix <= path && (was.None? || |r.prefix| > |was.value.prefix|) then Some(r) else was
  {
    if routes == [] || |r.prefix| > |routes[0].prefix| {
      assert InsertRoute(routes, r) == [r] + routes;
      MatchConsed(r, routes, path);
      FirstMatchMember(routes, path);
    } else {
      FirstMatchInsert(routes[1..], r, path);
      InsertBehind(routes, r);
      MatchConsed(routes[0], InsertRoute(routes[1..], r), path);
    }
  }

  lemma {:induction false} FirstMatchMember(routes: seq<Route>, path: Text)
    ensures FirstMatch(routes, path).Some? ==> FirstMatch(routes, path).value in routes
  {
    if routes != [] && !(routes[0].prefix <= path) {
      FirstMatchMember(routes[1..], path);
    }
  }

  lemma LongestStep(routes: seq<Route>, r: Route, path: Text)
    ensures var was := Longest(routes, path);
            Longest(routes + [r], path)
            == if r.prefix <= path && (was.None? || |r.prefix| > |was.value.prefix|) then Some(r) else was
  {
    assert (routes + [r])[..|routes|] == routes;
  }

  lemma {:induction false} RoutesLongestFirst(bindings: seq<Binding>, domain: Text)
    ensures LongestFirst(Routes(bindings, domain))
  {
    if bindings != [] {
      var k := |bindings| - 1;
      RoutesLongestFirst(bindings[..k], domain);
      InsertKeepsOrder(Routes(bindings[..k], domain), bindings[k].route);
    }
  }

  lemma LastProcessed(bindings: seq<Binding>, domain: Text)
    requires |bindings| > 0
    ensures var init, b := bindings[..|bindings| - 1], bindings[|bindings| - 1];
            && Processed(bindings, domain) == (if b.domain == domain then Processed(init, domain) + [b.route] else Processed(init, domain))
            && Routes(bindings, domain) == (if b.domain == domain then InsertRoute(Routes(init, domain), b.route) else Routes(init, domain))
  {
  }

  /** The in-place sorted lists select what the reference selects. */
  lemma {:induction false} FirstMatchIsLongest(bindings: seq<Binding>, domain: Text, path: Text)
    ensures FirstMatch(Routes(bindings, domain), path) == Longest(Processed(bindings, domain), path)
  {
    if bindings != [] {
      var k := |bindings| - 1;
      var init, b := bindings[..k], bindings[k];
      FirstMatchIsLongest(init, domain, path);
      LastProcessed(bindings, domain);
      if b.domain == domain {
        RoutesLongestFirst(init, domain);
        FirstMatchInsert(Routes(init, domain), b.route, path);
        LongestStep(Processed(init, domain), b.route, path);
      }
    }
  }

  /** The longest matching prefix depends only on which prefixes are present. */
  lemma {:induction false} LongestPrefixUnique(a: seq<Route>, b: seq<Route>, path: Text)
    requires Prefixes(a) == Prefixes(b)
    ensures Longest(a, path).Some? <==> Longest(b, path).Some?
    ensures Longest(a, path).Some? ==> Longest(a, path).value.prefix == Longest(b, path).value.prefix
  {
    LongestAmongPrefixes(a, path);
    LongestAmongPrefixes(b, path);
    var la, lb := Longest(a, path), Longest(b, path);
    if la.Some? && lb.Some? {
      assert la.value.prefix == path[..|la.value.prefix|];
      assert lb.value.prefix == path[..|lb.value.prefix|];
    }
  }

  lemma LongestAmongPrefixes(routes: seq<Route>, path: Text)
    ensures Longest(routes, path).None? <==> forall x :: x in Prefixes(routes) ==> !(x <= path)
    ensures Longest(routes, path).Some? ==>
              && Longest(routes, path).value.prefix in Prefixes(routes)
              && forall x :: x in Prefixes(routes) && x <= path ==> |x| <= |Longest(routes, path).value.prefix|
  {
    forall r | r in routes
      ensures r.prefix in Prefixes(routes)
    {
    }
  }

  /** A route for the whole path that was processed first wins. */
  lemma {:induction false} FirstExactWins(routes: seq<Route>, path: Text)
    requires |routes| > 0 && routes[0].prefix == path
    ensures Longest(routes, path) == Some(routes[0])
  {
    var n := |routes| - 1;
    if n > 0 {
      FirstExactWins(routes[..n], path);
    }
  }
}
