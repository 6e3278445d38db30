/** The indexes built from route sources, and the authorisation decision made on them. */
module Registry {
  import opened GoText
  import opened GoSlices
  import opened Requests
  import opened Sources
  import opened Wormhole
  import Headers

  datatype UserDetails = UserDetails(groups: set<Text>, users: set<Text>)

  datatype AuthControls = AuthControls(
    source: Text,
    destination: Text,
    id: Text,
    communityID: Text,
    allowed: UserDetails,
    disallowed: UserDetails)

  datatype ProxyControls = ProxyControls(
    source: URLString,
    destination: URLString,
    requestHeaders: map<Text, Text>,
    prefixRewrite: Text,
    communityID: Text,
    authzContext: map<Text, Text>,
    noAuth: bool)

  datatype Controls = Controls(
    auth: map<Text, AuthControls>,
    proxy: map<Text, ProxyControls>,
    redirect: set<Text>)

  datatype Denial =
    | InvalidRouteID | MissingRouteID | UnknownRoute
    | WrongCommunity | UserDenied | GroupDenied | DeniedByDefault

  // Building the indexes

  function Details(rules: UserRules): UserDetails {
    UserDetails(set g | g in rules.groups, set u | u in rules.users)
  }

  function Convert(rs: RawSource): AuthControls {
    AuthControls(rs.source.key, rs.destination.raw, rs.id, rs.communityID, Details(rs.allowed), Details(rs.disallowed))
  }

  function AuthzContext(rs: RawSource): map<Text, Text> {
    var ctx := map[
      Headers.ROUTE_ID := rs.id,
      Headers.WORMHOLE_HOST := rs.source.url.host,
      Headers.WORMHOLE_SCHEME := rs.source.url.scheme];
    if rs.communityID != "" then ctx[Headers.COMMUNITY := rs.communityID] else ctx
  }

  function ProxyOf(rs: RawSource): ProxyControls {
    ProxyControls(rs.source, rs.destination, map[], rs.prefixRewrite, rs.communityID, AuthzContext(rs), rs.noAuth)
  }

  function AddSource(c: Controls, rs: RawSource): Controls {
    Controls(
      c.auth[rs.id := Convert(rs)],
      c.proxy[rs.id := ProxyOf(rs)],
      if rs.source.key != "" then c.redirect + {rs.source.key} else c.redirect)
  }

  /** The indexes after folding the sources in order: a later source replaces an earlier one. */
  function Build(admin: set<Text>, sources: seq<RawSource>): Controls {
    if sources == [] then Controls(map[], map[], admin)
    else AddSource(Build(admin, sources[..|sources| - 1]), sources[|sources| - 1])
  }

  /** The last listed source with the given id. */
  function LastWith(sources: seq<RawSource>, id: Text): (r: Option<RawSource>)
    ensures r.None? <==> forall i :: 0 <= i < |sources| ==> sources[i].id != id
    ensures r.Some? ==> exists i :: 0 <= i < |sources| && sources[i] == r.value && sources[i].id == id
                                    && forall j :: i < j < |sources| ==> sources[j].id != id
  {
    if sources == [] then None
    else
      var n := |sources| - 1;
      assert forall i :: 0 <= i < n ==> sources[..n][i] == sources[i];
      if sources[n].id == id then Some(sources[n]) else LastWith(sources[..n], id)
  }

  lemma {:induction false} LastWithConcat(a: seq<RawSource>, b: seq<RawSource>, id: Text)
    ensures LastWith(a + b, id) == if LastWith(b, id).Some? then LastWith(b, id) else LastWith(a, id)
  {
    if b == [] {
      assert a + b == a;
    } else {
      LastWithConcat(a, b[..|b| - 1], id);
      assert (a + b)[..|a + b| - 1] == a + b[..|b| - 1];
    }
  }

  /** Both indexes hold exactly the listed ids, and each id leads to its last source in both. */
  lemma {:induction false} BuildIndexes(admin: set<Text>, sources: seq<RawSource>, id: Text)
    ensures var c := Build(admin, sources);
            var last := LastWith(sources, id);
            && (id in c.proxy <==> last.Some?)
            && (id in c.auth <==> last.Some?)
            && (last.Some? ==> c.proxy[id] == ProxyOf(last.value) && c.auth[id] == Convert(last.value))
  {
    if sources != [] {
      BuildIndexes(admin, sources[..|sources| - 1], id);
    }
  }

  /** What the indexes hold for an id, field by field of the last source with it. */
  lemma {:induction false} IndexedFields(admin: set<Text>, sources: seq<RawSource>, id: Text)
    ensures var c := Build(admin, sources);
            var last := LastWith(sources, id);
            last.Some? ==>
              && id in c.auth && id in c.proxy
              && c.auth[id].source == last.value.source.key && c.auth[id].destination == last.value.destination.raw
              && c.auth[id].id == id && c.auth[id].communityID == last.value.communityID
              && c.proxy[id].source == last.value.source && c.proxy[id].destination == last.value.destination
              && c.proxy[id].communityID == last.value.communityID && c.proxy[id].requestHeaders == map[]
              && c.proxy[id].prefixRewrite == last.value.prefixRewrite && c.proxy[id].noAuth == last.value.noAuth
  {
    BuildIndexes(admin, sources, id);
  }

  /** The trusted redirect hosts are the administrator's and every listed source's key. */
  lemma {:induction false} BuildRedirects(admin: set<Text>, sources: seq<RawSource>)
    ensures Build(admin, sources).redirect
            == admin + set i | 0 <= i < |sources| && sources[i].source.key != "" :: sources[i].source.key
  {
    if sources != [] {
      var n := |sources| - 1;
      var init := sources[..n];
      BuildRedirects(admin, init);
      var keys := set i | 0 <= i < |sources| && sources[i].source.key != "" :: sources[i].source.key;
      var initKeys := set i | 0 <= i < |init| && init[i].source.key != "" :: init[i].source.key;
      forall k: Text | k in initKeys
        ensures k in keys
      {
        var i :| 0 <= i < |init| && init[i].source.key != "" && init[i].source.key == k;
        assert sources[i] == init[i];
      }
      forall k: Text | k in keys && k != sources[n].source.key
        ensures k in initKeys
      {
        var i :| 0 <= i < |sources| && sources[i].source.key != "" && sources[i].source.key == k;
        assert init[i] == sources[i];
      }
      if sources[n].source.key != "" {
        assert sources[n].source.key in keys;
      }
    }
  }

  /**
   * A route skips authorisation exactly when the last source with its id is a static one
   * carrying the flag: nothing decoded from a message can set it.
   */
  lemma {:induction false} NoAuthOnlyStatic(admin: set<Text>, fixed: seq<RawSource>, parse: Parser, published: seq<WireSource>, id: Text)
    requires DecodeSources(parse, published).Some?
    ensures var dynamic := DecodeSources(parse, published).value;
            var proxy := Build(admin, fixed + dynamic).proxy;
            id in proxy ==>
              (proxy[id].noAuth <==> LastWith(dynamic, id).None? && LastWith(fixed, id).Some? && LastWith(fixed, id).value.noAuth)
  {
    var dynamic := DecodeSources(parse, published).value;
    BuildIndexes(admin, fixed + dynamic, id);
    LastWithConcat(fixed, dynamic, id);
    var last := LastWith(dynamic, id);
    if last.Some? {
      var i :| 0 <= i < |dynamic| && dynamic[i] == last.value;
      assert DecodeSource(parse, published[i]) == Some(dynamic[i]);
    }
  }

  /** The i-th published source is the last with its id, and sets the rewrite. */
  predicate LastRewrites(published: seq<WireSource>, i: nat, id: Text, rewrite: Text)
    requires i < |published|
  {
    published[i].id == id && published[i].prefixRewrite == rewrite && forall j :: i < j < |published| ==> published[j].id != id
  }

  lemma {:induction false} DecodedFields(parse: Parser, published: seq<WireSource>, dynamic: seq<RawSource>)
    requires DecodeSources(parse, published) == Some(dynamic)
    ensures |dynamic| == |published|
    ensures forall i :: 0 <= i < |published| ==> dynamic[i].id == published[i].id && dynamic[i].prefixRewrite == published[i].prefixRewrite
  {
    forall i | 0 <= i < |published|
      ensures dynamic[i].id == published[i].id && dynamic[i].prefixRewrite == published[i].prefixRewrite
    {
      assert DecodeSource(parse, published[i]) == Some(dynamic[i]);
    }
  }

  lemma LastPublished(parse: Parser, published: seq<WireSource>, id: Text)
    requires DecodeSources(parse, published).Some?
    ensures var last := LastWith(DecodeSources(parse, published).value, id);
            && (last.None? <==> forall i :: 0 <= i < |published| ==> published[i].id != id)
            && (last.Some? ==> exists i :: 0 <= i < |published| && LastRewrites(published, i, id, last.value.prefixRewrite))
  {
    var dynamic := DecodeSources(parse, published).value;
    DecodedFields(parse, published, dynamic);
    var last := LastWith(dynamic, id);
    if last.Some? {
      var i :| 0 <= i < |dynamic| && dynamic[i] == last.value && dynamic[i].id == id
               && forall j :: i < j < |dynamic| ==> dynamic[j].id != id;
      assert LastRewrites(published, i, id, last.value.prefixRewrite);
    }
  }

  /** A route's prefix rewrite is that of the last source with its id, published or else static. */
  lemma PrefixRewriteOfLast(admin: set<Text>, fixed: seq<RawSource>, parse: Parser, published: seq<WireSource>, id: Text)
    requires DecodeSources(parse, published).Some?
    ensures var proxy := Build(admin, fixed + DecodeSources(parse, published).value).proxy;
            id in proxy ==>
              if exists i :: 0 <= i < |published| && published[i].id == id then
                exists i :: 0 <= i < |published| && LastRewrites(published, i, id, proxy[id].prefixRewrite)
              else LastWith(fixed, id).Some? && proxy[id].prefixRewrite == LastWith(fixed, id).value.prefixRewrite
  {
    var dynamic := DecodeSources(parse, published).value;
    BuildIndexes(admin, fixed + dynamic, id);
    LastWithConcat(fixed, dynamic, id);
    LastPublished(parse, published, id);
  }

  /** So the route registry can set one: a single published source rewrites as it says. */
  lemma PublishedPrefixRewrite(parse: Parser, w: WireSource)
    requires DecodeSource(parse, w).Some?
    ensures DecodeSources(parse, [w]).Some?
    ensures var proxy := Build({}, [] + DecodeSources(parse, [w]).value).proxy;
            w.id in proxy && proxy[w.id].prefixRewrite == w.prefixRewrite
  {
    assert [w][1..] == [];
    PrefixRewriteOfLast({}, [], parse, [w], w.id);
    BuildIndexes({}, [] + DecodeSources(parse, [w]).value, w.id);
    assert ([] + DecodeSources(parse, [w]).value)[0].id == w.id;
  }

  // Deciding

  predicate AnyIn(groups: seq<Text>, s: set<Text>) {
    exists i :: 0 <= i < |groups| && groups[i] in s
  }

  /** Deny rules outrank allow rules, and users outrank groups. */
  function Enforce(a: AuthControls, p: TokenPayload): Option<Denial> {
    if p.username in a.disallowed.users then Some(UserDenied)
    else if AnyIn(p.groups, a.disallowed.groups) then Some(GroupDenied)
    else if p.username in a.allowed.users || AnyIn(p.groups, a.allowed.groups) then None
    else Some(DeniedByDefault)
  }

  function Authorize(auth: map<Text, AuthControls>, isUUID: Text -> bool, routeID: Text, p: TokenPayload): Option<Denial> {
    if routeID != "" && !isUUID(routeID) then Some(InvalidRouteID)
    else if routeID == "" then Some(MissingRouteID)
    else if routeID !in auth then Some(UnknownRoute)
    else if p.externalID != "" && auth[routeID].communityID != p.externalID then Some(WrongCommunity)
    else Enforce(auth[routeID], p)
  }

  /** What a source's own rules say about a token. */
  predicate Admits(rs: RawSource, p: TokenPayload) {
    && (p.externalID != "" ==> p.externalID == rs.communityID)
    && p.username !in rs.disallowed.users
    && (forall i :: 0 <= i < |p.groups| ==> p.groups[i] !in rs.disallowed.groups)
    && (p.username in rs.allowed.users || exists i :: 0 <= i < |p.groups| && p.groups[i] in rs.allowed.groups)
  }

  /** A token is authorised for an id exactly when the last source with that id admits it. */
  lemma {:induction false} AuthorizeMeaning(admin: set<Text>, sources: seq<RawSource>, isUUID: Text -> bool, id: Text, p: TokenPayload)
    ensures Authorize(Build(admin, sources).auth, isUUID, id, p).None?
            <==> && id != "" && isUUID(id)
                 && LastWith(sources, id).Some? && Admits(LastWith(sources, id).value, p)
  {
    BuildIndexes(admin, sources, id);
    var last := LastWith(sources, id);
    if last.Some? {
      DetailsMembers(last.value.disallowed, p.groups);
      DetailsMembers(last.value.allowed, p.groups);
    }
  }

  /**
   * And why it is not: a token of another community first, then a denied user, a denied group,
   * and last one that no rule allows.
   */
  lemma {:induction false} DenialReasons(admin: set<Text>, sources: seq<RawSource>, isUUID: Text -> bool, id: Text, p: TokenPayload)
    requires id != "" && isUUID(id) && LastWith(sources, id).Some?
    ensures var denial := Authorize(Build(admin, sources).auth, isUUID, id, p);
            var rs := LastWith(sources, id).value;
            var other := p.externalID != "" && p.externalID != rs.communityID;
            var deniedUser := p.username in rs.disallowed.users;
            var deniedGroup := exists i :: 0 <= i < |p.groups| && p.groups[i] in rs.disallowed.groups;
            && (denial == Some(WrongCommunity) <==> other)
            && (denial == Some(UserDenied) <==> !other && deniedUser)
            && (denial == Some(GroupDenied) <==> !other && !deniedUser && deniedGroup)
            && (denial == Some(DeniedByDefault) <==> !other && !deniedUser && !deniedGroup && !Admits(rs, p))
  {
    BuildIndexes(admin, sources, id);
    var rs := LastWith(sources, id).value;
    DetailsMembers(rs.disallowed, p.groups);
    DetailsMembers(rs.allowed, p.groups);
  }

  lemma DetailsMembers(rules: UserRules, groups: seq<Text>)
    ensures AnyIn(groups, Details(rules).groups) <==> exists i :: 0 <= i < |groups| && groups[i] in rules.groups
    ensures forall u: Text :: u in Details(rules).users <==> u in rules.users
  {
  }

  method SliceToMap(s: seq<Text>) returns (m: set<Text>)
    ensures m == set v | v in s
  {
    m := {};
    for i := 0 to |s|
      invariant m == set v | v in s[..i]
    {
      assert s[..i + 1] == s[..i] + [s[i]];
      m := m + {s[i]};
    }
    assert s[..|s|] == s;
  }

  method ConvertSource(rs: RawSource) returns (a: AuthControls)
    ensures a == Convert(rs)
  {
    var allowedUsers := SliceToMap(rs.allowed.users);
    var allowedGroups := SliceToMap(rs.allowed.groups);
    var deniedUsers := SliceToMap(rs.disallowed.users);
    var deniedGroups := SliceToMap(rs.disallowed.groups);
    a := AuthControls(rs.source.key, rs.destination.raw, rs.id, rs.communityID,
                      UserDetails(allowedGroups, allowedUsers), UserDetails(deniedGroups, deniedUsers));
  }

  /** Reads the rule sets in priority order, scanning the groups twice at most. */
  method EnforceRules(a: AuthControls, p: TokenPayload) returns (r: Option<Denial>)
    ensures r == Enforce(a, p)
  {
    if p.username in a.disallowed.users {
      return Some(UserDenied);
    }
    for i := 0 to |p.groups|
      invariant forall j :: 0 <= j < i ==> p.groups[j] !in a.disallowed.groups
    {
      if p.groups[i] in a.disallowed.groups {
        return Some(GroupDenied);
      }
    }
    if p.username in a.allowed.users {
      return None;
    }
    for i := 0 to |p.groups|
      invariant forall j :: 0 <= j < i ==> p.groups[j] !in a.allowed.groups
    {
      if p.groups[i] in a.allowed.groups {
        return None;
      }
    }
    return Some(DeniedByDefault);
  }

  /** Normalises configured hosts; one that does not parse fails the whole list. */
  method NormalizeHostMap(parse: Parser, hosts: seq<Text>) returns (r: Option<set<Text>>)
    ensures r.None? <==> exists i :: 0 <= i < |hosts| && parse(hosts[i]).None?
    ensures r.Some? ==> r.value == set i | 0 <= i < |hosts| && parse(hosts[i]).Some? :: NormalizedKey(parse(hosts[i]).value)
  {
    var m: set<Text> := {};
    for n := 0 to |hosts|
      invariant forall i :: 0 <= i < n ==> parse(hosts[i]).Some?
      invariant m == set i | 0 <= i < n && parse(hosts[i]).Some? :: NormalizedKey(parse(hosts[i]).value)
    {
      var u := parse(hosts[n]);
      if u.None? {
        return None;
      }
      m := m + {NormalizedKey(u.value)};
    }
    return Some(m);
  }

  lemma BuildStep(admin: set<Text>, sources: seq<RawSource>, n: nat)
    requires n < |sources|
    ensures Build(admin, sources[..n + 1]) == AddSource(Build(admin, sources[..n]), sources[n])
  {
    assert sources[..n + 1][..n] == sources[..n];
  }

  /** Fills fresh maps from the sources in order. */
  method FoldSources(admin: set<Text>, all: Slice<RawSource>) returns (c: Controls)
    requires all.Valid()
    ensures c == Build(admin, all.Elements())
  {
    var auth: map<Text, AuthControls> := map[];
    var proxy: map<Text, ProxyControls> := map[];
    var redirect := admin;
    ghost var list := all.Elements();
    for n := 0 to all.len
      invariant all.Elements() == list
      invariant Controls(auth, proxy, redirect) == Build(admin, list[..n])
    {
      var rs := all.buf[all.off + n];
      assert rs == list[n];
      BuildStep(admin, list, n);
      var ctl := ConvertSource(rs);
      auth := auth[rs.id := ctl];
      proxy := proxy[rs.id := ProxyOf(rs)];
      if rs.source.key != "" {
        redirect := redirect + {rs.source.key};
      }
    }
    assert list[..all.len] == list;
    c := Controls(auth, proxy, redirect);
  }

  class Router {
    const parse: Parser
    const isUUID: Text -> bool
    const adminRedirectAllow: set<Text>
    const staticSrc: Slice<RawSource>

    var authCtls: map<Text, AuthControls>
    var proxyCtls: map<Text, ProxyControls>
    var redirectAllow: set<Text>

    ghost predicate Valid() {
      staticSrc.Valid()
    }

    ghost function Static(): seq<RawSource>
      requires Valid()
      reads staticSrc.buf
    {
      staticSrc.Elements()
    }

    function Current(): Controls
      reads this
    {
      Controls(authCtls, proxyCtls, redirectAllow)
    }

    constructor (parse: Parser, isUUID: Text -> bool, admin: set<Text>, fixed: Slice<RawSource>)
      requires fixed.Valid()
      ensures Valid() && staticSrc == fixed && adminRedirectAllow == admin
      ensures this.parse == parse && this.isUUID == isUUID
      ensures Static() == old(fixed.Elements())
      ensures Current() == Build(admin, Static())
      modifies fixed.buf
    {
      this.parse := parse;
      this.isUUID := isUUID;
      adminRedirectAllow := admin;
      staticSrc := fixed;
      authCtls, proxyCtls, redirectAllow := map[], map[], {};
      new;
      UpdateCtls([]);
      assert Static() + [] == Static();
    }

    /**
     * Rebuilds all indexes from the static sources followed by the given ones. The append
     * may write behind the static sources in their own array, but never over them.
     */
    method UpdateCtls(sources: seq<RawSource>)
      requires Valid()
      modifies this, staticSrc.buf
      ensures Static() == old(Static())
      ensures Current() == Build(adminRedirectAllow, Static() + sources)
    {
      var dynamic := Literal(sources);
      var all := Append(staticSrc, dynamic);
      assert all.Elements() == old(Static()) + sources;
      var c := FoldSources(adminRedirectAllow, all);
      authCtls, proxyCtls, redirectAllow := c.auth, c.proxy, c.redirect;
    }

    /** A message that is not the JSON of a source list leaves every index as it was. */
    method RefreshControls(message: Option<seq<WireSource>>)
      requires Valid()
      modifies this, staticSrc.buf
      ensures Static() == old(Static())
      ensures Current() == (
        if message.Some? && DecodeSources(parse, message.value).Some? then
          Build(adminRedirectAllow, Static() + DecodeSources(parse, message.value).value)
        else old(Current()))
    {
      if message.Some? {
        var sources := DecodeSources(parse, message.value);
        if sources.Some? {
          UpdateCtls(sources.value);
        }
      }
    }

    method IdentifyID(routeID: Text) returns (denial: Option<Denial>)
      ensures denial.None? <==> routeID != "" && isUUID(routeID) && routeID in authCtls
      ensures denial.Some? ==> forall p :: Authorize(authCtls, isUUID, routeID, p) == denial
    {
      if routeID != "" && !isUUID(routeID) {
        return Some(InvalidRouteID);
      }
      if routeID == "" {
        return Some(MissingRouteID);
      }
      if routeID !in authCtls {
        return Some(UnknownRoute);
      }
      return None;
    }

    method AuthorizeProxyCtls(routeID: Text, p: TokenPayload) returns (r: Option<Denial>)
      ensures r == Authorize(authCtls, isUUID, routeID, p)
    {
      r := IdentifyID(routeID);
      if r.Some? {
        return;
      }
      var ctl := authCtls[routeID];
      if p.externalID != "" && ctl.communityID != p.externalID {
        return Some(WrongCommunity);
      }
      r := EnforceRules(ctl, p);
    }

    /** A redirect target is trusted when it parses to a non-empty key among the known ones. */
    method AllowedRedirect(proposed: Text) returns (allowed: bool)
      ensures allowed <==> parse(proposed).Some? && NormalizedKey(parse(proposed).value) in redirectAllow - {""}
    {
      var u := NormalizeURL(parse, proposed);
      if u.None? || u.value.key == "" {
        return false;
      }
      return u.value.key in redirectAllow;
    }
  }
}
