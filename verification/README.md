# Holepunch: routes, authorisation and the token cache, verified

Holepunch fronts web services with Envoy. It compiles route sources into Envoy
routes and clusters, answers Envoy's authorisation checks from the same sources,
distributes the sources between its services over a one-message stream, and keeps
exchanged tokens in a key/value bucket. This project models those four parts and
proves what they promise together.

## How the parts fit

- **Routes.** `Registry` folds static and published sources into three indexes.
  `XdsServer` compiles them with Go's slices as they are (`GoSlices`: a header over
  a shared backing array, append in place when there is room) and with every map
  ranged over in an arbitrary order (`MapOrder`). `RouteTable`, `RouteCompiler`
  and `Clusters` state what the compiled tables mean, and `Versions` what a delivered
  version tells apart; `Requests`, `ClusterNames`
  and `HeaderMutations` hold the parts they are made of.
- **Authorisation.** `AuthServers` models one check. `EndToEnd` puts a request
  through the delivered table, the header mutations and the check, and states the
  result in terms of the listed sources alone. Each service acts on what it holds
  itself; `EndToEnd.RequestServedInRun` takes both from any reachable state of the
  distribution, in step or not, and `ServedTokens.ForwardedByGrant` traces what it
  admits back to a grant of the token service, among interleaved flows. `Answers`
  lists every other answer with its exact condition, the login redirect among them.
- **Distribution.** `Distribution` is a step relation: publishers fetch, compare
  and publish in separate steps; each subscriber is sent messages under a durable
  name, handles, acknowledges, is sent them again and restarts, and several may share
  one name.
- **Tokens.** `Authenticators` is the imperative lookup and exchange over a store
  whose operations may fail, proved against `TokenSpec`. `TokenRuns` proves
  properties of every sequence of whole flows, with evictions and invalidations
  between them; `TokenAnswers` and `TokenStores` say what one flow answers and what it
  leaves behind; `TokenInterleavings` takes the flows apart into read, exchange and
  write steps and proves properties of every interleaving. `WholeFlows` relates the
  two, and `InterleavedDenial` says exactly when an invalidation or a removal holds
  against flows interleaved with it. `Keys`, `Base64Url`,
  `Cipher`, `FloatTime` and `FailureWindow` are the codecs and the arithmetic these
  rest on.

Text is a sequence of bytes, as in Go. Times are nanoseconds since the epoch. A map
iteration order is an arbitrary listing of the keys, each once. Clock readings,
random nonces, the fate of each store operation and the replies of the token
service, the route registry and the login proxy are parameters that every theorem
quantifies over. SHA-256, the CRC-32 of the version, JSON encoders, the URL parser,
the validator's patterns and AES-GCM are unspecified functions; a theorem that
needs something of them says so (`Opens`: decryption undoes encryption).

## Results that differ from what one might expect

- `docs/caching.md:161-164` says an entry's expiry is always validated on a hit.
  `internal/wormhole/token/cache.go:101-103` overwrites the flag with the token
  comparison, so neither flag nor expiry decides: any entry is served, under either
  cipher, exactly when the lookup's other steps spare it, it can be read within its
  time to live and its stored token opens to the request's (`TokenRuns.EntryServed`,
  for expired ones `TokenRuns.ExpiredEntryServed`). A lookup of an expired entry
  tries to delete it: when the delete works no second hit comes before another
  exchange (`TokenRuns.ExpiredSingleUse`); when it fails the entry is served again.
  For the same reason denial rests on disallowed entries holding an empty token.
- Every lookup first decrypts a constant that contains a dot
  (`internal/wormhole/token/cache.go:74`). The AES cipher always rejects it, and the
  failed decryption deletes the key, so under that cipher a lookup whose delete
  works misses (`TokenRuns.SealedLookupMisses`). `TokenRuns.StoredThenServed` is the
  exact condition under which a stored exchange spares the next flow its own: the
  dummy's decryption leaves the key alone, that is the cipher passes through or the
  delete fails, and the read works within the time to live.
  `TokenRuns.InvalidationHolds` gives the exact condition under which one later flow
  sees an invalidation.
- Among interleaved flows an invalidation holds, until its entry is deleted, cannot
  be read or outlives its time to live, exactly when at that moment no flow for the
  id is between its lookup and its store, or no grant can ever decode
  (`InterleavedDenial.InvalidationDenies`; a losing run is
  `InterleavedDenial.InvalidationRace`, which under the AES cipher needs the last
  lookup's deletion of the key to fail). In every interleaving the time to live
  bounds what is served (`TokenInterleavings.HitMeaning`).
- Likewise a removed subtoken makes the next flow for its pair ask the service
  exactly when no flow for the pair is between its lookup and its store with a
  parent that has not expired (`InterleavedDenial.RemovalHolds`); such a flow puts
  the removed subtoken itself back.
- Two routes with the same domain and prefix are ordered by map iteration:
  the winning prefix never depends on it, the winning route exactly then does
  (`RouteCompiler.RouteIDOrderFree`).
- Cluster names drop bytes outside their alphabet and hash long names, so distinct
  endpoints can share a name. Which ones do is characterised exactly
  (`ClusterNames.ClusterNamesCollide`), with a colliding pair
  (`ClusterNames.AddressLiteralCollides`); every route reaches its own endpoint in
  every order exactly when no such pair is deployed (`Clusters.ClusterResolution`).
- A process restarted under a durable name that had acknowledged the stream's
  message has none of the published routes until the next message
  (`Distribution.RestartLosesRoutes`). The host name is the default durable name, so
  two processes on one host share it and a message acknowledged by one may never be
  sent to the other (`Distribution.SharedNameSplits`). `Distribution.Convergence` is
  exact about both.
- `internal/wormhole/registry/source.go:21-23` says only the static file can give a
  prefix rewrite, but its JSON tag lets the registry set one
  (`Registry.PublishedPrefixRewrite`).
- `docs/caching.md:82` writes the key prefix as `wat:v1:`; the code uses `wat.v1.`.

## Model

| member | source | states |
|---|---|---|
| EndToEnd.RequestServed | internal/envoy/resources.go:149-205 | when both services hold the same sources, for every iteration order: a request is routed exactly when a source in force applies; it is forwarded exactly when the one with the longest applicable prefix skips authorisation or its own community, deny and allow rules admit the authenticated token and its subtoken was not refused; it then goes to that source's cluster under its destination's host, the matched prefix of the path replaced by its rewrite or the path unchanged without one |
| EndToEnd.RequestServedSkewed | internal/wormhole/registry/registry.go:232-266 | whatever each service holds: routing, cluster, upstream host and path come from the compiler's sources, and a route that needs authorisation is forwarded exactly when the checker's own last source with its id admits the token |
| EndToEnd.RequestServedInRun | internal/wormhole/registry/registry.go:173-214 | the same for two subscribers in any reachable state of the distribution, each acting on its own sources and the newest message it handled; once both are up to date with the same static sources, by the winning source's own rules |
| ServedTokens.ForwardedByGrant | internal/envoy/auth.go:73-121 | in every reachable state of the interleaved flows, a request forwarded on a route with authorisation stands on a token, its own or its login session's, for which the service granted a payload that the checker's rules admit, to this check or to an earlier flow that stored it within the time to live |
| EndToEnd.CompiledTable | internal/envoy/snapshot.go:54-87 | a delivered snapshot, whatever the map orders behind it, selects a route of a last-listed source with the longest matching prefix, every field of which is given by that source's own fields, and nothing only when no source in force matches |
| EndToEnd.WinnerHost | internal/envoy/resources.go:310-317 | the winning source names the request's domain whenever some source in force does, and is one on a loopback host otherwise; such a source applies to every domain no other names |
| EndToEnd.CheckedAgainst | internal/envoy/auth.go:73-121 | a check bound to a source's context answers OK exactly when the checker's last source with that id admits the authenticated token and its subtoken was not refused |
| Answers.RequestAnswered | internal/envoy/auth.go:73-121 | every request routed with authorisation, by its credential, the store, the service and the checker's sources: a redirect with the winning source's scheme and host exactly when a login is due and the login page is on an administrator's host or a listed source's, else 400, 401, 404, 500 or forwarding, each with its literal condition |
| Answers.CasesCover | internal/wormhole/token/token.go:107-144 | the cases of that list leave no request out |
| Answers.SourceHostTrusted | internal/wormhole/registry/registry.go:216-228 | a login page on a listed source's host is trusted, with the www. label or without it on either side |
| Answers.ClientToken | internal/wormhole/token/source.go:26-49 | the token a check reads is the client's own header, cleaned |
| Answers.OwnSubtokenSent | internal/wormhole/token/subtoken.go:61-70 | a request whose own token is a subtoken of the route's community takes that token upstream |
| Answers.CheckLeaves | internal/envoy/auth.go:81-108 | a check leaves the bucket of a run of its whole flows: none for a malformed token, that of its credential, then that of the subtoken exactly when the checker's last source admits the payload |
| EndToEnd.ServedByItsOwnEndpoint | internal/envoy/resources.go:118-141 | without colliding names the cluster a source's route names exists in the same snapshot with that source's own destination host and port |
| EndToEnd.ForwardedHeaders | internal/envoy/auth.go:99-120 | every forwarded request carries the winning source's id, community or none, host, scheme, the jump token, its flow's subtoken or none, the build's version or none, no session access token, and all other headers as the client sent them; a route that skips authorisation carries no managed header but the version |
| EndToEnd.MutatedHeaders | internal/envoy/resources.go:476-498 | after a route's mutations no managed header of the client is left, the version is the build's, and other headers are untouched |
| EndToEnd.AnyResponseOrder | internal/envoy/auth.go:197-208 | the overwriting headers of an OK answer have one effect in whatever order the map listed them |
| EndToEnd.BuiltWellKeyed | internal/wormhole/registry/registry.go:335-347 | every control built from any sources is bound to its own id and carries no headers of its own |
| EndToEnd.BuiltOrderFree | internal/envoy/resources.go:155-192 | for the controls of any sources, the route id a request leads to is independent of map order if and only if no two controls share domain and prefix |
| AuthServers.AuthServer.Check | internal/envoy/auth.go:73-121 | a check that reads and writes the store step by step answers as specified, for which Answers.RequestAnswered says what that is, and leaves the store as Answers.CheckLeaves says |
| AuthServers.AuthServer.RequestHeader | internal/wormhole/token/token.go:107-146 | identifies by the request token when there is one and by the login session otherwise |
| AuthServers.AllowRequest | internal/envoy/auth.go:190-221 | lists every header to set exactly once, in some order of the map |
| Registry.Router.constructor | internal/wormhole/registry/registry.go:60-79 | starts with the indexes of the static sources alone |
| Registry.Router.UpdateCtls | internal/wormhole/registry/registry.go:293-331 | swaps in the indexes of the static then the given sources; the append may write behind the static sources but never over them |
| Registry.Router.RefreshControls | internal/wormhole/registry/registry.go:191-201 | a message that does not decode leaves every index as it was; any other replaces them |
| Registry.FoldSources | internal/wormhole/registry/registry.go:305-324 | the loop fills all three maps as the fold of the sources |
| Registry.BuildIndexes | internal/wormhole/registry/registry.go:305-320 | both indexes hold exactly the listed ids, each bound to the last source with it |
| Registry.IndexedFields | internal/wormhole/registry/registry.go:293-331 | what both indexes hold for an id, field by field of the last source with it |
| Registry.BuildRedirects | internal/wormhole/registry/registry.go:300-323 | the redirect set is exactly the administrator's hosts and the non-empty keys of all listed sources |
| Registry.NoAuthOnlyStatic | internal/wormhole/registry/static.go:50-59 | a route skips authorisation if and only if the last source with its id is a flagged static one, whatever was published |
| Registry.PrefixRewriteOfLast | internal/wormhole/registry/registry.go:305-320 | a route's prefix rewrite is that of the last source with its id, a published one if any has it and else the static one |
| Registry.PublishedPrefixRewrite | internal/wormhole/registry/source.go:21-24 | a single published source sets its route's prefix rewrite |
| Registry.AuthorizeMeaning | internal/wormhole/registry/registry.go:232-266 | a token is authorised for an id if and only if the id is well formed and the last source with it admits the token |
| Registry.DenialReasons | internal/wormhole/registry/registry.go:358-392 | why a token is not admitted, each reason exactly under its condition on the last source: another community before a denied user, before a denied group, before no allow rule |
| Registry.EnforceRules | internal/wormhole/registry/registry.go:358-392 | the two scans decide by user deny, group deny, user allow, group allow, then deny |
| Registry.Router.IdentifyID | internal/wormhole/registry/registry.go:268-291 | accepts exactly the well-formed, non-empty, known ids, and otherwise reports the denial that authorisation gives |
| Registry.Router.AuthorizeProxyCtls | internal/wormhole/registry/registry.go:232-266 | returns the decision of the authorisation function |
| Registry.Router.AllowedRedirect | internal/wormhole/registry/registry.go:216-228 | trusts a URL if and only if it parses to a non-empty key in the redirect set |
| Registry.ConvertSource | internal/wormhole/registry/source.go:75-90 | converts a source's rules to sets |
| Registry.SliceToMap | internal/wormhole/registry/source.go:94-101 | the set of exactly the listed values |
| Registry.NormalizeHostMap | internal/wormhole/registry/source.go:103-116 | fails if and only if some host does not parse, and else holds exactly their keys |
| Sources.PublishedSourcesDecode | internal/ctls/keys/urlstring.go:32-52 | encoding and decoding a source list keeps every field of every source except the NoAuth flag |
| Sources.KeyMeaning | internal/ctls/keys/urlstring.go:56-63 | a host has one key with and without its www. label |
| Sources.WireFields | internal/ctls/keys/urlstring.go:32-48 | what a decoded source takes from each field of its wire form |
| XdsServer.Server.MakeRoutes | internal/envoy/resources.go:149-205 | one virtual host per domain, each with the list that sorted insertion of its controls gives, from arrays no two hosts share |
| XdsServer.VirtualHost.AddRoute | internal/envoy/resources.go:169-185 | the in-place insertion equals insertion before the first shorter prefix, whether or not append reuses the array |
| GoSlices.Insert | internal/envoy/resources.go:182-185 | the nested append idiom inserts one element, though the outer append may overwrite the array the tail was read from |
| GoSlices.Append | internal/wormhole/registry/registry.go:305-305 | append writes behind the length in the shared array when capacity allows and moves otherwise; the visible elements of the first operand never change |
| RouteTable.RoutesSortedStable | internal/envoy/resources.go:167-192 | after any number of controls each list is sorted by non-increasing prefix length, a permutation of the controls of its domain, and keeps equal lengths in processing order |
| RouteTable.FirstMatchIsLongest | internal/envoy/resources.go:169-185 | first match on the maintained list selects what searching the processed controls for the longest matching prefix selects, the earliest on a tie |
| RouteTable.LongestPrefixUnique | internal/envoy/resources.go:169-185 | lists with the same prefixes select the same prefix for every path |
| RouteCompiler.SelectedControl | internal/envoy/resources.go:149-249 | for every order, the selected route is that of a matching control with the longest prefix, and none is selected only when none matches |
| RouteCompiler.OrderKeepsPrefix | internal/envoy/resources.go:155-199 | any two iteration orders choose the same prefix for every domain and path |
| RouteCompiler.RouteIDOrderFree | internal/envoy/resources.go:155-199 | the chosen route id is the same in all orders if and only if no two controls share domain and prefix |
| XdsServer.TableRoutes | internal/envoy/resources.go:195-204 | routing by the delivered virtual hosts equals the selection function, the exact domain first and the wildcard otherwise |
| XdsServer.Server.RequestHeaderFilterCfg | internal/envoy/resources.go:476-498 | each marshalled list is the unchanged defaults, the route's own headers and the optional version, though appends of all routes may share one spare slot |
| XdsServer.Server.constructor | internal/envoy/xds.go:124-142 | builds the shared defaults by appending, whatever spare capacity that leaves |
| HeaderMutations.ApplyRouteMutations | internal/ctls/keys/keys.go:37-46 | for the routes the registry builds, which have no headers of their own: every managed header is removed and the version is set if it is a valid value |
| HeaderMutations.ApplyOwnHeaders | internal/envoy/resources.go:476-498 | for any headers of a route's own, in any order: the managed headers of the client vanish, the own ones that may be set override the rest, and the version overrides both |
| HeaderMutations.NameCaseBlind | internal/envoy/resources.go:527-555 | whether a header may be set does not depend on the case of its name, and no spelling of a guarded name may |
| HeaderMutations.HeaderValueMeaning | internal/envoy/resources.go:527-555 | a header value may be set exactly when it holds no ASCII control character but the tab and no two-byte form of U+0080 to U+009F |
| XdsServer.Server.GenerateSnapshot | internal/envoy/snapshot.go:54-87 | version, clusters and routes all derive from the one index read |
| XdsServer.ComputeChecksum | internal/envoy/snapshot.go:107-130 | the version is that of the keys in byte order with their controls, or unknown if anything fails to encode |
| XdsServer.VersionUnique | internal/envoy/snapshot.go:107-130 | unchanged controls have one version in every iteration order |
| XdsServer.SnapshotsAgree | internal/envoy/snapshot.go:54-87 | two snapshots of the same controls have equal versions and route every request to the same prefix, and to the same id when pairs are distinct |
| Versions.VersionsDistinguish | internal/envoy/snapshot.go:107-130 | two sets of controls have one version exactly when they are equal or neither can be encoded, unless the checksum itself gives two texts that version; the encoders only have to keep the keys and controls at hand apart, by encodings none of which starts another |
| Versions.SameVersionSameRoutes | internal/envoy/snapshot.go:54-87 | so a delivered snapshot whose version has not moved has the same controls and sends every request to the same prefix |
| XdsServer.HostNamesShared | internal/envoy/resources.go:319-325 | virtual hosts share a name exactly when their domains share a digest |
| MapOrder.SortStrings | internal/envoy/snapshot.go:110-115 | an ascending listing of the same keys |
| MapOrder.BelowMeaning | internal/envoy/snapshot.go:110-115 | the order of the keys is by the first byte that differs, a start of a text before it |
| XdsServer.Server.MakeClusters | internal/envoy/resources.go:91-115 | one cluster per name, defined by the first destination ranged over with it |
| Clusters.ClusterNamesUnique | internal/envoy/resources.go:91-115 | no two clusters share a name |
| Clusters.ClusterResolution | internal/envoy/resources.go:95-141 | every route's cluster has its own host and port in every order if and only if no two destinations with different endpoints share a name |
| Clusters.PlainHostsResolve | internal/envoy/snapshot.go:98-101 | hosts over the allowed alphabet with names that fit always resolve to themselves |
| ClusterNames.ClusterNameInjective | internal/envoy/snapshot.go:98-144 | for such hosts the name determines host and port, underscores in the host notwithstanding |
| ClusterNames.PlainHostNames | internal/envoy/snapshot.go:98-144 | a cluster on a host of at most 113 letters, digits, dots, hyphens and underscores is named by that host and its port, and no other such endpoint shares the name |
| ClusterNames.ClusterNamesCollide | internal/envoy/snapshot.go:98-144 | exactly which destinations share a name |
| ClusterNames.AddressLiteralCollides | internal/envoy/snapshot.go:135-144 | an IPv6 literal and a plain host that share a name |
| Requests.NormalizePathCanonical | internal/ctls/requests/tools.go:104-118 | every prefix is rooted, and one from a rooted path has no empty, dot or climbing segment |
| Requests.NormalizePathIdempotent | internal/ctls/requests/tools.go:104-118 | exactly when normalising twice equals normalising once |
| Requests.CleanRules | internal/ctls/requests/tools.go:104-118 | the rules of cleaning, wherever they apply in a path: an empty segment, a dot, a step down and up again, and a step above the root change nothing |
| Requests.PlainPathKept | internal/ctls/requests/tools.go:104-118 | a path of plain segments is its own prefix, given a leading slash if it has none |
| Requests.PortMeaning | internal/ctls/requests/tools.go:54-69 | a decimal port stands for itself, modulo 2^32 below 2^63; without one, or beyond, https means 443, http 80 and any other scheme 0 |
| Distribution.Safety | internal/ctls/streams/pubsub.go:87-119 | in every run each subscriber's indexes are those of its static sources and the newest message it handled, with NoAuth erased, and handled sequence numbers never decrease despite redelivery |
| Distribution.Convergence | internal/ctls/streams/streams.go:138-171 | a drained subscriber has handled the last published message and has its build, except exactly when its durable name acknowledged that message before it started, leaving it its static sources only, or through another process, leaving it those of an older message if any |
| Distribution.DrainedNewest | internal/wormhole/registry/registry.go:191-201 | the newest message an up-to-date subscriber has handled is the last one published |
| Distribution.DrainedAgree | internal/wormhole/registry/registry.go:191-214 | drained services with the same static sources and redirect hosts hold equal controls, unless the last message was acknowledged under their durable name before they started or by another process of it |
| Distribution.SharedNameSplits | internal/ctls/streams/streams.go:75-82 | of two processes under one durable name, one handling and acknowledging the current message leaves the other drained without it, its controls unchanged |
| Distribution.CanDrain | internal/ctls/streams/pubsub.go:91-111 | from any state a subscriber drains by its own deliveries, handlings and acknowledgements |
| Distribution.RestartLosesRoutes | internal/ctls/streams/streams.go:75-82 | after a restart under a name that acknowledged the current message, no steps give the subscriber published routes until something new is published |
| Distribution.RepeatNeedsRace | internal/ctls/streams/pubsub.go:59-80 | a message equal to its predecessor was published after a failed read or after being overtaken between comparison and publication |
| Distribution.ChangePublished | internal/ctls/streams/pubsub.go:50-85 | in any state, an uninterrupted publisher adds exactly one publication of its sources if and only if the stream takes it and its read failed, the stream is empty or its last message has other wire data, and otherwise changes nothing |
| Distribution.ChangeArrives | internal/ctls/streams/pubsub.go:50-85 | and such a change arrives: a process that then starts under a new durable name drains by its own steps and holds the build of its static and the changed sources |
| Distribution.LostAckRepeats | internal/ctls/streams/pubsub.go:87-111 | a message whose acknowledgement is lost is sent and handled again |
| Distribution.RaceRepeats | internal/ctls/streams/pubsub.go:59-80 | a run in which two publishers compare before either publishes and the same message is published twice in a row |
| Distribution.FailedReadRepeats | internal/ctls/streams/pubsub.go:60-71 | a run in which one publisher repeats its message because its read failed |
| Distribution.SubscriberIndexes | internal/wormhole/registry/registry.go:293-331 | in every reachable state both indexes of every subscriber have the same ids, each bound to its own, and NoAuth only from its own flagged source |
| Authenticators.Authenticator.GetCache | internal/wormhole/token/cache.go:66-114 | verdict and deletions of a lookup, in the code's order, with every store operation allowed to fail |
| Authenticators.Authenticator.Open | internal/wormhole/token/cache.go:148-170 | an undecryptable value reads as empty and costs the key its entry |
| Authenticators.Authenticator.StoreCache | internal/wormhole/token/cache.go:119-136 | stores payload and both tokens encrypted |
| Authenticators.Authenticator.StoreInvalidCache | internal/wormhole/token/cache.go:140-146 | stores a disallowed entry without tokens |
| Authenticators.Authenticator.ExchangeToken | internal/wormhole/token/source.go:172-202 | only a refusal by the token service disallows the key |
| Authenticators.Authenticator.WormholeAccessTokenFlow | internal/wormhole/token/source.go:51-92 | answer and bucket of the request token flow |
| Authenticators.Authenticator.OauthSessionFlow | internal/wormhole/token/source.go:97-168 | answer and bucket of the login session flow |
| Authenticators.Authenticator.SubtokenFlowFor | internal/wormhole/token/subtoken.go:40-144 | answer and bucket of the subtoken flow |
| TokenAnswers.JWTPayload | internal/wormhole/token/source.go:236-254 | a token in compact form, with any dot-free header and signature, carries the payload that its middle part encodes |
| TokenAnswers.JWTMeaning | internal/wormhole/token/source.go:236-254 | a text yields a payload exactly when it is three dot-free parts whose middle one decodes to JSON of that payload; none without exactly two dots |
| TokenAnswers.GrantAnswers | internal/wormhole/token/source.go:73-91 | a miss followed by a grant of such a token authenticates the payload it encodes, in either flow, and fails internally if the JSON is no payload |
| TokenAnswers.SubtokenAnswers | internal/wormhole/token/subtoken.go:40-144 | the subtoken flow's answer: none without a community, the request's own token when it is already a subtoken of it, the cached one exactly while it is live and unexpired, else the service's answer to a request naming the user, the parent and the community |
| TokenStores.LookupLeaves | internal/wormhole/token/cache.go:66-116 | a lookup drops its key's entry exactly when one of the deletes it attempts works, each with its literal condition, and changes nothing else |
| TokenStores.LookupWithoutToken | internal/wormhole/token/cache.go:92-108 | without a request token the flag and the expiry, ten seconds early, decide |
| TokenStores.RefusalRemembered | internal/wormhole/token/source.go:172-201 | after a stored refusal, or a grant without a payload, the next flow for the id is turned away without an exchange exactly when it finds that entry; a failed exchange is not remembered |
| TokenStores.GrantStored | internal/wormhole/token/cache.go:119-136 | a stored grant keeps every field of the payload, its expiry as storing leaves it |
| TokenStores.RemovalTurnsAway | internal/wormhole/token/token.go:162-177 | a removal turns away the removed subtoken itself: the next flow for its id is rejected without an exchange exactly when it finds the disallowed entry |
| TokenStores.FailedOperationKeeps | internal/wormhole/token/cache.go:119-170 | an operation all of whose writes and deletes fail leaves the bucket as it was |
| Authenticators.Authenticator.Invalidate | internal/wormhole/token/token.go:148-160 | overwrites the id's entry with a disallowed one |
| Authenticators.Authenticator.RemoveSub | internal/wormhole/token/token.go:162-177 | disallows the subtoken's id and deletes the pair's entry |
| TokenInterleavings.CacheSound | internal/wormhole/token/cache.go:66-136 | in every interleaving every entry with a token was stored by a flow that exchanged exactly that token, every hit is justified by one, every cached subtoken was issued for its pair and carries the expiry of the parent it was issued to, still ahead when it is served, and disallowed entries are empty |
| TokenInterleavings.HitMeaning | internal/wormhole/token/source.go:63-91 | every hit of every interleaving returns the jump token and payload of an earlier exchange of the same request token, the expiry off by less than a microsecond, stored less than the time to live ago by the flow that exchanged it |
| InterleavedDenial.InvalidationRace | internal/wormhole/token/token.go:148-160 | a run in which an invalidation between exchange and store is overwritten and the next request is served the jump token, under any cipher that opens what it seals; under the AES cipher that request's deletion of the key has to fail |
| WholeFlows.WholeFlowsAreInterleavings | internal/wormhole/token/source.go:51-168 | run uninterrupted, the steps of a flow leave the bucket as the whole flow does and log exactly its answer: the hit it was answered from, or the exchange of its payload and jump token and the store of it |
| WholeFlows.WholeSubtokenFlowsAreInterleavings | internal/wormhole/token/subtoken.go:40-144 | the same for the subtoken flow: its bucket, and the hit or the issue its answer comes from |
| InterleavedDenial.InvalidationDenies | internal/wormhole/token/token.go:148-160 | in every reachable state of every interleaving, a stored invalidation denies the id through every continuation that neither deletes its entry nor reads past it, if and only if no flow for the id is between its lookup and its store, or nothing can be granted |
| InterleavedDenial.StaysShut | internal/wormhole/token/cache.go:92-108 | from a disallowed entry that no flow in flight can overwrite, through every such continuation and under any cipher the entry stays and no token of the id is served |
| InterleavedDenial.RemovalHolds | internal/wormhole/token/token.go:162-177 | in any state, after a stored removal and whatever else is interleaved the first flow to look the pair up asks the service, if and only if no flow for the pair is between its lookup and its store with an unexpired parent and, once issued, a non-empty subtoken |
| TokenRuns.DisallowedStaysEmpty | internal/wormhole/token/cache.go:140-146 | every reachable disallowed entry has an empty stored token |
| TokenRuns.DisallowedAbsorbing | internal/wormhole/token/cache.go:92-108 | from a disallowed entry on, as long as lookups for the id can read it and their dummy decryption spares it, every whole flow for its id is rejected without an exchange and the entry stays until its time to live ends |
| TokenRuns.InvalidationHolds | internal/wormhole/token/token.go:148-160 | after a stored invalidation a flow avoids the exchange, and is then refused, if and only if the entry is live, its read works and the dummy's decryption did not delete it |
| TokenRuns.SealedLookupMisses | internal/wormhole/token/cache.go:74-86 | under the AES cipher a lookup whose delete works misses and empties the key |
| TokenRuns.EntryServed | internal/wormhole/token/cache.go:74-113 | under any cipher a lookup is answered from a token entry if and only if the dummy spares it, the read works, the time to live is not over and the stored token opens to the request's; it misses if and only if one of the first three fails |
| TokenRuns.StoredThenServed | internal/wormhole/token/source.go:51-168 | after a granted flow stored its sealed token, and whatever ran on other keys, the next flow of either kind for that token does not exchange if and only if the dummy spares the entry and its read works within the time to live, and then answers with that exchange |
| TokenRuns.ExpiredEntryServed | internal/wormhole/token/cache.go:94-113 | an expired entry is served under exactly that condition, and then stays unless the delete works |
| TokenRuns.ExpiredFlowServed | internal/wormhole/token/source.go:61-133 | so both flows answer from an expired entry, without the service, under exactly that condition |
| TokenRuns.ExpiredSingleUse | internal/wormhole/token/cache.go:53-113 | in any run between a hit past the expiry margin whose delete works and the next hit of the key lies an exchange for it |
| TokenRuns.SubtokenEntriesIssued | internal/wormhole/token/subtoken.go:108-144 | in every reachable bucket the entry of a pair holds the service's answer to a request naming that parent and community, with the expiry and the parent of the token it was issued under |
| TokenRuns.SubtokenServed | internal/wormhole/token/subtoken.go:79-103 | a subtoken from the cache was issued for the same pair and is served strictly before its stored parent expiry |
| TokenStores.SubtokenServedInTime | internal/wormhole/wormhole.go:45-64 | so a cached subtoken is served no later than a microsecond after the expiry of the token it was issued under, though that expiry is stored as a float64 |
| TokenRuns.RemovalForcesRequest | internal/wormhole/token/token.go:162-177 | after a stored removal the next whole flow for the pair requests a new token, whatever other whole operations ran |
| TokenRuns.BucketTyped | internal/wormhole/token/subtoken.go:80-83 | no token entry is ever read as a subtoken entry, nor the reverse |
| Base64Url.RoundTrip | internal/ctls/keys/keys.go:49-51 | unpadded base64url decoding inverts encoding on all byte strings |
| Base64Url.KnownEncodings | internal/ctls/keys/keys.go:49-51 | the first examples of RFC 4648, section 10, without padding, and one for the last two digits of the URL alphabet |
| Base64Url.ForeignByteFails | internal/ctls/aescipher/aescipher.go:107-126 | a byte outside the alphabet, line breaks aside, anywhere in the text makes decoding fail |
| Keys.AccessTokenKeyInjective | internal/ctls/keys/keys.go:49-51 | access token keys determine the id |
| Keys.SubtokenKeyInjective | internal/ctls/keys/keys.go:60-66 | subtoken keys determine parent and community, since no encoding holds a dot |
| Keys.SubtokenKeyLayout | internal/ctls/keys/keys.go:60-66 | the parts of a subtoken key between its dots are the key space, its version, the encoded parent and the encoded community |
| Keys.SessionKeysEqual | internal/ctls/keys/keys.go:54-57 | session keys are equal exactly when the digests are |
| Keys.KeySpacesDisjoint | internal/ctls/keys/keys.go:48-66 | the three kinds of keys never coincide |
| Cipher.Cipherer.DecryptEncrypt | internal/ctls/aescipher/aescipher.go:93-126 | decrypting the frame of nonce and sealed text gives back the plain text |
| Cipher.Cipherer.Framing | internal/ctls/aescipher/aescipher.go:93-105 | a sealed value is the base64url of its nonce followed by the sealed text |
| Cipher.DummyDecrypts | internal/ctls/aescipher/noop.go:9-11 | exactly the pass-through cipher decrypts the constant of a lookup |
| FloatTime.RoundTripBound | internal/wormhole/wormhole.go:45-64 | storing and reading a time below 2^33 seconds moves it by less than a microsecond, each operation within half a unit of a 53-bit significand |
| FailureWindow.ManageRoutes | internal/cacher/cacher.go:48-82 | with a monotone clock the loop stops at exactly the first failing tick whose last hour, inclusive, holds the maximum number of failures of the whole run |
| FailureWindow.AppendFailure | internal/cacher/cacher.go:84-96 | appends the failure and drops exactly the leading entries from before the cutoff, whatever their order |
| FailureWindow.DropOldRecent | internal/cacher/cacher.go:89-95 | of entries in time order that leaves, in order, exactly those not before the cutoff |
| FailureWindow.TripsMeaning | internal/cacher/cacher.go:48-96 | the run trips at a failing tick exactly when the failing ticks from one hour before it up to it, both included, number at least the maximum |

## Left out

- Header cleaning, the token and UUID patterns, JSON and URL text parsing, and the login URL built from a request are given functions or predicates.
- A URL whose text parses is taken as its parts; source and destination URLs are present.
- `DevHostHeader`, debug logging of headers, cookie parsing, the redirect page and error bodies and headers.
- The request headers Envoy passes to the check are taken as all those left by the mutations; filtering them changes only headers a check does not read.
- Timeouts, retries, WebSocket upgrades, the listener, tracing and access log configuration are static records with no property here.
- Envoy is modelled as: the exact domain, else the wildcard, compared byte for byte; the first matching prefix; the filters in order.
- The registry request's retries decode into one slice; a fetch is modelled as its final, parsed list.
- The cache entry's `parent_id` and `external_id` fields are never written and are not modelled; nor is the timing of comparisons.
- The lookup of a dummy under the AES cipher appears among interleaved steps as a separate deletion of the key.
- An invalid version value gives Envoy an append without a header in the source; the model takes that malformed mutation to do nothing.
- Delivery keeps one message per stream and loses no published one: the loss of a memory-backed stream is not modelled; an acknowledgement either arrives when it is sent or is lost.
- Indexes are swapped in one step, as the lock guarantees; readers between two refreshes are covered by each check reading one set of indexes.
- Hash and checksum collisions are not excluded: a version is a CRC-32 and tells controls apart except where that clashes (`Versions.VersionsDistinguish`), and session keys are as distinct as the digests.
- TokenRuns.DisallowedAbsorbing: stated for lookups whose dummy decryption spares the entry, because under the AES cipher a working delete removes it first; `TokenRuns.InvalidationHolds` gives the exact condition for one flow and `InterleavedDenial.InvalidationDenies` that for interleaved ones.
- FailureWindow.ManageRoutes: takes the ticks seen before the context ends, so the endless loop itself is cut to a finite run; the clock does not step back, as Go's monotonic readings guarantee.
- Cacher and admin start-up, gRPC and HTTP servers, and command-line flags.
