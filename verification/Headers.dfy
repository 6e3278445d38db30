/** Header names fixed by the proxy, and the ones stripped from every client request. */
module Headers {
  import opened GoText

  const COMMUNITY: Text := "x-wormhole-community"
  const OAUTH_ACCESS_TOKEN: Text := "x-auth-request-access-token"
  const ROUTE_ID: Text := "x-piko-endpoint"
  const VERSION: Text := "x-holepunch-version"
  const WORMHOLE_HOST: Text := "x-wormhole-host"
  const WORMHOLE_SCHEME: Text := "x-wormhole-scheme"

  const DEFAULT_REMOVABLE: seq<Text> :=
    [COMMUNITY, OAUTH_ACCESS_TOKEN, ROUTE_ID, VERSION, WORMHOLE_HOST, WORMHOLE_SCHEME]

  /** Reading a map of headers or of context values: a missing name reads as empty. */
  function Value(values: map<Text, Text>, name: Text): Text {
    if name in values then values[name] else ""
  }
}
