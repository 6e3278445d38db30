/** The identity a token asserts. Times are nanoseconds since the epoch. */
module Wormhole {
  import opened GoText

  const SECOND: int := 1_000_000_000

  datatype TokenPayload = TokenPayload(
    username: Text,
    groups: seq<Text>,
    duid: Text,
    parentID: Text,
    externalID: Text,
    exp: int,
    tokenID: Text)

  datatype TokenContext = TokenContext(wat: Text, tokenID: Text, payload: TokenPayload)

  /** The zero payload: its expiry is the zero time of year 1. */
  const NO_PAYLOAD := TokenPayload("", [], "", "", "", -62_135_596_800 * SECOND, "")
}
