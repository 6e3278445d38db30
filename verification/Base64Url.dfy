/** Base64 with the URL and filename safe alphabet of RFC 4648, section 5, without padding. */
module Base64Url {
  import opened GoText

  function EncodeDigit(n: nat): (c: Byte)
    requires n < 64
    ensures IsAlphabet(c)
  {
    if n < 26 then 'A' + n as char
    else if n < 52 then 'a' + (n - 26) as char
    else if n < 62 then '0' + (n - 52) as char
    else if n == 62 then '-'
    else '_'
  }

  predicate IsAlphabet(c: Byte) {
    'A' <= c <= 'Z' || 'a' <= c <= 'z' || '0' <= c <= '9' || c == '-' || c == '_'
  }

  function DecodeDigit(c: Byte): (r: Option<nat>)
    ensures r.Some? <==> IsAlphabet(c)
    ensures r.Some? ==> r.value < 64
  {
    if 'A' <= c <= 'Z' then Some(c as int - 'A' as int)
    else if 'a' <= c <= 'z' then Some(c as int - 'a' as int + 26)
    else if '0' <= c <= '9' then Some(c as int - '0' as int + 52)
    else if c == '-' then Some(62)
    else if c == '_' then Some(63)
    else None
  }

  lemma DigitRoundTrip(n: nat)
    requires n < 64
    ensures DecodeDigit(EncodeDigit(n)) == Some(n)
  {
  }

  predicate AllAlphabet(s: Text) {
    forall i :: 0 <= i < |s| ==> IsAlphabet(s[i])
  }

  // The four six-bit digits of up to three bytes

  function First(x: Byte): (d: nat)
    ensures d < 64
  {
    x as int / 4
  }

  function Second(x: Byte, y: Byte): (d: nat)
    ensures d < 64
  {
    x as int % 4 * 16 + y as int / 16
  }

  function Third(y: Byte, z: Byte): (d: nat)
    ensures d < 64
  {
    y as int % 16 * 4 + z as int / 64
  }

  function Fourth(z: Byte): (d: nat)
    ensures d < 64
  {
    z as int % 64
  }

  const NUL: Byte := 0 as char

  /** A short last group is filled up with zero bits. */
  function Encode(b: Text): (s: Text)
    ensures AllAlphabet(s)
  {
    if |b| == 0 then ""
    else if |b| == 1 then [EncodeDigit(First(b[0])), EncodeDigit(Second(b[0], NUL))]
    else if |b| == 2 then
      [EncodeDigit(First(b[0])), EncodeDigit(Second(b[0], b[1])), EncodeDigit(Third(b[1], NUL))]
    else
      [EncodeDigit(First(b[0])), EncodeDigit(Second(b[0], b[1])), EncodeDigit(Third(b[1], b[2])), EncodeDigit(Fourth(b[2]))]
      + Encode(b[3..])
  }

  /** Skips the line breaks that the decoder ignores. */
  function StripLineBreaks(s: Text): Text {
    if s == "" then ""
    else if s[0] == '\r' || s[0] == '\n' then StripLineBreaks(s[1..])
    else [s[0]] + StripLineBreaks(s[1..])
  }

  function Top(d0: nat, d1: nat): Byte
    requires d0 < 64 && d1 < 64
  {
    (d0 * 4 + d1 / 16) as char
  }

  function Middle(d1: nat, d2: nat): Byte
    requires d1 < 64 && d2 < 64
  {
    (d1 % 16 * 16 + d2 / 4) as char
  }

  function Low(d2: nat, d3: nat): Byte
    requires d2 < 64 && d3 < 64
  {
    (d2 % 4 * 64 + d3) as char
  }

  /** Groups of four digits; trailing bits of a short last group are not checked. */
  function DecodeGroups(s: Text): Option<Text> {
    if |s| == 0 then Some("")
    else if |s| == 1 then None
    else
      match (DecodeDigit(s[0]), DecodeDigit(s[1]))
      case (Some(d0), Some(d1)) =>
        if |s| == 2 then Some([Top(d0, d1)])
        else (
          match DecodeDigit(s[2])
          case None => None
          case Some(d2) =>
            if |s| == 3 then Some([Top(d0, d1), Middle(d1, d2)])
            else
              match (DecodeDigit(s[3]), DecodeGroups(s[4..]))
              case (Some(d3), Some(rest)) => Some([Top(d0, d1), Middle(d1, d2), Low(d2, d3)] + rest)
              case _ => None)
      case _ => None
  }

  function Decode(s: Text): Option<Text> {
    DecodeGroups(StripLineBreaks(s))
  }

  lemma {:induction false} StripNothing(s: Text)
    requires forall i :: 0 <= i < |s| ==> s[i] != '\r' && s[i] != '\n'
    ensures StripLineBreaks(s) == s
  {
    if s != "" {
      StripNothing(s[1..]);
    }
  }

  /** Decoding undoes encoding for every byte string. */
  lemma RoundTrip(b: Text)
    ensures Decode(Encode(b)) == Some(b)
  {
    StripNothing(Encode(b));
    GroupsRoundTrip(b);
  }

  /** The three bytes come back from their four digits. */
  lemma Repack(x: Byte, y: Byte, z: Byte)
    ensures Top(First(x), Second(x, y)) == x
    ensures Middle(Second(x, y), Third(y, z)) == y
    ensures Low(Third(y, z), Fourth(z)) == z
  {
  }

  lemma FourDigitsDecode(d0: nat, d1: nat, d2: nat, d3: nat, rest: Text)
    requires d0 < 64 && d1 < 64 && d2 < 64 && d3 < 64 && DecodeGroups(rest).Some?
    ensures DecodeGroups([EncodeDigit(d0), EncodeDigit(d1), EncodeDigit(d2), EncodeDigit(d3)] + rest)
            == Some([Top(d0, d1), Middle(d1, d2), Low(d2, d3)] + DecodeGroups(rest).value)
  {
    DigitRoundTrip(d0);
    DigitRoundTrip(d1);
    DigitRoundTrip(d2);
    DigitRoundTrip(d3);
    var s := [EncodeDigit(d0), EncodeDigit(d1), EncodeDigit(d2), EncodeDigit(d3)] + rest;
    assert s[4..] == rest;
  }

  lemma {:induction false} ShortGroupsDecode(d0: nat, d1: nat, d2: nat)
    requires d0 < 64 && d1 < 64 && d2 < 64
    ensures DecodeGroups([EncodeDigit(d0), EncodeDigit(d1)]) == Some([Top(d0, d1)])
    ensures DecodeGroups([EncodeDigit(d0), EncodeDigit(d1), EncodeDigit(d2)]) == Some([Top(d0, d1), Middle(d1, d2)])
  {
    DigitRoundTrip(d0);
    DigitRoundTrip(d1);
    DigitRoundTrip(d2);
  }

  lemma FirstGroupDecodes(x: Byte, y: Byte, z: Byte, rest: Text)
    requires DecodeGroups(Encode(rest)) == Some(rest)
    ensures DecodeGroups(Encode([x, y, z] + rest)) == Some([x, y, z] + rest)
  {
    var b := [x, y, z] + rest;
    Repack(x, y, z);
    FourDigitsDecode(First(x), Second(x, y), Third(y, z), Fourth(z), Encode(rest));
    assert b[3..] == rest && b[0] == x && b[1] == y && b[2] == z;
  }

  lemma OneByteDecodes(x: Byte)
    ensures DecodeGroups(Encode([x])) == Some([x])
  {
    Repack(x, NUL, NUL);
    ShortGroupsDecode(First(x), Second(x, NUL), 0);
    assert Encode([x]) == [EncodeDigit(First(x)), EncodeDigit(Second(x, NUL))];
  }

  lemma TwoBytesDecode(x: Byte, y: Byte)
    ensures DecodeGroups(Encode([x, y])) == Some([x, y])
  {
    Repack(x, y, NUL);
    ShortGroupsDecode(First(x), Second(x, y), Third(y, NUL));
    assert Encode([x, y]) == [EncodeDigit(First(x)), EncodeDigit(Second(x, y)), EncodeDigit(Third(y, NUL))];
  }

  lemma {:induction false} GroupsRoundTrip(b: Text)
    ensures DecodeGroups(Encode(b)) == Some(b)
  {
    if |b| == 0 {
    } else if |b| == 1 {
      OneByteDecodes(b[0]);
      assert b == [b[0]];
    } else if |b| == 2 {
      TwoBytesDecode(b[0], b[1]);
      assert b == [b[0], b[1]];
    } else {
      var x, y, z, rest := b[0], b[1], b[2], b[3..];
      assert b == [x, y, z] + rest;
      assert DecodeGroups(Encode([x, y, z] + rest)) == Some([x, y, z] + rest) by {
        GroupsRoundTrip(rest);
        FirstGroupDecodes(x, y, z, rest);
      }
    }
  }

  /** The examples of RFC 4648, section 10, and one for the two digits of the URL alphabet. */
  lemma KnownEncodings()
    ensures Encode("") == ""
    ensures Encode("f") == "Zg"
    ensures Encode("fo") == "Zm8"
    ensures Encode("foo") == "Zm9v"
    ensures Encode([251 as char, 255 as char]) == "-_8"
  {
    assert "foo"[3..] == "";
  }

  lemma KnownEncodingsJoin(b: Text)
    ensures Encode("foo" + b) == "Zm9v" + Encode(b)
  {
    var s: Text := "foo" + b;
    assert s[0] == 'f' && s[1] == 'o' && s[2] == 'o' && s[3..] == b;
  }

  lemma {:induction false} Injective(a: Text, b: Text)
    requires Encode(a) == Encode(b)
    ensures a == b
  {
    RoundTrip(a);
    RoundTrip(b);
  }

  /** A byte outside the alphabet, other than a line break, makes decoding fail wherever it is. */
  lemma {:induction false} ForeignByteFails(s: Text, k: nat)
    requires k < |s| && !IsAlphabet(s[k]) && s[k] != '\r' && s[k] != '\n'
    ensures Decode(s).None?
  {
    StripKeeps(s, k);
    var t := StripLineBreaks(s);
    var j :| 0 <= j < |t| && t[j] == s[k];
    ForeignGroupFails(t, j);
  }

  lemma {:induction false} StripKeeps(s: Text, k: nat)
    requires k < |s| && s[k] != '\r' && s[k] != '\n'
    ensures exists j :: 0 <= j < |StripLineBreaks(s)| && StripLineBreaks(s)[j] == s[k]
  {
    var t := StripLineBreaks(s);
    if k == 0 {
      assert t[0] == s[0];
    } else {
      StripKeeps(s[1..], k - 1);
      var u := StripLineBreaks(s[1..]);
      var j :| 0 <= j < |u| && u[j] == s[k];
      assert t == u || t[j + 1] == u[j];
    }
  }

  lemma {:induction false} ForeignGroupFails(t: Text, j: nat)
    requires j < |t| && !IsAlphabet(t[j])
    ensures DecodeGroups(t).None?
  {
    if j >= 4 {
      ForeignGroupFails(t[4..], j - 4);
    }
  }
}
