/** Envoy cluster names derived from destination URLs, and exactly when two of them collide. */
module ClusterNames {
  import opened GoText
  import opened Requests

  const MAX_NAME: nat := 127

  /** The complement of the pattern [^a-zA-Z0-9._-] that names are stripped of. */
  predicate NameByte(c: Byte) {
    'a' <= c <= 'z' || 'A' <= c <= 'Z' || IsDigit(c) || c == '.' || c == '_' || c == '-'
  }

  predicate AllNameBytes(s: Text) {
    forall c: Byte :: c in s ==> NameByte(c)
  }

  function Sanitize(s: Text): (r: Text)
    ensures AllNameBytes(r)
  {
    if s == "" then ""
    else if NameByte(s[0]) then [s[0]] + Sanitize(s[1..])
    else Sanitize(s[1..])
  }

  function HexDigit(n: nat): (c: Byte)
    requires n < 16
    ensures c != 'w'
  {
    if n < 10 then Digit(n) else 'a' + (n - 10) as char
  }

  function Hex(digest: Text): (r: Text)
    ensures |r| == 2 * |digest|
    ensures 'w' !in r
  {
    if digest == "" then ""
    else
      var b := digest[0] as int;
      [HexDigit(b / 16), HexDigit(b % 16)] + Hex(digest[1..])
  }

  function NormalizeName(sha: Text -> Text, s: Text): Text {
    if |s| > MAX_NAME then Hex(sha(s)) else Sanitize(s)
  }

  function RawClusterName(u: URL): Text {
    "wh_" + u.hostname + "_" + Decimal(IdentifyPort(u))
  }

  function ClusterName(sha: Text -> Text, u: URL): Text {
    NormalizeName(sha, RawClusterName(u))
  }

  lemma {:induction false} SanitizeConcat(a: Text, b: Text)
    ensures Sanitize(a + b) == Sanitize(a) + Sanitize(b)
  {
    if a == "" {
      assert a + b == b;
    } else {
      SanitizeConcat(a[1..], b);
      assert (a + b)[1..] == a[1..] + b;
    }
  }

  lemma {:induction false} SanitizeClean(s: Text)
    requires AllNameBytes(s)
    ensures Sanitize(s) == s
  {
    if s != "" {
      assert s[0] in s;
      SanitizeClean(s[1..]);
    }
  }

  lemma {:induction false} HexInjective(a: Text, b: Text)
    requires Hex(a) == Hex(b)
    ensures a == b
  {
    if a != "" && b != "" {
      var ha, hb := Hex(a), Hex(b);
      assert ha[0] == HexDigit(a[0] as int / 16) && ha[1] == HexDigit(a[0] as int % 16);
      assert hb[0] == HexDigit(b[0] as int / 16) && hb[1] == HexDigit(b[0] as int % 16);
      assert a[0] as int == b[0] as int;
      assert ha[2..] == Hex(a[1..]) && hb[2..] == Hex(b[1..]);
      HexInjective(a[1..], b[1..]);
      assert a == [a[0]] + a[1..] && b == [b[0]] + b[1..];
    }
  }

  /** Each byte reads as two lower-case hexadecimal digits, the high one first. */
  lemma HexBytes(b: Byte, rest: Text)
    ensures var digits: Text := "0123456789abcdef";
            Hex([b] + rest) == [digits[b as int / 16], digits[b as int % 16]] + Hex(rest)
  {
    var digits: Text := "0123456789abcdef";
    assert forall n: nat :: n < 10 ==> digits[n] == Digit(n);
    assert digits[10] == 'a' && digits[11] == 'b' && digits[12] == 'c' && digits[13] == 'd' && digits[14] == 'e' && digits[15] == 'f';
    assert ([b] + rest)[1..] == rest;
  }

  lemma LastUnderscore(h: Text, d: Text)
    requires AllDigits(d)
    ensures var s := h + "_" + d;
            s[|h|] == '_' && forall k :: |h| < k < |s| ==> IsDigit(s[k])
  {
    var s := h + "_" + d;
    forall k | |h| < k < |s|
      ensures IsDigit(s[k])
    {
      assert s[k] == d[k - |h| - 1] && s[k] in d;
    }
  }

  /** The last underscore separates the host from the port, whatever underscores the host has. */
  lemma HostPortUnique(h1: Text, d1: Text, h2: Text, d2: Text)
    requires AllDigits(d1) && AllDigits(d2)
    requires h1 + "_" + d1 == h2 + "_" + d2
    ensures h1 == h2 && d1 == d2
  {
    LastUnderscore(h1, d1);
    LastUnderscore(h2, d2);
    var s := h1 + "_" + d1;
    assert |h1| == |h2|;
    assert h1 == s[..|h1|] && d1 == s[|h1| + 1..] == d2;
  }

  lemma SanitizedClusterName(u: URL)
    ensures Sanitize(RawClusterName(u)) == "wh_" + Sanitize(u.hostname) + "_" + Decimal(IdentifyPort(u))
  {
    var port := Decimal(IdentifyPort(u));
    SanitizeConcat("wh_" + u.hostname + "_", port);
    SanitizeConcat("wh_" + u.hostname, "_");
    SanitizeConcat("wh_", u.hostname);
    SanitizeClean("wh_");
    SanitizeClean("_");
    SanitizeClean(port);
  }

  /**
   * Two destinations share a cluster name exactly when their unabbreviated names both fit and
   * agree in port and in the retained bytes of the host, or are both hashed to the same digest.
   */
  lemma ClusterNamesCollide(sha: Text -> Text, u: URL, v: URL)
    ensures ClusterName(sha, u) == ClusterName(sha, v) <==>
            if |RawClusterName(u)| <= 127 && |RawClusterName(v)| <= 127 then
              Sanitize(u.hostname) == Sanitize(v.hostname) && IdentifyPort(u) == IdentifyPort(v)
            else
              && |RawClusterName(u)| > 127 && |RawClusterName(v)| > 127
              && sha(RawClusterName(u)) == sha(RawClusterName(v))
  {
    SanitizedClusterName(u);
    SanitizedClusterName(v);
    var nu, nv := ClusterName(sha, u), ClusterName(sha, v);
    assert |RawClusterName(u)| <= MAX_NAME ==> nu[0] == 'w' && 'w' in nu;
    assert |RawClusterName(v)| <= MAX_NAME ==> nv[0] == 'w' && 'w' in nv;
    if nu == nv {
      if |RawClusterName(u)| <= MAX_NAME {
        if |RawClusterName(v)| <= MAX_NAME {
          var pu, pv := Decimal(IdentifyPort(u)), Decimal(IdentifyPort(v));
          HostPortUnique("wh_" + Sanitize(u.hostname), pu, "wh_" + Sanitize(v.hostname), pv);
          assert ("wh_" + Sanitize(u.hostname))[3..] == ("wh_" + Sanitize(v.hostname))[3..];
          DecimalRoundTrip(IdentifyPort(u));
          DecimalRoundTrip(IdentifyPort(v));
        }
      } else if |RawClusterName(v)| > MAX_NAME {
        HexInjective(sha(RawClusterName(u)), sha(RawClusterName(v)));
      }
    }
  }

  /** Hosts over the allowed alphabet with short names: the name determines host and port. */
  lemma ClusterNameInjective(sha: Text -> Text, u: URL, v: URL)
    requires AllNameBytes(u.hostname) && AllNameBytes(v.hostname)
    requires |RawClusterName(u)| <= MAX_NAME && |RawClusterName(v)| <= MAX_NAME
    requires ClusterName(sha, u) == ClusterName(sha, v)
    ensures u.hostname == v.hostname && IdentifyPort(u) == IdentifyPort(v)
  {
    ClusterNamesCollide(sha, u, v);
    SanitizeClean(u.hostname);
    SanitizeClean(v.hostname);
  }

  function Pow10(k: nat): nat {
    if k == 0 then 1 else 10 * Pow10(k - 1)
  }

  lemma {:induction false} DecimalLength(n: nat, k: nat)
    requires 0 < k && n < Pow10(k)
    ensures |Decimal(n)| <= k
  {
    if n >= 10 {
      assert k > 1 && n / 10 < Pow10(k - 1);
      DecimalLength(n / 10, k - 1);
    }
  }

  /** Letters, digits, dots, hyphens and underscores, and short enough for any port to fit behind them. */
  predicate PlainHost(host: Text) {
    && |host| <= 113
    && forall i :: 0 <= i < |host| ==>
         'a' <= host[i] <= 'z' || 'A' <= host[i] <= 'Z' || '0' <= host[i] <= '9' || host[i] in ".-_"
  }

  /** A cluster on a plain host bears that host and its port, and no other endpoint on a plain host shares it. */
  lemma {:induction false} PlainHostNames(sha: Text -> Text, u: URL, v: URL)
    requires PlainHost(u.hostname)
    ensures ClusterName(sha, u) == "wh_" + u.hostname + "_" + Decimal(IdentifyPort(u))
    ensures PlainHost(v.hostname) && ClusterName(sha, u) == ClusterName(sha, v) ==>
              u.hostname == v.hostname && IdentifyPort(u) == IdentifyPort(v)
  {
    PlainNameFits(u);
    SanitizedClusterName(u);
    SanitizeClean(u.hostname);
    if PlainHost(v.hostname) && ClusterName(sha, u) == ClusterName(sha, v) {
      PlainNameFits(v);
      ClusterNameInjective(sha, u, v);
    }
  }

  lemma PlainNameFits(u: URL)
    requires PlainHost(u.hostname)
    ensures |RawClusterName(u)| <= 127 && AllNameBytes(u.hostname)
  {
    assert Pow10(5) == 100_000 && Pow10(10) == 10_000_000_000;
    DecimalLength(IdentifyPort(u), 10);
  }

  /** An address literal loses its colons and shares a cluster with an unrelated host. */
  lemma {:induction false} AddressLiteralCollides(sha: Text -> Text)
    ensures var u := URL("http", "[::1]", "::1", "", "", "http://[::1]");
            var v := URL("http", "1", "1", "", "", "http://1");
            u.hostname != v.hostname && ClusterName(sha, u) == ClusterName(sha, v)
  {
    var u := URL("http", "[::1]", "::1", "", "", "http://[::1]");
    var v := URL("http", "1", "1", "", "", "http://1");
    assert Decimal(80) == "80" by {
      assert Decimal(8) == "8";
    }
    assert "::1"[1..] == ":1" && ":1"[1..] == "1";
    assert Sanitize("::1") == Sanitize(":1") == Sanitize("1");
    ClusterNamesCollide(sha, u, v);
  }
}
