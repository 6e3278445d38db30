/** Go strings are byte strings: one character per byte, so a length counts bytes. */
module GoText {

  type Byte = c: char | c as int < 256 witness 'a'
  type Text = seq<Byte>

  datatype Option<+T> = None | Some(value: T)

  /** strings.TrimPrefix */
  function TrimPrefix(s: Text, prefix: Text): Text {
    if prefix <= s then s[|prefix|..] else s
  }

  /** strings.Split(s, sep) for a one-byte separator. */
  function Split(s: Text, sep: Byte): (parts: seq<Text>)
    ensures |parts| > 0
    ensures forall p: Text :: p in parts ==> sep !in p
  {
    if s == "" then [""]
    else
      var rest := Split(s[1..], sep);
      if s[0] == sep then [""] + rest else [[s[0]] + rest[0]] + rest[1..]
  }

  /** strings.Join(parts, sep) for a one-byte separator. */
  function Join(parts: seq<Text>, sep: Byte): Text {
    if parts == [] then ""
    else if |parts| == 1 then parts[0]
    else parts[0] + [sep] + Join(parts[1..], sep)
  }

  lemma {:induction false} SplitOne(part: Text, sep: Byte)
    requires sep !in part
    ensures Split(part, sep) == [part]
  {
    if part != "" {
      assert part[0] in part && [part[0]] + part[1..] == part;
      SplitOne(part[1..], sep);
    }
  }

  lemma {:induction false} SplitCons(part: Text, rest: Text, sep: Byte)
    requires sep !in part
    ensures Split(part + [sep] + rest, sep) == [part] + Split(rest, sep)
  {
    var s := part + [sep] + rest;
    if part == "" {
      assert s[1..] == rest;
    } else {
      assert part[0] in part && s[1..] == part[1..] + [sep] + rest;
      SplitCons(part[1..], rest, sep);
      var parts := [part[1..]] + Split(rest, sep);
      assert [part[0]] + parts[0] == part && parts[1..] == Split(rest, sep);
    }
  }

  /** Splitting undoes joining when no part holds the separator. */
  lemma {:induction false} SplitJoin(parts: seq<Text>, sep: Byte)
    requires |parts| > 0
    requires forall p: Text :: p in parts ==> sep !in p
    ensures Split(Join(parts, sep), sep) == parts
  {
    if |parts| == 1 {
      SplitOne(parts[0], sep);
    } else {
      SplitJoin(parts[1..], sep);
      SplitCons(parts[0], Join(parts[1..], sep), sep);
    }
  }

  lemma {:induction false} JoinSplit(s: Text, sep: Byte)
    ensures Join(Split(s, sep), sep) == s
  {
    if s != "" {
      JoinSplit(s[1..], sep);
      var rest := Split(s[1..], sep);
      assert s == [s[0]] + s[1..];
      if s[0] != sep {
        var parts := [[s[0]] + rest[0]] + rest[1..];
        assert parts[0] == [s[0]] + rest[0] && parts[1..] == rest[1..];
      } else {
        assert ([""] + rest)[1..] == rest;
      }
    }
  }

  /** A text splits into one part more than it holds separators. */
  lemma {:induction false} SplitCount(s: Text, sep: Byte)
    ensures |Split(s, sep)| == 1 + multiset(s)[sep]
  {
    if s != "" {
      SplitCount(s[1..], sep);
      assert s == [s[0]] + s[1..];
    }
  }

  predicate IsDigit(c: Byte) {
    '0' <= c <= '9'
  }

  predicate AllDigits(s: Text) {
    forall c: Byte :: c in s ==> IsDigit(c)
  }

  function Digit(d: nat): (c: Byte)
    requires d < 10
    ensures IsDigit(c)
  {
    '0' + d as char
  }

  /** The %d verb on an unsigned number. */
  function Decimal(n: nat): (s: Text)
    ensures |s| > 0 && AllDigits(s)
  {
    if n < 10 then [Digit(n)] else Decimal(n / 10) + [Digit(n % 10)]
  }

  /** The value of a run of decimal digits. */
  function DigitsValue(s: Text): nat
    requires AllDigits(s)
  {
    if s == "" then 0
    else
      assert s[|s| - 1] in s;
      DigitsValue(s[..|s| - 1]) * 10 + (s[|s| - 1] as int - '0' as int)
  }

  lemma {:induction false} DecimalRoundTrip(n: nat)
    ensures DigitsValue(Decimal(n)) == n
  {
    if n >= 10 {
      DecimalRoundTrip(n / 10);
      assert Decimal(n)[..|Decimal(n)| - 1] == Decimal(n / 10);
    }
  }
}
