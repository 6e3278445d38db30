/** Parsed URLs and the values the route compiler derives from them. */
module Requests {
  import opened GoText

  type PortText = p: Text | AllDigits(p) witness ""

  /** A parsed URL: the accessors of net/url, with text its String(). */
  datatype URL = URL(scheme: Text, host: Text, hostname: Text, port: PortText, path: Text, text: Text)

  const MAX_INT64: nat := 0x7fff_ffff_ffff_ffff
  const UINT32: nat := 0x1_0000_0000

  /** A port beyond the range of int falls back to the scheme; one beyond uint32 wraps around. */
  function IdentifyPort(u: URL): (p: nat)
    ensures p < UINT32
  {
    if u.port != "" && DigitsValue(u.port) <= MAX_INT64 then DigitsValue(u.port) % UINT32
    else if u.scheme == "https" then 443
    else if u.scheme == "http" then 80
    else 0
  }

  /** A port in decimal stands for itself while it fits 32 bits; without one the scheme decides. */
  lemma {:induction false} PortMeaning(u: URL, n: nat)
    ensures u.port == Decimal(n) && n < 0x1_0000_0000 ==> IdentifyPort(u) == n
    ensures u.port == Decimal(n) && n < 0x8000_0000_0000_0000 ==> IdentifyPort(u) == n % 0x1_0000_0000
    ensures u.port == "" || (u.port == Decimal(n) && n >= 0x8000_0000_0000_0000) ==>
              && (u.scheme == "https" ==> IdentifyPort(u) == 443)
              && (u.scheme == "http" ==> IdentifyPort(u) == 80)
              && (u.scheme !in ["https", "http"] ==> IdentifyPort(u) == 0)
  {
    DecimalRoundTrip(n);
    assert |"https"| == 5 && |"http"| == 4;
  }

  predicate IsLocalhost(u: URL) {
    u.hostname == "localhost" || u.hostname == "127.0.0.1" || "127." <= u.hostname
  }

  // path.Clean on the segments between slashes

  type Segment = s: Text | '/' !in s witness ""

  predicate Plain(segment: Segment) {
    segment != "" && segment != "." && segment != ".."
  }

  predicate AllPlain(segments: seq<Segment>) {
    forall i :: 0 <= i < |segments| ==> Plain(segments[i])
  }

  /** A clean stack: leading ".." segments, only when the path is relative, then plain ones. */
  predicate CleanStack(rooted: bool, stack: seq<Segment>) {
    && (forall i :: 0 <= i < |stack| ==> Plain(stack[i]) || (stack[i] == ".." && !rooted))
    && forall i, j :: 0 <= i < j < |stack| && stack[j] == ".." ==> stack[i] == ".."
  }

  function CleanStep(rooted: bool, stack: seq<Segment>, segment: Segment): (r: seq<Segment>)
    requires CleanStack(rooted, stack)
    ensures CleanStack(rooted, r)
  {
    if segment == "" || segment == "." then stack
    else if segment != ".." then stack + [segment]
    else if stack != [] && stack[|stack| - 1] != ".." then stack[..|stack| - 1]
    else if rooted then stack
    else stack + [".."]
  }

  function CleanSegments(rooted: bool, stack: seq<Segment>, segments: seq<Segment>): (r: seq<Segment>)
    requires CleanStack(rooted, stack)
    ensures CleanStack(rooted, r)
    decreases |segments|
  {
    if segments == [] then stack
    else CleanSegments(rooted, CleanStep(rooted, stack, segments[0]), segments[1..])
  }

  lemma CleanSegmentsCons(rooted: bool, stack: seq<Segment>, first: Segment, rest: seq<Segment>)
    requires CleanStack(rooted, stack)
    ensures CleanSegments(rooted, stack, [first] + rest) == CleanSegments(rooted, CleanStep(rooted, stack, first), rest)
  {
    assert ([first] + rest)[1..] == rest;
  }

  lemma ConcatStep(rooted: bool, stack: seq<Segment>, first: Segment, rest: seq<Segment>, ys: seq<Segment>)
    requires CleanStack(rooted, stack)
    requires var next := CleanStep(rooted, stack, first);
             CleanSegments(rooted, next, rest + ys) == CleanSegments(rooted, CleanSegments(rooted, next, rest), ys)
    ensures CleanSegments(rooted, stack, [first] + rest + ys) == CleanSegments(rooted, CleanSegments(rooted, stack, [first] + rest), ys)
  {
    var next := CleanStep(rooted, stack, first);
    CleanSegmentsCons(rooted, stack, first, rest);
    assert CleanSegments(rooted, stack, [first] + rest) == CleanSegments(rooted, next, rest);
    CleanSegmentsCons(rooted, stack, first, rest + ys);
    ConsConcat(first, rest, ys);
  }

  lemma ConsConcat(first: Segment, rest: seq<Segment>, ys: seq<Segment>)
    ensures [first] + rest + ys == [first] + (rest + ys)
  {
  }

  lemma {:induction false} CleanSegmentsConcat(rooted: bool, stack: seq<Segment>, xs: seq<Segment>, ys: seq<Segment>)
    requires CleanStack(rooted, stack)
    ensures CleanSegments(rooted, stack, xs + ys) == CleanSegments(rooted, CleanSegments(rooted, stack, xs), ys)
    decreases |xs|
  {
    if xs == [] {
      assert xs + ys == ys;
    } else {
      var first, rest := xs[0], xs[1..];
      CleanSegmentsConcat(rooted, CleanStep(rooted, stack, first), rest, ys);
      ConcatStep(rooted, stack, first, rest, ys);
      assert xs == [first] + rest;
    }
  }

  /** The segments that cleaning drops wherever they stand: none, the dot, and a step down and up. */
  predicate Droppable(segments: seq<Segment>) {
    segments == [""] || segments == ["."] || (|segments| == 2 && Plain(segments[0]) && segments[1] == "..")
  }

  lemma DroppedSegments(rooted: bool, stack: seq<Segment>, mid: seq<Segment>)
    requires CleanStack(rooted, stack) && (Droppable(mid) || (rooted && stack == [] && mid == [".."]))
    ensures CleanSegments(rooted, stack, mid) == stack
  {
    if |mid| == 2 {
      var first: Segment, second: Segment := mid[0], mid[1];
      var down := CleanStep(rooted, stack, first);
      assert down == stack + [first];
      assert CleanStep(rooted, down, second) == stack;
      assert mid[1..] == [second] && [second][1..] == [];
      assert CleanSegments(rooted, stack, mid) == CleanSegments(rooted, down, [second]);
      assert CleanSegments(rooted, down, [second]) == CleanSegments(rooted, stack, []);
    } else {
      assert mid[1..] == [];
    }
  }

  predicate Rooted(path: Text) {
    "/" <= path
  }

  function CleanOf(path: Text): (r: seq<Segment>)
    ensures CleanStack(Rooted(path), r)
  {
    CleanSegments(Rooted(path), [], Split(path, '/'))
  }

  /** path.Clean */
  function Clean(path: Text): Text {
    if Rooted(path) then "/" + Join(CleanOf(path), '/')
    else if CleanOf(path) == [] then "."
    else Join(CleanOf(path), '/')
  }

  /**
   * The rules of cleaning: two paths that differ only in such a segment clean to the same path,
   * and so do they when the segment climbs above the root.
   */
  lemma {:induction false} CleanRules(p: Text, q: Text, xs: seq<Segment>, mid: seq<Segment>, ys: seq<Segment>)
    requires Rooted(p) == Rooted(q)
    requires Split(p, '/') == xs + mid + ys && Split(q, '/') == xs + ys
    requires Droppable(mid) || (Rooted(p) && mid == [".."] && forall i :: 0 <= i < |xs| ==> xs[i] == "")
    ensures Clean(p) == Clean(q)
  {
    var rooted := Rooted(p);
    var before := CleanSegments(rooted, [], xs);
    if !Droppable(mid) {
      EmptySegments(rooted, xs);
    }
    DroppedSegments(rooted, before, mid);
    CleanSegmentsConcat(rooted, [], xs + mid, ys);
    CleanSegmentsConcat(rooted, [], xs, mid);
    CleanSegmentsConcat(rooted, [], xs, ys);
  }

  lemma {:induction false} EmptySegments(rooted: bool, xs: seq<Segment>)
    requires forall i :: 0 <= i < |xs| ==> xs[i] == ""
    ensures CleanSegments(rooted, [], xs) == []
  {
    if xs != [] {
      EmptySegments(rooted, xs[1..]);
    }
  }

  function NormalizePath(u: URL): Text {
    if u.path == "" then "/"
    else
      var normalized := Clean(u.path);
      if "/" <= normalized then normalized else "/" + normalized
  }

  lemma AllPlainTail(segments: seq<Segment>)
    requires AllPlain(segments) && segments != []
    ensures Plain(segments[0]) && AllPlain(segments[1..])
  {
  }

  lemma {:induction false} CleanSegmentsStable(rooted: bool, stack: seq<Segment>, segments: seq<Segment>)
    requires CleanStack(rooted, stack)
    requires AllPlain(segments)
    ensures CleanSegments(rooted, stack, segments) == stack + segments
    decreases |segments|
  {
    if segments == [] {
      assert stack + segments == stack;
    } else {
      var first, rest := segments[0], segments[1..];
      AllPlainTail(segments);
      var next := CleanStep(rooted, stack, first);
      CleanSegmentsStable(rooted, next, rest);
      assert CleanSegments(rooted, stack, segments) == next + rest;
      assert next + rest == stack + ([first] + rest);
      assert segments == [first] + rest;
    }
  }

  lemma {:induction false} JoinStart(parts: seq<Text>, sep: Byte)
    requires |parts| > 0 && parts[0] != "" && sep !in parts[0]
    ensures Join(parts, sep) != "" && Join(parts, sep)[0] != sep
  {
    assert parts[0][0] in parts[0];
  }

  /** Cleaning a rooted path made of plain segments changes nothing. */
  lemma CleanRooted(segments: seq<Segment>)
    requires AllPlain(segments)
    ensures CleanOf("/" + Join(segments, '/')) == segments
  {
    var path: Text := "/" + Join(segments, '/');
    assert path[1..] == Join(segments, '/');
    assert Rooted(path);
    if segments == [] {
      assert Split(path, '/') == ["", ""];
      assert ["", ""][1..] == [""] && [""][1..] == [];
    } else {
      SplitJoin(segments, '/');
      var all: seq<Text> := [""] + segments;
      assert Split(path, '/') == all;
      assert all[1..] == segments;
      CleanSegmentsStable(true, [], segments);
      assert [] + segments == segments;
    }
  }

  /** Every match prefix is rooted, and one made from a rooted path holds only plain segments. */
  lemma NormalizePathCanonical(u: URL)
    ensures "/" <= NormalizePath(u)
    ensures Rooted(u.path) || u.path == "" ==>
              exists segments: seq<Segment> :: AllPlain(segments) && NormalizePath(u) == "/" + Join(segments, '/')
  {
    if u.path == "" {
      assert NormalizePath(u) == "/" + Join([], '/');
    } else if Rooted(u.path) {
      assert AllPlain(CleanOf(u.path));
      assert NormalizePath(u) == "/" + Join(CleanOf(u.path), '/');
    }
  }

  /** A path of plain segments is its own prefix, given a leading slash if it has none. */
  lemma PlainPathKept(u: URL, segments: seq<Segment>)
    requires AllPlain(segments)
    ensures u.path == "/" + Join(segments, '/') ==> NormalizePath(u) == u.path
    ensures u.path == Join(segments, '/') ==> NormalizePath(u) == "/" + u.path
  {
    if u.path == "/" + Join(segments, '/') {
      CleanRooted(segments);
    } else if u.path == Join(segments, '/') && segments != [] {
      JoinStart(segments, '/');
      SplitJoin(segments, '/');
      CleanSegmentsStable(false, [], segments);
      assert [] + segments == segments;
      assert !Rooted(u.path);
    }
  }

  /**
   * Normalising twice equals normalising once, exactly unless the path is relative and
   * cleans to nothing or to a climb out of its start.
   */
  lemma NormalizePathIdempotent(u: URL)
    ensures NormalizePath(u.(path := NormalizePath(u))) == NormalizePath(u)
            <==> (u.path == "" || Rooted(u.path) || (CleanOf(u.path) != [] && CleanOf(u.path)[0] != ".."))
  {
    var once := NormalizePath(u);
    var stack := CleanOf(u.path);
    if u.path == "" {
      CleanRooted([]);
      assert once == "/" + Join([], '/');
    } else if Rooted(u.path) {
      CleanRooted(stack);
    } else if stack == [] {
      assert Clean(u.path) == "." && once == "/.";
      CleanDot();
    } else {
      JoinStart(stack, '/');
      assert once == "/" + Join(stack, '/');
      if stack[0] != ".." {
        assert AllPlain(stack);
        CleanRooted(stack);
      } else {
        RootedHasNoClimb(once);
        assert once[1..] == Join(stack, '/');
        SplitJoin(stack, '/');
      }
    }
  }

  lemma CleanDot()
    ensures Clean("/.") == "/"
  {
    var path: Text := "/.";
    SplitOne(".", '/');
    SplitCons("", ".", '/');
    assert path == "" + ['/'] + ".";
    assert ["", "."][1..] == ["."] && ["."][1..] == [];
    assert CleanOf(path) == [];
  }

  /** No cleaned rooted path starts with a ".." segment. */
  lemma RootedHasNoClimb(path: Text)
    requires Rooted(path)
    ensures "/" <= Clean(path) && Split(Clean(path)[1..], '/')[0] != ".."
  {
    var stack := CleanOf(path);
    assert Clean(path)[1..] == Join(stack, '/');
    if stack != [] {
      assert stack[0] in stack;
      SplitJoin(stack, '/');
    }
  }
}
