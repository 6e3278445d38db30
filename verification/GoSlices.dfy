/** Go slices: a header (offset, length, capacity) over a shared backing array. */
module GoSlices {

  datatype Slice<T> = Slice(buf: array<T>, off: nat, len: nat, cap: nat) {

    predicate Valid() {
      len <= cap && off + cap <= buf.Length
    }

    function Elements(): (s: seq<T>)
      requires Valid()
      reads buf
      ensures |s| == len
    {
      buf[off..off + len]
    }

    /** The expression s[:n]: the same array and capacity, so what follows n is kept in reach. */
    function To(n: nat): (r: Slice<T>)
      requires Valid() && n <= len
      ensures r.Valid()
    {
      Slice(buf, off, n, cap)
    }

    /** The expression s[n:]. */
    function From(n: nat): (r: Slice<T>)
      requires Valid() && n <= len
      ensures r.Valid()
    {
      Slice(buf, off + n, len - n, cap - n)
    }
  }

  /** A shorter header over the same stretch sees the first elements of the longer one. */
  lemma SharedPrefix<T>(short: Slice<T>, long: Slice<T>)
    requires short.Valid() && long.Valid()
    requires short.buf == long.buf && short.off == long.off && short.len <= long.len
    ensures short.Elements() == long.Elements()[..short.len]
  {
  }

  /** A composite literal: its capacity is its length. */
  method Literal<T(0)>(elements: seq<T>) returns (r: Slice<T>)
    ensures r.Valid() && fresh(r.buf)
    ensures r.Elements() == elements && r.cap == |elements|
  {
    var a := new T[|elements|];
    forall i | 0 <= i < |elements| {
      a[i] := elements[i];
    }
    r := Slice(a, 0, |elements|, |elements|);
    assert r.Elements() == elements;
  }

  /**
   * The built-in append(s, t...). When the capacity suffices the elements are written into
   * s's own backing array, behind s's length, where other headers can see them; otherwise
   * everything moves to a new array of some larger capacity.
   */
  method Append<T(0)>(s: Slice<T>, t: Slice<T>) returns (r: Slice<T>)
    requires s.Valid() && t.Valid()
    modifies s.buf
    ensures r.Valid()
    ensures r.Elements() == old(s.Elements()) + old(t.Elements())
    ensures s.len + t.len <= s.cap ==>
              && r == Slice(s.buf, s.off, s.len + t.len, s.cap)
              && s.buf[..s.off + s.len] == old(s.buf[..s.off + s.len])
              && s.buf[s.off + s.len + t.len..] == old(s.buf[s.off + s.len + t.len..])
    ensures s.len + t.len > s.cap ==> fresh(r.buf) && s.buf[..] == old(s.buf[..])
    ensures s.Elements() == old(s.Elements())
  {
    if s.len + t.len <= s.cap {
      r := AppendInPlace(s, t);
    } else {
      r := AppendMoved(s, t);
    }
  }

  method AppendInPlace<T(0)>(s: Slice<T>, t: Slice<T>) returns (r: Slice<T>)
    requires s.Valid() && t.Valid() && s.len + t.len <= s.cap
    modifies s.buf
    ensures r == Slice(s.buf, s.off, s.len + t.len, s.cap) && r.Valid()
    ensures r.Elements() == old(s.Elements()) + old(t.Elements())
    ensures s.Elements() == old(s.Elements())
    ensures s.buf[..s.off + s.len] == old(s.buf[..s.off + s.len])
    ensures s.buf[s.off + s.len + t.len..] == old(s.buf[s.off + s.len + t.len..])
  {
    var end := s.off + s.len;
    forall i | 0 <= i < t.len {
      s.buf[end + i] := t.buf[t.off + i];
    }
    r := Slice(s.buf, s.off, s.len + t.len, s.cap);
    assert s.Elements() == old(s.Elements());
    assert s.buf[end..end + t.len] == old(t.Elements());
    assert r.Elements() == s.Elements() + s.buf[end..end + t.len];
  }

  method AppendMoved<T(0)>(s: Slice<T>, t: Slice<T>) returns (r: Slice<T>)
    requires s.Valid() && t.Valid()
    ensures r.Valid() && fresh(r.buf)
    ensures r.Elements() == s.Elements() + t.Elements()
  {
    var cap: nat :| cap >= s.len + t.len;
    var a := new T[cap];
    forall i | 0 <= i < s.len {
      a[i] := s.buf[s.off + i];
    }
    forall i | 0 <= i < t.len {
      a[s.len + i] := t.buf[t.off + i];
    }
    r := Slice(a, 0, s.len + t.len, cap);
    assert a[..s.len] == s.Elements();
    assert a[s.len..s.len + t.len] == t.Elements();
    assert r.Elements() == a[..s.len] + a[s.len..s.len + t.len];
  }

  /**
   * The insertion idiom append(s[:p], append([]T{x}, s[p:]...)...). The inner append copies
   * the tail out of the shared array before the outer append overwrites it in place.
   */
  method Insert<T(0)>(s: Slice<T>, p: nat, x: T) returns (r: Slice<T>)
    requires s.Valid() && p <= s.len
    modifies s.buf
    ensures r.Valid()
    ensures r.Elements() == old(s.Elements()[..p]) + [x] + old(s.Elements()[p..])
    ensures r.buf == s.buf || fresh(r.buf)
  {
    ghost var was := s.Elements();
    var one := Literal([x]);
    assert s.From(p).Elements() == was[p..];
    var tail := Append(one, s.From(p));
    assert tail.Elements() == [x] + was[p..];
    assert s.Elements() == was;
    assert s.To(p).Elements() == was[..p];
    r := Append(s.To(p), tail);
    assert r.Elements() == was[..p] + ([x] + was[p..]);
  }
}
