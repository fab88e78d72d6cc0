/** Bytes, optional values and in-place writes into a packet buffer. */
module Bytes {
  datatype Option<+T> = None | Some(value: T)

  type byte = x: int | 0 <= x < 256

  /** The two bytes writeInt stores, most significant first. */
  function Int16(n: nat): (bs: seq<byte>)
    ensures |bs| == 2
  {
    [n / 256 % 256, n % 256]
  }

  /** readInt. */
  function IntAt(s: seq<byte>, at: nat): nat
    requires at + 2 <= |s|
  {
    var high: int := s[at];
    256 * high + s[at + 1]
  }

  method ReadInt(buf: array<byte>, at: nat) returns (n: nat)
    requires at + 2 <= buf.Length
    ensures n == IntAt(buf[..], at)
  {
    var high: int := buf[at];
    n := 256 * high + buf[at + 1];
  }

  /** readChar: the platform's char is signed, so bytes from 128 up read as negative numbers. */
  function SignedChar(b: byte): int {
    if b < 128 then b else b - 256
  }

  /** A character survives writeChar followed by readChar exactly when it is a signed byte. */
  lemma CharRoundTrip(c: int)
    ensures SignedChar(c % 256) == c <==> -128 <= c <= 127
  {
  }

  /** `bs` stands in s at offset `at`. */
  ghost predicate Holds(s: seq<byte>, at: nat, bs: seq<byte>) {
    at + |bs| <= |s| && s[at..at + |bs|] == bs
  }

  lemma HoldsSplit(s: seq<byte>, at: nat, a: seq<byte>, b: seq<byte>)
    ensures Holds(s, at, a + b) <==> Holds(s, at, a) && Holds(s, at + |a|, b)
  {
    if at + |a| + |b| <= |s| {
      var w := s[at..at + |a| + |b|];
      assert w[..|a|] == s[at..at + |a|] && w[|a|..] == s[at + |a|..at + |a| + |b|];
      assert w == w[..|a|] + w[|a|..];
      assert (a + b)[..|a|] == a && (a + b)[|a|..] == b;
    }
  }

  lemma HoldsFits(s: seq<byte>, at: nat, bs: seq<byte>)
    requires Holds(s, at, bs)
    ensures at + |bs| <= |s|
  {
  }

  lemma IntFound(s: seq<byte>, at: nat, n: nat)
    requires n <= 65535 && Holds(s, at, Int16(n))
    ensures IntAt(s, at) == n
  {
    assert s[at] == s[at..at + 2][0] && s[at + 1] == s[at..at + 2][1];
  }

  /** A buffer with the advancing write pointer the serializers pass around. */
  class Writer {
    const buf: array<byte>
    var ptr: nat
    ghost const image: seq<byte>

    /** Nothing at or past the pointer has been touched. */
    ghost predicate Valid()
      reads this, buf
    {
      ptr <= buf.Length == |image| && buf[ptr..] == image[ptr..]
    }

    /** Everything before the pointer. */
    ghost function Written(): seq<byte>
      reads this, buf
      requires Valid()
    {
      buf[..ptr]
    }

    constructor (buf: array<byte>, at: nat)
      requires at <= buf.Length
      ensures Valid() && this.buf == buf && ptr == at && image == buf[..]
    {
      this.buf := buf;
      ptr := at;
      image := buf[..];
    }

    /** writeChar: one byte, taken modulo 256 as the C conversion to a character does. */
    method Char(c: int)
      requires Valid() && ptr < buf.Length
      modifies this, buf
      ensures Valid() && Written() == old(Written()) + [c % 256]
    {
      buf[ptr] := c % 256;
      ptr := ptr + 1;
      assert buf[ptr..] == old(buf[ptr..])[1..];
      assert image[ptr..] == image[old(ptr)..][1..];
    }

    /** writeInt. */
    method Int(n: nat)
      requires Valid() && ptr + 2 <= buf.Length
      modifies this, buf
      ensures Valid() && Written() == old(Written()) + Int16(n)
    {
      Char(n / 256);
      Char(n);
    }

    /** memcpy. */
    method Copy(bs: seq<byte>)
      requires Valid() && ptr + |bs| <= buf.Length
      modifies this, buf
      ensures Valid() && Written() == old(Written()) + bs
    {
      forall i | 0 <= i < |bs| {
        buf[ptr + i] := bs[i];
      }
      ptr := ptr + |bs|;
      assert buf[ptr..] == old(buf[ptr..])[|bs|..];
      assert image[ptr..] == image[old(ptr)..][|bs|..];
    }
  }
}
