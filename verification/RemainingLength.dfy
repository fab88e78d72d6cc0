/** The remaining-length field: MQTTPacket_encode, MQTTPacket_decode and MQTTPacket_len. */
module RemainingLength {
  import opened Bytes

  const MAX_REMAINING_LENGTH := 268435455

  /** 128 to the power k. */
  function Pow128(k: nat): (p: nat)
    ensures p >= 1
  {
    if k == 0 then 1 else 128 * Pow128(k - 1)
  }

  /** The encoding of n: seven bits a byte, least significant first, top bit set on all but the last. */
  function LengthField(n: nat): (f: seq<byte>)
    ensures |f| >= 1
  {
    if n < 128 then [n] else [n % 128 + 128] + LengthField(n / 128)
  }

  /** What scanning a length field yields: read attempts, bytes taken, the value, and whether it ended. */
  datatype Scan = Scan(attempts: nat, used: nat, value: nat, ended: bool)

  /** The scan of a stream with room for `budget` more length bytes. A fifth byte counts as an attempt only. */
  function ScanLength(s: seq<byte>, budget: nat): (r: Scan)
    ensures r.used <= |s| && r.used <= budget
    ensures r.ended ==> r.used >= 1
    ensures r.attempts == if r.ended then r.used else r.used + 1
  {
    if budget == 0 || s == [] then Scan(1, 0, 0, false)
    else if s[0] < 128 then Scan(1, 1, s[0], true)
    else
      var r := ScanLength(s[1..], budget - 1);
      Scan(r.attempts + 1, r.used + 1, s[0] - 128 + 128 * r.value, r.ended)
  }

  /** Decoding inverts encoding, whatever follows on the stream. */
  lemma {:induction false} ScanInvertsEncode(n: nat, rest: seq<byte>, budget: nat)
    requires 0 < budget && n < Pow128(budget)
    ensures ScanLength(LengthField(n) + rest, budget) == Scan(|LengthField(n)|, |LengthField(n)|, n, true)
  {
    var f := LengthField(n);
    if n >= 128 {
      assert n / 128 < Pow128(budget - 1);
      ScanInvertsEncode(n / 128, rest, budget - 1);
      assert (f + rest)[1..] == LengthField(n / 128) + rest;
    }
  }

  /** The same on the range of MQTT 3.1.1, with at most four bytes. */
  lemma LengthRoundTrip(n: nat, rest: seq<byte>)
    requires n <= MAX_REMAINING_LENGTH
    ensures ScanLength(LengthField(n) + rest, 4) == Scan(|LengthField(n)|, |LengthField(n)|, n, true)
    ensures |LengthField(n)| <= 4
  {
    assert Pow128(4) == 268435456 by {
      assert Pow128(1) == 128;
      assert Pow128(2) == 16384;
      assert Pow128(3) == 2097152;
    }
    ScanInvertsEncode(n, rest, 4);
  }

  /** Every complete field that decodes to n is at least as long as the encoder's. */
  lemma {:induction false} EncodeIsShortest(s: seq<byte>, budget: nat)
    requires ScanLength(s, budget).ended
    ensures |LengthField(ScanLength(s, budget).value)| <= ScanLength(s, budget).used
    ensures ScanLength(s, budget).value < Pow128(budget)
  {
    if s[0] >= 128 {
      EncodeIsShortest(s[1..], budget - 1);
      var r := ScanLength(s[1..], budget - 1);
      assert (s[0] - 128 + 128 * r.value) / 128 == r.value;
    }
  }

  /** An unfinished scan still yields a value in range: it never took more than `budget` bytes. */
  lemma {:induction false} ScanInRange(s: seq<byte>, budget: nat)
    ensures ScanLength(s, budget).value < Pow128(budget)
  {
    if budget > 0 && s != [] && s[0] >= 128 {
      ScanInRange(s[1..], budget - 1);
    }
  }

  /** The size of the encoding, by range. */
  lemma LengthFieldSize(n: nat)
    requires n <= MAX_REMAINING_LENGTH
    ensures |LengthField(n)| == if n < 128 then 1 else if n < 16384 then 2 else if n < 2097152 then 3 else 4
  {
    var a := n / 128;
    var b := a / 128;
    var c := b / 128;
    assert LengthField(n) == if n < 128 then [n] else [n % 128 + 128] + LengthField(a);
    assert LengthField(a) == if a < 128 then [a] else [a % 128 + 128] + LengthField(b);
    assert LengthField(b) == if b < 128 then [b] else [b % 128 + 128] + LengthField(c);
    assert c < 128;
  }

  /** MQTTPacket_len: the thresholds are compared with the length plus one. */
  function PacketLen(remLen: int): int {
    var n := remLen + 1;
    if n < 128 then n + 1
    else if n < 16384 then n + 2
    else if n < 2097151 then n + 3
    else n + 4
  }

  /** MQTTPacket_len is the packet's true size, except for one byte too many at four lengths. */
  lemma PacketLenIsExactOrOneMore(n: nat)
    requires n <= MAX_REMAINING_LENGTH
    ensures PacketLen(n) == 1 + |LengthField(n)| + n + (if n in {127, 16383, 2097150, 2097151} then 1 else 0)
  {
    LengthFieldSize(n);
  }

  /** The field, taken apart after `done`. */
  lemma FieldStep(done: seq<byte>, n: nat)
    ensures LengthField(n) == if n < 128 then [n] else [n % 128 + 128] + LengthField(n / 128)
    ensures n >= 128 ==> done + LengthField(n) == (done + [n % 128 + 128]) + LengthField(n / 128)
  {
    if n >= 128 {
      assert done + ([n % 128 + 128] + LengthField(n / 128)) == (done + [n % 128 + 128]) + LengthField(n / 128);
    }
  }

  /** MQTTPacket_encode, writing at the pointer. Returns the number of bytes written. */
  method Encode(w: Writer, length: nat) returns (rc: nat)
    requires w.Valid() && w.ptr + |LengthField(length)| <= w.buf.Length
    modifies w, w.buf
    ensures w.Valid() && w.Written() == old(w.Written()) + LengthField(length)
    ensures rc == |LengthField(length)|
  {
    hide LengthField;
    rc := 0;
    var n := length;
    var more := true;
    ghost var done: seq<byte> := [];
    while more
      invariant w.Valid() && w.Written() == old(w.Written()) + done && rc == |done|
      invariant if more then done + LengthField(n) == LengthField(length) else done == LengthField(length)
      decreases more, n
    {
      FieldStep(done, n);
      var d := n % 128;
      n := n / 128;
      if n > 0 {
        d := d + 128;
      }
      w.Char(d);
      rc := rc + 1;
      done := done + [d];
      more := n > 0;
    }
  }

  /** A blocking byte source: a stream with a read position. */
  class Source {
    const stream: seq<byte>
    var pos: nat

    ghost predicate Valid()
      reads this
    {
      pos <= |stream|
    }

    constructor (stream: seq<byte>, start: nat)
      requires start <= |stream|
      ensures this.stream == stream && pos == start && Valid()
    {
      this.stream := stream;
      pos := start;
    }

    /** getfn: takes `count` bytes, or everything that is left when there is less. */
    method Get(count: nat) returns (data: seq<byte>)
      requires Valid()
      modifies this
      ensures Valid()
      ensures |data| == if old(pos) + count <= |stream| then count else |stream| - old(pos)
      ensures pos == old(pos) + |data|
      ensures data == stream[old(pos)..pos]
    {
      var n := if pos + count <= |stream| then count else |stream| - pos;
      data := stream[pos..pos + n];
      pos := pos + n;
    }
  }

  /** The value accumulated from `done`, one digit at a time, as the decoding loop adds it up. */
  ghost function Accumulated(done: seq<byte>): nat {
    if done == [] then 0
    else
      var last: nat := done[|done| - 1];
      Accumulated(done[..|done| - 1]) + last % 128 * Pow128(|done| - 1)
  }

  lemma Scale(p: nat, digit: nat, v: nat)
    requires 128 <= digit < 256
    ensures p * (digit - 128 + 128 * v) == digit % 128 * p + 128 * p * v
  {
    assert p * (digit - 128 + 128 * v) == p * (digit - 128) + p * (128 * v);
    assert p * (128 * v) == 128 * p * v;
  }

  /** A continuation byte. */
  lemma ScanMore(c: byte, rest: seq<byte>, budget: nat)
    requires c >= 128 && budget > 0
    ensures var r, digit: nat := ScanLength(rest, budget - 1), c;
            ScanLength([c] + rest, budget) == Scan(1 + r.attempts, 1 + r.used, digit - 128 + 128 * r.value, r.ended)
  {
    assert ([c] + rest)[1..] == rest;
  }

  /** A scan that starts with the continuation bytes `done` goes on with the scan of `rest`. */
  lemma {:induction false} ScanContinues(done: seq<byte>, rest: seq<byte>, budget: nat)
    requires |done| <= budget
    requires forall i | 0 <= i < |done| :: done[i] >= 128
    ensures var r := ScanLength(rest, budget - |done|);
            ScanLength(done + rest, budget) ==
            Scan(|done| + r.attempts, |done| + r.used, Accumulated(done) + Pow128(|done|) * r.value, r.ended)
  {
    hide ScanLength;
    var n := |done|;
    if n == 0 {
      assert done + rest == rest;
    } else {
      var before, last: nat := done[..n - 1], done[n - 1];
      ScanContinues(before, [done[n - 1]] + rest, budget);
      assert before + ([done[n - 1]] + rest) == done + rest;
      ScanMore(done[n - 1], rest, budget - n + 1);
      Scale(Pow128(n - 1), last, ScanLength(rest, budget - n).value);
    }
  }

  /** The scan gives up when four continuation bytes have been taken or the stream is over. */
  lemma ScanGivesUp(done: seq<byte>, rest: seq<byte>)
    requires |done| <= 4 && (|done| == 4 || rest == [])
    requires forall i | 0 <= i < |done| :: done[i] >= 128
    ensures ScanLength(done + rest, 4) == Scan(|done| + 1, |done|, Accumulated(done), false)
  {
    ScanContinues(done, rest, 4);
  }

  /** The scan ends with the first byte below 128. */
  lemma ScanEnds(done: seq<byte>, c: byte, rest: seq<byte>)
    requires |done| < 4 && c < 128
    requires forall i | 0 <= i < |done| :: done[i] >= 128
    ensures ScanLength(done + [c] + rest, 4) == Scan(|done| + 1, |done| + 1, Accumulated(done + [c]), true)
  {
    ScanContinues(done, [c] + rest, 4);
    assert done + ([c] + rest) == done + [c] + rest;
    assert (done + [c])[..|done|] == done;
  }

  lemma AccumulatedStep(done: seq<byte>, c: byte)
    ensures var digit: nat := c; Accumulated(done + [c]) == Accumulated(done) + digit % 128 * Pow128(|done|)
  {
    assert (done + [c])[..|done|] == done;
  }

  /** The continuation bytes read so far. */
  ghost predicate ReadSoFar(stream: seq<byte>, start: nat, done: seq<byte>, p: nat) {
    && start <= p <= |stream| && stream[start..] == done + stream[p..]
    && forall i | 0 <= i < |done| :: done[i] >= 128
  }

  /** One byte further in the stream: the field goes on, or ends. */
  lemma OneByte(stream: seq<byte>, start: nat, done: seq<byte>, p: nat)
    requires ReadSoFar(stream, start, done, p) && p < |stream| && |done| < 4
    ensures stream[p] >= 128 ==> ReadSoFar(stream, start, done + [stream[p]], p + 1)
    ensures stream[p] < 128 ==>
              ScanLength(stream[start..], 4) ==
              Scan(|done| + 1, |done| + 1, Accumulated(done + [stream[p]]), true)
  {
    hide ScanLength, Accumulated;
    assert stream[p..] == [stream[p]] + stream[p + 1..];
    assert stream[start..] == done + [stream[p]] + stream[p + 1..];
    if stream[p] < 128 {
      ScanEnds(done, stream[p], stream[p + 1..]);
    }
  }

  lemma NoMoreBytes(stream: seq<byte>, start: nat, done: seq<byte>, p: nat)
    requires ReadSoFar(stream, start, done, p) && |done| <= 4 && (|done| == 4 || p == |stream|)
    ensures ScanLength(stream[start..], 4) == Scan(|done| + 1, |done|, Accumulated(done), false)
  {
    hide ScanLength, Accumulated;
    ScanGivesUp(done, stream[p..]);
  }

  lemma NothingRead(stream: seq<byte>, start: nat)
    requires start <= |stream|
    ensures Accumulated([]) == 0 && Pow128(0) == 1 && ReadSoFar(stream, start, [], start)
  {
  }

  /** MQTTPacket_decode over a source. Returns the number of read attempts and the value. */
  method Decode(source: Source) returns (len: nat, value: nat)
    requires source.Valid()
    modifies source
    ensures source.Valid()
    ensures len == ScanLength(source.stream[old(source.pos)..], 4).attempts
    ensures value == ScanLength(source.stream[old(source.pos)..], 4).value
    ensures source.pos == old(source.pos) + ScanLength(source.stream[old(source.pos)..], 4).used
  {
    hide ScanLength, Accumulated, Pow128, ReadSoFar;
    var multiplier: nat := 1;
    len, value := 0, 0;
    ghost var start := source.pos;
    ghost var done: seq<byte> := [];
    NothingRead(source.stream, start);
    while true
      invariant source.Valid() && start + len == source.pos
      invariant len == |done| <= 4
      invariant ReadSoFar(source.stream, start, done, source.pos)
      invariant value == Accumulated(done) && multiplier == Pow128(len)
      decreases 4 - len
    {
      len := len + 1;
      if len > 4 {
        NoMoreBytes(source.stream, start, done, source.pos);
        return;
      }
      var c := source.Get(1);
      if |c| != 1 {
        NoMoreBytes(source.stream, start, done, source.pos);
        return;
      }
      var digit: nat := c[0];
      value, multiplier := NextDigit(value, multiplier, digit, done);
      OneByte(source.stream, start, done, source.pos - 1);
      if digit < 128 {
        return;
      }
      done := done + [c[0]];
    }
  }

  /** One digit of the decoding loop. */
  method NextDigit(value: nat, multiplier: nat, digit: byte, ghost done: seq<byte>) returns (v: nat, m: nat)
    requires value == Accumulated(done) && multiplier == Pow128(|done|)
    ensures v == Accumulated(done + [digit]) && m == Pow128(|done| + 1)
  {
    AccumulatedStep(done, digit);
    var d: nat := digit;
    v := value + d % 128 * multiplier;
    m := multiplier * 128;
  }

  /** MQTTPacket_decodeBuf: the same scan over a buffer, which must hold the whole field. */
  method DecodeBuf(buf: array<byte>, at: nat) returns (len: nat, value: nat)
    requires at <= buf.Length
    requires FieldInside(buf[..], at)
    ensures len == ScanLength(buf[..][at..], 4).attempts
    ensures value == ScanLength(buf[..][at..], 4).value
  {
    var source := new Source(buf[..], at);
    len, value := Decode(source);
  }

  /** No byte past the end of s is touched when a length field is decoded at `at`. */
  ghost predicate FieldInside(s: seq<byte>, at: nat)
    requires at <= |s|
  {
    var r := ScanLength(s[at..], 4);
    r.ended || r.used == 4
  }
}
