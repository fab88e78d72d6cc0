/** MQTTPacket_readnb: the resumable reader over a transport that delivers in pieces. */
module NonBlockingReader {
  import opened Bytes
  import opened RemainingLength
  import opened Packet
  import opened PacketReader

  /** What stays fixed: the bytes on the wire, the caller's buffer size, and what each poll of getfn offers
      (negative: an error; zero: call again; n: up to n bytes). */
  datatype Wire = Wire(stream: seq<byte>, buflen: nat, offers: nat -> int)

  /** MQTTTransport, with the position in the stream and the part of the caller's buffer that is filled. */
  datatype Reader = Reader(state: nat, len: nat, remLen: nat, multiplier: nat, pos: nat, stored: seq<byte>)

  /** A poll goes on, or leaves the call with 0 (call again), with -1, or with a packet type. */
  datatype Outcome = More | Again | Error | Done(kind: nat)

  /** The return code of a call. */
  function ReturnCode(out: Outcome): int {
    match out
    case Done(kind) => kind
    case Error => -1
    case _ => 0
  }

  /** The number of bytes one poll delivers, or -1. */
  function Delivered(offer: int, want: nat, available: nat): (n: int)
    ensures -1 <= n <= want && n <= available
  {
    if offer < 0 then -1
    else if offer <= want && offer <= available then offer
    else if want <= available then want
    else available
  }

  function AddDigit(value: nat, digit: nat, multiplier: nat): nat {
    value + digit % 128 * multiplier
  }

  /** The length field is complete: it is written back in its shortest form, and the packet must fit. */
  ghost function FinishLength(w: Wire, r: Reader): (result: (Reader, Outcome))
    ensures result.0.remLen == r.remLen
  {
    var stored := r.stored + LengthField(r.remLen);
    var next := r.(len := |stored|, stored := stored);
    if r.remLen + |stored| > w.buflen then (next.(state := 0), Error) else (next.(state := 2), More)
  }

  /** The fifth attempt at a length byte fails before the transport is asked. */
  predicate LengthTooLong(r: Reader) {
    r.state == 1 && r.len >= 4
  }

  /** One poll of getfn that is offered `offer` bytes, in whatever state the reader is. */
  ghost function Poll(w: Wire, r: Reader, offer: int): (Reader, Outcome)
    requires r.pos <= |w.stream|
  {
    var available := |w.stream| - r.pos;
    if r.state == 1 then PollLength(w, r, Delivered(offer, 1, available))
    else if r.state == 2 then PollBody(w, r, Delivered(offer, r.remLen, available))
    else
      var n := Delivered(offer, 1, available);
      if n == -1 then (r.(state := 0), Error)
      else if n == 0 then (r.(state := 0), Again)
      else (r.(state := 1, len := 0, pos := r.pos + 1, stored := [w.stream[r.pos]]), More)
  }

  ghost function PollLength(w: Wire, r: Reader, n: int): (Reader, Outcome)
    requires n > 0 ==> r.pos < |w.stream|
  {
    var begun := if r.len == 0 then r.(multiplier := 1, remLen := 0) else r;
    var tried := begun.(len := r.len + 1);
    if n == -1 then (tried.(state := 0), Error)
    else if n <= 0 then (tried, Again)
    else
      var c: nat := w.stream[r.pos];
      var next := tried.(remLen := AddDigit(tried.remLen, c, tried.multiplier),
                         multiplier := 128 * tried.multiplier, pos := r.pos + 1);
      if c >= 128 then (next, More) else FinishLength(w, next)
  }

  ghost function PollBody(w: Wire, r: Reader, n: int): (Reader, Outcome)
    requires n <= r.remLen && r.pos + n <= |w.stream|
  {
    if n == -1 then (r.(state := 0), Error)
    else if n <= 0 then (r, Again)
    else
      var stored := r.stored + w.stream[r.pos..r.pos + n];
      var next := r.(remLen := r.remLen - n, len := r.len + n, pos := r.pos + n, stored := stored);
      if next.remLen > 0 then (next, Again)
      else (next.(state := 0), Done(if stored == [] then 0 else Kind(stored[0])))
  }

  /** How many more polls can go on within one call. */
  ghost function PollsLeft(r: Reader): nat {
    if r.state == 2 then 1 else if r.state == 1 then (if r.len < 4 then 6 - r.len else 0) else 7
  }

  /** One call of MQTTPacket_readnb that starts with poll number k. Also returns the next poll's number. */
  ghost function Call(w: Wire, r: Reader, k: nat): (Reader, Outcome, nat)
    requires r.pos <= |w.stream|
    decreases PollsLeft(r)
  {
    if LengthTooLong(r) then (r.(state := 0, len := r.len + 1), Error, k)
    else
      var (next, out) := Poll(w, r, w.offers(k));
      if out.More? then Call(w, next, k + 1) else (next, out, k + 1)
  }

  /** `n` polls over as many calls as it takes: stops early with an error or a packet. */
  ghost function Polls(w: Wire, r: Reader, k: nat, n: nat): (Reader, Outcome)
    requires r.pos <= |w.stream|
    decreases n
  {
    if LengthTooLong(r) then (r.(state := 0, len := r.len + 1), Error)
    else if n == 0 then (r, Again)
    else
      var (next, out) := Poll(w, r, w.offers(k));
      if out.More? || out.Again? then Polls(w, next, k + 1, n - 1) else (next, out)
  }

  /** Calls made one after the other until a packet is finished or an error met, at most `n` of them. */
  ghost function CallsUntilDone(w: Wire, r: Reader, k: nat, n: nat): (Reader, Outcome)
    requires r.pos <= |w.stream|
    decreases n
  {
    if n == 0 then (r, Again)
    else
      var (next, out, k') := Call(w, r, k);
      PositionKept(w, r, k);
      if out.Again? then CallsUntilDone(w, next, k', n - 1) else (next, out)
  }

  /** What the caller does: calls made one after the other while they return 0, at most `n` of them. A finished packet
      of type 0 returns 0 too, so the caller goes on and reads the next one. */
  ghost function Calls(w: Wire, r: Reader, k: nat, n: nat): (Reader, Outcome)
    requires r.pos <= |w.stream|
    decreases n
  {
    if n == 0 then (r, Again)
    else
      var (next, out, k') := Call(w, r, k);
      PositionKept(w, r, k);
      if ReturnCode(out) == 0 then Calls(w, next, k', n - 1) else (next, out)
  }

  lemma {:induction false} PositionKept(w: Wire, r: Reader, k: nat)
    requires r.pos <= |w.stream|
    ensures Call(w, r, k).0.pos <= |w.stream|
    ensures k <= Call(w, r, k).2
    ensures !Call(w, r, k).1.Error? ==> k < Call(w, r, k).2
    ensures !Call(w, r, k).1.More?
    decreases PollsLeft(r)
  {
    if !LengthTooLong(r) && Poll(w, r, w.offers(k)).1.More? {
      PositionKept(w, Poll(w, r, w.offers(k)).0, k + 1);
    }
  }

  /** The reader is somewhere inside the packet that starts at `start`. */
  ghost predicate Inside(w: Wire, r: Reader, start: nat) {
    && start <= r.pos <= |w.stream|
    && (if r.state == 1 then InLength(w, r, start)
        else if r.state == 2 then InBody(w, r, start)
        else r.pos == start)
  }

  /** The length bytes taken so far, all with their continuation bit set. */
  ghost predicate InLength(w: Wire, r: Reader, start: nat)
    requires start <= r.pos <= |w.stream|
  {
    && start < r.pos && r.stored == [w.stream[start]]
    && var done := w.stream[start + 1..r.pos];
       && |done| <= r.len <= 4 && (forall i | 0 <= i < |done| :: done[i] >= 128)
       && (r.len > 0 ==> r.remLen == Accumulated(done) && r.multiplier == Pow128(|done|))
  }

  /** The header, the shortest length field and part of the body are stored, and all of it fits. */
  ghost predicate InBody(w: Wire, r: Reader, start: nat)
    requires start <= r.pos <= |w.stream|
  {
    && start < |w.stream| && ScanLength(w.stream[start + 1..], 4).ended
    && var bodyAt, len := start + 1 + LengthBytes(w.stream, start), BodyLength(w.stream, start);
       && bodyAt <= r.pos && r.remLen == len - (r.pos - bodyAt)
       && r.stored == [w.stream[start]] + LengthField(len) + w.stream[bodyAt..r.pos]
       && r.len == |r.stored| && r.len + r.remLen <= w.buflen
  }

  /** A finished packet is the one the blocking reader returns, and the reader is ready for the next. */
  ghost predicate Finished(w: Wire, r: Reader, start: nat, kind: nat) {
    && start <= |w.stream| && r.state == 0
    && BlockingRead(w.stream, start, w.buflen) == Packet(kind, r.stored, r.pos)
    && PacketAt(w.stream, start) && kind == Kind(w.stream[start])
  }

  /** What one poll keeps. */
  lemma PollKeeps(w: Wire, r: Reader, start: nat, offer: int)
    requires Inside(w, r, start) && !LengthTooLong(r)
    ensures var (next, out) := Poll(w, r, offer);
            match out
            case More => Inside(w, next, start) && next.state in {1, 2}
            case Again => Inside(w, next, start)
            case Error => next.state == 0
            case Done(kind) => Finished(w, next, start, kind)
  {
    hide PollLength, PollBody, InBody, Finished;
    if r.state == 1 {
      LengthPollKeeps(w, r, start, Delivered(offer, 1, |w.stream| - r.pos));
    } else if r.state == 2 {
      BodyPollKeeps(w, r, start, Delivered(offer, r.remLen, |w.stream| - r.pos));
    } else if Delivered(offer, 1, |w.stream| - r.pos) == 1 {
      assert w.stream[start + 1..start + 1] == [];
    }
  }

  lemma LengthPollKeeps(w: Wire, r: Reader, start: nat, n: int)
    requires Inside(w, r, start) && r.state == 1 && r.len < 4
    requires -1 <= n <= 1 && r.pos + n <= |w.stream|
    ensures var (next, out) := PollLength(w, r, n);
            if n == -1 then
              out.Error? && next.state == 0
            else if n == 0 then
              out.Again? && Inside(w, next, start) && next.state == 1 && next.len == r.len + 1 && next.pos == r.pos
            else if w.stream[r.pos] >= 128 then
              out.More? && Inside(w, next, start) && next.state == 1 && next.len == r.len + 1 && next.pos == r.pos + 1
            else
              && ScanLength(w.stream[start + 1..], 4).ended
              && r.pos + 1 == start + 1 + LengthBytes(w.stream, start)
              && next.remLen == BodyLength(w.stream, start)
              && (if !Fits(w, start) then
                    out.Error? && next.state == 0
                  else
                    out.More? && Inside(w, next, start) && next.state == 2 && next.pos == r.pos + 1)
  {
    hide ScanLength, LengthField, Accumulated, FinishLength, Inside, InLength, Fits;
    BegunKeeps(w, r, start);
    var begun := if r.len == 0 then r.(multiplier := 1, remLen := 0) else r;
    if n == 1 {
      var c: nat := w.stream[r.pos];
      var next := begun.(len := r.len + 1, remLen := AddDigit(begun.remLen, c, begun.multiplier),
                         multiplier := 128 * begun.multiplier, pos := r.pos + 1);
      LengthByteTaken(w, begun, start, next);
      if c < 128 {
        LengthFinishes(w, next, start);
      }
    }
  }

  /** The first length poll starts with value 0 and multiplier 1, and an idle poll only counts the attempt. */
  lemma BegunKeeps(w: Wire, r: Reader, start: nat)
    requires Inside(w, r, start) && r.state == 1 && r.len < 4
    ensures var begun := if r.len == 0 then r.(multiplier := 1, remLen := 0) else r;
            && start <= r.pos <= |w.stream| && InLength(w, begun, start)
            && begun.multiplier == Pow128(|w.stream[start + 1..r.pos]|)
            && begun.remLen == Accumulated(w.stream[start + 1..r.pos])
            && Inside(w, begun.(len := r.len + 1), start)
  {
    AccumulatedNothing();
    if r.len == 0 {
      assert w.stream[start + 1..r.pos] == [];
    }
  }

  lemma LengthByteTaken(w: Wire, r: Reader, start: nat, next: Reader)
    requires start <= r.pos < |w.stream| && InLength(w, r, start) && r.len < 4 && r.state == 1
    requires r.multiplier == Pow128(|w.stream[start + 1..r.pos]|)
    requires r.remLen == Accumulated(w.stream[start + 1..r.pos])
    requires next == r.(len := r.len + 1, remLen := AddDigit(r.remLen, w.stream[r.pos], r.multiplier),
                        multiplier := 128 * r.multiplier, pos := r.pos + 1)
    ensures next.stored == [w.stream[start]] && start < r.pos
    ensures w.stream[r.pos] >= 128 ==> Inside(w, next, start)
    ensures w.stream[r.pos] < 128 ==>
      && ScanLength(w.stream[start + 1..], 4).ended
      && next.pos == start + 1 + LengthBytes(w.stream, start) && next.remLen == BodyLength(w.stream, start)
  {
    hide ScanLength, Accumulated;
    var done, c := w.stream[start + 1..r.pos], w.stream[r.pos];
    AccumulatedStep(done, c);
    assert w.stream[start + 1..r.pos + 1] == done + [c];
    if c < 128 {
      LengthEnds(w, r.pos, start, next.remLen);
    }
  }

  lemma AccumulatedNothing()
    ensures Accumulated([]) == 0
  {
  }

  /** The byte at `last` ends the length field. */
  lemma LengthEnds(w: Wire, last: nat, start: nat, value: nat)
    requires start < last < |w.stream| && last - start <= 4 && w.stream[last] < 128
    requires forall i | start + 1 <= i < last :: w.stream[i] >= 128
    requires value == Accumulated(w.stream[start + 1..last + 1])
    ensures ScanLength(w.stream[start + 1..], 4).ended
    ensures last == start + LengthBytes(w.stream, start) && value == BodyLength(w.stream, start)
  {
    hide ScanLength, Accumulated;
    var done := w.stream[start + 1..last];
    assert w.stream[start + 1..last + 1] == done + [w.stream[last]];
    assert w.stream[start + 1..] == done + [w.stream[last]] + w.stream[last + 1..];
    ScanEnds(done, w.stream[last], w.stream[last + 1..]);
  }

  /** Writing the length back moves to the body phase, if the packet fits. */
  lemma LengthFinishes(w: Wire, r: Reader, start: nat)
    requires start < r.pos <= |w.stream| && r.stored == [w.stream[start]]
    requires ScanLength(w.stream[start + 1..], 4).ended
    requires r.pos == start + 1 + LengthBytes(w.stream, start) && r.remLen == BodyLength(w.stream, start)
    ensures var (next, out) := FinishLength(w, r);
            && next.remLen == r.remLen && next.pos == r.pos
            && (if Fits(w, start) then out.More? && Inside(w, next, start) && next.state == 2
                else out.Error? && next.state == 0)
  {
    hide ScanLength, LengthField;
    assert w.stream[r.pos..r.pos] == [];
  }

  lemma BodyPollKeeps(w: Wire, r: Reader, start: nat, n: int)
    requires Inside(w, r, start) && r.state == 2
    requires -1 <= n <= r.remLen && r.pos + n <= |w.stream|
    ensures var (next, out) := PollBody(w, r, n);
            if n == -1 then out.Error? && next.state == 0
            else if n == 0 then out.Again? && next == r
            else if n < r.remLen then
              out.Again? && Inside(w, next, start) && next.state == 2 && next.remLen == r.remLen - n
            else out.Done? && Finished(w, next, start, out.kind)
  {
    hide ScanLength, LengthField, Finished, LengthBytes, BodyLength;
    if n > 0 {
      var bodyAt, len := start + 1 + LengthBytes(w.stream, start), BodyLength(w.stream, start);
      var stored := r.stored + w.stream[r.pos..r.pos + n];
      assert w.stream[bodyAt..r.pos] + w.stream[r.pos..r.pos + n] == w.stream[bodyAt..r.pos + n];
      assert stored == [w.stream[start]] + LengthField(len) + w.stream[bodyAt..r.pos + n];
      if n == r.remLen {
        BodyFinishes(w, r.(remLen := 0, len := r.len + n, pos := r.pos + n, stored := stored, state := 0), start);
      }
    }
  }

  /** The last body byte makes the stored packet the one the blocking reader returns. */
  lemma BodyFinishes(w: Wire, r: Reader, start: nat)
    requires r.state == 0 && start < r.pos <= |w.stream| && ScanLength(w.stream[start + 1..], 4).ended
    requires var bodyAt, len := start + 1 + LengthBytes(w.stream, start), BodyLength(w.stream, start);
             && bodyAt + len == r.pos && r.stored == [w.stream[start]] + LengthField(len) + w.stream[bodyAt..r.pos]
             && |r.stored| <= w.buflen
    ensures r.stored != [] && Finished(w, r, start, Kind(r.stored[0]))
  {
    hide ScanLength, LengthField, Kind;
  }

  /** A call made inside a packet stays inside it, or ends it the way the blocking reader does. */
  lemma {:induction false} CallKeeps(w: Wire, r: Reader, start: nat, k: nat)
    requires Inside(w, r, start)
    ensures var (next, out, _) := Call(w, r, k);
            match out
            case More => false
            case Again => Inside(w, next, start)
            case Error => next.state == 0
            case Done(kind) => Finished(w, next, start, kind)
    decreases PollsLeft(r)
  {
    if !LengthTooLong(r) {
      PollKeeps(w, r, start, w.offers(k));
      var (next, out) := Poll(w, r, w.offers(k));
      if out.More? {
        CallKeeps(w, next, start, k + 1);
      }
    }
  }

  /** The packet that calls finish is the one in front of them. */
  lemma {:induction false} DoneIsFinished(w: Wire, r: Reader, start: nat, k: nat, n: nat)
    requires Inside(w, r, start)
    ensures var (next, out) := CallsUntilDone(w, r, k, n);
            match out
            case More => false
            case Again => Inside(w, next, start)
            case Error => next.state == 0
            case Done(kind) => Finished(w, next, start, kind)
    decreases n
  {
    if n > 0 {
      CallKeeps(w, r, start, k);
      var (next, out, k') := Call(w, r, k);
      if out.Again? {
        DoneIsFinished(w, next, start, k', n - 1);
      }
    }
  }

  /** Blocking reads made one after the other from `start`, while they yield type 0, come to `at`. */
  ghost predicate PassesTo(stream: seq<byte>, buflen: nat, start: nat, at: nat)
    decreases at - start
  {
    || start == at
    || (start <= |stream|
        && BlockingRead(stream, start, buflen).Packet? && BlockingRead(stream, start, buflen).kind == 0
        && start < BlockingRead(stream, start, buflen).end <= at
        && PassesTo(stream, buflen, BlockingRead(stream, start, buflen).end, at))
  }

  /** Non-blocking read refines blocking read: whatever the schedule and however many calls it takes, calls made while
      they return 0 report the packet that blocking reads made while they return 0 report, with the same type, stored
      bytes and end position, and the reader is ready for the next packet. If the packet in front is not of type 0,
      that is the one. */
  lemma {:induction false} CallsRefineBlocking(w: Wire, r: Reader, start: nat, k: nat, n: nat) returns (at: nat)
    requires Inside(w, r, start)
    ensures PassesTo(w.stream, w.buflen, start, at)
    ensures var (next, out) := Calls(w, r, k, n);
            match out
            case More => false
            case Again => Inside(w, next, at)
            case Error => next.state == 0
            case Done(kind) => kind != 0 && Finished(w, next, at, kind)
    ensures start < |w.stream| && Kind(w.stream[start]) != 0 ==> at == start
    decreases n
  {
    hide PacketAt, BlockingRead, InLength, InBody;
    at := start;
    if n > 0 {
      CallKeeps(w, r, start, k);
      var (next, out, k') := Call(w, r, k);
      if out.Again? {
        at := CallsRefineBlocking(w, next, start, k', n - 1);
      } else if out == Done(0) {
        PacketAdvances(w.stream, start, w.buflen);
        at := CallsRefineBlocking(w, next, next.pos, k', n - 1);
        PassesForward(w.stream, w.buflen, next.pos, at);
      }
    }
  }

  lemma PacketAdvances(stream: seq<byte>, start: nat, buflen: nat)
    requires start <= |stream| && BlockingRead(stream, start, buflen).Packet?
    ensures start < BlockingRead(stream, start, buflen).end <= |stream|
  {
  }

  lemma {:induction false} PassesForward(stream: seq<byte>, buflen: nat, start: nat, at: nat)
    requires PassesTo(stream, buflen, start, at)
    ensures start <= at
  {
  }

  /** Polls that end in a packet end in the same packet when they are grouped into calls. */
  lemma {:induction false} PollsAsCalls(w: Wire, r: Reader, start: nat, k: nat, n: nat)
    requires Inside(w, r, start) && Polls(w, r, k, n).1.Done?
    ensures CallsUntilDone(w, r, k, n) == Polls(w, r, k, n)
    decreases n
  {
    hide Inside, Finished, Polls, Call;
    InsidePosition(w, r, start);
    CallKeeps(w, r, start, k);
    PollsInCall(w, r, start, k, n);
    var (next, out, k') := Call(w, r, k);
    if out.Again? {
      PollsAsCalls(w, next, start, k', n - (k' - k));
      MoreCallsKeepDone(w, next, k', n - (k' - k), n - 1);
    }
  }

  lemma {:induction false} PollsInCall(w: Wire, r: Reader, start: nat, k: nat, n: nat)
    requires Inside(w, r, start) && Polls(w, r, k, n).1.Done?
    ensures var (next, out, k') := Call(w, r, k);
            && next.pos <= |w.stream| && k < k' <= k + n && !out.Error? && !out.More?
            && (out.Again? ==> Polls(w, next, k', n - (k' - k)) == Polls(w, r, k, n))
            && (out.Done? ==> (next, out) == Polls(w, r, k, n))
    decreases n
  {
    hide Finished, Poll;
    PositionKept(w, r, k);
    PollKeeps(w, r, start, w.offers(k));
    var (next, out) := Poll(w, r, w.offers(k));
    if out.More? {
      PollsInCall(w, next, start, k + 1, n - 1);
    }
  }

  lemma {:induction false} MoreCallsKeepDone(w: Wire, r: Reader, k: nat, n: nat, m: nat)
    requires r.pos <= |w.stream| && n <= m && CallsUntilDone(w, r, k, n).1.Done?
    ensures CallsUntilDone(w, r, k, m) == CallsUntilDone(w, r, k, n)
    decreases n
  {
    hide Call;
    PositionKept(w, r, k);
    var (next, out, k') := Call(w, r, k);
    if out.Again? {
      MoreCallsKeepDone(w, next, k', n - 1, m - 1);
    }
  }

  /** A packet that ends one call ends the polls of that call. */
  lemma {:induction false} CallAsPolls(w: Wire, r: Reader, k: nat, n: nat) returns (m: nat)
    requires r.pos <= |w.stream|
    requires var (next, out, k') := Call(w, r, k);
             next.pos <= |w.stream| && (out.Done? || (out.Again? && Polls(w, next, k', n).1.Done?))
    ensures Polls(w, r, k, m).1.Done?
    decreases PollsLeft(r)
  {
    var (next, out) := Poll(w, r, w.offers(k));
    if out.More? {
      m := CallAsPolls(w, next, k + 1, n);
      m := m + 1;
    } else if out.Again? {
      m := n + 1;
    } else {
      m := 1;
    }
  }

  lemma {:induction false} CallsAsPolls(w: Wire, r: Reader, k: nat, n: nat) returns (m: nat)
    requires r.pos <= |w.stream| && CallsUntilDone(w, r, k, n).1.Done?
    ensures Polls(w, r, k, m).1.Done?
    decreases n
  {
    hide Call, Polls;
    PositionKept(w, r, k);
    var (next, out, k') := Call(w, r, k);
    m := 0;
    if out.Again? {
      m := CallsAsPolls(w, next, k', n - 1);
    }
    m := CallAsPolls(w, r, k, m);
  }

  /** Bytes offered by `n` polls from poll number k on. */
  ghost function Offered(w: Wire, k: nat, n: nat): int
    decreases n
  {
    if n == 0 then 0 else w.offers(k) + Offered(w, k + 1, n - 1)
  }

  /** Polls among them that offer anything at all. */
  ghost function Productive(w: Wire, k: nat, n: nat): nat
    decreases n
  {
    if n == 0 then 0 else (if w.offers(k) > 0 then 1 else 0) + Productive(w, k + 1, n - 1)
  }

  /** The transport reports no error and never dries up. */
  ghost predicate Reliable(w: Wire) {
    && (forall k: nat :: w.offers(k) >= 0)
    && (forall k: nat, want: nat :: Supplies(w, k, want))
  }

  ghost predicate Supplies(w: Wire, k: nat, want: nat) {
    exists n: nat :: Offered(w, k, n) >= want
  }

  /** The packet with its rewritten length fits the caller's buffer. */
  ghost predicate Fits(w: Wire, start: nat)
    requires start < |w.stream|
  {
    1 + |LengthField(BodyLength(w.stream, start))| + BodyLength(w.stream, start) <= w.buflen
  }

  /** In the body phase, enough offered bytes finish the packet. */
  lemma {:induction false} BodyPhase(w: Wire, r: Reader, start: nat, k: nat, n: nat)
    requires Inside(w, r, start) && r.state == 2 && PacketAt(w.stream, start)
    requires (forall i: nat :: w.offers(i) >= 0) && 1 <= r.remLen <= Offered(w, k, n)
    ensures Polls(w, r, k, n).1.Done?
    decreases n
  {
    hide PollBody, Finished, ScanLength, LengthField, Frame;
    var d := Delivered(w.offers(k), r.remLen, |w.stream| - r.pos);
    BodyPollKeeps(w, r, start, d);
    if d < r.remLen {
      BodyPhase(w, Poll(w, r, w.offers(k)).0, start, k + 1, n - 1);
    }
  }

  /** An empty body is polled for and never delivered: the call-again result repeats for ever. */
  lemma {:induction false} EmptyBodyNeverDone(w: Wire, r: Reader, k: nat, n: nat)
    requires r.pos <= |w.stream| && r.state == 2 && r.remLen == 0
    ensures !Polls(w, r, k, n).1.Done?
    ensures (forall i: nat :: w.offers(i) >= 0) ==> Polls(w, r, k, n) == (r, Again)
    decreases n
  {
    if n > 0 && w.offers(k) >= 0 {
      EmptyBodyNeverDone(w, r, k + 1, n - 1);
    }
  }

  /** Length bytes still to come. */
  ghost function LengthLeft(w: Wire, r: Reader, start: nat): int
    requires start < |w.stream|
  {
    start + 1 + LengthBytes(w.stream, start) - r.pos
  }

  /** While length bytes are to come, the next one exists, and it is the last exactly when one is left. */
  lemma NextLengthByte(w: Wire, r: Reader, start: nat)
    requires Inside(w, r, start) && r.state == 1 && PacketAt(w.stream, start)
    ensures LengthLeft(w, r, start) >= 1 && r.pos < |w.stream|
    ensures w.stream[r.pos] < 128 <==> LengthLeft(w, r, start) == 1
  {
    var done := w.stream[start + 1..r.pos];
    assert w.stream[start + 1..] == done + w.stream[r.pos..];
    ScanContinues(done, w.stream[r.pos..], 4);
  }

  /** Everything the length phase needs to get through: polls left, room in the buffer, and a body. */
  ghost predicate GetsThrough(w: Wire, r: Reader, start: nat, k: nat)
    requires start < |w.stream| && r.len <= 4
  {
    && Productive(w, k, 4 - r.len) >= LengthLeft(w, r, start)
    && Fits(w, start) && BodyLength(w.stream, start) >= 1
  }

  /** What one poll of the length phase does to its chances. */
  lemma LengthPoll(w: Wire, r: Reader, start: nat, k: nat)
    requires Inside(w, r, start) && r.state == 1 && r.len < 4 && PacketAt(w.stream, start) && w.offers(k) >= 0
    ensures var (next, out) := Poll(w, r, w.offers(k));
            && r.pos < |w.stream|
            && (if w.offers(k) == 0 || w.stream[r.pos] >= 128 then
                  && (out.Again? || out.More?) && Inside(w, next, start)
                  && next.state == 1 && next.len == r.len + 1 <= 4
                  && (GetsThrough(w, next, start, k + 1) <==> GetsThrough(w, r, start, k))
                else if !Fits(w, start) then
                  out.Error? && !GetsThrough(w, r, start, k)
                else
                  && out.More? && Inside(w, next, start)
                  && next.state == 2 && next.remLen == BodyLength(w.stream, start)
                  && (GetsThrough(w, r, start, k) <==> next.remLen >= 1))
  {
    hide PollLength, ScanLength, LengthField, Frame, PacketAt, Accumulated, LengthBytes;
    NextLengthByte(w, r, start);
    LengthPollKeeps(w, r, start, Delivered(w.offers(k), 1, |w.stream| - r.pos));
  }

  /** From the length phase: a packet that gets through is finished after some number of polls. */
  lemma {:induction false} LengthPhaseSucceeds(w: Wire, r: Reader, start: nat, k: nat) returns (n: nat)
    requires Inside(w, r, start) && r.state == 1 && PacketAt(w.stream, start) && Reliable(w)
    requires r.len <= 4 && GetsThrough(w, r, start, k)
    ensures Polls(w, r, k, n).1.Done?
    decreases 4 - r.len
  {
    hide Poll, Inside, PacketAt, LengthBytes, BodyLength, Fits, Offered;
    NextLengthByte(w, r, start);
    LengthPoll(w, r, start, k);
    var (next, out) := Poll(w, r, w.offers(k));
    if w.offers(k) == 0 || w.stream[r.pos] >= 128 {
      n := LengthPhaseSucceeds(w, next, start, k + 1);
    } else {
      assert Supplies(w, k + 1, next.remLen);
      n :| Offered(w, k + 1, n) >= next.remLen;
      BodyPhase(w, next, start, k + 1, n);
    }
    n := n + 1;
  }

  /** From the length phase: a packet that does not get through is never finished. */
  lemma {:induction false} LengthPhaseFails(w: Wire, r: Reader, start: nat, k: nat, n: nat)
    requires Inside(w, r, start) && r.state == 1 && PacketAt(w.stream, start) && Reliable(w)
    requires r.len <= 4 && !GetsThrough(w, r, start, k)
    ensures !Polls(w, r, k, n).1.Done?
    decreases n
  {
    hide Poll, Inside, PacketAt, LengthBytes, BodyLength, Fits, GetsThrough, Reliable;
    if n > 0 && r.len < 4 {
      ReliableOffer(w, k);
      LengthPoll(w, r, start, k);
      var (next, out) := Poll(w, r, w.offers(k));
      if out.Again? || (out.More? && next.state == 1) {
        LengthPhaseFails(w, next, start, k + 1, n - 1);
      } else if out.More? {
        InsidePosition(w, next, start);
        EmptyBodyNeverDone(w, next, k + 1, n - 1);
      }
    }
  }

  lemma ReliableOffer(w: Wire, k: nat)
    requires Reliable(w)
    ensures w.offers(k) >= 0
  {
  }

  lemma InsidePosition(w: Wire, r: Reader, start: nat)
    requires Inside(w, r, start)
    ensures r.pos <= |w.stream|
  {
  }

  /** Waiting for the header byte: idle polls change nothing, the first productive one starts the length phase. */
  lemma {:induction false} HeaderPhase(w: Wire, r: Reader, k: nat, a: nat, n: nat)
    requires r.state == 0 && r.pos < |w.stream|
    requires (forall i | k <= i < k + a :: w.offers(i) == 0) && w.offers(k + a) > 0
    ensures var next := r.(state := 1, len := 0, pos := r.pos + 1, stored := [w.stream[r.pos]]);
            && Inside(w, next, r.pos)
            && Polls(w, r, k, a + 1 + n) == Polls(w, next, k + a + 1, n)
            && (n <= a ==> !Polls(w, r, k, n).1.Done?)
    decreases a
  {
    hide Poll, Polls, Inside, Delivered;
    HeaderPolls(w, r, k, a + 1 + n);
    HeaderPolls(w, r, k, n);
    if a > 0 {
      HeaderPhase(w, r, k + 1, a - 1, n);
      if 0 < n {
        HeaderPhase(w, r, k + 1, a - 1, n - 1);
      }
    }
  }

  /** One poll for the header byte. */
  lemma HeaderPolls(w: Wire, r: Reader, k: nat, n: nat)
    requires r.state == 0 && r.pos < |w.stream| && w.offers(k) >= 0
    ensures var next := r.(state := 1, len := 0, pos := r.pos + 1, stored := [w.stream[r.pos]]);
            && Inside(w, next, r.pos)
            && (n == 0 ==> Polls(w, r, k, n) == (r, Again))
            && (n > 0 ==> Polls(w, r, k, n) == Polls(w, if w.offers(k) == 0 then r else next, k + 1, n - 1))
  {
    assert w.stream[r.pos + 1..r.pos + 1] == [];
  }

  /** What the length and body phases need to finish the packet at `start`, whose first length poll has number k. */
  ghost predicate Arrives(w: Wire, start: nat, k: nat)
    requires start < |w.stream|
  {
    && BodyLength(w.stream, start) >= 1 && Fits(w, start)
    && Productive(w, k, 4) >= LengthBytes(w.stream, start)
  }

  lemma FinishesExactlyWhen(w: Wire, r: Reader, k: nat, a: nat)
    requires r.state == 0 && r.pos < |w.stream| && PacketAt(w.stream, r.pos) && Reliable(w)
    requires (forall i | k <= i < k + a :: w.offers(i) == 0) && w.offers(k + a) > 0
    ensures (exists n: nat :: CallsUntilDone(w, r, k, n).1.Done?) <==>
            Arrives(w, r.pos, k + a + 1)
  {
    hide Polls, CallsUntilDone, PacketAt, LengthBytes, BodyLength, Fits, Reliable, Productive;
    var start := r.pos;
    var next := r.(state := 1, len := 0, pos := r.pos + 1, stored := [w.stream[r.pos]]);
    HeaderPhase(w, r, k, a, 0);
    if GetsThrough(w, next, start, k + a + 1) {
      var n := LengthPhaseSucceeds(w, next, start, k + a + 1);
      HeaderPhase(w, r, k, a, n);
      PollsAsCalls(w, r, start, k, a + 1 + n);
    } else {
      forall n: nat ensures !CallsUntilDone(w, r, k, n).1.Done? {
        if CallsUntilDone(w, r, k, n).1.Done? {
          var m := CallsAsPolls(w, r, k, n);
          if m <= a {
            HeaderPhase(w, r, k, a, m);
          } else {
            HeaderPhase(w, r, k, a, m - a - 1);
            LengthPhaseFails(w, next, start, k + a + 1, m - a - 1);
          }
        }
      }
    }
  }

  /** A call has reported the packet at `start`: its type is returned, and it is the one a blocking read stores. */
  ghost predicate Reported(w: Wire, result: (Reader, Outcome), start: nat) {
    && result.1.Done? && ReturnCode(result.1) > 0 && Finished(w, result.0, start, ReturnCode(result.1))
  }

  /** While the packet in front is not of type 0, the caller stops where the packet is finished. */
  lemma {:induction false} CallsStopWhenDone(w: Wire, r: Reader, start: nat, k: nat, n: nat)
    requires Inside(w, r, start) && start < |w.stream| && Kind(w.stream[start]) != 0
    ensures Calls(w, r, k, n) == CallsUntilDone(w, r, k, n)
    decreases n
  {
    hide Inside, PacketAt, BlockingRead;
    InsidePosition(w, r, start);
    if n > 0 {
      CallKeeps(w, r, start, k);
      var (next, out, k') := Call(w, r, k);
      PositionKept(w, r, k);
      if out.Again? {
        CallsStopWhenDone(w, next, start, k', n - 1);
      }
    }
  }

  /** Over a reliable transport, calls made from a fresh reader while they return 0 report the packet in front of it
      exactly when its type is not 0, its body is not empty, it fits the buffer, and the first four polls after the
      header byte, idle ones included, bring its whole length field. */
  lemma CompletesExactlyWhen(w: Wire, r: Reader, k: nat, a: nat)
    requires r.state == 0 && r.pos < |w.stream| && PacketAt(w.stream, r.pos) && Reliable(w)
    requires (forall i | k <= i < k + a :: w.offers(i) == 0) && w.offers(k + a) > 0
    ensures (exists n: nat :: Reported(w, Calls(w, r, k, n), r.pos)) <==>
            Kind(w.stream[r.pos]) != 0 && Arrives(w, r.pos, k + a + 1)
  {
    hide Polls, Calls, CallsUntilDone, PacketAt, Arrives, Reliable, BlockingRead;
    FinishesExactlyWhen(w, r, k, a);
    if Kind(w.stream[r.pos]) != 0 {
      forall n: nat ensures Reported(w, Calls(w, r, k, n), r.pos) == CallsUntilDone(w, r, k, n).1.Done? {
        CallsStopWhenDone(w, r, r.pos, k, n);
        DoneIsFinished(w, r, r.pos, k, n);
      }
      if Arrives(w, r.pos, k + a + 1) {
        var n: nat :| CallsUntilDone(w, r, k, n).1.Done?;
        assert Reported(w, Calls(w, r, k, n), r.pos);
      } else {
        forall n: nat ensures !Reported(w, Calls(w, r, k, n), r.pos) {
          assert !CallsUntilDone(w, r, k, n).1.Done?;
        }
      }
    }
  }

  /** A finished packet of type 0 is dropped: it is never reported, and the calls go on with what follows it. */
  lemma {:induction false} TypeZeroIsDropped(w: Wire, r: Reader, start: nat, k: nat, n: nat)
      returns (next: Reader, k': nat, j: nat)
    requires Inside(w, r, start) && start < |w.stream| && Kind(w.stream[start]) == 0
    requires CallsUntilDone(w, r, k, n).1.Done?
    ensures next.state == 0 && Finished(w, next, start, 0) && next.pos <= |w.stream| && 1 <= j <= n
    ensures forall m: nat | m < j :: Calls(w, r, k, m).1 == Again
    ensures forall m: nat | j <= m :: Calls(w, r, k, m) == Calls(w, next, k', m - j)
    decreases n
  {
    hide Inside, PacketAt, BlockingRead;
    InsidePosition(w, r, start);
    CallKeeps(w, r, start, k);
    PositionKept(w, r, k);
    var (after, out, q) := Call(w, r, k);
    next, k', j := after, q, 1;
    if out.Again? {
      next, k', j := TypeZeroIsDropped(w, after, start, q, n - 1);
      j := j + 1;
      forall m: nat | 0 < m < j ensures Calls(w, r, k, m).1 == Again {
        assert Calls(w, r, k, m) == Calls(w, after, q, m - 1);
      }
    }
  }

  const TYPE_ZERO := Wire([0, 1, 170], 5, _ => 3)
  const FRESH := Reader(0, 0, 0, 0, 0, [])
  const DROPPED := Reader(0, 3, 0, 128, 3, [0, 1, 170])

  /** The bytes 00 01 AA with every poll offering three: all that a report asks for but the type is there, and every
      call returns 0. */
  lemma TypeZeroExample(n: nat)
    ensures PacketAt(TYPE_ZERO.stream, 0) && Arrives(TYPE_ZERO, 0, 1)
    ensures BlockingRead(TYPE_ZERO.stream, 0, TYPE_ZERO.buflen) == Packet(0, [0, 1, 170], 3)
    ensures ReturnCode(Calls(TYPE_ZERO, FRESH, 0, n).1) == 0
  {
    hide Call;
    var s := TYPE_ZERO.stream;
    assert s[1..] == [1, 170] && ScanLength(s[1..], 4) == Scan(1, 1, 1, true);
    assert LengthField(1) == [1] && s[2..3] == [170] && Frame(0, [170]) == [0, 1, 170];
    assert Productive(TYPE_ZERO, 1, 4) == 1 + Productive(TYPE_ZERO, 2, 3);
    if n > 0 {
      TypeZeroCall();
      NothingLeft(TYPE_ZERO, DROPPED, 3, n - 1);
    }
  }

  lemma TypeZeroCall()
    ensures Call(TYPE_ZERO, FRESH, 0) == (DROPPED, Done(0), 3)
  {
    hide Call;
    var headed, counted := Reader(1, 0, 0, 0, 1, [0]), Reader(2, 2, 1, 128, 2, [0, 1]);
    assert Poll(TYPE_ZERO, FRESH, 3) == (headed, More);
    assert [0] + LengthField(1) == [0, 1] && AddDigit(0, 1, 1) == 1;
    assert FinishLength(TYPE_ZERO, headed.(len := 1, remLen := 1, multiplier := 128, pos := 2)) == (counted, More);
    assert Poll(TYPE_ZERO, headed, 3) == (counted, More);
    assert [0, 1] + TYPE_ZERO.stream[2..3] == [0, 1, 170];
    assert Poll(TYPE_ZERO, counted, 3) == (DROPPED, Done(0));
    CallUnfolds(TYPE_ZERO, FRESH, 0);
    CallUnfolds(TYPE_ZERO, headed, 1);
    CallUnfolds(TYPE_ZERO, counted, 2);
  }

  /** At the end of the stream every call returns 0. */
  lemma {:induction false} NothingLeft(w: Wire, r: Reader, k: nat, n: nat)
    requires r.state == 0 && r.pos == |w.stream| && forall i: nat :: w.offers(i) >= 0
    ensures Calls(w, r, k, n) == (r, Again)
    decreases n
  {
    if n > 0 {
      assert Poll(w, r, w.offers(k)) == (r, Again);
      NothingLeft(w, r, k + 1, n - 1);
    }
  }

  /** MQTTTransport. The stream and the offers of getfn stand for the socket behind it. */
  class Transport {
    const stream: seq<byte>
    const offers: nat -> int
    var pos: nat
    var polls: nat
    var state: nat
    var len: nat
    var remLen: nat
    var multiplier: nat

    constructor (stream: seq<byte>, offers: nat -> int)
      ensures this.stream == stream && this.offers == offers && pos == 0 && polls == 0 && state == 0
    {
      this.stream, this.offers := stream, offers;
      pos, polls, state, len, remLen, multiplier := 0, 0, 0, 0, 0, 0;
    }

    /** The reader's value; `stored` is the filled part of the caller's buffer. */
    ghost function Value(stored: seq<byte>): Reader
      reads this
    {
      Reader(state, len, remLen, multiplier, pos, stored)
    }

    ghost function WireFor(buflen: nat): Wire {
      Wire(stream, buflen, offers)
    }

    /** getfn: one poll for at most `want` bytes. */
    method Get(want: nat) returns (frc: int, data: seq<byte>)
      requires pos <= |stream|
      modifies this`pos, this`polls
      ensures frc == Delivered(offers(old(polls)), want, |stream| - old(pos))
      ensures data == if frc > 0 then stream[old(pos)..old(pos) + frc] else []
      ensures pos == old(pos) + |data| && polls == old(polls) + 1
    {
      frc := Delivered(offers(polls), want, |stream| - pos);
      polls := polls + 1;
      data := [];
      if frc > 0 {
        data := stream[pos..pos + frc];
        pos := pos + frc;
      }
    }
  }

  /** The caller's buffer holds `stored`, and the transport is inside the packet that starts at `start`. */
  ghost predicate Ready(trp: Transport, buf: array<byte>, buflen: nat, start: nat, stored: seq<byte>)
    reads trp, buf
  {
    && 5 <= buf.Length && buflen <= buf.Length && Holds(buf[..], 0, stored)
    && Inside(trp.WireFor(buflen), trp.Value(stored), start)
  }

  lemma CallUnfolds(w: Wire, r: Reader, k: nat)
    requires r.pos <= |w.stream|
    ensures Call(w, r, k) ==
            if LengthTooLong(r) then (r.(state := 0, len := r.len + 1), Error, k)
            else
              var (next, out) := Poll(w, r, w.offers(k));
              if out.More? then Call(w, next, k + 1) else (next, out, k + 1)
  {
  }

  /** MQTTPacket_readnb. From any point inside a packet it does what `Call` says, to the transport and to the buffer. */
  method ReadNb(buf: array<byte>, buflen: nat, trp: Transport, ghost start: nat, ghost before: seq<byte>)
    returns (rc: int, ghost stored: seq<byte>)
    requires Ready(trp, buf, buflen, start, before)
    modifies buf, trp
    ensures (trp.Value(stored), rc, trp.polls) ==
            var (next, out, k) := Call(trp.WireFor(buflen), old(trp.Value(before)), old(trp.polls));
            (next, ReturnCode(out), k)
    ensures Holds(buf[..], 0, stored)
  {
    hide Call, Inside, Holds;
    stored := before;
    var frc: int;
    if trp.state != 1 && trp.state != 2 {
      frc, stored := ReadHeader(buf, buflen, trp, start, stored);
      if frc <= 0 {
        return frc, stored;
      }
    }
    if trp.state == 1 {
      frc, stored := ReadLength(buf, buflen, trp, start, stored);
      if frc <= 0 {
        return frc, stored;
      }
    }
    rc, stored := ReadBody(buf, buflen, trp, start, stored);
  }

  /** State 0: the header byte. A positive result means that the call goes on. */
  method ReadHeader(buf: array<byte>, buflen: nat, trp: Transport, ghost start: nat, ghost before: seq<byte>)
    returns (rc: int, ghost stored: seq<byte>)
    requires Ready(trp, buf, buflen, start, before) && trp.state != 1 && trp.state != 2
    modifies buf, trp
    ensures Continues(trp, buf, buflen, start, old(trp.Value(before)), old(trp.polls), rc, stored)
    ensures rc > 0 ==> trp.state == 1
  {
    hide Call, InLength, InBody;
    HeaderCall(trp.WireFor(buflen), trp.Value(before), start, trp.polls);
    trp.state := 0;
    stored := before;
    var frc, data := trp.Get(1);
    if frc == -1 {
      return -1, stored;
    }
    if frc == 0 {
      return 0, stored;
    }
    buf[0] := data[0];
    stored := data;
    assert stored == [trp.stream[start]] && buf[..1] == stored;
    trp.len := 0;
    trp.state := 1;
    rc := 1;
  }

  /** A call that waits for the header byte. */
  lemma HeaderCall(w: Wire, r: Reader, start: nat, k: nat)
    requires Inside(w, r, start) && r.state != 1 && r.state != 2
    ensures r.pos == start <= |w.stream|
    ensures var n := Delivered(w.offers(k), 1, |w.stream| - r.pos);
            if n <= 0 then Call(w, r, k) == (r.(state := 0), if n == 0 then Again else Error, k + 1)
                           && Inside(w, r.(state := 0), start)
            else
              && start < |w.stream|
              && var next := r.(state := 1, len := 0, pos := r.pos + 1, stored := [w.stream[start]]);
                 Call(w, r, k) == Call(w, next, k + 1) && Inside(w, next, start)
  {
    hide Call;
    CallUnfolds(w, r, k);
    if start < |w.stream| {
      assert w.stream[start + 1..start + 1] == [];
    }
  }

  /** Either the call is over, with its result, or it goes on from here. */
  ghost predicate Continues(trp: Transport, buf: array<byte>, buflen: nat, start: nat, r: Reader, k: nat,
                            rc: int, stored: seq<byte>)
    reads trp, buf
  {
    && r.pos <= |trp.stream| && Holds(buf[..], 0, stored)
    && var w := trp.WireFor(buflen);
       if rc > 0 then
         && Ready(trp, buf, buflen, start, stored)
         && Call(w, r, k) == Call(w, trp.Value(stored), trp.polls)
       else
         Call(w, r, k) == (trp.Value(stored), if rc == 0 then Again else Error, trp.polls)
         && (rc == 0 || rc == -1)
  }

  /** State 1: MQTTPacket_decodenb, then the length is written back and checked against the buffer. */
  method ReadLength(buf: array<byte>, buflen: nat, trp: Transport, ghost start: nat, ghost before: seq<byte>)
    returns (rc: int, ghost stored: seq<byte>)
    requires Ready(trp, buf, buflen, start, before) && trp.state == 1
    modifies buf, trp
    ensures Continues(trp, buf, buflen, start, old(trp.Value(before)), old(trp.polls), rc, stored)
    ensures rc > 0 ==> trp.state == 2
  {
    hide Call, ScanLength, Accumulated;
    stored := before;
    rc := DecodeNb(buf, buflen, trp, start, before);
    if rc == -1 {
      trp.state := 0;
      return -1, stored;
    }
    if rc == 0 {
      return 0, stored;
    }
    var w := new Writer(buf, 1);
    LengthFieldSize(trp.remLen);
    var n := Encode(w, trp.remLen);
    trp.len := 1 + n;
    stored := before + LengthField(trp.remLen);
    if trp.remLen + trp.len > buflen {
      trp.state := 0;
      return -1, stored;
    }
    trp.state := 2;
  }

  /** How a finished decoding step stands to the call it belongs to. */
  ghost predicate Decoded(w: Wire, r: Reader, polls: nat, rc: int, call: (Reader, Outcome, nat))
    requires r.pos <= |w.stream|
  {
    if rc == 0 then call == (r, Again, polls)
    else if rc == -1 then call == (r.(state := 0), Error, polls)
    else
      var (next, out) := FinishLength(w, r);
      rc > 0 && call == if out.More? then Call(w, next, polls) else (next, out, polls)
  }

  /** The first length poll starts from multiplier 1 and value 0, whatever was left there. */
  lemma FirstLengthPoll(w: Wire, r: Reader, k: nat)
    requires r.pos <= |w.stream| && r.state == 1
    ensures r.len == 0 ==> Call(w, r, k) == Call(w, r.(multiplier := 1, remLen := 0), k)
  {
  }

  lemma InsideLength(w: Wire, r: Reader, start: nat)
    requires Inside(w, r, start) && r.state == 1
    ensures start < r.pos <= |w.stream| && r.len <= 4 && |r.stored| == 1
  {
  }

  lemma BegunInside(w: Wire, r: Reader, start: nat)
    requires Inside(w, r, start) && r.state == 1
    ensures r.len == 0 ==> Inside(w, r.(multiplier := 1, remLen := 0), start)
  {
  }

  /** One turn of the loop: what the call comes to when nothing, or a byte, or an error is delivered. */
  lemma LengthStep(w: Wire, r: Reader, start: nat, k: nat)
    requires Inside(w, r, start) && r.state == 1 && r.len < 4 && (r.len == 0 ==> r.multiplier == 1 && r.remLen == 0)
    ensures r.pos <= |w.stream|
    ensures var n, tried := Delivered(w.offers(k), 1, |w.stream| - r.pos), r.(len := r.len + 1);
            if n == -1 then Call(w, r, k) == (tried.(state := 0), Error, k + 1)
            else if n == 0 then Call(w, r, k) == (tried, Again, k + 1)
            else
              && r.pos < |w.stream|
              && var c: nat := w.stream[r.pos];
                 var next := tried.(remLen := AddDigit(r.remLen, c, r.multiplier), multiplier := 128 * r.multiplier,
                                    pos := r.pos + 1);
                 if c >= 128 then Call(w, r, k) == Call(w, next, k + 1) && Inside(w, next, start) && next.len <= 4
                 else
                   && Decoded(w, next, k + 1, next.len, Call(w, r, k))
                   && next.remLen <= MAX_REMAINING_LENGTH && |next.stored| == 1
                   && (FinishLength(w, next).1.More? ==> Inside(w, FinishLength(w, next).0, start))
  {
    hide Call, Poll, Delivered, AddDigit, ScanLength, LengthField, Inside, FinishLength, Fits, LengthBytes;
    InsideLength(w, r, start);
    LengthCall(w, r, k);
    LengthPollKeeps(w, r, start, Delivered(w.offers(k), 1, |w.stream| - r.pos));
    SmallValue(w.stream[start + 1..]);
  }

  /** One step of a call in the length field. */
  lemma LengthCall(w: Wire, r: Reader, k: nat)
    requires r.pos <= |w.stream| && r.state == 1
    ensures Call(w, r, k) ==
            if r.len >= 4 then (r.(state := 0, len := r.len + 1), Error, k)
            else
              var (next, out) := PollLength(w, r, Delivered(w.offers(k), 1, |w.stream| - r.pos));
              if out.More? then Call(w, next, k + 1) else (next, out, k + 1)
  {
  }

  method DecodeNb(buf: array<byte>, buflen: nat, trp: Transport, ghost start: nat, ghost before: seq<byte>)
    returns (rc: int)
    requires Ready(trp, buf, buflen, start, before) && trp.state == 1
    modifies trp
    ensures var w, r := trp.WireFor(buflen), trp.Value(before);
            && trp.pos <= |trp.stream| && trp.state == 1
            && Decoded(w, r, trp.polls, rc, Call(w, old(trp.Value(before)), old(trp.polls)))
            && (rc > 0 ==> trp.remLen <= MAX_REMAINING_LENGTH && |before| == 1)
            && (rc > 0 && FinishLength(w, r).1.More? ==> Inside(w, FinishLength(w, r).0, start))
  {
    hide Call, Poll, PollLength, Delivered, AddDigit, ScanLength, LengthField, Holds, Inside, FinishLength, Fits;
    ghost var w := trp.WireFor(buflen);
    InsideLength(w, trp.Value(before), start);
    ghost var call := Call(w, trp.Value(before), trp.polls);
    BegunInside(w, trp.Value(before), start);
    FirstLengthPoll(w, trp.Value(before), trp.polls);
    if trp.len == 0 {
      trp.multiplier := 1;
      trp.remLen := 0;
    }
    while true
      invariant trp.state == 1 && trp.pos <= |trp.stream| && trp.len <= 4 && Inside(w, trp.Value(before), start)
      invariant trp.len == 0 ==> trp.multiplier == 1 && trp.remLen == 0
      invariant Call(w, trp.Value(before), trp.polls) == call
      decreases 4 - trp.len
    {
      ghost var r := trp.Value(before);
      LengthCall(w, r, trp.polls);
      if r.len < 4 {
        LengthStep(w, r, start, trp.polls);
      }
      trp.len := trp.len + 1;
      if trp.len > 4 {
        return -1;
      }
      var frc, data := trp.Get(1);
      if frc == -1 {
        return -1;
      }
      if frc == 0 {
        return 0;
      }
      trp.remLen := AddDigit(trp.remLen, data[0], trp.multiplier);
      trp.multiplier := 128 * trp.multiplier;
      if data[0] < 128 {
        return trp.len;
      }
    }
  }

  lemma InsideBody(w: Wire, r: Reader, start: nat)
    requires Inside(w, r, start) && r.state == 2
    ensures r.pos <= |w.stream| && 1 <= r.len == |r.stored| && r.len + r.remLen <= w.buflen
  {
  }

  lemma StoredPrefix(buf: seq<byte>, stored: seq<byte>)
    requires Holds(buf, 0, stored)
    ensures |stored| <= |buf| && buf[..|stored|] == stored
  {
  }

  lemma PrefixStored(buf: seq<byte>, stored: seq<byte>)
    requires |stored| <= |buf| && buf[..|stored|] == stored
    ensures Holds(buf, 0, stored) && (stored != [] ==> buf[0] == stored[0])
  {
  }

  /** A call in the body is one poll. */
  lemma BodyCall(w: Wire, r: Reader, k: nat)
    requires r.pos <= |w.stream| && r.state == 2
    ensures var n := Delivered(w.offers(k), r.remLen, |w.stream| - r.pos);
            var (next, out) := PollBody(w, r, n);
            Call(w, r, k) == (next, out, k + 1)
  {
  }

  /** State 2: the body. */
  method ReadBody(buf: array<byte>, buflen: nat, trp: Transport, ghost start: nat, ghost before: seq<byte>)
    returns (rc: int, ghost stored: seq<byte>)
    requires Ready(trp, buf, buflen, start, before) && trp.state == 2
    modifies buf, trp
    ensures (trp.Value(stored), rc, trp.polls) ==
            var (next, out, k) := Call(trp.WireFor(buflen), old(trp.Value(before)), old(trp.polls));
            (next, ReturnCode(out), k)
    ensures Holds(buf[..], 0, stored)
  {
    hide Call, Poll, Inside, Holds, Kind, Delivered, FinishLength, PollLength;
    ghost var w := trp.WireFor(buflen);
    ghost var r := trp.Value(before);
    InsideBody(w, r, start);
    BodyCall(w, r, trp.polls);
    HoldsFits(buf[..], 0, before);
    stored := before;
    var frc, data := trp.Get(trp.remLen);
    if frc == -1 {
      trp.state := 0;
      return -1, stored;
    }
    if frc == 0 {
      return 0, stored;
    }
    var writer := new Writer(buf, trp.len);
    StoredPrefix(buf[..], before);
    writer.Copy(data);
    stored := before + data;
    PrefixStored(buf[..], stored);
    assert stored != [];
    trp.remLen := trp.remLen - frc;
    trp.len := trp.len + frc;
    if trp.remLen > 0 {
      return 0, stored;
    }
    rc := Kind(buf[0]);
    trp.state := 0;
  }
}
