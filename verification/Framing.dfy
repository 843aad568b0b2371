/** The length-prefixed wire format: a four-byte little-endian header followed by the body.
    `PickMessage` follows the arithmetic of the C++ code bit for bit, `Pick` is the reading
    without raw memory, and `Drain` is the extraction loop run until it stops. */
module Framing {

  type Byte = b: int | 0 <= b < 256
  type Bytes = seq<Byte>

  const TWO_31: int := 0x8000_0000
  const TWO_32: int := 0x1_0000_0000
  const TWO_64: int := 0x1_0000_0000_0000_0000

  /** Longest body whose `len + 4` still fits a signed 32-bit int. */
  const MAX_BODY: int := TWO_31 - 5

  /** Bound on the size of a std::string (its max_size is at most PTRDIFF_MAX). */
  const MAX_STRING: int := 0x7fff_ffff_ffff_ffff

  lemma ConcatAssociates<T>(a: seq<T>, b: seq<T>, c: seq<T>)
    ensures a + (b + c) == (a + b) + c
  {
  }

  // ---------------------------------------------------------------- header

  /** The first four bytes of a size_t, as `append((char*)&size, 4)` copies them. */
  function LowBytes(n: nat): (h: Bytes)
    ensures |h| == 4
  {
    [n % 256, n / 256 % 256, n / 256 / 256 % 256, n / 256 / 256 / 256 % 256]
  }

  function Unsigned(h: Bytes): (u: nat)
    requires |h| >= 4
    ensures u < TWO_32
  {
    h[0] as int + 256 * (h[1] as int + 256 * (h[2] as int + 256 * (h[3] as int)))
  }

  /** The `int` that memcpy leaves in `len`. */
  function Header(h: Bytes): (len: int)
    requires |h| >= 4
    ensures -TWO_31 <= len < TWO_31
  {
    var u := Unsigned(h);
    if u < TWO_31 then u else u - TWO_32
  }

  /** Conversion of an int to size_t. */
  function SizeT(x: int): (r: int)
    requires -TWO_64 <= x < TWO_64
  {
    if x < 0 then x + TWO_64 else x
  }

  /** Printing a size and reading it back keeps it modulo 2^32. */
  lemma HeaderRoundTrip(n: nat, tail: Bytes)
    ensures Unsigned(LowBytes(n) + tail) == n % TWO_32
  {
    var a, b, c := n / 256, n / 256 / 256, n / 256 / 256 / 256;
    assert n == 256 * a + n % 256;
    assert a == 256 * b + a % 256;
    assert b == 256 * c + b % 256;
    assert c == 256 * (c / 256) + c % 256;
    var u := Unsigned(LowBytes(n) + tail);
    assert n == TWO_32 * (c / 256) + u;
  }

  lemma Digit(d: Byte, q: nat)
    ensures (d as int + 256 * q) % 256 == d as int && (d as int + 256 * q) / 256 == q
  {
  }

  // ---------------------------------------------------------------- one message

  datatype Outcome =
    | Incomplete                          // returned false, nothing changed
    | Message(body: Bytes, rest: Bytes)   // returned true
    | Overflow                            // signed overflow in len + 4
    | OutOfRange                          // substr(4, ..) on a shorter string throws

  /** `Buffer::pickmessage` with sep_ == 1. `beyond` is whatever memory follows the
      terminating NUL of the string: memcpy reads it when the buffer is shorter than four bytes. */
  function PickMessage(buf: Bytes, beyond: Bytes): (o: Outcome)
    requires |buf| <= MAX_STRING && |beyond| >= 3
  {
    if |buf| == 0 then Incomplete
    else
      var len := Header((buf + [0] + beyond)[..4]);
      if len > TWO_31 - 5 then Overflow
      else if |buf| < SizeT(len + 4) then Incomplete
      else if |buf| < 4 then OutOfRange
      else
        var count := if SizeT(len) < |buf| - 4 then SizeT(len) else |buf| - 4;
        Message(buf[4..4 + count], buf[len + 4..])
  }

  /** The same decision without raw memory: headers -4..-1 deliver the whole rest of the buffer
      and erase fewer than four bytes, headers below -4 wait forever. */
  function Pick(buf: Bytes): (o: Outcome)
    ensures o.Message? ==> |o.rest| <= |buf|
    ensures !o.OutOfRange?
  {
    if |buf| < 4 then Incomplete
    else
      var len := Header(buf);
      if len > MAX_BODY then Overflow
      else if len < -4 then Incomplete
      else if len < 0 then Message(buf[4..], buf[len + 4..])
      else if |buf| < len + 4 then Incomplete
      else Message(buf[4..4 + len], buf[len + 4..])
  }

  /** Partial-header safety: one to three buffered bytes never yield a message, an overflow or an
      exception, whatever memory lies behind the terminator, although the int may be negative. */
  lemma PartialHeader(buf: Bytes, beyond: Bytes)
    requires 1 <= |buf| <= 3 && |beyond| >= 3
    ensures PickMessage(buf, beyond) == Incomplete
  {
    var mem := (buf + [0] + beyond)[..4];
    assert mem[|buf|] == 0;
    var len := Header(mem);
    assert len + 4 < 0 || len + 4 > |buf|;
  }

  /** Reading raw memory never shows: the coded test equals the memory-free reading. */
  lemma PickMessageIsPick(buf: Bytes, beyond: Bytes)
    requires |buf| <= MAX_STRING && |beyond| >= 3
    ensures PickMessage(buf, beyond) == Pick(buf)
  {
    if 1 <= |buf| <= 3 {
      PartialHeader(buf, beyond);
    } else if |buf| >= 4 {
      assert (buf + [0] + beyond)[..4] == buf[..4];
      var len := Header(buf);
      if -4 <= len < 0 {
        assert buf[4..4 + (|buf| - 4)] == buf[4..];
      }
    }
  }

  /** A success removes no byte exactly when the header is -4: then the extraction loop repeats. */
  lemma PickShrinks(buf: Bytes)
    requires Pick(buf).Message?
    ensures |buf| >= 4
    ensures Header(buf) >= 0 ==> |Pick(buf).rest| <= |buf| - 4
    ensures |Pick(buf).rest| == |buf| <==> Header(buf) == -4
    ensures Header(buf) == -4 ==> Pick(buf).rest == buf
  {
  }

  // ---------------------------------------------------------------- printing

  predicate ValidBody(m: Bytes) { |m| <= MAX_BODY }

  predicate ValidAll(ms: seq<Bytes>) { forall i :: 0 <= i < |ms| ==> ValidBody(ms[i]) }

  /** What `appendwithsep` adds to the buffer. */
  function Frame(m: Bytes): (f: Bytes)
    ensures |f| == 4 + |m|
  {
    LowBytes(|m|) + m
  }

  function EncodeAll(ms: seq<Bytes>): Bytes
  {
    if ms == [] then [] else Frame(ms[0]) + EncodeAll(ms[1..])
  }

  lemma FrameHeader(m: Bytes, tail: Bytes)
    ensures Unsigned(Frame(m) + tail) == |m| % TWO_32
  {
    HeaderRoundTrip(|m|, m + tail);
    assert Frame(m) + tail == LowBytes(|m|) + (m + tail);
  }

  /** A printed message is read back, whatever follows it, exactly when it has at most 2^31-5 bytes. */
  lemma FrameRoundTrip(m: Bytes, tail: Bytes)
    ensures Pick(Frame(m) + tail) == Message(m, tail) <==> ValidBody(m)
  {
    var s := Frame(m) + tail;
    FrameHeader(m, tail);
    if ValidBody(m) {
      assert s[4..4 + |m|] == m && s[4 + |m|..] == tail;
    } else {
      var o := Pick(s);
      if o.Message? && Header(s) < 0 {
        assert |o.rest| > |tail|;
      }
    }
  }

  lemma {:induction false} EncodeCons(m: Bytes, ms: seq<Bytes>)
    ensures EncodeAll([m] + ms) == Frame(m) + EncodeAll(ms)
  {
    assert ([m] + ms)[1..] == ms;
  }

  lemma {:induction false} EncodeConcat(a: seq<Bytes>, b: seq<Bytes>)
    ensures EncodeAll(a + b) == EncodeAll(a) + EncodeAll(b)
  {
    if a == [] {
      assert a + b == b;
    } else {
      var m, more := a[0], a[1..];
      EncodeConcat(more, b);
      assert a + b == [m] + (more + b);
      EncodeCons(m, more + b);
      ConcatAssociates(Frame(m), EncodeAll(more), EncodeAll(b));
    }
  }

  // ---------------------------------------------------------------- printing a copy

  /** The memory `strdup` allocates for a std::string: its bytes up to the first NUL, terminated. */
  function Strdup(data: Bytes): (copy: Bytes)
  {
    if data == [] || data[0] == 0 then [0] else [data[0]] + Strdup(data[1..])
  }

  predicate NoEarlyNul(data: Bytes) { forall i :: 0 <= i < |data| - 1 ==> data[i] != 0 }

  datatype Printed = Printed(frame: Bytes) | PastEnd

  /** What `appendwithsep(data, size)` adds to the buffer when `memory` is allocated at `data`. */
  function Print(memory: Bytes, size: nat): Printed
  {
    if |memory| < size then PastEnd else Printed(LowBytes(size) + memory[..size])
  }

  lemma {:induction false} StrdupFits(data: Bytes)
    ensures |Strdup(data)| <= |data| + 1
    ensures |data| <= |Strdup(data)| <==> NoEarlyNul(data)
    ensures NoEarlyNul(data) ==> Strdup(data)[..|data|] == data
  {
    if data != [] && data[0] != 0 {
      var rest := data[1..];
      StrdupFits(rest);
      assert data == [data[0]] + rest;
      if NoEarlyNul(rest) {
        assert forall i :: 0 < i < |data| - 1 ==> data[i] == rest[i - 1];
        assert Strdup(data)[..|data|] == [data[0]] + Strdup(rest)[..|rest|];
      } else {
        var i :| 0 <= i < |rest| - 1 && rest[i] == 0;
        assert data[i + 1] == 0;
      }
    }
  }

  /** Printing from the copy adds the frame of the original exactly when no NUL stands before its
      last byte; otherwise it reads behind the copy. */
  lemma CopyPrints(data: Bytes)
    ensures Print(Strdup(data), |data|) == Printed(Frame(data)) <==> NoEarlyNul(data)
    ensures Print(Strdup(data), |data|) == PastEnd <==> !NoEarlyNul(data)
  {
    StrdupFits(data);
  }

  // ---------------------------------------------------------------- the extraction loop

  datatype Verdict = Waiting | Looping | Undefined

  datatype Drained = Drained(msgs: seq<Bytes>, rest: Bytes, verdict: Verdict)

  /** The inner loop of `Connection::onmessage`: messages handed on, the buffer left, and whether
      the loop ended. `Looping` marks a success that erased nothing, hence the same success again. */
  function Drain(buf: Bytes): Drained
    decreases |buf|
  {
    match Pick(buf)
    case Message(m, rest) =>
      if |rest| == |buf| then Drained([m], buf, Looping)
      else
        var d := Drain(rest);
        Drained([m] + d.msgs, d.rest, d.verdict)
    case Incomplete => Drained([], buf, Waiting)
    case _ => Drained([], buf, Undefined)
  }

  /** How the extraction loop ends is decided by the header it stops at: it repeats forever exactly on
      header -4, overflows exactly on a header above 2^31-5, and otherwise waits for more bytes. */
  lemma {:induction false} DrainEnds(s: Bytes)
    ensures var d := Drain(s);
            && |d.rest| <= |s|
            && (d.verdict == Looping <==> |d.rest| >= 4 && Header(d.rest) == -4)
            && (d.verdict == Undefined <==> |d.rest| >= 4 && Header(d.rest) > MAX_BODY)
            && (d.verdict == Waiting <==> Pick(d.rest) == Incomplete)
    decreases |s|
  {
    match Pick(s)
    case Message(m, rest) =>
      PickShrinks(s);
      if |rest| < |s| { DrainEnds(rest); }
    case _ =>
  }

  /** One round of the loop: unless the header is -4 one message less is left, and how the loop will end
      does not change. */
  lemma DrainStep(s: Bytes)
    requires Pick(s).Message?
    ensures Drain(Pick(s).rest).verdict == Drain(s).verdict
    ensures Header(s) != -4 ==> |Drain(Pick(s).rest).msgs| == |Drain(s).msgs| - 1
    ensures Header(s) == -4 ==> Pick(s).rest == s && Drain(s).verdict == Looping
  {
    PickShrinks(s);
  }

  /** From the sender's side: after any admissible messages the loop repeats forever exactly if the
      next header is -4 and overflows exactly if it is above 2^31-5; -3 to -1 do neither at once. */
  lemma {:induction false} DrainEndsAfter(ms: seq<Bytes>, x: Bytes)
    requires ValidAll(ms)
    ensures Drain(EncodeAll(ms) + x) == Drained(ms + Drain(x).msgs, Drain(x).rest, Drain(x).verdict)
    ensures |x| >= 4 && Header(x) == -4 ==> Drain(EncodeAll(ms) + x).verdict == Looping
    ensures |x| >= 4 && Header(x) > MAX_BODY ==> Drain(EncodeAll(ms) + x).verdict == Undefined
  {
    if ms == [] {
      assert EncodeAll(ms) + x == x && ms + Drain(x).msgs == Drain(x).msgs;
    } else {
      ConcatAssociates(Frame(ms[0]), EncodeAll(ms[1..]), x);
      FrameRoundTrip(ms[0], EncodeAll(ms[1..]) + x);
      DrainEndsAfter(ms[1..], x);
      ConcatAssociates([ms[0]], ms[1..], Drain(x).msgs);
      assert ms == [ms[0]] + ms[1..];
    }
  }

  /** Four bytes that keep the loop busy for ever with the same empty message, and four that overflow. */
  lemma BadHeaders()
    ensures Drain([252, 255, 255, 255]) == Drained([[]], [252, 255, 255, 255], Looping)
    ensures Drain([252, 255, 255, 127]) == Drained([], [252, 255, 255, 127], Undefined)
  {
    assert Header([252, 255, 255, 255]) == -4;
    assert Header([252, 255, 255, 127]) == MAX_BODY + 1;
    assert Pick([252, 255, 255, 255]) == Message([], [252, 255, 255, 255]);
  }

  /** Every complete header met while reading the stream lies in 0..2^31-5. */
  predicate WellFormed(s: Bytes)
    decreases |s|
  {
    |s| < 4
    || (0 <= Header(s) <= MAX_BODY && (|s| < Header(s) + 4 || WellFormed(s[Header(s) + 4..])))
  }

  /** Drain inverts printing: on a well-formed stream the messages, printed again, and the bytes
      left are the stream, and what is left holds no further message. */
  lemma {:induction false} DrainSound(s: Bytes)
    requires WellFormed(s)
    ensures var d := Drain(s);
            d.verdict == Waiting && ValidAll(d.msgs)
            && EncodeAll(d.msgs) + d.rest == s && Pick(d.rest) == Incomplete && WellFormed(d.rest)
    decreases |s|
  {
    match Pick(s)
    case Message(m, rest) =>
      var d := Drain(rest);
      DrainSound(rest);
      Reprint(s);
      EncodeCons(m, d.msgs);
      ConcatAssociates(Frame(m), EncodeAll(d.msgs), d.rest);
    case _ =>
  }

  /** A message read under a non-negative header is, printed, what was erased. */
  lemma Reprint(s: Bytes)
    requires Pick(s).Message? && Header(s) >= 0
    ensures s == Frame(Pick(s).body) + Pick(s).rest
  {
    ReprintHeader(s);
  }

  lemma ReprintHeader(s: Bytes)
    requires |s| >= 4 && Header(s) >= 0
    ensures LowBytes(Header(s)) == s[..4]
  {
    var q3 := s[3] as int;
    var q2 := s[2] as int + 256 * q3;
    var q1 := s[1] as int + 256 * q2;
    Digit(s[0], q1);
    Digit(s[1], q2);
    Digit(s[2], q3);
  }

  /** More bytes behind a complete message leave the message alone. */
  lemma PickExtends(a: Bytes, b: Bytes)
    requires Pick(a).Message? && Header(a) >= 0
    ensures Pick(a + b) == Message(Pick(a).body, Pick(a).rest + b)
    ensures WellFormed(a + b) <==> WellFormed(Pick(a).rest + b)
  {
    var h := Header(a);
    assert Header(a + b) == h;
    assert (a + b)[4..4 + h] == a[4..4 + h];
    assert (a + b)[h + 4..] == a[h + 4..] + b;
  }

  /** Splitting a well-formed stream anywhere and draining in two rounds changes nothing. */
  lemma {:induction false} DrainSplit(a: Bytes, b: Bytes)
    requires WellFormed(a + b)
    ensures WellFormed(a) && WellFormed(Drain(a).rest + b)
    ensures Drain(a + b).msgs == Drain(a).msgs + Drain(Drain(a).rest + b).msgs
    ensures Drain(a + b).rest == Drain(Drain(a).rest + b).rest
    decreases |a|
  {
    if |a| >= 4 {
      assert Header(a) == Header(a + b);
      if Pick(a).Message? {
        var m, rest := Pick(a).body, Pick(a).rest;
        PickExtends(a, b);
        DrainSplit(rest, b);
        ConcatAssociates([m], Drain(rest).msgs, Drain(Drain(rest).rest + b).msgs);
      }
    }
  }

  /** Draining a whole printed list followed by a fragment gives the list and keeps the fragment. */
  lemma {:induction false} DrainEncode(ms: seq<Bytes>, tail: Bytes)
    requires ValidAll(ms) && Pick(tail) == Incomplete
    ensures Drain(EncodeAll(ms) + tail) == Drained(ms, tail, Waiting)
  {
    if ms == [] {
      assert EncodeAll(ms) + tail == tail;
    } else {
      ConcatAssociates(Frame(ms[0]), EncodeAll(ms[1..]), tail);
      FrameRoundTrip(ms[0], EncodeAll(ms[1..]) + tail);
      DrainEncode(ms[1..], tail);
    }
  }

  // ---------------------------------------------------------------- prefixes of printed lists

  lemma PrefixOfConcat<T>(s: seq<T>, a: seq<T>, b: seq<T>)
    requires s <= a + b && |s| >= |a|
    ensures s == a + s[|a|..] && s[|a|..] <= b
  {
    assert s[..|a|] == (a + b)[..|a|] == a;
    assert s[|a|..] == (a + b)[|a|..|s|] == b[..|s| - |a|];
  }

  lemma PrefixHeader(s: Bytes, t: Bytes)
    requires s <= t && |s| >= 4
    ensures Header(s) == Header(t)
  {
    assert s[0] == t[0] && s[1] == t[1] && s[2] == t[2] && s[3] == t[3];
  }

  lemma FrameLength(m: Bytes, tail: Bytes)
    requires ValidBody(m)
    ensures Header(Frame(m) + tail) == |m|
  {
    FrameHeader(m, tail);
  }

  /** A prefix of a printed list either stops inside the first frame or contains it. */
  lemma PrefixOfFrames(s: Bytes, m: Bytes, more: Bytes)
    requires ValidBody(m) && s <= Frame(m) + more && |s| >= 4
    ensures Header(s) == |m|
    ensures |s| >= |m| + 4 ==> s == Frame(m) + s[|m| + 4..] && s[|m| + 4..] <= more
  {
    FrameLength(m, more);
    PrefixHeader(s, Frame(m) + more);
    if |s| >= |m| + 4 {
      PrefixOfConcat(s, Frame(m), more);
    }
  }

  /** What a reader holding a prefix of a printed list has decoded: a prefix of the list,
      and all of it once every byte has arrived. */
  lemma {:induction false} DrainPrefix(s: Bytes, ms: seq<Bytes>)
    requires ValidAll(ms) && s <= EncodeAll(ms)
    ensures WellFormed(s) && Drain(s).msgs <= ms
    ensures s == EncodeAll(ms) ==> Drain(s) == Drained(ms, [], Waiting)
    decreases |ms|
  {
    if s == EncodeAll(ms) {
      DrainEncode(ms, []);
      assert s + [] == s;
    }
    if |s| >= 4 {
      var m, more := ms[0], EncodeAll(ms[1..]);
      PrefixOfFrames(s, m, more);
      if |s| >= |m| + 4 {
        FrameRoundTrip(m, s[|m| + 4..]);
        DrainPrefix(s[|m| + 4..], ms[1..]);
        assert ms == [m] + ms[1..];
      }
    }
  }

  /** Well-formed streams are exactly the prefixes of printed lists of admissible messages. */
  lemma WellFormedIffPrefix(s: Bytes)
    ensures WellFormed(s) <==> exists ms :: ValidAll(ms) && s <= EncodeAll(ms)
  {
    if WellFormed(s) {
      var ms := CompletePrefix(s);
    }
    forall ms | ValidAll(ms) && s <= EncodeAll(ms)
      ensures WellFormed(s)
    {
      DrainPrefix(s, ms);
    }
  }

  lemma {:induction false} CompletePrefix(s: Bytes) returns (ms: seq<Bytes>)
    requires WellFormed(s)
    ensures ValidAll(ms) && s <= EncodeAll(ms)
  {
    var d := Drain(s);
    DrainSound(s);
    var last := CompleteFragment(d.rest);
    ms := d.msgs + [last];
    EncodeConcat(d.msgs, [last]);
    assert EncodeAll([last]) == Frame(last) + EncodeAll([]) == Frame(last);
  }

  lemma CompleteFragment(r: Bytes) returns (m: Bytes)
    requires WellFormed(r) && Pick(r) == Incomplete
    ensures ValidBody(m) && r <= Frame(m)
  {
    if |r| < 4 {
      m := CompleteHeader(r);
      CompleteHeaderFits(r);
    } else {
      m := CompleteBody(r);
      ReprintHeader(r);
    }
  }

  /** Some body whose header starts with the given bytes. */
  ghost function CompleteHeader(r: Bytes): (m: Bytes)
    requires |r| < 4
    ensures ValidBody(m) && |m| == Header(r + [0, 0, 0, 0])
  {
    var zero: Byte := 0;
    assert (r + [0, 0, 0, 0])[3] == 0;
    seq(Header(r + [0, 0, 0, 0]), i => zero)
  }

  lemma CompleteHeaderFits(r: Bytes)
    requires |r| < 4
    ensures r <= Frame(CompleteHeader(r))
  {
    ReprintHeader(r + [0, 0, 0, 0]);
  }

  /** The announced body, its missing end filled with zeros. */
  ghost function CompleteBody(r: Bytes): (m: Bytes)
    requires |r| >= 4 && 0 <= Header(r) <= MAX_BODY && |r| < Header(r) + 4
    ensures |m| == Header(r) && r[4..] <= m
  {
    var zero: Byte := 0;
    r[4..] + seq(Header(r) + 4 - |r|, i => zero)
  }
}
