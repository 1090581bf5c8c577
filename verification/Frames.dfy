/**
 * WebSocket frames of the desktop bridge (sections 5.2 and 5.3 of RFC 6455): the printer of masked
 * text frames and the incremental reader of whatever bytes arrive.
 */
module Frames {
  import opened Options

  type Byte = n: nat | n < 256

  type Bytes = seq<Byte>

  type Mask = m: Bytes | |m| == 4 witness [0, 0, 0, 0]

  // ---------------------------------------------------------------- exclusive or

  function Pow2(k: nat): nat {
    if k == 0 then 1 else 2 * Pow2(k - 1)
  }

  /** The exclusive or of the lowest `k` bits. */
  function XorBits(a: nat, b: nat, k: nat): nat {
    if k == 0 then 0 else 2 * XorBits(a / 2, b / 2, k - 1) + if a % 2 == b % 2 then 0 else 1
  }

  lemma HalfOf(half: nat, bit: nat)
    requires bit < 2
    ensures (2 * half + bit) / 2 == half && (2 * half + bit) % 2 == bit
  {
  }

  lemma {:induction false} XorTwice(a: nat, b: nat, k: nat)
    requires a < Pow2(k)
    ensures XorBits(a, b, k) < Pow2(k) && XorBits(XorBits(a, b, k), b, k) == a
  {
    if k > 0 {
      var half := XorBits(a / 2, b / 2, k - 1);
      XorTwice(a / 2, b / 2, k - 1);
      HalfOf(half, if a % 2 == b % 2 then 0 else 1);
      assert a == 2 * (a / 2) + a % 2;
    }
  }

  function Bit(a: nat, i: nat): nat {
    if i == 0 then a % 2 else Bit(a / 2, i - 1)
  }

  /** A bit is set exactly where the two differ. */
  lemma {:induction false} XorIsBitwise(a: nat, b: nat, k: nat, i: nat)
    requires i < k
    ensures Bit(XorBits(a, b, k), i) == if Bit(a, i) != Bit(b, i) then 1 else 0
  {
    HalfOf(XorBits(a / 2, b / 2, k - 1), if a % 2 == b % 2 then 0 else 1);
    if i > 0 {
      XorIsBitwise(a / 2, b / 2, k - 1, i - 1);
    }
  }

  lemma ByteBits()
    ensures Pow2(8) == 256
  {
    assert Pow2(4) == 16;
  }

  function Xor(a: Byte, b: Byte): Byte {
    ByteBits();
    XorTwice(a, b, 8);
    XorBits(a, b, 8)
  }

  // ---------------------------------------------------------------- big-endian lengths

  function Pow256(k: nat): nat {
    if k == 0 then 1 else 256 * Pow256(k - 1)
  }

  /** The lowest `k` bytes of a number, the highest of them first. */
  function ToBytes(n: nat, k: nat): (r: Bytes)
    ensures |r| == k
  {
    if k == 0 then [] else ToBytes(n / 256, k - 1) + [n % 256]
  }

  function FromBytes(bytes: Bytes): nat {
    if bytes == [] then 0 else 256 * FromBytes(bytes[..|bytes| - 1]) + bytes[|bytes| - 1]
  }

  /** The first byte is the highest. */
  lemma {:induction false} HighestByteFirst(first: Byte, rest: Bytes)
    ensures FromBytes([first] + rest) == first * Pow256(|rest|) + FromBytes(rest)
  {
    if rest == [] {
      assert [first] + rest == [first];
    } else {
      var init, last := rest[..|rest| - 1], rest[|rest| - 1];
      HighestByteFirst(first, init);
      assert ([first] + rest)[..|rest|] == [first] + init;
    }
  }

  lemma {:induction false} BytesRoundTrip(n: nat, k: nat)
    requires n < Pow256(k)
    ensures FromBytes(ToBytes(n, k)) == n
  {
    if k > 0 {
      BytesRoundTrip(n / 256, k - 1);
      assert ToBytes(n, k)[..k - 1] == ToBytes(n / 256, k - 1);
    }
  }

  // ---------------------------------------------------------------- printing

  /** A final text frame; the highest bit of the second byte says that the payload is masked. */
  const TEXT_BYTE: Byte := 0x81
  const MASKED := 0x80
  const SHORT := 126
  const MEDIUM := 65536

  function Header(n: nat): Bytes {
    [TEXT_BYTE] + if n < SHORT then [MASKED + n] else if n < MEDIUM then [MASKED + 126] + ToBytes(n, 2)
        else [MASKED + 127] + ToBytes(n, 8)
  }

  function Masked(payload: Bytes, mask: Mask): (r: Bytes)
    ensures |r| == |payload|
  {
    seq(|payload|, i requires 0 <= i < |payload| => Xor(payload[i], mask[i % 4]))
  }

  function Printed(payload: Bytes, mask: Mask): Bytes {
    Header(|payload|) + mask + Masked(payload, mask)
  }

  method SendFrame(payload: Bytes, mask: Mask) returns (sent: Bytes)
    ensures sent == Printed(payload, mask)
  {
    var header := if |payload| < SHORT then [TEXT_BYTE, MASKED + |payload|]
                  else if |payload| < MEDIUM then [TEXT_BYTE, MASKED + 126] + ToBytes(|payload|, 2)
                  else [TEXT_BYTE, MASKED + 127] + ToBytes(|payload|, 8);
    var masked := new Byte[|payload|];
    for i := 0 to |payload|
      invariant forall j :: 0 <= j < i ==> masked[j] == Xor(payload[j], mask[j % 4])
    {
      masked[i] := Xor(payload[i], mask[i % 4]);
    }
    assert masked[..] == Masked(payload, mask);
    return header + mask + masked[..];
  }

  lemma MaskTwice(payload: Bytes, mask: Mask)
    ensures Masked(Masked(payload, mask), mask) == payload
  {
    forall i | 0 <= i < |payload| ensures Masked(Masked(payload, mask), mask)[i] == payload[i] {
      ByteBits();
      XorTwice(payload[i], mask[i % 4], 8);
    }
  }

  // ---------------------------------------------------------------- reading one frame

  datatype Parsed = Incomplete | Frame(opcode: nat, payload: Bytes, rest: Bytes)

  /** Where the length field of a started header ends, and what it says. */
  datatype Extent = Unknown | Extent(offset: nat, length: nat)

  function ExtentOf(buffer: Bytes): Extent
    requires |buffer| >= 2
  {
    var short := buffer[1] % MASKED;
    var masked := if buffer[1] >= MASKED then 4 else 0;
    if short == 126 then if |buffer| < 4 then Unknown else Extent(4 + masked, FromBytes(buffer[2..4]))
    else if short == 127 then if |buffer| < 10 then Unknown else Extent(10 + masked, FromBytes(buffer[2..10]))
    else Extent(2 + masked, short)
  }

  lemma OffsetIsBounded(buffer: Bytes)
    requires |buffer| >= 2 && ExtentOf(buffer).Extent?
    ensures ExtentOf(buffer).offset >= 2 && (buffer[1] >= MASKED ==> ExtentOf(buffer).offset >= 6)
  {
  }

  function ParseOne(buffer: Bytes): (r: Parsed)
    ensures r.Frame? ==> |r.rest| < |buffer|
  {
    if |buffer| < 2 then Incomplete
    else
      var e := ExtentOf(buffer);
      if e.Unknown? || |buffer| < e.offset + e.length then Incomplete
      else
        OffsetIsBounded(buffer);
        var body := buffer[e.offset..e.offset + e.length];
        Frame(buffer[0] % 16,
              if buffer[1] >= MASKED then Masked(body, buffer[e.offset - 4..e.offset]) else body,
              buffer[e.offset + e.length..])
  }

  /** Two buffers that begin alike. */
  ghost predicate Alike(s: Bytes, t: Bytes, n: nat) {
    n <= |s| && n <= |t| && s[..n] == t[..n]
  }

  lemma SliceAlike(s: Bytes, t: Bytes, n: nat, i: nat, j: nat)
    requires Alike(s, t, n) && i <= j <= n
    ensures s[i..j] == t[i..j]
  {
    assert s[i..j] == s[..n][i..j] && t[i..j] == t[..n][i..j];
  }

  lemma ExtentAlike(s: Bytes, t: Bytes, n: nat)
    requires |s| >= 2 && ExtentOf(s).Extent? && ExtentOf(s).offset <= n && Alike(s, t, n)
    ensures 2 <= n && s[0] == t[0] && s[1] == t[1] && ExtentOf(t) == ExtentOf(s)
  {
    OffsetIsBounded(s);
    assert s[0] == s[..n][0] && s[1] == s[..n][1] && t[0] == t[..n][0] && t[1] == t[..n][1];
    if n >= 4 {
      SliceAlike(s, t, n, 2, 4);
    }
    if n >= 10 {
      SliceAlike(s, t, n, 2, 10);
    }
  }

  function End(buffer: Bytes): nat
    requires ParseOne(buffer).Frame?
  {
    ExtentOf(buffer).offset + ExtentOf(buffer).length
  }

  /** A complete frame is what its own bytes say. */
  lemma ParseAlike(s: Bytes, t: Bytes, n: nat)
    requires ParseOne(s).Frame? && End(s) <= n && Alike(s, t, n)
    ensures ParseOne(t) == ParseOne(s).(rest := t[End(s)..])
  {
    var e := ExtentOf(s);
    ExtentAlike(s, t, n);
    SliceAlike(s, t, n, e.offset, End(s));
    if s[1] >= MASKED {
      OffsetIsBounded(s);
      SliceAlike(s, t, n, e.offset - 4, e.offset);
    }
  }

  /** More bytes never change a frame that is complete. */
  lemma ParseIsStable(a: Bytes, b: Bytes)
    requires ParseOne(a).Frame?
    ensures ParseOne(a + b) == ParseOne(a).(rest := ParseOne(a).rest + b)
  {
    assert (a + b)[..|a|] == a == a[..|a|];
    ParseAlike(a, a + b, |a|);
    assert (a + b)[End(a)..] == a[End(a)..] + b;
  }

  lemma FourParts(a: Bytes, b: Bytes, c: Bytes, d: Bytes)
    ensures var all := a + b + c + d;
            var (i, j) := (|a| + |b|, |a| + |b| + |c|);
            all[|a|..i] == b && all[i..j] == c && all[j..] == d && all == a + (b + c + d)
  {
  }

  // ---------------------------------------------------------------- frames as they come over the wire

  /** A length is written in seven bits, or behind 126 in two bytes, or behind 127 in eight. */
  datatype Width = Seven | Two | Eight

  /** Any frame of either side: its first byte, the width of its length, its mask if it has one, and its payload. */
  datatype Wire = Wire(top: Byte, width: Width, mask: Option<Bytes>, payload: Bytes) {
    predicate Fits() {
      && (mask.Some? ==> |mask.value| == 4)
      && |payload| < match width case Seven => 126 case Two => 65536 case Eight => Pow256(8)
    }

    function Opening(): Bytes
      requires Fits()
    {
      var bit := if mask.Some? then 128 else 0;
      match width
      case Seven => [top, bit + |payload|]
      case Two => [top, bit + 126] + ToBytes(|payload|, 2)
      case Eight => [top, bit + 127] + ToBytes(|payload|, 8)
    }

    function Encoded(): Bytes
      requires Fits()
    {
      Opening() + mask.GetOr([]) + if mask.Some? then Masked(payload, mask.value) else payload
    }

    /** The lowest four bits of the first byte. */
    function Opcode(): nat {
      top % 16
    }
  }

  type Wired = w: Wire | w.Fits() witness Wire(0, Seven, None, [])

  lemma OpeningExtent(w: Wired, rest: Bytes)
    ensures var b := w.Opening() + rest;
            && b[0] == w.top && (b[1] >= 128 <==> w.mask.Some?)
            && ExtentOf(b) == Extent(|w.Opening()| + (if w.mask.Some? then 4 else 0), |w.payload|)
  {
    match w.width
    case Seven =>
    case Two => LongOpening(w.Opening()[..2], |w.payload|, 2, rest);
    case Eight => LongOpening(w.Opening()[..2], |w.payload|, 8, rest);
  }

  /** A length behind 126 or 127 is read back. */
  lemma LongOpening(start: Bytes, n: nat, k: nat, rest: Bytes)
    requires |start| == 2 && ((k == 2 && start[1] % 128 == 126 && n < 65536) || (k == 8 && start[1] % 128 == 127 && n < Pow256(8)))
    ensures ExtentOf(start + ToBytes(n, k) + rest) == Extent(2 + k + (if start[1] >= 128 then 4 else 0), n)
  {
    var b := start + ToBytes(n, k) + rest;
    TwoBytes();
    BytesRoundTrip(n, k);
    assert b[1] == start[1] && b[2..2 + k] == ToBytes(n, k);
  }

  lemma TwoBytes()
    ensures Pow256(2) == 65536
  {
    assert Pow256(1) == 256 * Pow256(0);
  }

  /** Every frame is read back, masked or not, whatever the width of its length and whatever follows it. */
  lemma WireRoundTrip(w: Wired, rest: Bytes)
    ensures ParseOne(w.Encoded() + rest) == Frame(w.Opcode(), w.payload, rest)
  {
    var opening, mask := w.Opening(), w.mask.GetOr([]);
    var body := if w.mask.Some? then Masked(w.payload, w.mask.value) else w.payload;
    FourParts(opening, mask, body, rest);
    OpeningExtent(w, mask + body + rest);
    if w.mask.Some? {
      MaskTwice(w.payload, w.mask.value);
    }
  }

  lemma {:induction false} NumbersRoundTrip(bytes: Bytes)
    ensures FromBytes(bytes) < Pow256(|bytes|) && ToBytes(FromBytes(bytes), |bytes|) == bytes
  {
    if bytes != [] {
      var init, last := bytes[..|bytes| - 1], bytes[|bytes| - 1];
      NumbersRoundTrip(init);
      assert FromBytes(bytes) / 256 == FromBytes(init) && FromBytes(bytes) % 256 == last;
      assert bytes == init + [last];
    }
  }

  /** The frame that stands at the front of these bytes. */
  function FrontOf(buffer: Bytes): Wire
    requires ParseOne(buffer).Frame?
  {
    var e := ExtentOf(buffer);
    OffsetIsBounded(buffer);
    Wire(buffer[0], if buffer[1] % 128 == 126 then Two else if buffer[1] % 128 == 127 then Eight else Seven,
         if buffer[1] >= 128 then Some(buffer[e.offset - 4..e.offset]) else None, ParseOne(buffer).payload)
  }

  /** And nothing but frames is read. */
  lemma OnlyWiresAreRead(buffer: Bytes)
    requires ParseOne(buffer).Frame?
    ensures var w, p := FrontOf(buffer), ParseOne(buffer);
            w.Fits() && buffer == w.Encoded() + p.rest && p.opcode == w.Opcode() && p.payload == w.payload
  {
    var w, e := FrontOf(buffer), ExtentOf(buffer);
    var body := buffer[e.offset..End(buffer)];
    FrontOpens(buffer);
    if w.mask.Some? {
      MaskTwice(body, w.mask.value);
    }
    Cut(buffer, |w.Opening()|, e.offset, End(buffer));
  }

  lemma Cut(all: Bytes, i: nat, j: nat, k: nat)
    requires i <= j <= k <= |all|
    ensures all == all[..i] + all[i..j] + all[j..k] + all[k..]
  {
  }

  lemma FrontFits(buffer: Bytes)
    requires ParseOne(buffer).Frame?
    ensures FrontOf(buffer).Fits() && |FrontOf(buffer).payload| == ExtentOf(buffer).length
  {
    TwoBytes();
    if buffer[1] % 128 == 126 {
      NumbersRoundTrip(buffer[2..4]);
    } else if buffer[1] % 128 == 127 {
      NumbersRoundTrip(buffer[2..10]);
    }
  }

  lemma FrontOpens(buffer: Bytes)
    requires ParseOne(buffer).Frame?
    ensures FrontOf(buffer).Fits()
    ensures var w, e := FrontOf(buffer), ExtentOf(buffer);
            && w.Opening() == buffer[..|w.Opening()|]
            && e.offset == |w.Opening()| + (if w.mask.Some? then 4 else 0)
            && (w.mask.Some? ==> w.mask.value == buffer[|w.Opening()|..e.offset])
  {
    FrontFits(buffer);
    match FrontOf(buffer).width
    case Seven => assert [buffer[0], buffer[1]] == buffer[..2];
    case Two => NumbersInFront(buffer, 4);
    case Eight => NumbersInFront(buffer, 10);
  }

  lemma NumbersInFront(buffer: Bytes, k: nat)
    requires 2 <= k <= |buffer|
    ensures [buffer[0], buffer[1]] + ToBytes(FromBytes(buffer[2..k]), k - 2) == buffer[..k]
  {
    NumbersRoundTrip(buffer[2..k]);
  }

  /** What bytes say exactly: the first frame read from them is the one they begin with. */
  lemma ParsesExactly(buffer: Bytes, opcode: nat, payload: Bytes, rest: Bytes)
    ensures ParseOne(buffer) == Frame(opcode, payload, rest) <==>
              exists w: Wired :: buffer == w.Encoded() + rest && w.Opcode() == opcode && w.payload == payload
  {
    if ParseOne(buffer) == Frame(opcode, payload, rest) {
      OnlyWiresAreRead(buffer);
      var w: Wired := FrontOf(buffer);
      assert buffer == w.Encoded() + rest;
    }
    if w: Wired :| buffer == w.Encoded() + rest && w.Opcode() == opcode && w.payload == payload {
      WireRoundTrip(w, rest);
    }
  }

  /** The width that the printer chooses. */
  function Narrowest(n: nat): Width {
    if n < 126 then Seven else if n < 65536 then Two else Eight
  }

  function TextFrame(payload: Bytes, mask: Mask): (w: Wired)
    requires |payload| < Pow256(8)
  {
    Wire(0x81, Narrowest(|payload|), Some(mask), payload)
  }

  /** What is printed is a masked final text frame with the narrowest length. */
  lemma PrintedIsWire(w: Wired)
    requires w.top == 0x81 && w.mask.Some? && w.width == Narrowest(|w.payload|)
    ensures Printed(w.payload, w.mask.value) == w.Encoded()
  {
    assert Header(|w.payload|) == w.Opening();
  }

  /** So it is read back, whatever follows it. */
  lemma FrameRoundTrip(payload: Bytes, mask: Mask, rest: Bytes)
    requires |payload| < Pow256(8)
    ensures ParseOne(Printed(payload, mask) + rest) == Frame(0x01, payload, rest)
  {
    var w := TextFrame(payload, mask);
    PrintedIsWire(w);
    WireRoundTrip(w, rest);
    assert w.Opcode() == 1;
  }

  // ---------------------------------------------------------------- the answer to a ping

  /** The bytes that are written for a pong: its length in one byte, whatever it is. */
  function PongBytes(payload: Bytes): Bytes {
    [0x8a, |payload| % 256] + payload
  }

  /** The other side reads back what it sent exactly when that was shorter than 126 bytes, as control frames are to be. */
  lemma PongIsReadExactly(payload: Bytes, rest: Bytes)
    ensures ParseOne(PongBytes(payload) + rest) == Frame(0xa, payload, rest) <==> |payload| < 126
  {
    var b := PongBytes(payload) + rest;
    assert b[0] == 0x8a && b[1] == |payload| % 256;
    if |payload| < 126 {
      var w: Wired := Wire(0x8a, Seven, None, payload);
      assert b == w.Encoded() + rest;
      WireRoundTrip(w, rest);
    }
  }

  // ---------------------------------------------------------------- reading a stream

  /** What the reader does with a frame: deliver a text, answer a ping, end the connection. */
  datatype Event = Text(payload: Bytes) | Pong(payload: Bytes) | Close

  function EventsOf(opcode: nat, payload: Bytes): seq<Event> {
    if opcode == 0x8 then [Close] else if opcode == 0x9 then [Pong(payload)] else if opcode == 0x1 then [Text(payload)] else []
  }

  /** One run of the reader: it stops when no frame is complete, and after a close. */
  function Read(buffer: Bytes): (r: (seq<Event>, Bytes))
    decreases |buffer|
  {
    match ParseOne(buffer)
    case Incomplete => ([], buffer)
    case Frame(opcode, payload, rest) =>
      if opcode == 0x8 then ([Close], rest)
      else
        var (events, left) := Read(rest);
        (EventsOf(opcode, payload) + events, left)
  }

  /** Every frame of the bytes at hand, whether or not a close comes before it. */
  function Everything(buffer: Bytes): (r: (seq<Event>, Bytes))
    decreases |buffer|
  {
    match ParseOne(buffer)
    case Incomplete => ([], buffer)
    case Frame(opcode, payload, rest) =>
      var (events, left) := Everything(rest);
      (EventsOf(opcode, payload) + events, left)
  }

  lemma Assoc<T>(a: seq<T>, b: seq<T>, c: seq<T>)
    ensures a + (b + c) == a + b + c
  {
  }

  lemma {:induction false} EverythingConcat(a: Bytes, b: Bytes)
    ensures var (first, left) := Everything(a);
            var (then_, rest) := Everything(left + b);
            Everything(a + b) == (first + then_, rest)
    decreases |a|
  {
    var (first, left) := Everything(a);
    var then_ := Everything(left + b).0;
    if ParseOne(a).Frame? {
      var p := ParseOne(a);
      ParseIsStable(a, b);
      EverythingConcat(p.rest, b);
      Assoc(EventsOf(p.opcode, p.payload), Everything(p.rest).0, then_);
    } else {
      assert [] + then_ == then_;
    }
  }

  /** What one run leaves unread is just the rest of everything. */
  lemma {:induction false} ReadThenRest(buffer: Bytes)
    ensures var (events, left) := Read(buffer);
            Everything(buffer) == (events + Everything(left).0, Everything(left).1)
    decreases |buffer|
  {
    var later := Everything(Read(buffer).1).0;
    assert [] + later == later;
    if ParseOne(buffer).Frame? && ParseOne(buffer).opcode != 0x8 {
      var p := ParseOne(buffer);
      ReadThenRest(p.rest);
      Assoc(EventsOf(p.opcode, p.payload), Read(p.rest).0, later);
    }
  }

  ghost predicate OnlyLastCloses(events: seq<Event>) {
    forall i :: 0 <= i < |events| - 1 ==> !events[i].Close?
  }

  predicate EndsOpen(events: seq<Event>) {
    events == [] || !events[|events| - 1].Close?
  }

  lemma PrependOpen(first: seq<Event>, later: seq<Event>)
    requires forall e :: e in first ==> !e.Close?
    ensures OnlyLastCloses(later) ==> OnlyLastCloses(first + later)
    ensures EndsOpen(first + later) <==> EndsOpen(later)
  {
    assert forall i :: 0 <= i < |first| ==> (first + later)[i] in first;
  }

  /** A run reads all there is, or ends with the one close it met. */
  lemma {:induction false} ReadStopsAtClose(buffer: Bytes)
    ensures OnlyLastCloses(Read(buffer).0)
    ensures EndsOpen(Read(buffer).0) ==> Everything(Read(buffer).1) == ([], Read(buffer).1)
    decreases |buffer|
  {
    if ParseOne(buffer).Frame? && ParseOne(buffer).opcode != 0x8 {
      var p := ParseOne(buffer);
      ReadStopsAtClose(p.rest);
      PrependOpen(EventsOf(p.opcode, p.payload), Read(p.rest).0);
    }
  }

  class Receiver {
    var buffer: Bytes

    constructor ()
      ensures buffer == []
    {
      buffer := [];
    }

    /** A chunk arrives: every complete frame is handled, up to a close. */
    method Receive(chunk: Bytes) returns (events: seq<Event>)
      modifies this
      ensures (events, buffer) == Read(old(buffer) + chunk)
    {
      buffer := buffer + chunk;
      events := [];
      while |buffer| >= 2
        invariant events + Read(buffer).0 == Read(old(buffer) + chunk).0 && Read(buffer).1 == Read(old(buffer) + chunk).1
        decreases |buffer|
      {
        var parsed := ParseOne(buffer);
        if parsed.Incomplete? {
          assert events + [] == events;
          return;
        }
        buffer := parsed.rest;
        if parsed.opcode == 0x8 {
          events := events + [Close];
          return;
        }
        Assoc(events, EventsOf(parsed.opcode, parsed.payload), Read(buffer).0);
        if parsed.opcode == 0x9 {
          events := events + [Pong(parsed.payload)];
          continue;
        }
        if parsed.opcode != 0x1 {
          assert events + [] == events;
          continue;
        }
        events := events + [Text(parsed.payload)];
      }
      assert events + [] == events;
    }
  }

  // ---------------------------------------------------------------- chunks

  function Joined(chunks: seq<Bytes>): Bytes {
    if chunks == [] then [] else Joined(chunks[..|chunks| - 1]) + chunks[|chunks| - 1]
  }

  /** What a receiver has done and still holds after these chunks. */
  function Received(chunks: seq<Bytes>): (seq<Event>, Bytes) {
    if chunks == [] then ([], [])
    else
      var (events, buffer) := Received(chunks[..|chunks| - 1]);
      var (more, left) := Read(buffer + chunks[|chunks| - 1]);
      (events + more, left)
  }

  lemma {:induction false} ReceivedThenRest(chunks: seq<Bytes>)
    ensures var (events, left) := Received(chunks);
            Everything(Joined(chunks)) == (events + Everything(left).0, Everything(left).1)
  {
    if chunks != [] {
      var init, last := chunks[..|chunks| - 1], chunks[|chunks| - 1];
      var (events, buffer) := Received(init);
      var (more, left) := Read(buffer + last);
      ReceivedThenRest(init);
      EverythingConcat(Joined(init), last);
      EverythingConcat(buffer, last);
      ReadThenRest(buffer + last);
      var held := Everything(buffer);
      var then_ := Everything(held.1 + last).0;
      calc {
        Everything(Joined(chunks)).0;
        events + held.0 + then_;
        { Assoc(events, held.0, then_); }
        events + (held.0 + then_);
        events + (more + Everything(left).0);
        { Assoc(events, more, Everything(left).0); }
        events + more + Everything(left).0;
      }
    } else {
      assert Everything([]).0 == [] + Everything([]).0;
    }
  }

  /** What is still held has nothing to say, or the last thing done was to close. */
  lemma {:induction false} HeldOnlyAfterClose(chunks: seq<Bytes>)
    ensures var (events, left) := Received(chunks);
            Everything(left).0 == [] || (events != [] && events[|events| - 1].Close?)
  {
    if chunks != [] {
      var init, last := chunks[..|chunks| - 1], chunks[|chunks| - 1];
      HeldOnlyAfterClose(init);
      var (events, buffer) := Received(init);
      ReadStopsAtClose(buffer + last);
    }
  }

  /** Some frame that means something comes after a close. */
  predicate SpeaksAfterClose(stream: Bytes) {
    Everything(Read(stream).1).0 != []
  }

  /** Unless the stream speaks after a close, how it is cut does not matter. */
  lemma ChunksDoNotMatter(chunks: seq<Bytes>)
    requires !SpeaksAfterClose(Joined(chunks))
    ensures Received(chunks).0 == Read(Joined(chunks)).0
  {
    var stream := Joined(chunks);
    var (events, left) := Received(chunks);
    var (all, rest) := Read(stream);
    ReceivedThenRest(chunks);
    ReadThenRest(stream);
    ReadStopsAtClose(stream);
    HeldOnlyAfterClose(chunks);
    assert all == events + Everything(left).0;
    assert events != [] ==> all[|events| - 1] == events[|events| - 1];
  }

  /** If it does, cutting it right behind the close shows. */
  lemma CutBehindTheClose(stream: Bytes)
    requires SpeaksAfterClose(stream)
    ensures exists chunks :: Joined(chunks) == stream && Received(chunks).0 != Read(stream).0
  {
    var used, left := stream[..Used(stream)], Read(stream).1;
    LeftIsSuffix(stream);
    ReadUpTo(stream);
    SomethingToRead(left);
    TwoChunks(used, left);
    assert used + left == stream && [] + left == left;
    assert Received([used, left]).0 != Read(stream).0;
  }

  lemma OneChunk(a: Bytes)
    ensures Joined([a]) == a && Received([a]) == Read(a)
  {
    assert [a][..0] == [] && [] + a == a;
    assert Received([]) == ([], []) && Joined([]) == [];
    assert [] + Read(a).0 == Read(a).0;
  }

  lemma TwoChunks(a: Bytes, b: Bytes)
    ensures Joined([a, b]) == a + b
    ensures Received([a, b]).0 == Read(a).0 + Read(Read(a).1 + b).0
  {
    assert [a, b][..1] == [a];
    OneChunk(a);
  }

  /** How many bytes a run consumes. */
  function Used(stream: Bytes): (n: nat)
    ensures n <= |stream|
    decreases |stream|
  {
    match ParseOne(stream)
    case Incomplete => 0
    case Frame(opcode, _, rest) => End(stream) + if opcode == 0x8 then 0 else Used(rest)
  }

  lemma {:induction false} LeftIsSuffix(stream: Bytes)
    ensures Read(stream).1 == stream[Used(stream)..]
    decreases |stream|
  {
    if ParseOne(stream).Frame? && ParseOne(stream).opcode != 0x8 {
      LeftIsSuffix(ParseOne(stream).rest);
    }
  }

  /** The bytes a run consumed before a close give the same events again, and leave nothing. */
  lemma {:induction false} ReadUpTo(stream: Bytes)
    requires Everything(Read(stream).1).0 != []
    ensures Read(stream[..Used(stream)]) == (Read(stream).0, [])
    decreases |stream|
  {
    if ParseOne(stream).Frame? {
      var rest, end := ParseOne(stream).rest, End(stream);
      ParseCut(stream, Used(stream));
      if ParseOne(stream).opcode != 0x8 {
        ReadUpTo(rest);
        assert stream[end..Used(stream)] == rest[..Used(rest)];
      }
    }
  }

  /** Cutting the bytes behind a complete frame leaves that frame as it is. */
  lemma ParseCut(stream: Bytes, cut: nat)
    requires ParseOne(stream).Frame? && End(stream) <= cut <= |stream|
    ensures ParseOne(stream[..cut]) == ParseOne(stream).(rest := stream[End(stream)..cut])
  {
    assert stream[..cut][..cut] == stream[..cut];
    ParseAlike(stream, stream[..cut], cut);
    assert stream[..cut][End(stream)..] == stream[End(stream)..cut];
  }

  lemma {:induction false} SomethingToRead(buffer: Bytes)
    ensures Everything(buffer).0 != [] ==> Read(buffer).0 != []
    decreases |buffer|
  {
    if ParseOne(buffer).Frame? && ParseOne(buffer).opcode != 0x8 {
      SomethingToRead(ParseOne(buffer).rest);
    }
  }

  /** How a stream is cut is invisible exactly when it says nothing after a close. */
  lemma ChunkingIsInvisibleExactly(stream: Bytes)
    ensures (forall chunks :: Joined(chunks) == stream ==> Received(chunks).0 == Read(stream).0) <==> !SpeaksAfterClose(stream)
  {
    if SpeaksAfterClose(stream) {
      CutBehindTheClose(stream);
    } else {
      forall chunks | Joined(chunks) == stream ensures Received(chunks).0 == Read(stream).0 {
        ChunksDoNotMatter(chunks);
      }
    }
  }

  // ---------------------------------------------------------------- what a stream of frames says

  function Stream(wires: seq<Wired>): Bytes {
    if wires == [] then [] else wires[0].Encoded() + Stream(wires[1..])
  }

  /** A text, a ping or a close; every other frame says nothing. */
  predicate Speaks(w: Wired) {
    w.Opcode() in {1, 8, 9}
  }

  predicate Closes(w: Wired) {
    w.Opcode() == 8
  }

  /** Texts are delivered and pings are answered with their payload, in order, up to a close. */
  function Said(wires: seq<Wired>): seq<Event> {
    if wires == [] then []
    else if Closes(wires[0]) then [Close]
    else
      (match wires[0].Opcode() case 1 => [Text(wires[0].payload)] case 9 => [Pong(wires[0].payload)] case _ => [])
      + Said(wires[1..])
  }

  /** Nothing is said behind the first close. */
  predicate QuietAfterClose(wires: seq<Wired>) {
    wires == [] || if Closes(wires[0]) then forall w :: w in wires[1..] ==> !Speaks(w) else QuietAfterClose(wires[1..])
  }

  lemma {:induction false} SilentFrames(wires: seq<Wired>)
    ensures Everything(Stream(wires)).0 == [] <==> forall w :: w in wires ==> !Speaks(w)
  {
    if wires != [] {
      var first, later := EventsOf(wires[0].Opcode(), wires[0].payload), Everything(Stream(wires[1..])).0;
      FirstOfAll(wires);
      SilentFrames(wires[1..]);
      assert first + later == [] <==> first == [] && later == [];
      assert first == [] <==> !Speaks(wires[0]);
      assert forall w :: w in wires <==> w == wires[0] || w in wires[1..];
    }
  }

  lemma FirstOfAll(wires: seq<Wired>)
    requires wires != []
    ensures Everything(Stream(wires)).0 == EventsOf(wires[0].Opcode(), wires[0].payload) + Everything(Stream(wires[1..])).0
  {
    WireRoundTrip(wires[0], Stream(wires[1..]));
  }

  lemma {:induction false} StreamRoundTrip(wires: seq<Wired>)
    ensures Read(Stream(wires)).0 == Said(wires)
    ensures SpeaksAfterClose(Stream(wires)) <==> !QuietAfterClose(wires)
  {
    if wires != [] {
      WireRoundTrip(wires[0], Stream(wires[1..]));
      if Closes(wires[0]) {
        SilentFrames(wires[1..]);
      } else {
        StreamRoundTrip(wires[1..]);
      }
    }
  }

  /**
   * Frames in a row, of whatever masks, widths and opcodes, are handled in that order however their
   * bytes are cut, exactly when nothing is said behind a close.
   */
  lemma FramesArrive(wires: seq<Wired>)
    ensures (forall chunks :: Joined(chunks) == Stream(wires) ==> Received(chunks).0 == Said(wires)) <==> QuietAfterClose(wires)
  {
    StreamRoundTrip(wires);
    ChunkingIsInvisibleExactly(Stream(wires));
  }

  /** So texts that are sent arrive in order. */
  lemma {:induction false} TextsArrive(sent: seq<Wired>)
    requires forall w :: w in sent ==> w.Opcode() == 1
    ensures QuietAfterClose(sent) && |Said(sent)| == |sent|
    ensures forall i :: 0 <= i < |sent| ==> Said(sent)[i] == Text(sent[i].payload)
  {
    if sent != [] {
      assert sent[0] in sent;
      TextsArrive(sent[1..]);
    }
  }
}
