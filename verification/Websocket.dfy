/** Websocket frames (`daemon/internal/wsclient/wsclient.go`): what the client reads and writes, against
    the framing of sections 5.2 to 5.4 of RFC 6455. */
module Websocket {
  type byte = x: int | 0 <= x < 256

  const MAX_FRAME := 16 * 1024 * 1024

  // Numbers on the wire, most significant byte first.

  function BigEndian(n: nat, width: nat): seq<byte>
    decreases width
  {
    if width == 0 then [] else BigEndian(n / 256, width - 1) + [n % 256]
  }

  function Number(bytes: seq<byte>): nat {
    if bytes == [] then 0 else Number(bytes[..|bytes| - 1]) * 256 + bytes[|bytes| - 1]
  }

  function Power(width: nat): nat {
    if width == 0 then 1 else 256 * Power(width - 1)
  }

  lemma {:induction false} ReadsNumber(n: nat, width: nat)
    requires n < Power(width)
    ensures |BigEndian(n, width)| == width && Number(BigEndian(n, width)) == n
    decreases width
  {
    if width > 0 {
      ReadsNumber(n / 256, width - 1);
      var bytes := BigEndian(n, width);
      assert bytes[..|bytes| - 1] == BigEndian(n / 256, width - 1);
    }
  }

  /** The most significant byte comes first. */
  lemma {:induction false} NumberOnward(first: byte, rest: seq<byte>)
    ensures Number([first] + rest) == first * Power(|rest|) + Number(rest)
    decreases |rest|
  {
    var all, n := [first] + rest, |rest|;
    if n == 0 {
      assert all[..0] == [];
    } else {
      NumberOnward(first, rest[..n - 1]);
      assert all[..n] == [first] + rest[..n - 1];
      OneMoreByte(first, Power(n - 1), Number(rest[..n - 1]), rest[n - 1]);
    }
  }

  lemma {:induction false} OneMoreByte(first: int, power: int, number: int, last: int)
    ensures (first * power + number) * 256 + last == first * (256 * power) + (number * 256 + last)
  {
  }

  // Reading.

  datatype Frame = Frame(fin: bool, opcode: nat, payload: seq<byte>)

  datatype Read = Got(frame: Frame, rest: seq<byte>) | Short | ReservedBits | MaskedByServer | TooLarge

  /** The payload, `length` bytes of what is left. */
  function ReadPayload(fin: bool, opcode: nat, length: nat, left: seq<byte>): Read {
    if length > MAX_FRAME then TooLarge
    else if |left| < length then Short
    else Got(Frame(fin, opcode, left[..length]), left[length..])
  }

  function ReadFrame(input: seq<byte>): Read {
    if |input| < 2 then Short
    else
      var fin, opcode, small, left := input[0] >= 128, input[0] % 16, input[1] % 128, input[2..];
      if input[0] / 16 % 8 != 0 then ReservedBits
      else if input[1] >= 128 then MaskedByServer
      else if small == 126 then
        if |left| < 2 then Short else ReadPayload(fin, opcode, Number(left[..2]), left[2..])
      else if small == 127 then
        if |left| < 8 then Short else ReadPayload(fin, opcode, Number(left[..8]), left[8..])
      else ReadPayload(fin, opcode, small, left)
  }

  /** What is refused, and why: a reserved bit set, or the mask bit, which a server's frame may not have. */
  lemma {:induction false} ReadRefuses(input: seq<byte>)
    ensures ReadFrame(input) == ReservedBits <==> |input| >= 2 && input[0] % 128 >= 16
    ensures ReadFrame(input) == MaskedByServer <==> |input| >= 2 && input[0] % 128 < 16 && input[1] >= 128
    ensures |input| < 2 ==> ReadFrame(input) == Short
  {
    hide Number;
    if |input| >= 2 { HighBits(input[0]); }
  }

  lemma {:induction false} HighBits(first: byte)
    ensures first / 16 % 8 != 0 <==> first % 128 >= 16
  {
  }

  // What a frame is on the wire: section 5.2, the shortest length there is.

  function Length(n: nat, masked: bool): seq<byte> {
    var flag := if masked then 128 else 0;
    if n < 126 then [flag + n]
    else if n < 65536 then [flag + 126] + BigEndian(n, 2)
    else [flag + 127] + BigEndian(n, 8)
  }

  function FirstByte(f: Frame): byte
    requires f.opcode < 16
  {
    (if f.fin then 128 else 0) + f.opcode
  }

  function ServerFrame(f: Frame): seq<byte>
    requires f.opcode < 16
  {
    [FirstByte(f)] + Length(|f.payload|, false) + f.payload
  }

  lemma {:induction false} Sizes()
    ensures Power(2) == 65536 && Power(8) == 0x1_0000_0000_0000_0000
  {
    assert Power(4) == 256 * (256 * Power(2));
    assert Power(6) == 256 * (256 * Power(4));
    assert Power(8) == 256 * (256 * Power(6));
  }

  /** The second byte and what extends it, for a length. */
  function Extension(n: nat): (byte, seq<byte>) {
    if n < 126 then (n, []) else if n < 65536 then (126, BigEndian(n, 2)) else (127, BigEndian(n, 8))
  }

  lemma {:induction false} ExtensionReads(n: nat)
    requires n < 0x1_0000_0000_0000_0000
    ensures var (small, ext) := Extension(n);
      && small < 128 && |ext| == (if small == 126 then 2 else if small == 127 then 8 else 0)
      && (if small < 126 then small else Number(ext)) == n
    ensures Length(n, false) == [Extension(n).0] + Extension(n).1 && Length(n, true) == [128 + Extension(n).0] + Extension(n).1
  {
    hide BigEndian, Number;
    Sizes();
    if 126 <= n < 65536 {
      ReadsNumber(n, 2);
    } else if n >= 65536 {
      ReadsNumber(n, 8);
    }
  }

  /** Any header a frame may have, its length in the shortest form or not. */
  lemma {:induction false} ReadsHeader(first: byte, small: byte, ext: seq<byte>, after: seq<byte>)
    requires first / 16 % 8 == 0 && small < 128 && |ext| == (if small == 126 then 2 else if small == 127 then 8 else 0)
    ensures ReadFrame([first, small] + ext + after)
         == ReadPayload(first >= 128, first % 16, if small < 126 then small else Number(ext), after)
  {
    hide Number, ReadPayload;
    HeaderParts(first, small, ext, after);
  }

  lemma {:induction false} HeaderParts(first: byte, second: byte, ext: seq<byte>, after: seq<byte>)
    ensures var input := [first, second] + ext + after;
      && |input| >= 2 && input[0] == first && input[1] == second && input[2..] == ext + after
    ensures (ext + after)[..|ext|] == ext && (ext + after)[|ext|..] == after
  {
  }

  lemma {:induction false} HeaderReads(f: Frame, tail: seq<byte>)
    requires f.opcode < 16 && |f.payload| < 0x1_0000_0000_0000_0000
    ensures ReadFrame(ServerFrame(f) + tail) == ReadPayload(f.fin, f.opcode, |f.payload|, f.payload + tail)
  {
    hide ReadFrame, Length, Extension, ReadPayload, Number;
    var (small, ext) := Extension(|f.payload|);
    ExtensionReads(|f.payload|);
    ReadsHeader(FirstByte(f), small, ext, f.payload + tail);
    assert ServerFrame(f) + tail == [FirstByte(f), small] + ext + (f.payload + tail);
  }

  /** A server's frame is read back as it was, whatever its length form, and nothing past it is taken;
      past the cap, and only then, it is refused. */
  lemma {:induction false} ReadsServerFrames(f: Frame, tail: seq<byte>)
    requires f.opcode < 16 && |f.payload| < 0x1_0000_0000_0000_0000
    ensures ReadFrame(ServerFrame(f) + tail) == if |f.payload| > 16_777_216 then TooLarge else Got(f, tail)
  {
    HeaderReads(f, tail);
    assert (f.payload + tail)[..|f.payload|] == f.payload && (f.payload + tail)[|f.payload|..] == tail;
  }

  // Writing: section 5.3, masked.

  function Bit(a: nat, b: nat): nat {
    if a % 2 == b % 2 then 0 else 1
  }

  /** Exclusive or, bit by bit. */
  function Xor(a: nat, b: nat, bits: nat): nat
    decreases bits
  {
    if bits == 0 then 0 else Bit(a, b) + 2 * Xor(a / 2, b / 2, bits - 1)
  }

  function Doubled(bits: nat): nat {
    if bits == 0 then 1 else 2 * Doubled(bits - 1)
  }

  lemma {:induction false} XorTwice(a: nat, b: nat, bits: nat)
    requires a < Doubled(bits)
    ensures Xor(a, b, bits) < Doubled(bits) && Xor(Xor(a, b, bits), b, bits) == a
    decreases bits
  {
    if bits > 0 {
      XorTwice(a / 2, b / 2, bits - 1);
      var x := Xor(a, b, bits);
      HalfAndBit(Bit(a, b), Xor(a / 2, b / 2, bits - 1));
      assert x % 2 == Bit(a, b) && x / 2 == Xor(a / 2, b / 2, bits - 1);
    }
  }

  lemma {:induction false} HalfAndBit(bit: nat, half: nat)
    requires bit < 2
    ensures (bit + 2 * half) % 2 == bit && (bit + 2 * half) / 2 == half
  {
  }

  function XorByte(a: byte, b: byte): byte {
    assert Doubled(8) == 16 * Doubled(4) && Doubled(4) == 16;
    XorTwice(a, b, 8);
    Xor(a, b, 8)
  }

  // On machine bytes it is the operator.

  function Value(x: bv8): nat {
    x as nat
  }

  lemma {:induction false} Shifted(a: bv8)
    ensures Value(a >> 1) == Value(a) / 2
  {
  }

  lemma {:induction false} LowBit(a: bv8)
    ensures Value(a & 1) == Value(a) % 2
  {
  }

  lemma {:induction false} ShiftsApart(a: bv8, b: bv8)
    ensures (a ^ b) >> 1 == (a >> 1) ^ (b >> 1) && (a ^ b) & 1 == (a & 1) ^ (b & 1)
  {
  }

  lemma {:induction false} OneBit(a: bv8, b: bv8)
    ensures Value((a & 1) ^ (b & 1)) == if Value(a & 1) == Value(b & 1) then 0 else 1
  {
  }

  lemma {:induction false} XorOfBits(a: bv8, b: bv8, bits: nat)
    requires Value(a) < Doubled(bits) && Value(b) < Doubled(bits)
    ensures Xor(Value(a), Value(b), bits) == Value(a ^ b)
    decreases bits
  {
    hide Value;
    if bits == 0 {
      NoBits(a, b);
    } else {
      Halves(a, b);
      XorOfBits(a >> 1, b >> 1, bits - 1);
    }
  }

  lemma {:induction false} NoBits(a: bv8, b: bv8)
    requires Value(a) == 0 && Value(b) == 0
    ensures Value(a ^ b) == 0
  {
  }

  lemma {:induction false} Halves(a: bv8, b: bv8)
    ensures Value(a >> 1) == Value(a) / 2 && Value(b >> 1) == Value(b) / 2
    ensures Value(a ^ b) == Bit(Value(a), Value(b)) + 2 * Value((a >> 1) ^ (b >> 1))
  {
    hide Value;
    Shifted(a);
    Shifted(b);
    Shifted(a ^ b);
    LowBit(a);
    LowBit(b);
    LowBit(a ^ b);
    ShiftsApart(a, b);
    OneBit(a, b);
  }

  lemma {:induction false} ValueIsByte(x: bv8)
    ensures Value(x) < 256
  {
  }

  lemma {:induction false} XorByteIs(x: bv8, y: bv8)
    ensures Value(x) < 256 && Value(y) < 256 && XorByte(Value(x), Value(y)) == Value(x ^ y)
  {
    hide Xor, Value;
    assert Doubled(8) == 16 * Doubled(4) && Doubled(4) == 16;
    ValueIsByte(x);
    ValueIsByte(y);
    XorOfBits(x, y, 8);
  }

  function Masked(payload: seq<byte>, mask: seq<byte>): seq<byte>
    requires |mask| == 4
  {
    seq(|payload|, i requires 0 <= i < |payload| => XorByte(payload[i], mask[i % 4]))
  }

  /** What is written for a payload byte is its exclusive or with the mask's, as machine bytes. */
  lemma {:induction false} MaskedBytes(payload: seq<byte>, mask: seq<byte>, i: nat, x: bv8, y: bv8)
    requires |mask| == 4 && i < |payload| && payload[i] == x as int && mask[i % 4] == y as int
    ensures |Masked(payload, mask)| == |payload| && Masked(payload, mask)[i] == (x ^ y) as int
  {
    hide XorByte;
    XorByteIs(x, y);
  }

  lemma {:induction false} MaskedTwice(payload: seq<byte>, mask: seq<byte>)
    requires |mask| == 4
    ensures Masked(Masked(payload, mask), mask) == payload
  {
    assert Doubled(8) == 16 * Doubled(4) && Doubled(4) == 16;
    forall i | 0 <= i < |payload| ensures Masked(Masked(payload, mask), mask)[i] == payload[i] {
      XorTwice(payload[i], mask[i % 4], 8);
    }
  }

  function ClientFrame(opcode: nat, payload: seq<byte>, mask: seq<byte>): seq<byte>
    requires opcode < 16 && |mask| == 4
  {
    [128 + opcode] + Length(|payload|, true) + mask + Masked(payload, mask)
  }

  /** The loop over the payload, and the three length forms. */
  method WriteFrame(opcode: nat, payload: seq<byte>, mask: seq<byte>) returns (out: seq<byte>)
    requires opcode < 16 && |mask| == 4
    ensures out == ClientFrame(opcode, payload, mask)
  {
    hide XorByte, BigEndian;
    var masked: seq<byte> := [];
    var i := 0;
    while i < |payload|
      invariant i <= |payload| && masked == Masked(payload, mask)[..i]
    {
      masked := masked + [XorByte(payload[i], mask[i % 4])];
      i := i + 1;
    }
    assert masked == Masked(payload, mask);
    out := [128 + opcode];
    var n := |payload|;
    if n < 126 {
      out := out + [128 + n];
    } else if n < 65536 {
      out := out + [128 + 126];
      out := out + BigEndian(n, 2);
      assert out == [128 + opcode] + Length(n, true);
    } else {
      out := out + [128 + 127];
      out := out + BigEndian(n, 8);
      assert out == [128 + opcode] + Length(n, true);
    }
    out := out + mask;
    out := out + masked;
  }

  /** How a server reads a client's frame: section 5.3 again, from the other side. */
  datatype Heard = Heard(frame: Frame, rest: seq<byte>) | NotHeard

  function Unmask(fin: bool, opcode: nat, length: nat, left: seq<byte>): Heard {
    if |left| < 4 + length then NotHeard
    else Heard(Frame(fin, opcode, Masked(left[4..4 + length], left[..4])), left[4 + length..])
  }

  function ServerReads(input: seq<byte>): Heard {
    if |input| < 2 || input[0] / 16 % 8 != 0 || input[1] < 128 then NotHeard
    else
      var fin, opcode, small, left := input[0] >= 128, input[0] % 16, input[1] % 128, input[2..];
      if small == 126 then if |left| < 2 then NotHeard else Unmask(fin, opcode, Number(left[..2]), left[2..])
      else if small == 127 then if |left| < 8 then NotHeard else Unmask(fin, opcode, Number(left[..8]), left[8..])
      else Unmask(fin, opcode, small, left)
  }

  lemma {:induction false} HearsHeader(first: byte, small: byte, ext: seq<byte>, after: seq<byte>)
    requires first / 16 % 8 == 0 && small < 128 && |ext| == (if small == 126 then 2 else if small == 127 then 8 else 0)
    ensures ServerReads([first, 128 + small] + ext + after)
         == Unmask(first >= 128, first % 16, if small < 126 then small else Number(ext), after)
  {
    hide Number, Unmask;
    HeaderParts(first, 128 + small, ext, after);
  }

  lemma {:induction false} ClientHeaderReads(opcode: nat, payload: seq<byte>, mask: seq<byte>, tail: seq<byte>)
    requires opcode < 16 && |mask| == 4 && |payload| < 0x1_0000_0000_0000_0000
    ensures ServerReads(ClientFrame(opcode, payload, mask) + tail)
         == Unmask(true, opcode, |payload|, mask + Masked(payload, mask) + tail)
  {
    hide ServerReads, Length, Extension, Unmask, Number, Masked;
    var (small, ext) := Extension(|payload|);
    ExtensionReads(|payload|);
    var after := mask + Masked(payload, mask) + tail;
    HearsHeader(128 + opcode, small, ext, after);
    assert ClientFrame(opcode, payload, mask) + tail == [128 + opcode, 128 + small] + ext + after;
  }

  /** A server gets from what the client wrote the payload it was given, whatever the mask. */
  lemma {:induction false} ServerHears(opcode: nat, payload: seq<byte>, mask: seq<byte>, tail: seq<byte>)
    requires opcode < 16 && |mask| == 4 && |payload| < 0x1_0000_0000_0000_0000
    ensures ServerReads(ClientFrame(opcode, payload, mask) + tail) == Heard(Frame(true, opcode, payload), tail)
  {
    hide ServerReads, ClientFrame, XorByte;
    ClientHeaderReads(opcode, payload, mask, tail);
    var n, masked := |payload|, Masked(payload, mask);
    var after := mask + masked + tail;
    assert after[4..4 + n] == masked && after[..4] == mask && after[4 + n..] == tail;
    MaskedTwice(payload, mask);
  }

  // The examples of section 5.7.

  const HELLO: seq<byte> := [0x48, 0x65, 0x6c, 0x6c, 0x6f]

  /** The second and what follows it: one byte, or 126 and two, or 127 and eight. */
  lemma {:induction false} LengthExamples()
    ensures Length(5, false) == [0x05] && Length(5, true) == [0x85]
    ensures Length(256, false) == [0x7e, 0x01, 0x00] && Length(65536, false) == [0x7f, 0, 0, 0, 0, 0, 1, 0, 0]
  {
    hide BigEndian;
    OneAfterZeros(1);
    OneAfterZeros(6);
    OneMoreDigit(1, 1);
    OneMoreDigit(1, 6);
    OneMoreDigit(256, 7);
  }

  lemma {:induction false} OneMoreDigit(n: nat, width: nat)
    ensures BigEndian(n * 256, width + 1) == BigEndian(n, width) + [0]
  {
  }

  lemma {:induction false} OneAfterZeros(width: nat)
    requires width == 1 || width == 6
    ensures BigEndian(1, width) == if width == 1 then [1] else [0, 0, 0, 0, 0, 1]
  {
    if width == 6 {
      assert BigEndian(0, 3) == [0, 0, 0] by { assert BigEndian(0, 1) == [0]; }
      assert BigEndian(0, 5) == [0, 0, 0, 0, 0] by { assert BigEndian(0, 4) == [0, 0, 0, 0]; }
    }
  }

  lemma {:induction false} XorOf(x: bv8, y: bv8, z: bv8)
    requires x ^ y == z
    ensures x as int < 256 && y as int < 256 && XorByte(x as int, y as int) == z as int
  {
    hide XorByte;
    XorByteIs(x, y);
  }

  lemma {:induction false} MaskedHello()
    ensures Masked(HELLO, [0x37, 0xfa, 0x21, 0x3d]) == [0x7f, 0x9f, 0x4d, 0x51, 0x58]
  {
    hide XorByte;
    XorOf(0x48, 0x37, 0x7f);
    XorOf(0x65, 0xfa, 0x9f);
    XorOf(0x6c, 0x21, 0x4d);
    XorOf(0x6c, 0x3d, 0x51);
    XorOf(0x6f, 0x37, 0x58);
  }

  /** "Hello" as a server sends it, whole and in two fragments, and as a client does; a ping, and the pong;
      nothing in binary, and a close. */
  lemma {:induction false} HelloExamples()
    ensures ServerFrame(Frame(true, TEXT, HELLO)) == [0x81, 0x05, 0x48, 0x65, 0x6c, 0x6c, 0x6f]
    ensures ServerFrame(Frame(false, TEXT, HELLO[..3])) == [0x01, 0x03, 0x48, 0x65, 0x6c]
    ensures ServerFrame(Frame(true, CONTINUATION, HELLO[3..])) == [0x80, 0x02, 0x6c, 0x6f]
    ensures ServerFrame(Frame(true, PING, HELLO)) == [0x89, 0x05, 0x48, 0x65, 0x6c, 0x6c, 0x6f]
    ensures ServerFrame(Frame(true, BINARY, [])) == [0x82, 0x00] && ServerFrame(Frame(true, CLOSE, [])) == [0x88, 0x00]
    ensures ClientFrame(TEXT, HELLO, [0x37, 0xfa, 0x21, 0x3d])
         == [0x81, 0x85, 0x37, 0xfa, 0x21, 0x3d, 0x7f, 0x9f, 0x4d, 0x51, 0x58]
    ensures ClientFrame(10, HELLO, [0x37, 0xfa, 0x21, 0x3d])
         == [0x8a, 0x85, 0x37, 0xfa, 0x21, 0x3d, 0x7f, 0x9f, 0x4d, 0x51, 0x58]
  {
    hide BigEndian, Masked;
    MaskedHello();
  }

  // Messages: section 5.4, fragments with control frames between them.

  const CONTINUATION := 0
  const TEXT := 1
  const BINARY := 2
  const CLOSE := 8
  const PING := 9

  datatype Message = Message(payload: seq<byte>, rest: seq<byte>, pongs: seq<seq<byte>>) | Ended | Failed(why: Read)

  predicate IsData(opcode: nat) {
    opcode == CONTINUATION || opcode == TEXT
  }

  function ReadMessage(input: seq<byte>): Message
    decreases |input|
  {
    var read := ReadFrame(input);
    if !read.Got? then Failed(read)
    else
      var f := read.frame;
      assert |read.rest| < |input|;
      if f.opcode == CLOSE then Ended
      else if IsData(f.opcode) && f.fin then Message(f.payload, read.rest, [])
      else
        var more := ReadMessage(read.rest);
        if !more.Message? then more
        else if IsData(f.opcode) then Message(f.payload + more.payload, more.rest, more.pongs)
        else if f.opcode == PING then Message(more.payload, more.rest, [f.payload] + more.pongs)
        else more
  }

  function Wire(frames: seq<Frame>): seq<byte>
    requires forall i :: 0 <= i < |frames| ==> frames[i].opcode < 16
  {
    if frames == [] then [] else ServerFrame(frames[0]) + Wire(frames[1..])
  }

  function Joined(frames: seq<Frame>): seq<byte> {
    if frames == [] then [] else (if IsData(frames[0].opcode) then frames[0].payload else []) + Joined(frames[1..])
  }

  function Pings(frames: seq<Frame>): seq<seq<byte>> {
    if frames == [] then [] else (if frames[0].opcode == PING then [frames[0].payload] else []) + Pings(frames[1..])
  }

  /** One message: data frames of which only the last, which ends it, is final; no close among them; and
      frames within the cap. */
  ghost predicate OneMessage(frames: seq<Frame>) {
    && frames != []
    && (forall i :: 0 <= i < |frames| ==> frames[i].opcode < 16 && frames[i].opcode != CLOSE && |frames[i].payload| <= MAX_FRAME)
    && (forall i :: 0 <= i < |frames| - 1 ==> IsData(frames[i].opcode) ==> !frames[i].fin)
    && IsData(frames[|frames| - 1].opcode) && frames[|frames| - 1].fin
  }

  /** However a server fragments a message, and whatever control frames come between, the client reads
      its whole payload, answers each ping with its own payload, in order, and takes nothing more. */
  lemma {:induction false} Reassembles(frames: seq<Frame>, tail: seq<byte>)
    requires OneMessage(frames)
    ensures ReadMessage(Wire(frames) + tail) == Message(Joined(frames), tail, Pings(frames))
    decreases |frames|
  {
    hide ReadFrame, ServerFrame;
    var f, rest := frames[0], frames[1..];
    assert Wire(frames) + tail == ServerFrame(f) + (Wire(rest) + tail);
    ReadsServerFrames(f, Wire(rest) + tail);
    if |frames| == 1 {
      assert Wire(rest) + tail == tail;
      assert Joined(rest) == [] && f.payload + [] == f.payload;
    } else {
      Reassembles(rest, tail);
      assert [] + Joined(rest) == Joined(rest) && [] + Pings(rest) == Pings(rest);
    }
  }

  lemma {:induction false} MessageShrinks(input: seq<byte>)
    ensures ReadMessage(input).Message? ==> |ReadMessage(input).rest| < |input|
    decreases |input|
  {
    hide ReadFrame;
    Shrinks(input);
    if ReadFrame(input).Got? { MessageShrinks(ReadFrame(input).rest); }
  }

  /** One binary message: whole, or a first frame and its continuations, control frames between. */
  ghost predicate OneBinary(frames: seq<Frame>) {
    && frames != [] && frames[0].opcode == BINARY && |frames[0].payload| <= MAX_FRAME
    && (frames[0].fin <==> |frames| == 1)
    && (|frames| > 1 ==> OneMessage(frames[1..]) && forall i :: 1 <= i < |frames| ==> frames[i].opcode != TEXT)
  }

  /** A binary message is passed over, as what is not text should be, exactly when it is not fragmented. Of
      one that is, all but the first fragment is returned as if it were a text message. */
  lemma {:induction false} BinaryIsSkippedIff(frames: seq<Frame>, tail: seq<byte>)
    requires OneBinary(frames)
    ensures ReadMessage(Wire(frames) + tail) == ReadMessage(tail) <==> frames[0].fin
    ensures !frames[0].fin ==> ReadMessage(Wire(frames) + tail) == Message(Joined(frames), tail, Pings(frames))
  {
    hide ReadFrame, ServerFrame;
    var f, rest := frames[0], frames[1..];
    assert Wire(frames) + tail == ServerFrame(f) + (Wire(rest) + tail);
    ReadsServerFrames(f, Wire(rest) + tail);
    MessageShrinks(tail);
    if f.fin {
      assert Wire(rest) + tail == tail;
    } else {
      Reassembles(rest, tail);
      assert [] + Joined(rest) == Joined(rest) && [] + Pings(rest) == Pings(rest);
    }
  }

  lemma {:induction false} BinaryComesBack()
    ensures ReadMessage(Wire([Frame(false, BINARY, [7]), Frame(true, CONTINUATION, [9])])) == Message([9], [], [])
  {
    var first, last := Frame(false, BINARY, [7]), Frame(true, CONTINUATION, [9]);
    var frames := [first, last];
    assert frames[1..] == [last];
    BinaryIsSkippedIff(frames, []);
    assert Wire(frames) + [] == Wire(frames);
    assert Joined([last]) == [9] && Pings([last]) == [] by { assert [last][1..] == []; }
    assert Joined(frames) == [] + [9] && Pings(frames) == [];
  }

  /** The loop as written, a fragment that does not end the message read on by a call to itself. */
  class Conn {
    var input: seq<byte>
    var pongs: seq<seq<byte>>

    constructor (input: seq<byte>)
      ensures this.input == input && pongs == []
    {
      this.input, pongs := input, [];
    }

    method NextMessage() returns (message: Message)
      modifies this
      ensures var all := ReadMessage(old(input));
        if all.Message? then message == Message(all.payload, all.rest, []) && input == all.rest && pongs == old(pongs) + all.pongs
        else message == all
      decreases |input|
    {
      hide ReadFrame;
      ghost var whole := ReadMessage(input);
      while true
        invariant |input| <= |old(input)|
        invariant var left := ReadMessage(input);
          if whole.Message? then
            left.Message? && left.payload == whole.payload && left.rest == whole.rest && pongs + left.pongs == old(pongs) + whole.pongs
          else left == whole
        decreases |input|
      {
        ghost var left := ReadMessage(input);
        var read := ReadFrame(input);
        Shrinks(input);
        if !read.Got? { return Failed(read); }
        input := read.rest;
        var f := read.frame;
        if f.opcode == CLOSE { return Ended; }
        if f.opcode == PING {
          if left.Message? {
            assert pongs + left.pongs == (pongs + [f.payload]) + ReadMessage(input).pongs;
          }
          pongs := pongs + [f.payload];
          continue;
        }
        if IsData(f.opcode) {
          if f.fin { assert pongs + [] == pongs; return Message(f.payload, input, []); }
          ghost var before := pongs;
          var rest := NextMessage();
          if !rest.Message? { return rest; }
          return Message(f.payload + rest.payload, rest.rest, []);
        }
      }
    }
  }

  lemma {:induction false} Shrinks(input: seq<byte>)
    ensures ReadFrame(input).Got? ==> |ReadFrame(input).rest| < |input|
  {
  }
}
