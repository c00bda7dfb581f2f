/** CRC-8 words (`extensions/chips/src/flyball_chips/_sensirion.py`): each 16-bit word followed by the
    checksum of its two bytes. */
module Crc {
  // The checksum.

  function Plus(a: bv8, b: bv8): bv8 {
    a ^ b
  }

  function Double(a: bv8): bv8 {
    a << 1
  }

  predicate Top(a: bv8) {
    a & 0x80 != 0
  }

  function Shift(crc: bv8): bv8 {
    if Top(crc) then Plus(Double(crc), 0x31) else Double(crc)
  }

  function Shifts(crc: bv8, n: nat): bv8
    decreases n
  {
    if n == 0 then crc else Shifts(Shift(crc), n - 1)
  }

  /** One byte of data taken in. */
  function Take(crc: bv8, byte: bv8): bv8 {
    Shifts(Plus(crc, byte), 8)
  }

  function Crc8(data: seq<bv8>, init: bv8): bv8
    decreases |data|
  {
    if data == [] then init else Crc8(data[1..], Take(init, data[0]))
  }

  // Over the bits, addition is exclusive or.

  lemma {:induction false} Group(a: bv8, b: bv8, c: bv8)
    ensures Plus(a, b) == Plus(b, a) && Plus(Plus(a, b), c) == Plus(a, Plus(b, c))
    ensures Plus(a, a) == 0 && Plus(a, 0) == a && Plus(Plus(a, b), b) == a
  {
  }

  lemma {:induction false} Parts(a: bv8, b: bv8)
    ensures Double(Plus(a, b)) == Plus(Double(a), Double(b))
    ensures Top(Plus(a, b)) == (Top(a) != Top(b))
  {
  }

  lemma {:induction false} ShiftIsLinear(a: bv8, b: bv8)
    ensures Shift(Plus(a, b)) == Plus(Shift(a), Shift(b))
  {
    hide Plus, Double, Top;
    var x, y := Double(a), Double(b);
    Parts(a, b);
    Group(x, y, 0x31);
    Group(x, 0x31, y);
    Group(y, 0x31, x);
    Group(Plus(x, 0x31), y, 0x31);
    Group(0x31, y, x);
    Group(0x31, 0x31, y);
    Group(Plus(x, y), 0x31, 0x31);
  }

  lemma {:induction false} ShiftIsInjective(a: bv8, b: bv8)
    requires Shift(a) == Shift(b)
    ensures a == b
  {
  }

  lemma {:induction false} ShiftsAreLinear(a: bv8, b: bv8, n: nat)
    ensures Shifts(Plus(a, b), n) == Plus(Shifts(a, n), Shifts(b, n))
    decreases n
  {
    hide Plus, Shift;
    if n > 0 {
      ShiftIsLinear(a, b);
      ShiftsAreLinear(Shift(a), Shift(b), n - 1);
    }
  }

  lemma {:induction false} ShiftsAreInjective(a: bv8, b: bv8, n: nat)
    requires Shifts(a, n) == Shifts(b, n)
    ensures a == b
    decreases n
  {
    hide Shift;
    if n > 0 {
      ShiftsAreInjective(Shift(a), Shift(b), n - 1);
      ShiftIsInjective(a, b);
    }
  }

  /** Taking in a byte is one to one, in the state and in the byte. */
  lemma {:induction false} TakeIsInjective(a: bv8, b: bv8, byte: bv8, other: bv8)
    requires Take(a, byte) == Take(b, other)
    ensures Plus(a, byte) == Plus(b, other)
    ensures (byte == other ==> a == b) && (a == b ==> byte == other)
  {
    hide Plus, Shifts;
    ShiftsAreInjective(Plus(a, byte), Plus(b, other), 8);
    Group(a, byte, 0);
    Group(b, other, 0);
    Group(byte, a, 0);
    Group(other, b, 0);
  }

  /** Different states stay different, whatever follows. */
  lemma {:induction false} StaysDifferent(data: seq<bv8>, a: bv8, b: bv8)
    requires a != b
    ensures Crc8(data, a) != Crc8(data, b)
    decreases |data|
  {
    hide Take;
    if data != [] {
      if Take(a, data[0]) == Take(b, data[0]) { TakeIsInjective(a, b, data[0], data[0]); }
      StaysDifferent(data[1..], Take(a, data[0]), Take(b, data[0]));
    }
  }

  lemma {:induction false} CrcAppends(a: seq<bv8>, b: seq<bv8>, init: bv8)
    ensures Crc8(a + b, init) == Crc8(b, Crc8(a, init))
    decreases |a|
  {
    hide Take;
    if a == [] {
      assert a + b == b;
    } else {
      assert (a + b)[1..] == a[1..] + b;
      CrcAppends(a[1..], b, Take(init, a[0]));
    }
  }

  lemma {:induction false} TwoBytes(a: bv8, b: bv8, init: bv8)
    ensures Crc8([a], init) == Take(init, a) && Crc8([a, b], init) == Take(Take(init, a), b)
  {
    hide Take;
    assert [a, b][1..] == [b] && [a][1..] == [] && [b][1..] == [];
    assert Crc8([b], Take(init, a)) == Crc8([], Take(Take(init, a), b));
    assert Crc8([a], init) == Crc8([], Take(init, a));
  }

  lemma {:induction false} InTheMiddle(before: seq<bv8>, changed: seq<bv8>, after: seq<bv8>, init: bv8)
    ensures Crc8(before + changed + after, init) == Crc8(after, Crc8(changed, Crc8(before, init)))
  {
    CrcAppends(before + changed, after, init);
    CrcAppends(before, changed, init);
  }

  /** Any change inside one byte changes the checksum, at any length and from any initial value. */
  lemma {:induction false} OneByteIsCaught(before: seq<bv8>, byte: bv8, other: bv8, after: seq<bv8>, init: bv8)
    requires byte != other
    ensures Crc8(before + [byte] + after, init) != Crc8(before + [other] + after, init)
  {
    hide Take, Crc8;
    var state := Crc8(before, init);
    InTheMiddle(before, [byte], after, init);
    InTheMiddle(before, [other], after, init);
    TwoBytes(byte, 0, state);
    TwoBytes(other, 0, state);
    if Take(state, byte) == Take(state, other) { TakeIsInjective(state, state, byte, other); }
    StaysDifferent(after, Take(state, byte), Take(state, other));
  }

  /** The last `k` bits of one byte and the first `8 - k` of the next: a burst no longer than eight. */
  predicate Burst(first: bv8, second: bv8, k: nat) {
    match k
    case 1 => first & 0xFE == 0 && second & 0x01 == 0
    case 2 => first & 0xFC == 0 && second & 0x03 == 0
    case 3 => first & 0xF8 == 0 && second & 0x07 == 0
    case 4 => first & 0xF0 == 0 && second & 0x0F == 0
    case 5 => first & 0xE0 == 0 && second & 0x1F == 0
    case 6 => first & 0xC0 == 0 && second & 0x3F == 0
    case 7 => first & 0x80 == 0 && second & 0x7F == 0
    case _ => false
  }

  function Eight(a: bv8): bv8 {
    Shift(Shift(Shift(Shift(Shift(Shift(Shift(Shift(a))))))))
  }

  lemma {:induction false} UnrolledShifts(a: bv8)
    ensures Shifts(a, 8) == Eight(a)
  {
  }

  lemma {:induction false} BurstDoesNotCancel(first: bv8, second: bv8, k: nat)
    requires Burst(first, second, k) && first != 0
    ensures Eight(first) != second
  {
  }

  lemma {:induction false} NothingShifts()
    ensures Eight(0) == 0
  {
  }

  /** So does any burst of up to eight bits across two bytes. */
  lemma {:induction false} BurstIsCaught(before: seq<bv8>, a: bv8, b: bv8, first: bv8, second: bv8, k: nat,
      after: seq<bv8>, init: bv8)
    requires Burst(first, second, k) && (first != 0 || second != 0)
    ensures Crc8(before + [a, b] + after, init) != Crc8(before + [Plus(a, first), Plus(b, second)] + after, init)
  {
    hide Crc8, Take, Plus, Burst;
    var s := Crc8(before, init);
    InTheMiddle(before, [a, b], after, init);
    InTheMiddle(before, [Plus(a, first), Plus(b, second)], after, init);
    TwoBytes(a, b, s);
    TwoBytes(Plus(a, first), Plus(b, second), s);
    BurstParts(s, a, b, first, second, k);
    StaysDifferent(after, Take(Take(s, a), b), Take(Take(s, Plus(a, first)), Plus(b, second)));
  }

  lemma {:induction false} BurstParts(s: bv8, a: bv8, b: bv8, first: bv8, second: bv8, k: nat)
    requires Burst(first, second, k) && (first != 0 || second != 0)
    ensures Take(Take(s, a), b) != Take(Take(s, Plus(a, first)), Plus(b, second))
  {
    hide Plus, Shifts, Eight, Burst;
    var t, u := Take(s, a), Take(s, Plus(a, first));
    var change := Shifts(first, 8);
    Group(s, a, first);
    ShiftsAreLinear(Plus(s, a), first, 8);
    assert u == Plus(t, change);
    if Take(t, b) == Take(u, Plus(b, second)) {
      TakeIsInjective(t, u, b, Plus(b, second));
      Cancels(t, b, change, second);
      UnrolledShifts(first);
      if first != 0 { BurstDoesNotCancel(first, second, k); } else { NothingShifts(); }
    }
  }

  lemma {:induction false} Cancels(t: bv8, b: bv8, change: bv8, second: bv8)
    requires Plus(t, b) == Plus(Plus(t, change), Plus(b, second))
    ensures change == second
  {
  }

  // It is the remainder by x^8 + x^5 + x^4 + 1.

  predicate Has(a: bv8, bit: bv8) {
    a & bit != 0
  }

  /** Bit `k`, the most significant first. */
  predicate Bit(a: bv8, k: nat) {
    match k
    case 0 => Has(a, 0x80)
    case 1 => Has(a, 0x40)
    case 2 => Has(a, 0x20)
    case 3 => Has(a, 0x10)
    case 4 => Has(a, 0x08)
    case 5 => Has(a, 0x04)
    case 6 => Has(a, 0x02)
    case 7 => Has(a, 0x01)
    case _ => false
  }

  /** A polynomial over two elements, its highest coefficient first; zero where there is none. */
  predicate At(p: seq<bool>, j: int) {
    0 <= j < |p| && p[j]
  }

  /** Coefficient `j` of `q` times x^8 + x^5 + x^4 + 1. */
  predicate Product(q: seq<bool>, j: int) {
    ((At(q, j) != At(q, j - 3)) != At(q, j - 4)) != At(q, j - 8)
  }

  /** `m` is `q` times the polynomial, and `r`. */
  ghost predicate Leaves(m: seq<bool>, q: seq<bool>, r: bv8) {
    forall j :: j >= 0 ==> LeavesAt(m, q, r, j)
  }

  predicate LeavesAt(m: seq<bool>, q: seq<bool>, r: bv8, j: int) {
    At(m, j) == (Product(q, j) != (|q| <= j < |q| + 8 && Bit(r, j - |q|)))
  }

  /** The bytes as one polynomial times x^8, the initial value added to its eight highest coefficients. */
  function Message(data: seq<bv8>, init: bv8): seq<bool> {
    seq(8 * |data| + 8, j requires 0 <= j < 8 * |data| + 8 =>
      (j < 8 * |data| && Bit(data[j / 8], j % 8)) != Bit(init, j))
  }

  lemma {:induction false} BitsAdd(a: bv8, b: bv8, k: nat)
    ensures Bit(Plus(a, b), k) == (Bit(a, k) != Bit(b, k))
  {
    hide Plus, Has;
    match k
    case 0 => OneBitAdds(a, b, 0x80);
    case 1 => OneBitAdds(a, b, 0x40);
    case 2 => OneBitAdds(a, b, 0x20);
    case 3 => OneBitAdds(a, b, 0x10);
    case 4 => OneBitAdds(a, b, 0x08);
    case 5 => OneBitAdds(a, b, 0x04);
    case 6 => OneBitAdds(a, b, 0x02);
    case 7 => OneBitAdds(a, b, 0x01);
    case _ =>
  }

  lemma {:induction false} OneBitAdds(a: bv8, b: bv8, bit: bv8)
    requires bit & (bit - 1) == 0
    ensures Has(Plus(a, b), bit) == (Has(a, bit) != Has(b, bit))
  {
  }

  lemma {:induction false} BitsShift(a: bv8, k: nat)
    ensures Bit(Shift(a), k) == (Bit(a, k + 1) != (Bit(a, 0) && (k == 2 || k == 3 || k == 7)))
  {
    hide Has, Shift;
    ShiftHas(a);
  }

  lemma {:induction false} ShiftHas(a: bv8)
    ensures Has(Shift(a), 0x80) == Has(a, 0x40) && Has(Shift(a), 0x40) == Has(a, 0x20)
    ensures Has(Shift(a), 0x20) == (Has(a, 0x10) != Has(a, 0x80)) && Has(Shift(a), 0x10) == (Has(a, 0x08) != Has(a, 0x80))
    ensures Has(Shift(a), 0x08) == Has(a, 0x04) && Has(Shift(a), 0x04) == Has(a, 0x02)
    ensures Has(Shift(a), 0x02) == Has(a, 0x01) && Has(Shift(a), 0x01) == Has(a, 0x80)
  {
  }

  /** A shift is one step of the long division. */
  lemma {:induction false} ShiftDivides(m: seq<bool>, q: seq<bool>, s: bv8)
    requires Leaves(m, q, s) && !At(m, |q| + 8)
    ensures Leaves(m, q + [Bit(s, 0)], Shift(s))
  {
    hide Bit, Shift;
    var u, longer := |q|, q + [Bit(s, 0)];
    forall j | j >= 0 ensures LeavesAt(m, longer, Shift(s), j) {
      assert LeavesAt(m, q, s, j);
      ProductMore(q, Bit(s, 0), j);
      if u < j <= u + 8 { BitsShift(s, j - u - 1); }
      NoBit(s);
    }
  }

  lemma {:induction false} NoBit(s: bv8)
    ensures !Bit(s, 8)
  {
  }

  lemma {:induction false} ProductMore(q: seq<bool>, b: bool, j: int)
    ensures Product(q + [b], j) == (Product(q, j) != (b && (j == |q| || j == |q| + 3 || j == |q| + 4 || j == |q| + 8)))
  {
    AtMore(q, b, j);
    AtMore(q, b, j - 3);
    AtMore(q, b, j - 4);
    AtMore(q, b, j - 8);
  }

  lemma {:induction false} AtMore(q: seq<bool>, b: bool, j: int)
    ensures At(q + [b], j) == if j == |q| then b else At(q, j)
  {
  }

  lemma {:induction false} ShiftsDivide(m: seq<bool>, q: seq<bool>, s: bv8, n: nat) returns (longer: seq<bool>)
    requires Leaves(m, q, s) && forall j :: j >= |q| + 8 ==> !At(m, j)
    ensures |longer| == |q| + n && Leaves(m, longer, Shifts(s, n))
    decreases n
  {
    hide Leaves, Shift, Bit;
    longer := q;
    if n > 0 {
      ShiftDivides(m, q, s);
      longer := ShiftsDivide(m, q + [Bit(s, 0)], Shift(s), n - 1);
    }
  }

  lemma {:induction false} TakesIn(before: seq<bv8>, last: bv8, init: bv8, q: seq<bool>, s: bv8)
    requires Leaves(Message(before, init), q, s) && |q| == 8 * |before|
    ensures Leaves(Message(before + [last], init), q, Plus(s, last))
  {
    hide Bit, Plus, Product;
    var m, longer := Message(before, init), Message(before + [last], init);
    forall j | j >= 0 ensures LeavesAt(longer, q, Plus(s, last), j) {
      assert LeavesAt(m, q, s, j);
      MessageMore(before, last, init, j);
      if |q| <= j < |q| + 8 { BitsAdd(s, last, j - |q|); }
    }
  }

  lemma {:induction false} MessageMore(before: seq<bv8>, last: bv8, init: bv8, j: nat)
    ensures var n := 8 * |before|;
      At(Message(before + [last], init), j)
      == (At(Message(before, init), j) != (n <= j < n + 8 && Bit(last, j - n)))
  {
    hide Bit;
    HighBits(init, j);
    var n := 8 * |before|;
    if j < n {
      assert (before + [last])[j / 8] == before[j / 8];
    } else if j < n + 8 {
      assert j / 8 == |before| && j % 8 == j - n;
      assert (before + [last])[j / 8] == last;
    }
  }

  lemma {:induction false} HighBits(a: bv8, k: nat)
    ensures k >= 8 ==> !Bit(a, k)
  {
  }

  /** The checksum of any bytes, from any initial value, is the remainder of that polynomial by
      x^8 + x^5 + x^4 + 1: with some quotient they make it up, coefficient by coefficient. */
  lemma {:induction false} CrcIsRemainder(data: seq<bv8>, init: bv8) returns (q: seq<bool>)
    ensures |q| == 8 * |data|
    ensures forall j :: 0 <= j < 8 * |data| + 8 ==>
      Message(data, init)[j] == (Product(q, j) != (8 * |data| <= j && Bit(Crc8(data, init), j - 8 * |data|)))
  {
    hide Crc8, Message, Bit, Product;
    q := Divide(data, init);
    var m := Message(data, init);
    MessageLength(data, init);
    forall j | 0 <= j < 8 * |data| + 8
      ensures m[j] == (Product(q, j) != (8 * |data| <= j && Bit(Crc8(data, init), j - 8 * |data|)))
    {
      assert LeavesAt(m, q, Crc8(data, init), j);
    }
  }

  lemma {:induction false} MessageLength(data: seq<bv8>, init: bv8)
    ensures |Message(data, init)| == 8 * |data| + 8
  {
  }

  lemma {:induction false} Divide(data: seq<bv8>, init: bv8) returns (q: seq<bool>)
    ensures |q| == 8 * |data| && Leaves(Message(data, init), q, Crc8(data, init))
    decreases |data|
  {
    q := [];
    if data == [] {
      NothingDivides(init);
    } else {
      hide Crc8, Leaves, Message, Shifts, Plus, At;
      var n := |data| - 1;
      var before, last := data[..n], data[n];
      q := Divide(before, init);
      var s := Crc8(before, init);
      assert data == before + [last];
      TakesIn(before, last, init, q, s);
      NothingAbove(data, init);
      q := ShiftsDivide(Message(data, init), q, Plus(s, last), 8);
      CrcAppends(before, [last], init);
      TwoBytes(last, 0, s);
    }
  }

  lemma {:induction false} NothingAbove(data: seq<bv8>, init: bv8)
    ensures data != [] ==> forall j :: j >= 8 * |data| ==> !At(Message(data, init), j)
  {
    hide Bit;
    forall j | j >= 8 * |data| && data != [] ensures !At(Message(data, init), j) { HighBits(init, j); }
  }

  lemma {:induction false} NothingDivides(init: bv8)
    ensures Leaves(Message([], init), [], Crc8([], init))
  {
    hide Bit;
    forall j: nat ensures LeavesAt(Message([], init), [], init, j) { HighBits(init, j); }
  }

  /** The values the datasheets give: 0x92 for 0xBEEF from 0xFF, and 0x7C for 0x683A from 0x00. */
  lemma {:induction false} DatasheetValues()
    ensures Crc8([0xBE, 0xEF], 0xFF) == 0x92 && Crc8([0x68, 0x3A], 0x00) == 0x7C
  {
    hide Shifts;
    TwoBytes(0xBE, 0xEF, 0xFF);
    UnrolledShifts(0xFF ^ 0xBE);
    UnrolledShifts(Eight(0xFF ^ 0xBE) ^ 0xEF);
    TwoBytes(0x68, 0x3A, 0x00);
    UnrolledShifts(0x68);
    UnrolledShifts(Eight(0x68) ^ 0x3A);
  }

  // Words.

  function High(word: bv16): bv8 {
    (word >> 8) as bv8
  }

  function Low(word: bv16): bv8 {
    (word & 0xFF) as bv8
  }

  function Join(high: bv8, low: bv8): bv16 {
    ((high as bv16) << 8) | low as bv16
  }

  lemma {:induction false} JoinsBack(word: bv16, high: bv8, low: bv8)
    ensures Join(High(word), Low(word)) == word
    ensures High(Join(high, low)) == high && Low(Join(high, low)) == low
  {
  }

  /** The most significant byte comes first. */
  lemma {:induction false} WordIsBigEndian(word: bv16)
    ensures word == 256 * (High(word) as bv16) + Low(word) as bv16
  {
  }

  function WordWithCrc(word: bv16, init: bv8): seq<bv8> {
    [High(word), Low(word), Crc8([High(word), Low(word)], init)]
  }

  function Encode(words: seq<bv16>, init: bv8): seq<bv8> {
    if words == [] then [] else WordWithCrc(words[0], init) + Encode(words[1..], init)
  }

  datatype Decoded = Words(words: seq<bv16>) | WrongLength | Mismatch(word: nat)

  /** What `crc_words` finds from word `i` on, in a frame of the right length. */
  function DecodeFrom(frame: seq<bv8>, count: nat, i: nat, init: bv8): Decoded
    requires |frame| == 3 * count && i <= count
    decreases count - i
  {
    if i == count then Words([])
    else if Crc8([frame[3 * i], frame[3 * i + 1]], init) != frame[3 * i + 2] then Mismatch(i)
    else
      var rest := DecodeFrom(frame, count, i + 1, init);
      if rest.Words? then Words([Join(frame[3 * i], frame[3 * i + 1])] + rest.words) else rest
  }

  function CrcWords(frame: seq<bv8>, count: nat, init: bv8): Decoded {
    if |frame| != 3 * count then WrongLength else DecodeFrom(frame, count, 0, init)
  }

  lemma {:induction false} EncodeLength(words: seq<bv16>, init: bv8)
    ensures |Encode(words, init)| == 3 * |words|
    decreases |words|
  {
    if words != [] { EncodeLength(words[1..], init); }
  }

  /** A frame decodes to some words exactly when it is their encoding. */
  lemma {:induction false} DecodesFrom(frame: seq<bv8>, count: nat, i: nat, init: bv8, words: seq<bv16>)
    requires |frame| == 3 * count && i <= count && |words| == count - i
    ensures DecodeFrom(frame, count, i, init) == Words(words) <==> frame[3 * i..] == Encode(words, init)
    decreases count - i
  {
    hide Crc8, Join, High, Low, WordWithCrc, Encode, DecodeFrom;
    if i == count {
      NothingLeft(frame, count, init);
      assert words == [];
    } else {
      DecodesFrom(frame, count, i + 1, init, words[1..]);
      OneWord(frame, i, words[0], init);
      DecodesOn(frame, count, i, init, words);
      EncodesOn(frame, i, init, words);
    }
  }

  lemma {:induction false} NothingLeft(frame: seq<bv8>, count: nat, init: bv8)
    requires |frame| == 3 * count
    ensures DecodeFrom(frame, count, count, init) == Words([]) && frame[3 * count..] == Encode([], init)
  {
  }

  lemma {:induction false} DecodesOn(frame: seq<bv8>, count: nat, i: nat, init: bv8, words: seq<bv16>)
    requires |frame| == 3 * count && i < count && words != []
    ensures DecodeFrom(frame, count, i, init) == Words(words) <==>
      && Crc8([frame[3 * i], frame[3 * i + 1]], init) == frame[3 * i + 2]
      && Join(frame[3 * i], frame[3 * i + 1]) == words[0]
      && DecodeFrom(frame, count, i + 1, init) == Words(words[1..])
  {
    hide Crc8, Join;
    var d := DecodeFrom(frame, count, i + 1, init);
    if d.Words? { FirstAndRest([Join(frame[3 * i], frame[3 * i + 1])], d.words, words[..1], words[1..]); }
    assert words == words[..1] + words[1..];
  }

  lemma {:induction false} FirstAndRest<T>(a: seq<T>, b: seq<T>, c: seq<T>, d: seq<T>)
    requires |a| == |c|
    ensures a + b == c + d <==> a == c && b == d
  {
    if a + b == c + d {
      assert a == (a + b)[..|a|] && c == (c + d)[..|a|];
      assert b == (a + b)[|a|..] && d == (c + d)[|a|..];
    }
  }

  lemma {:induction false} EncodesOn(frame: seq<bv8>, i: nat, init: bv8, words: seq<bv16>)
    requires 3 * i + 3 <= |frame| && words != []
    ensures frame[3 * i..] == Encode(words, init) <==>
      frame[3 * i..3 * i + 3] == WordWithCrc(words[0], init) && frame[3 * (i + 1)..] == Encode(words[1..], init)
  {
    hide Crc8, High, Low;
    assert frame[3 * i..] == frame[3 * i..3 * i + 3] + frame[3 * (i + 1)..];
    FirstAndRest(frame[3 * i..3 * i + 3], frame[3 * (i + 1)..], WordWithCrc(words[0], init), Encode(words[1..], init));
  }

  lemma {:induction false} OneWord(frame: seq<bv8>, i: nat, word: bv16, init: bv8)
    requires 3 * i + 3 <= |frame|
    ensures frame[3 * i..3 * i + 3] == WordWithCrc(word, init)
       <==> Join(frame[3 * i], frame[3 * i + 1]) == word && Crc8([frame[3 * i], frame[3 * i + 1]], init) == frame[3 * i + 2]
  {
    hide Crc8, Join, High, Low;
    var three := frame[3 * i..3 * i + 3];
    JoinsBack(word, three[0], three[1]);
    assert three == [frame[3 * i], frame[3 * i + 1], frame[3 * i + 2]];
  }

  /** Decoding an encoded list of words gives it back, and nothing but an encoding decodes. */
  lemma {:induction false} OnlyEncodingsDecode(frame: seq<bv8>, words: seq<bv16>, init: bv8)
    ensures CrcWords(frame, |words|, init) == Words(words) <==> frame == Encode(words, init)
  {
    EncodeLength(words, init);
    if |frame| == 3 * |words| {
      DecodesFrom(frame, |words|, 0, init, words);
      assert frame[0..] == frame;
    }
  }

  // The loops.

  method Compute(data: seq<bv8>, init: bv8) returns (crc: bv8)
    ensures crc == Crc8(data, init)
  {
    hide Shift;
    crc := init;
    var i := 0;
    assert data[0..] == data;
    while i < |data|
      invariant i <= |data| && Crc8(data[i..], crc) == Crc8(data, init)
    {
      assert data[i..][0] == data[i] && data[i..][1..] == data[i + 1..];
      ghost var taken := Take(crc, data[i]);
      crc := crc ^ data[i];
      var n := 8;
      while n > 0
        invariant 0 <= n <= 8 && Shifts(crc, n) == taken
      {
        crc := Shift(crc);
        n := n - 1;
      }
      i := i + 1;
    }
  }

  method Check(frame: seq<bv8>, count: nat, init: bv8) returns (decoded: Decoded)
    ensures decoded == CrcWords(frame, count, init)
  {
    hide Crc8, Join;
    if |frame| != count * 3 { return WrongLength; }
    var words: seq<bv16> := [];
    var i := 0;
    while i < count
      invariant i <= count
      invariant CrcWords(frame, count, init) ==
        var rest := DecodeFrom(frame, count, i, init);
        if rest.Words? then Words(words + rest.words) else rest
    {
      var crc := Compute([frame[3 * i], frame[3 * i + 1]], init);
      if crc != frame[3 * i + 2] { return Mismatch(i); }
      var word := Join(frame[3 * i], frame[3 * i + 1]);
      ghost var rest := DecodeFrom(frame, count, i + 1, init);
      if rest.Words? { assert words + ([word] + rest.words) == (words + [word]) + rest.words; }
      words := words + [word];
      i := i + 1;
    }
    assert words + [] == words;
    return Words(words);
  }
}
