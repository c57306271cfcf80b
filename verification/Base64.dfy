/** Sequences of bits, most significant first. */
module Bits {
  import opened Octets

  /** The lowest `width` bits of a number. */
  function BitsOf(n: nat, width: nat): (s: seq<bool>)
    ensures |s| == width
  {
    if width == 0 then [] else BitsOf(n / 2, width - 1) + [n % 2 == 1]
  }

  function Number(s: seq<bool>): nat
  {
    if s == [] then 0 else 2 * Number(s[..|s| - 1]) + if s[|s| - 1] then 1 else 0
  }

  function Shift(n: nat, k: nat): nat
  {
    if k == 0 then n else Shift(n / 2, k - 1)
  }

  function Power(k: nat): (p: nat)
    ensures p > 0
  {
    if k == 0 then 1 else 2 * Power(k - 1)
  }

  lemma {:induction false} BitsSplit(n: nat, width: nat, low: nat)
    requires low <= width
    ensures BitsOf(n, width) == BitsOf(Shift(n, low), width - low) + BitsOf(n, low)
  {
    if low > 0 {
      BitsSplit(n / 2, width - 1, low - 1);
      assert BitsOf(Shift(n / 2, low - 1), width - low) + (BitsOf(n / 2, low - 1) + [n % 2 == 1])
          == BitsOf(Shift(n / 2, low - 1), width - low) + BitsOf(n / 2, low - 1) + [n % 2 == 1];
    } else {
      assert BitsOf(n, width) + [] == BitsOf(n, width);
    }
  }

  lemma {:induction false} NumberOfBits(n: nat, width: nat)
    requires n < Power(width)
    ensures Number(BitsOf(n, width)) == n
  {
    if width > 0 {
      NumberOfBits(n / 2, width - 1);
      assert BitsOf(n, width)[..width - 1] == BitsOf(n / 2, width - 1);
    }
  }

  lemma {:induction false} BitsOfNumber(s: seq<bool>)
    ensures Number(s) < Power(|s|) && BitsOf(Number(s), |s|) == s
  {
    if s != [] {
      BitsOfNumber(s[..|s| - 1]);
      assert Number(s) / 2 == Number(s[..|s| - 1]);
      assert s == s[..|s| - 1] + [s[|s| - 1]];
    }
  }

  /** Only the bits that are asked for matter. */
  lemma {:induction false} LowBitsOnly(n: nat, m: nat, width: nat)
    ensures BitsOf(n + m * Power(width), width) == BitsOf(n, width)
  {
    if width > 0 {
      var p := m * Power(width - 1);
      assert m * Power(width) == 2 * p;
      assert (n + 2 * p) / 2 == n / 2 + p && (n + 2 * p) % 2 == n % 2;
      LowBitsOnly(n / 2, m, width - 1);
    }
  }

  // ----- bytes -----

  function CompleteBytes(s: seq<bool>): seq<byte>
  {
    if |s| < 8 then [] else BitsOfNumber(s[..8]); assert Power(8) == 256; [Number(s[..8])] + CompleteBytes(s[8..])
  }

  /** The bits after the last complete byte. */
  function Rest(s: seq<bool>): (r: seq<bool>)
    ensures |r| < 8
  {
    if |s| < 8 then s else Rest(s[8..])
  }

  lemma {:induction false} BytesAndRest(s: seq<bool>)
    ensures |s| == 8 * |CompleteBytes(s)| + |Rest(s)|
  {
    if |s| >= 8 { BytesAndRest(s[8..]); }
  }

  lemma FirstByte(s: seq<bool>, t: seq<bool>)
    requires |s| == 8
    ensures CompleteBytes(s + t) == [Number(s)] + CompleteBytes(t)
    ensures Rest(s + t) == Rest(t)
  {
    assert (s + t)[..8] == s && (s + t)[8..] == t;
  }

  lemma ByteAndLess(s: seq<bool>, t: seq<bool>)
    requires |s| == 8 && |t| < 8
    ensures CompleteBytes(s + t) == [Number(s)] && Rest(s + t) == t
  {
    FirstByte(s, t);
  }

  /** Taking off complete bytes as the bits arrive gives the same bytes, and leaves the same rest. */
  lemma {:induction false} CompleteConcat(s: seq<bool>, t: seq<bool>)
    ensures CompleteBytes(s + t) == CompleteBytes(s) + CompleteBytes(Rest(s) + t)
    ensures Rest(s + t) == Rest(Rest(s) + t)
  {
    if |s| >= 8 {
      assert (s + t)[..8] == s[..8] && (s + t)[8..] == s[8..] + t;
      CompleteConcat(s[8..], t);
    }
  }

  function BitsOfBytes(bs: seq<byte>): seq<bool>
  {
    if bs == [] then [] else BitsOf(bs[0], 8) + BitsOfBytes(bs[1..])
  }

  lemma {:induction false} BytesBack(bs: seq<byte>, tail: seq<bool>)
    requires |tail| < 8
    ensures CompleteBytes(BitsOfBytes(bs) + tail) == bs
  {
    if bs == [] {
      assert [] + tail == tail;
    } else {
      var all := BitsOfBytes(bs) + tail;
      assert all[..8] == BitsOf(bs[0], 8) && all[8..] == BitsOfBytes(bs[1..]) + tail;
      assert Power(8) == 256;
      NumberOfBits(bs[0], 8);
      BytesBack(bs[1..], tail);
    }
  }
}

/**
 Streaming base64 decoding: a machine of four steps that keeps the bits of the byte it
 has begun between characters and between calls, and writes its output in place.
 */
module Base64 {
  import opened Arithmetic
  import opened Octets
  import opened Sequences
  import opened Bits

  // ----- what a character stands for -----

  function Run(first: int, count: nat): (s: seq<int>)
    ensures |s| == count && forall i :: 0 <= i < count ==> s[i] == first + i
  {
    seq(count, i => first + i)
  }

  /** The lookup table, for the characters from 43 to 122. */
  const DECODING: seq<int> :=
    [62, -1, -1, -1, 63] + Run(52, 10) + [-1, -1, -1, -2, -1, -1, -1] + Run(0, 26)
    + [-1, -1, -1, -1, -1, -1] + Run(26, 26)

  /** A byte read as a signed character. */
  function Signed(x: int): (c: int)
    ensures -128 <= c < 128
  {
    if x % 256 < 128 then x % 256 else x % 256 - 256
  }

  /**
   The value of a character; negative if it has none. The upper bound is tested with `>`,
   so one character reads the cell behind the table, which holds some character `beyond`.
   */
  function DecodeValue(b: byte, beyond: int): int
  {
    var v := Signed(Signed(b) - 43);
    if v < 0 || v > |DECODING| then -1
    else if v == |DECODING| then beyond
    else DECODING[v]
  }

  const ONE_PAST := 123

  /** Section 4 of RFC 4648. */
  function AlphabetCharacter(v: nat): (b: byte)
    requires v < 64
  {
    if v < 26 then 65 + v
    else if v < 52 then 97 + (v - 26)
    else if v < 62 then 48 + (v - 52)
    else if v == 62 then 43 else 47
  }

  function AlphabetValue(b: byte): (v: int)
    ensures -1 <= v < 64
    ensures v >= 0 ==> AlphabetCharacter(v) == b
  {
    if 65 <= b < 91 then b - 65
    else if 97 <= b < 123 then b - 97 + 26
    else if 48 <= b < 58 then b - 48 + 52
    else if b == 43 then 62
    else if b == 47 then 63
    else -1
  }

  lemma TableEntry(v: nat)
    requires v < 80
    ensures |DECODING| == 80
    ensures DECODING[v] ==
      if v < 5 then [62, -1, -1, -1, 63][v]
      else if v < 15 then 52 + (v - 5)
      else if v < 22 then [-1, -1, -1, -2, -1, -1, -1][v - 15]
      else if v < 48 then v - 22
      else if v < 54 then -1
      else 26 + (v - 54)
  {
    var signs, digits := [62, -1, -1, -1, 63] + Run(52, 10), [-1, -1, -1, -2, -1, -1, -1];
    assert |signs| == 15 && (5 <= v < 15 ==> signs[v] == 52 + (v - 5));
    var upper := signs + digits + Run(0, 26);
    assert |upper| == 48;
    assert DECODING == upper + [-1, -1, -1, -1, -1, -1] + Run(26, 26);
  }

  lemma Looked(b: byte, beyond: int)
    ensures |DECODING| == 80
    ensures 43 <= b < ONE_PAST ==> DecodeValue(b, beyond) == DECODING[b - 43]
    ensures b < 43 || b > ONE_PAST ==> DecodeValue(b, beyond) == -1
    ensures b == ONE_PAST ==> DecodeValue(b, beyond) == beyond
  {
    TableEntry(0);
    if b < 43 || b >= 128 {
      assert Signed(Signed(b) - 43) < 0 || Signed(Signed(b) - 43) > 80;
    } else {
      assert Signed(Signed(b) - 43) == b - 43;
    }
  }

  /** Apart from one byte the table is the alphabet. */
  lemma TableIsAlphabet(b: byte, beyond: int)
    requires b != ONE_PAST
    ensures if AlphabetValue(b) < 0 then DecodeValue(b, beyond) < 0 else DecodeValue(b, beyond) == AlphabetValue(b)
  {
    Looked(b, beyond);
    if 43 <= b < ONE_PAST {
      var v := b - 43;
      TableEntry(v);
      if v < 5 {
        assert v == 0 || v == 1 || v == 2 || v == 3 || v == 4;
      } else if 15 <= v < 22 {
        assert v == 15 || v == 16 || v == 17 || v == 18 || v == 19 || v == 20 || v == 21;
      }
    }
  }

  lemma OnePastTheTable(beyond: int)
    ensures DecodeValue(ONE_PAST, beyond) == beyond && AlphabetValue(ONE_PAST) < 0
  {
    Looked(ONE_PAST, beyond);
  }

  // ----- bytes put together from bits -----

  /** The bitwise `or` of two numbers. */
  function Or(a: nat, b: nat): nat
  {
    if a == 0 && b == 0 then 0
    else 2 * Or(a / 2, b / 2) + if a % 2 == 1 || b % 2 == 1 then 1 else 0
  }

  lemma {:induction false} OrZero(b: nat)
    ensures Or(0, b) == b
  {
    if b > 0 { OrZero(b / 2); }
  }

  /** Numbers with no bits in common are added. */
  lemma {:induction false} OrDisjoint(m: nat, b: nat, k: nat)
    requires b < Power(k)
    ensures Or(m * Power(k), b) == m * Power(k) + b
  {
    if k == 0 {
      OrZero(m);
      OrSymmetric(m, 0);
    } else {
      var p := m * Power(k - 1);
      assert m * Power(k) == 2 * p;
      assert 2 * p / 2 == p && 2 * p % 2 == 0;
      OrDisjoint(m, b / 2, k - 1);
    }
  }

  lemma {:induction false} OrSymmetric(a: nat, b: nat)
    ensures Or(a, b) == Or(b, a)
    decreases a + b
  {
    if a > 0 || b > 0 { OrSymmetric(a / 2, b / 2); }
  }

  lemma Powers()
    ensures Power(0) == 1 && Power(2) == 4 && Power(4) == 16 && Power(6) == 64 && Power(8) == 256
  {
    assert Power(1) == 2 && Power(3) == 8 && Power(5) == 32 && Power(7) == 128;
  }

  lemma HalfOf(p: nat, y: nat)
    ensures (2 * p + y) / 2 == p + y / 2
  {}

  lemma OneShift(n: nat, half: nat, k: nat)
    requires k > 0 && n / 2 == half
    ensures Shift(n, k) == Shift(half, k - 1)
  {}

  lemma {:induction false} ShiftOut(m: nat, y: nat, k: nat)
    requires y < Power(k)
    ensures Shift(m * Power(k) + y, k) == m
  {
    if k > 0 {
      var p := m * Power(k - 1);
      assert m * Power(k) == 2 * p;
      HalfOf(p, y);
      OneShift(m * Power(k) + y, p + y / 2, k);
      ShiftOut(m, y / 2, k - 1);
    }
  }

  /** A number put together from its highest and its lowest bits. */
  lemma JoinBits(m: nat, y: nat, width: nat, k: nat)
    requires k <= width && y < Power(k)
    ensures BitsOf(m * Power(k) + y, width) == BitsOf(m, width - k) + BitsOf(y, k)
  {
    BitsSplit(m * Power(k) + y, width, k);
    ShiftOut(m, y, k);
    LowBitsOnly(y, m, k);
  }

  /** The sextet of a fragment is its lowest six bits. */
  lemma SextetOnly(f: nat)
    ensures BitsOf(f, 6) == BitsOf(f % 64, 6)
  {
    Powers();
    LowBitsOnly(f % 64, f / 64, 6);
  }

  /** The highest and the lowest bits of a sextet. */
  lemma SextetParts(f: nat, h: nat, l: nat, low: nat)
    requires low <= 6 && l < Power(low) && f % 64 == h * Power(low) + l
    ensures BitsOf(f, 6) == BitsOf(h, 6 - low) + BitsOf(l, low)
  {
    SextetOnly(f);
    JoinBits(h, l, 6, low);
  }

  // ----- the four steps -----

  datatype Step = StepA | StepB | StepC | StepD

  /** How many bits of a byte have been begun before a step. */
  function Width(step: Step): nat
  {
    match step
    case StepA => 0
    case StepB => 6
    case StepC => 4
    case StepD => 2
  }

  /** The bits begun. */
  function Pending(step: Step, plainchar: byte): (s: seq<bool>)
    ensures |s| == Width(step)
  {
    BitsOf(plainchar, 8)[..Width(step)]
  }

  /** The rest of a begun byte is zero; before the first step it does not matter. */
  ghost predicate Tidy(step: Step, plainchar: byte)
  {
    step != StepA ==> plainchar % Power(8 - Width(step)) == 0
  }

  lemma FirstBits(a: seq<bool>, b: seq<bool>)
    ensures (a + b)[..|a|] == a
  {}

  /** A byte that has only begun: `m` in its highest bits. */
  lemma Begun(m: nat, width: nat)
    requires width <= 8
    ensures BitsOf(m * Power(8 - width), 8)[..width] == BitsOf(m, width)
  {
    JoinBits(m, 0, 8, 8 - width);
    FirstBits(BitsOf(m, width), BitsOf(0, 8 - width));
  }

  lemma OneByte(a: seq<bool>, b: seq<bool>, c: seq<bool>, n: nat)
    requires |a| + |b| == 8 && |c| < 8 && n < 256 && Number(a + b) == n
    ensures CompleteBytes(a + (b + c)) == [n] && Rest(a + (b + c)) == c
  {
    ByteAndLess(a + b, c);
    Regroup(a, b, c);
  }

  lemma JoinedNumber(m: nat, h: nat, k: nat)
    requires k <= 8 && h < Power(k) && m * Power(k) + h < 256
    ensures Number(BitsOf(m, 8 - k) + BitsOf(h, k)) == m * Power(k) + h
  {
    Powers();
    JoinBits(m, h, 8, k);
    NumberOfBits(m * Power(k) + h, 8);
  }

  /** A sextet `h`, `l` completes the byte with `m` begun in it: the byte is their `or`, and `l` is begun. */
  lemma Complete(m: nat, h: nat, l: nat, f: nat, k: nat, low: nat)
    requires k <= 8 && k + low == 6 && h < Power(k) && l < Power(low)
    requires m * Power(k) + h < 256 && f % 64 == h * Power(low) + l
    ensures Or(m * Power(k), h) == m * Power(k) + h
    ensures var s := BitsOf(m * Power(k), 8)[..8 - k] + BitsOf(f, 6);
      CompleteBytes(s) == [m * Power(k) + h] && Rest(s) == BitsOf(l, low)
  {
    OrDisjoint(m, h, k);
    Begun(m, 8 - k);
    SextetParts(f, h, l, low);
    JoinedNumber(m, h, k);
    OneByte(BitsOf(m, 8 - k), BitsOf(h, k), BitsOf(l, low), m * Power(k) + h);
  }

  // the three completing steps, and the three ways of beginning a byte, in numbers

  lemma CompleteB(m: nat, h: nat, l: nat, f: nat)
    requires m < 64 && h < 4 && l < 16 && f % 64 == h * 16 + l
    ensures Or(m * 4, h) == m * 4 + h
    ensures CompleteBytes(BitsOf(m * 4, 8)[..6] + BitsOf(f, 6)) == [m * 4 + h]
    ensures Rest(BitsOf(m * 4, 8)[..6] + BitsOf(f, 6)) == BitsOf(l, 4)
  {
    Powers();
    Complete(m, h, l, f, 2, 4);
  }

  lemma CompleteC(m: nat, h: nat, l: nat, f: nat)
    requires m < 16 && h < 16 && l < 4 && f % 64 == h * 4 + l
    ensures Or(m * 16, h) == m * 16 + h
    ensures CompleteBytes(BitsOf(m * 16, 8)[..4] + BitsOf(f, 6)) == [m * 16 + h]
    ensures Rest(BitsOf(m * 16, 8)[..4] + BitsOf(f, 6)) == BitsOf(l, 2)
  {
    Powers();
    Complete(m, h, l, f, 4, 2);
  }

  lemma CompleteD(m: nat, f: nat)
    requires m < 4
    ensures Or(m * 64, f % 64) == m * 64 + f % 64
    ensures CompleteBytes(BitsOf(m * 64, 8)[..2] + BitsOf(f, 6)) == [m * 64 + f % 64]
    ensures Rest(BitsOf(m * 64, 8)[..2] + BitsOf(f, 6)) == []
  {
    Powers();
    Complete(m, f % 64, 0, f, 6, 0);
  }

  lemma BeginB(m: nat)
    ensures BitsOf(m * 4, 8)[..6] == BitsOf(m, 6)
  {
    Powers();
    Begun(m, 6);
  }

  lemma BeginC(m: nat)
    ensures BitsOf(m * 16, 8)[..4] == BitsOf(m, 4)
  {
    Powers();
    Begun(m, 4);
  }

  lemma BeginD(m: nat)
    ensures BitsOf(m * 64, 8)[..2] == BitsOf(m, 2)
  {
    Powers();
    Begun(m, 2);
  }

  lemma TidyMeans(step: Step, x: byte)
    ensures Tidy(step, x) <==>
      match step case StepA => true case StepB => x % 4 == 0 case StepC => x % 16 == 0 case StepD => x % 64 == 0
  {
    Powers();
  }

  lemma Multiple(x: byte, d: nat)
    requires (d == 4 || d == 16 || d == 64) && x % d == 0
    ensures x == x / d * d && x / d < 256 / d && x + d <= 256
  {}

  lemma SplitNumber(f: nat, q: nat, v: nat, d: nat, e: nat)
    requires f == 64 * q + v && v < 64 && d > 0 && d * e == 64
    ensures v == v / d * d + f % d && v / d < e && f % d < d
  {
    var k, r := v / d, v % d;
    assert v == d * k + r;
    assert 64 * q == d * (e * q);
    assert f == d * (e * q + k) + r;
    OnlyRemainder(f, d, e * q + k, r);
    assert k >= e ==> d * k >= d * e;
  }

  lemma SplitSextet(f: nat)
    ensures f % 64 == f % 64 / 16 * 16 + f % 16 && f % 64 / 16 < 4 && f % 16 < 16
    ensures f % 64 == f % 64 / 4 * 4 + f % 4 && f % 64 / 4 < 16 && f % 4 < 4
  {
    SplitNumber(f, f / 64, f % 64, 16, 4);
    SplitNumber(f, f / 64, f % 64, 4, 16);
  }

  lemma StepAFrom(f: nat)
    ensures f % 64 * 4 < 256 && Tidy(StepB, f % 64 * 4) && Pending(StepB, f % 64 * 4) == BitsOf(f, 6)
  {
    var v := f % 64;
    assert v * 4 % 4 == 0;
    SextetOnly(f);
    BeginB(v);
    TidyMeans(StepB, v * 4);
  }

  lemma StepBTo(m: nat, f: nat, h: nat, l: nat)
    requires m < 64 && h < 4 && l < 16 && f % 64 == h * 16 + l
    ensures Or(m * 4, h) < 256
    ensures CompleteBytes(Pending(StepB, m * 4) + BitsOf(f, 6)) == [Or(m * 4, h)]
    ensures Rest(Pending(StepB, m * 4) + BitsOf(f, 6)) == Pending(StepC, l * 16)
  {
    CompleteB(m, h, l, f);
    BeginC(l);
  }

  lemma StepBFor(m: nat, f: nat)
    requires m < 64
    ensures Or(m * 4, f % 64 / 16) < 256
    ensures CompleteBytes(Pending(StepB, m * 4) + BitsOf(f, 6)) == [Or(m * 4, f % 64 / 16)]
    ensures Rest(Pending(StepB, m * 4) + BitsOf(f, 6)) == Pending(StepC, f % 16 * 16)
  {
    SplitSextet(f);
    StepBTo(m, f, f % 64 / 16, f % 16);
  }

  lemma TidyNext(l: nat)
    ensures l < 16 ==> l * 16 < 256 && Tidy(StepC, l * 16)
    ensures l < 4 ==> l * 64 < 256 && Tidy(StepD, l * 64)
  {
    if l < 16 { TidyMeans(StepC, l * 16); }
    if l < 4 { TidyMeans(StepD, l * 64); }
  }

  lemma StepBFrom(x: byte, f: nat)
    requires Tidy(StepB, x)
    ensures Or(x, f % 64 / 16) < 256 && f % 16 * 16 < 256 && Tidy(StepC, f % 16 * 16)
    ensures CompleteBytes(Pending(StepB, x) + BitsOf(f, 6)) == [Or(x, f % 64 / 16)]
    ensures Rest(Pending(StepB, x) + BitsOf(f, 6)) == Pending(StepC, f % 16 * 16)
  {
    TidyMeans(StepB, x);
    Multiple(x, 4);
    StepBFor(x / 4, f);
    TidyNext(f % 16);
  }

  lemma StepCTo(m: nat, f: nat, h: nat, l: nat)
    requires m < 16 && h < 16 && l < 4 && f % 64 == h * 4 + l
    ensures Or(m * 16, h) < 256
    ensures CompleteBytes(Pending(StepC, m * 16) + BitsOf(f, 6)) == [Or(m * 16, h)]
    ensures Rest(Pending(StepC, m * 16) + BitsOf(f, 6)) == Pending(StepD, l * 64)
  {
    CompleteC(m, h, l, f);
    BeginD(l);
  }

  lemma StepCFor(m: nat, f: nat)
    requires m < 16
    ensures Or(m * 16, f % 64 / 4) < 256
    ensures CompleteBytes(Pending(StepC, m * 16) + BitsOf(f, 6)) == [Or(m * 16, f % 64 / 4)]
    ensures Rest(Pending(StepC, m * 16) + BitsOf(f, 6)) == Pending(StepD, f % 4 * 64)
  {
    SplitSextet(f);
    StepCTo(m, f, f % 64 / 4, f % 4);
  }

  lemma StepCFrom(x: byte, f: nat)
    requires Tidy(StepC, x)
    ensures Or(x, f % 64 / 4) < 256 && f % 4 * 64 < 256 && Tidy(StepD, f % 4 * 64)
    ensures CompleteBytes(Pending(StepC, x) + BitsOf(f, 6)) == [Or(x, f % 64 / 4)]
    ensures Rest(Pending(StepC, x) + BitsOf(f, 6)) == Pending(StepD, f % 4 * 64)
  {
    TidyMeans(StepC, x);
    Multiple(x, 16);
    StepCFor(x / 16, f);
    TidyNext(f % 4);
  }

  lemma StepDFrom(x: byte, f: nat)
    requires Tidy(StepD, x)
    ensures Or(x, f % 64) < 256
    ensures CompleteBytes(Pending(StepD, x) + BitsOf(f, 6)) == [Or(x, f % 64)]
    ensures Rest(Pending(StepD, x) + BitsOf(f, 6)) == []
  {
    TidyMeans(StepD, x);
    Multiple(x, 64);
    CompleteD(x / 64, f);
  }

  // ----- decoding -----

  /** The values of the characters that have one, in order. */
  function Fragments(code: bytes, beyond: int): seq<nat>
  {
    if code == [] then []
    else
      var f := DecodeValue(code[|code| - 1], beyond);
      Fragments(code[..|code| - 1], beyond) + if f < 0 then [] else [f]
  }

  function SextetBits(vs: seq<nat>): (s: seq<bool>)
    ensures |s| == 6 * |vs|
  {
    if vs == [] then [] else SextetBits(vs[..|vs| - 1]) + BitsOf(vs[|vs| - 1], 6)
  }

  /** All bits that are there once `code` has been taken in. */
  ghost function Stream(step: Step, plainchar: byte, code: bytes, beyond: int): seq<bool>
  {
    Pending(step, plainchar) + SextetBits(Fragments(code, beyond))
  }

  /** What decoding `code` from one state does: the bytes it writes and the state it comes to. */
  ghost predicate Decodes(step: Step, plainchar: byte, code: bytes, beyond: int,
                          written: bytes, endStep: Step, endChar: byte)
  {
    var s := Stream(step, plainchar, code, beyond);
    && written == CompleteBytes(s)
    && Pending(endStep, endChar) == Rest(s)
    && Tidy(endStep, endChar)
  }

  /** The bits one character adds. */
  function Added(b: byte, beyond: int): seq<bool>
  {
    var f := DecodeValue(b, beyond);
    if f < 0 then [] else BitsOf(f, 6)
  }

  lemma StreamGrows(step: Step, plainchar: byte, code: bytes, beyond: int, i: nat)
    requires i < |code|
    ensures Stream(step, plainchar, code[..i + 1], beyond)
         == Stream(step, plainchar, code[..i], beyond) + Added(code[i], beyond)
  {
    assert code[..i + 1] == code[..i] + [code[i]];
    StreamConcat(step, plainchar, code[..i], [code[i]], beyond);
    OneFragment(code[i], beyond);
    if DecodeValue(code[i], beyond) >= 0 { OneSextet(DecodeValue(code[i], beyond)); }
  }

  lemma {:induction false} FragmentsConcat(a: bytes, b: bytes, beyond: int)
    ensures Fragments(a + b, beyond) == Fragments(a, beyond) + Fragments(b, beyond)
  {
    if b == [] {
      assert a + b == a;
    } else {
      assert (a + b)[..|a + b| - 1] == a + b[..|b| - 1];
      FragmentsConcat(a, b[..|b| - 1], beyond);
    }
  }

  lemma {:induction false} SextetBitsConcat(a: seq<nat>, b: seq<nat>)
    ensures SextetBits(a + b) == SextetBits(a) + SextetBits(b)
  {
    if b == [] {
      assert a + b == a;
    } else {
      assert (a + b)[..|a + b| - 1] == a + b[..|b| - 1];
      SextetBitsConcat(a, b[..|b| - 1]);
    }
  }

  lemma StreamConcat(step: Step, plainchar: byte, a: bytes, b: bytes, beyond: int)
    ensures Stream(step, plainchar, a + b, beyond)
         == Stream(step, plainchar, a, beyond) + SextetBits(Fragments(b, beyond))
  {
    FragmentsConcat(a, b, beyond);
    SextetBitsConcat(Fragments(a, beyond), Fragments(b, beyond));
    Regroup(Pending(step, plainchar), SextetBits(Fragments(a, beyond)), SextetBits(Fragments(b, beyond)));
  }

  /** No prefix of the code gives more bytes than the code. */
  lemma PrefixWritesNoMore(step: Step, plainchar: byte, code: bytes, beyond: int, i: nat)
    requires i <= |code|
    ensures |CompleteBytes(Stream(step, plainchar, code[..i], beyond))|
            <= |CompleteBytes(Stream(step, plainchar, code, beyond))|
  {
    assert code == code[..i] + code[i..];
    StreamConcat(step, plainchar, code[..i], code[i..], beyond);
    CompleteConcat(Stream(step, plainchar, code[..i], beyond), SextetBits(Fragments(code[i..], beyond)));
  }

  class DecodeState {
    var step: Step
    var plainchar: byte

    constructor ()
      ensures step == StepA && plainchar == 0
    {
      step, plainchar := StepA, 0;
    }
  }

  /** One step of the machine, writing into the byte at `p` and beginning the next. */
  method TakeFragment(f: nat, plaintext: array<byte>, p: nat, step: Step) returns (q: nat, next: Step)
    requires p < plaintext.Length && (step != StepA ==> p + 1 < plaintext.Length)
    requires Tidy(step, plaintext[p])
    modifies plaintext
    ensures p <= q < plaintext.Length
    ensures plaintext[..p] == old(plaintext[..p]) && plaintext[q + 1..] == old(plaintext[q + 1..])
    ensures plaintext[p..q] == CompleteBytes(Pending(step, old(plaintext[p])) + BitsOf(f, 6))
    ensures Pending(next, plaintext[q]) == Rest(Pending(step, old(plaintext[p])) + BitsOf(f, 6))
    ensures Tidy(next, plaintext[q])
  {
    ghost var x := plaintext[p];
    match step {
      case StepA =>
        StepAFrom(f);
        plaintext[p] := f % 64 * 4;
        assert Pending(StepA, x) + BitsOf(f, 6) == BitsOf(f, 6);
        q, next := p, StepB;
      case StepB =>
        StepBFrom(x, f);
        plaintext[p] := Or(plaintext[p], f % 64 / 16);
        q, next := p + 1, StepC;
        plaintext[q] := f % 16 * 16;
      case StepC =>
        StepCFrom(x, f);
        plaintext[p] := Or(plaintext[p], f % 64 / 4);
        q, next := p + 1, StepD;
        plaintext[q] := f % 4 * 64;
      case StepD =>
        StepDFrom(x, f);
        plaintext[p] := Or(plaintext[p], f % 64);
        q, next := p + 1, StepA;
    }
  }

  /** The bytes of `s` stand before `p`, and the byte at `p` is begun with the rest of its bits. */
  ghost predicate Holds(plaintext: array<byte>, p: nat, step: Step, s: seq<bool>)
    reads plaintext
  {
    && p < plaintext.Length
    && plaintext[..p] == CompleteBytes(s)
    && Pending(step, plaintext[p]) == Rest(s)
    && Tidy(step, plaintext[p])
  }

  /** One character, which is skipped if it has no value. */
  method TakeCharacter(b: byte, beyond: int, plaintext: array<byte>, p: nat, step: Step, ghost s: seq<bool>)
    returns (q: nat, next: Step)
    requires Holds(plaintext, p, step, s) && |CompleteBytes(s + Added(b, beyond))| < plaintext.Length
    modifies plaintext
    ensures Holds(plaintext, q, next, s + Added(b, beyond)) && q >= p
    ensures plaintext[q + 1..] == old(plaintext[q + 1..])
  {
    var fragment := DecodeValue(b, beyond);
    if fragment < 0 {
      assert s + [] == s;
      return p, step;
    }
    var more := BitsOf(fragment, 6);
    CompleteConcat(s, more);
    BytesAndRest(Rest(s) + more);
    q, next := TakeFragment(fragment, plaintext, p, step);
    assert plaintext[..q] == plaintext[..p] + plaintext[p..q];
  }

  /** The next character of a block. */
  method TakeNext(code: bytes, i: nat, beyond: int, plaintext: array<byte>, p: nat, step: Step,
                  ghost step0: Step, ghost char0: byte)
    returns (q: nat, next: Step)
    requires i < |code| && Holds(plaintext, p, step, Stream(step0, char0, code[..i], beyond))
    requires |CompleteBytes(Stream(step0, char0, code, beyond))| < plaintext.Length
    modifies plaintext
    ensures Holds(plaintext, q, next, Stream(step0, char0, code[..i + 1], beyond)) && q >= p
    ensures plaintext[q + 1..] == old(plaintext[q + 1..])
  {
    StreamGrows(step0, char0, code, beyond, i);
    PrefixWritesNoMore(step0, char0, code, beyond, i + 1);
    q, next := TakeCharacter(code[i], beyond, plaintext, p, step, Stream(step0, char0, code[..i], beyond));
  }

  /** Decodes a block into a buffer; the buffer needs one byte more than is decoded. */
  method DecodeBlock(code: bytes, plaintext: array<byte>, state: DecodeState, beyond: int) returns (length: nat)
    requires Tidy(state.step, state.plainchar)
    requires |CompleteBytes(Stream(state.step, state.plainchar, code, beyond))| < plaintext.Length
    modifies plaintext, state
    ensures length < plaintext.Length
    ensures Decodes(old(state.step), old(state.plainchar), code, beyond, plaintext[..length], state.step,
                    state.plainchar)
    ensures plaintext[length + 1..] == old(plaintext[length + 1..])
  {
    ghost var step0, char0 := state.step, state.plainchar;
    length := 0;
    plaintext[length] := state.plainchar;
    var step, i := state.step, 0;
    assert Stream(step0, char0, code[..0], beyond) == Pending(step0, char0);
    while i < |code|
      invariant 0 <= i <= |code| && length < plaintext.Length
      invariant Holds(plaintext, length, step, Stream(step0, char0, code[..i], beyond))
      invariant plaintext[length + 1..] == old(plaintext[length + 1..])
    {
      length, step := TakeNext(code, i, beyond, plaintext, length, step, step0, char0);
      i := i + 1;
    }
    assert code[..i] == code;
    state.step, state.plainchar := step, plaintext[length];
  }

  // ----- what decoding means -----

  /** A begun byte is known from its bits. */
  lemma PendingTells(step: Step, x: byte, other: Step, y: byte)
    requires Tidy(step, x) && Tidy(other, y) && Pending(step, x) == Pending(other, y)
    ensures step == other && (step != StepA ==> x == y)
  {
    assert Width(step) == Width(other);
    if step != StepA {
      Powers();
      var w := Width(step);
      AllBits(x, w);
      AllBits(y, w);
    }
  }

  lemma AllBits(x: byte, w: nat)
    requires w <= 8 && x % Power(8 - w) == 0
    ensures x == Number(BitsOf(x, 8)[..w] + BitsOf(0, 8 - w))
  {
    Powers();
    var k := 8 - w;
    var m := x / Power(k);
    assert x == m * Power(k) + 0;
    JoinBits(m, 0, 8, k);
    FirstBits(BitsOf(m, w), BitsOf(0, k));
    NumberOfBits(x, 8);
  }

  /**
   Decoding in two blocks through the saved state writes the same bytes as decoding in
   one, and comes to an equivalent state, whatever step it starts from.
   */
  lemma ChunkIndependent(step: Step, x: byte, a: bytes, b: bytes, beyond: int,
                         first: bytes, midStep: Step, midChar: byte, second: bytes, endStep: Step, endChar: byte,
                         whole: bytes, wholeStep: Step, wholeChar: byte)
    requires Decodes(step, x, a, beyond, first, midStep, midChar)
    requires Decodes(midStep, midChar, b, beyond, second, endStep, endChar)
    requires Decodes(step, x, a + b, beyond, whole, wholeStep, wholeChar)
    ensures whole == first + second
    ensures wholeStep == endStep && (endStep != StepA ==> wholeChar == endChar)
  {
    StreamConcat(step, x, a, b, beyond);
    CompleteConcat(Stream(step, x, a, beyond), SextetBits(Fragments(b, beyond)));
    PendingTells(wholeStep, wholeChar, endStep, endChar);
  }

  /** `k` characters with a value give exactly the whole bytes in `6k` bits. */
  lemma BytesDecoded(x: byte, code: bytes, beyond: int, written: bytes, endStep: Step, endChar: byte)
    requires Decodes(StepA, x, code, beyond, written, endStep, endChar)
    ensures |written| == 3 * |Fragments(code, beyond)| / 4
    ensures 6 * |Fragments(code, beyond)| == 8 * |written| + Width(endStep)
  {
    BytesAndRest(Stream(StepA, x, code, beyond));
  }

  // ----- the plain meaning -----

  /** The values of the characters of the alphabet, in order; every other character is dropped. */
  function AlphabetValues(code: bytes): seq<nat>
  {
    if code == [] then []
    else
      var v := AlphabetValue(code[|code| - 1]);
      AlphabetValues(code[..|code| - 1]) + if v < 0 then [] else [v]
  }

  lemma {:induction false} FragmentsWithin(code: bytes, beyond: int)
    requires beyond < 0 || ONE_PAST !in code
    ensures Fragments(code, beyond) == AlphabetValues(code)
  {
    if code != [] {
      var b := code[|code| - 1];
      FragmentsWithin(code[..|code| - 1], beyond);
      if b == ONE_PAST { OnePastTheTable(beyond); } else { TableIsAlphabet(b, beyond); }
    }
  }

  lemma {:induction false} FragmentsBeyond(code: bytes, beyond: int)
    requires beyond >= 0
    ensures |Fragments(code, beyond)| == |AlphabetValues(code)| + multiset(code)[ONE_PAST]
  {
    if code != [] {
      var b := code[|code| - 1];
      FragmentsBeyond(code[..|code| - 1], beyond);
      assert code == code[..|code| - 1] + [b];
      if b == ONE_PAST { OnePastTheTable(beyond); } else { TableIsAlphabet(b, beyond); }
    }
  }

  ghost predicate PlainMeaning(code: bytes, written: bytes, left: seq<bool>)
  {
    var s := SextetBits(AlphabetValues(code));
    written == CompleteBytes(s) && left == Rest(s)
  }

  /**
   Decoding from the start gives the plain meaning of section 4 of RFC 4648 exactly if the
   cell behind the table is negative or no character reads it.
   */
  lemma PlainExactlyWithinTable(x: byte, code: bytes, beyond: int, written: bytes, endStep: Step, endChar: byte)
    requires Decodes(StepA, x, code, beyond, written, endStep, endChar)
    ensures PlainMeaning(code, written, Pending(endStep, endChar)) <==> (beyond < 0 || ONE_PAST !in code)
  {
    assert Stream(StepA, x, code, beyond) == SextetBits(Fragments(code, beyond));
    if beyond < 0 || ONE_PAST !in code {
      FragmentsWithin(code, beyond);
    } else {
      FragmentsBeyond(code, beyond);
      BytesAndRest(SextetBits(Fragments(code, beyond)));
      BytesAndRest(SextetBits(AlphabetValues(code)));
    }
  }

  // ----- encoding, section 4 of RFC 4648 -----

  /** Groups of six bits, the last one filled up with zeros. */
  function Sextets(s: seq<bool>): (vs: seq<nat>)
    ensures forall i :: 0 <= i < |vs| ==> vs[i] < 64
  {
    Powers();
    if s == [] then []
    else if |s| < 6 then
      BitsOfNumber(s + seq(6 - |s|, _ => false));
      [Number(s + seq(6 - |s|, _ => false))]
    else BitsOfNumber(s[..6]); [Number(s[..6])] + Sextets(s[6..])
  }

  function Characters(vs: seq<nat>): bytes
    requires forall i :: 0 <= i < |vs| ==> vs[i] < 64
  {
    if vs == [] then [] else [AlphabetCharacter(vs[0])] + Characters(vs[1..])
  }

  const PAD: byte := 61

  /** Groups of four characters, the last one filled up with pad characters. */
  function Encode(bs: bytes): bytes
  {
    var vs := Sextets(BitsOfBytes(bs));
    Characters(vs) + match |vs| % 4 { case 2 => [PAD, PAD] case 3 => [PAD] case _ => [] }
  }

  lemma LastSextet(s: seq<bool>)
    requires 0 < |s| < 6
    ensures exists zeros: seq<bool> :: |zeros| < 6 && SextetBits(Sextets(s)) == s + zeros
  {
    var zeros := seq(6 - |s|, _ => false);
    BitsOfNumber(s + zeros);
    OneSextet(Number(s + zeros));
    assert SextetBits(Sextets(s)) == s + zeros;
  }

  lemma FirstSextet(s: seq<bool>, zeros: seq<bool>)
    requires |s| >= 6 && SextetBits(Sextets(s[6..])) == s[6..] + zeros
    ensures SextetBits(Sextets(s)) == s + zeros
  {
    BitsOfNumber(s[..6]);
    OneSextet(Number(s[..6]));
    SextetBitsConcat([Number(s[..6])], Sextets(s[6..]));
    assert s == s[..6] + s[6..];
    Regroup(s[..6], s[6..], zeros);
  }

  lemma {:induction false} SextetsHoldBits(s: seq<bool>)
    ensures exists zeros: seq<bool> :: |zeros| < 6 && SextetBits(Sextets(s)) == s + zeros
  {
    if s == [] {
      assert SextetBits(Sextets(s)) == s + [];
    } else if |s| < 6 {
      LastSextet(s);
    } else {
      SextetsHoldBits(s[6..]);
      var zeros :| |zeros| < 6 && SextetBits(Sextets(s[6..])) == s[6..] + zeros;
      FirstSextet(s, zeros);
    }
  }

  lemma OneSextet(v: nat)
    ensures SextetBits([v]) == BitsOf(v, 6)
  {
    assert [v][..0] == [] && [] + BitsOf(v, 6) == BitsOf(v, 6);
  }

  lemma AlphabetRoundTrip(v: nat, beyond: int)
    requires v < 64
    ensures DecodeValue(AlphabetCharacter(v), beyond) == v
  {
    TableIsAlphabet(AlphabetCharacter(v), beyond);
  }

  lemma {:induction false} CharactersRead(vs: seq<nat>, beyond: int)
    requires forall i :: 0 <= i < |vs| ==> vs[i] < 64
    ensures Fragments(Characters(vs), beyond) == vs
  {
    if vs != [] {
      FragmentsConcat([AlphabetCharacter(vs[0])], Characters(vs[1..]), beyond);
      AlphabetRoundTrip(vs[0], beyond);
      OneFragment(AlphabetCharacter(vs[0]), beyond);
      CharactersRead(vs[1..], beyond);
      assert vs == [vs[0]] + vs[1..];
    }
  }

  lemma OneFragment(b: byte, beyond: int)
    ensures Fragments([b], beyond) == if DecodeValue(b, beyond) < 0 then [] else [DecodeValue(b, beyond)]
  {
    assert [b][..0] == [];
  }

  lemma PadSkipped(n: nat, beyond: int)
    requires n <= 2
    ensures Fragments([PAD, PAD][..n], beyond) == []
  {
    TableIsAlphabet(PAD, beyond);
    OneFragment(PAD, beyond);
    assert [PAD, PAD][..0] == [] && [PAD, PAD][..1] == [PAD] && [PAD, PAD][..2] == [PAD] + [PAD];
    FragmentsConcat([PAD], [PAD], beyond);
  }

  /** Decoding the encoding of any bytes gives them back. */
  lemma DecodeEncode(x: byte, bs: bytes, beyond: int, written: bytes, endStep: Step, endChar: byte)
    requires Decodes(StepA, x, Encode(bs), beyond, written, endStep, endChar)
    ensures written == bs
  {
    var bits := BitsOfBytes(bs);
    var vs := Sextets(bits);
    var padding := if |vs| % 4 == 2 then 2 else if |vs| % 4 == 3 then 1 else 0;
    assert Encode(bs) == Characters(vs) + [PAD, PAD][..padding];
    PadSkipped(padding, beyond);
    CharactersRead(vs, beyond);
    FragmentsConcat(Characters(vs), [PAD, PAD][..padding], beyond);
    assert Fragments(Encode(bs), beyond) == vs + [] == vs;
    SextetsHoldBits(bits);
    var zeros :| |zeros| < 6 && SextetBits(vs) == bits + zeros;
    assert Stream(StepA, x, Encode(bs), beyond) == bits + zeros;
    BytesBack(bs, zeros);
  }

  // ----- character by character -----

  const CAPITALS := "ABCDEFGHIJKLMNOPQRSTUVWXYZ"
  const SMALL := "abcdefghijklmnopqrstuvwxyz"
  const OTHERS := "0123456789+/"

  lemma Capital(v: nat)
    requires v < 26
    ensures CAPITALS[v] as int == 65 + v
  {}

  lemma Small(v: nat)
    requires v < 26
    ensures SMALL[v] as int == 97 + v
  {}

  /** Table 1 of RFC 4648: the characters of the 64 values. */
  lemma AlphabetTable(v: nat)
    requires v < 64
    ensures AlphabetCharacter(v) ==
            (if v < 26 then CAPITALS[v] else if v < 52 then SMALL[v - 26] else OTHERS[v - 52]) as int
    ensures AlphabetValue(AlphabetCharacter(v)) == v
  {
    if v < 26 { Capital(v); } else if v < 52 { Small(v - 26); }
  }

  lemma NextSextet(vs: seq<nat>, v: nat)
    ensures SextetBits(vs + [v]) == SextetBits(vs) + BitsOf(v, 6)
    ensures CompleteBytes(SextetBits(vs + [v])) ==
            CompleteBytes(SextetBits(vs)) + CompleteBytes(Rest(SextetBits(vs)) + BitsOf(v, 6))
    ensures Rest(SextetBits(vs + [v])) == Rest(Rest(SextetBits(vs)) + BitsOf(v, 6))
  {
    SextetBitsConcat(vs, [v]);
    OneSextet(v);
    CompleteConcat(SextetBits(vs), BitsOf(v, 6));
  }

  lemma BytesB(m: nat, h: nat, l: nat, f: nat)
    requires m < 64 && h < 4 && l < 16 && f % 64 == h * 16 + l
    ensures CompleteBytes(BitsOf(m, 6) + BitsOf(f, 6)) == [m * 4 + h]
    ensures Rest(BitsOf(m, 6) + BitsOf(f, 6)) == BitsOf(l, 4)
  {
    BeginB(m);
    CompleteB(m, h, l, f);
  }

  lemma BytesC(m: nat, h: nat, l: nat, f: nat)
    requires m < 16 && h < 16 && l < 4 && f % 64 == h * 4 + l
    ensures CompleteBytes(BitsOf(m, 4) + BitsOf(f, 6)) == [m * 16 + h]
    ensures Rest(BitsOf(m, 4) + BitsOf(f, 6)) == BitsOf(l, 2)
  {
    BeginC(m);
    CompleteC(m, h, l, f);
  }

  lemma BytesD(m: nat, f: nat, v: nat)
    requires m < 4 && v < 64 && f % 64 == v
    ensures CompleteBytes(BitsOf(m, 2) + BitsOf(f, 6)) == [m * 64 + v] && Rest(BitsOf(m, 2) + BitsOf(f, 6)) == []
  {
    BeginD(m);
    CompleteD(m, f);
  }

  lemma SmallNumber(v: nat)
    requires v < 64
    ensures v % 64 == v && v == v / 16 * 16 + v % 16 && v / 16 < 4 && v == v / 4 * 4 + v % 4 && v / 4 < 16
  {}

  lemma JoinB(a: nat, b: nat)
    requires a < 64 && b < 64
    ensures a * 4 + b / 16 < 256 && b % 16 < 16
    ensures CompleteBytes(BitsOf(a, 6) + BitsOf(b, 6)) == [a * 4 + b / 16]
    ensures Rest(BitsOf(a, 6) + BitsOf(b, 6)) == BitsOf(b % 16, 4)
  {
    SmallNumber(b);
    BytesB(a, b / 16, b % 16, b);
  }

  lemma JoinC(l: nat, c: nat)
    requires l < 16 && c < 64
    ensures l * 16 + c / 4 < 256 && c % 4 < 4
    ensures CompleteBytes(BitsOf(l, 4) + BitsOf(c, 6)) == [l * 16 + c / 4]
    ensures Rest(BitsOf(l, 4) + BitsOf(c, 6)) == BitsOf(c % 4, 2)
  {
    SmallNumber(c);
    BytesC(l, c / 4, c % 4, c);
  }

  lemma JoinD(m: nat, d: nat)
    requires m < 4 && d < 64
    ensures m * 64 + d < 256
    ensures CompleteBytes(BitsOf(m, 2) + BitsOf(d, 6)) == [m * 64 + d] && Rest(BitsOf(m, 2) + BitsOf(d, 6)) == []
  {
    SmallNumber(d);
    BytesD(m, d, d);
  }

  lemma TwoSextets(a: nat, b: nat)
    requires a < 64 && b < 64
    ensures a * 4 + b / 16 < 256 && b % 16 < 16
    ensures CompleteBytes(SextetBits([a, b])) == [a * 4 + b / 16] && Rest(SextetBits([a, b])) == BitsOf(b % 16, 4)
  {
    OneSextet(a);
    NextSextet([a], b);
    assert [a] + [b] == [a, b];
    JoinB(a, b);
  }

  lemma ThreeSextets(a: nat, b: nat, c: nat)
    requires a < 64 && b < 64 && c < 64
    ensures a * 4 + b / 16 < 256 && b % 16 * 16 + c / 4 < 256
    ensures CompleteBytes(SextetBits([a, b, c])) == [a * 4 + b / 16] + [b % 16 * 16 + c / 4]
    ensures Rest(SextetBits([a, b, c])) == BitsOf(c % 4, 2)
  {
    TwoSextets(a, b);
    NextSextet([a, b], c);
    assert [a, b] + [c] == [a, b, c];
    JoinC(b % 16, c);
  }

  lemma FourSextets(a: nat, b: nat, c: nat, d: nat)
    requires a < 64 && b < 64 && c < 64 && d < 64
    ensures a * 4 + b / 16 < 256 && b % 16 * 16 + c / 4 < 256 && c % 4 * 64 + d < 256
    ensures CompleteBytes(SextetBits([a, b, c, d])) ==
            [a * 4 + b / 16] + [b % 16 * 16 + c / 4] + [c % 4 * 64 + d]
    ensures Rest(SextetBits([a, b, c, d])) == []
  {
    ThreeSextets(a, b, c);
    NextSextet([a, b, c], d);
    assert [a, b, c] + [d] == [a, b, c, d];
    JoinD(c % 4, d);
  }

  lemma FourJoined(a: nat, b: nat, c: nat, d: nat)
    requires a < 64 && b < 64 && c < 64 && d < 64
    ensures Characters([a, b, c, d]) ==
            [AlphabetCharacter(a), AlphabetCharacter(b), AlphabetCharacter(c), AlphabetCharacter(d)]
  {
    assert [a, b, c, d][1..] == [b, c, d] && [b, c, d][1..] == [c, d] && [c, d][1..] == [d] && [d][1..] == [];
    assert Characters([d]) == [AlphabetCharacter(d)];
    assert Characters([c, d]) == [AlphabetCharacter(c), AlphabetCharacter(d)];
    assert Characters([b, c, d]) == [AlphabetCharacter(b), AlphabetCharacter(c), AlphabetCharacter(d)];
  }

  lemma WrittenFor(x: byte, vs: seq<nat>, beyond: int, written: bytes, endStep: Step, endChar: byte)
    requires forall i :: 0 <= i < |vs| ==> vs[i] < 64
    requires Decodes(StepA, x, Characters(vs), beyond, written, endStep, endChar)
    ensures written == CompleteBytes(SextetBits(vs)) && Width(endStep) == |Rest(SextetBits(vs))|
  {
    CharactersRead(vs, beyond);
    assert Stream(StepA, x, Characters(vs), beyond) == SextetBits(vs);
  }

  /** In numbers: four characters of the alphabet are decoded to these three bytes, and leave nothing begun. */
  lemma FourDecoded(x: byte, a: nat, b: nat, c: nat, d: nat, beyond: int, written: bytes, endStep: Step, endChar: byte)
    requires a < 64 && b < 64 && c < 64 && d < 64
    requires Decodes(StepA, x, [AlphabetCharacter(a), AlphabetCharacter(b), AlphabetCharacter(c), AlphabetCharacter(d)],
                     beyond, written, endStep, endChar)
    ensures |written| == 3 && endStep == StepA
    ensures written[0] == a * 4 + b / 16 && written[1] == b % 16 * 16 + c / 4 && written[2] == c % 4 * 64 + d
  {
    FourJoined(a, b, c, d);
    WrittenFor(x, [a, b, c, d], beyond, written, endStep, endChar);
    FourSextets(a, b, c, d);
  }

  /** Of three only the first two of these bytes come out, and of two the first. */
  lemma FewerDecoded(x: byte, a: nat, b: nat, c: nat, beyond: int, written: bytes, endStep: Step, endChar: byte)
    requires a < 64 && b < 64 && c < 64
    ensures Decodes(StepA, x, Characters([a, b, c]), beyond, written, endStep, endChar) ==>
            |written| == 2 && written[0] == a * 4 + b / 16 && written[1] == b % 16 * 16 + c / 4
    ensures Decodes(StepA, x, Characters([a, b]), beyond, written, endStep, endChar) ==>
            |written| == 1 && written[0] == a * 4 + b / 16
  {
    TwoSextets(a, b);
    ThreeSextets(a, b, c);
    if Decodes(StepA, x, Characters([a, b, c]), beyond, written, endStep, endChar) {
      WrittenFor(x, [a, b, c], beyond, written, endStep, endChar);
    }
    if Decodes(StepA, x, Characters([a, b]), beyond, written, endStep, endChar) {
      WrittenFor(x, [a, b], beyond, written, endStep, endChar);
    }
  }
}
