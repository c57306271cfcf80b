/** The text form of a grid reference: zone, three letters, and as many digits twice as the precision asks for. */
module MgrsText {
  import opened Options
  import opened MgrsLetters
  import opened MgrsRounding

  const MGRS_LETTERS := 3

  // ----- numbers as digits -----

  predicate IsDigit(c: char) { '0' <= c <= '9' }
  predicate IsBlank(c: char) { c == ' ' }
  predicate IsAlpha(c: char) { 'A' <= c <= 'Z' || 'a' <= c <= 'z' }

  function DigitOf(n: nat): (c: char)
    requires n < 10
    ensures IsDigit(c)
  {
    '0' + n as char
  }

  /** A number in exactly `width` digits. */
  function Padded(n: nat, width: nat): (s: string)
    requires n < PowerOfTen(width)
    ensures |s| == width && AllDigits(s)
  {
    if width == 0 then "" else Padded(n / 10, width - 1) + [DigitOf(n % 10)]
  }

  function DigitValue(c: char): nat
    requires IsDigit(c)
  {
    (c - '0') as int
  }

  predicate AllDigits(s: string)
  {
    forall i :: 0 <= i < |s| ==> IsDigit(s[i])
  }

  function Scanned(s: string): nat
    requires AllDigits(s)
  {
    if s == "" then 0 else 10 * Scanned(s[..|s| - 1]) + DigitValue(s[|s| - 1])
  }

  lemma {:induction false} ScanPadded(n: nat, width: nat)
    requires n < PowerOfTen(width)
    ensures Scanned(Padded(n, width)) == n
  {
    if width > 0 {
      ScanPadded(n / 10, width - 1);
      assert Padded(n, width)[..width - 1] == Padded(n / 10, width - 1);
    }
  }

  // ----- making the text -----

  function AlphabetLetter(l: int): (c: char)
    requires 0 <= l < 26
    ensures IsAlpha(c) && 'A' <= c <= 'Z'
  {
    'A' + l as char
  }

  function LetterText(letters: seq<int>): (s: string)
    requires forall i :: 0 <= i < |letters| ==> 0 <= letters[i] < 26
    ensures |s| == |letters| && forall i :: 0 <= i < |s| ==> s[i] == AlphabetLetter(letters[i])
  {
    seq(|letters|, i requires 0 <= i < |letters| => AlphabetLetter(letters[i]))
  }

  /** What of a coordinate goes into the text: its place in the square, without the digits that are not asked for. */
  function Kept(v: real, precision: nat): (k: nat)
    requires v >= 0.0 && precision <= MAX_PRECISION
    ensures k < PowerOfTen(precision)
  {
    Divisors();
    KeptFits(v.Floor % ONEHT, precision);
    v.Floor % ONEHT / Divisor(precision)
  }

  /** The metres that a number of units of the last digit stands for. */
  function Metres(units: nat, precision: nat): (m: nat)
    requires precision <= MAX_PRECISION
  {
    units * Divisor(precision)
  }

  /** The metres that are kept are those in the square, but for less than one unit of the last digit. */
  lemma KeptMetres(v: real, precision: nat)
    requires v >= 0.0 && precision <= MAX_PRECISION
    ensures 0 <= v.Floor % ONEHT - Metres(Kept(v, precision), precision) < Divisor(precision)
  {
    var m, d := v.Floor % ONEHT, Divisor(precision);
    assert m == d * (m / d) + m % d;
  }

  lemma KeptFits(m: nat, precision: nat)
    requires m < ONEHT && precision <= MAX_PRECISION
    ensures m / Divisor(precision) < PowerOfTen(precision)
  {
    Divisors();
    assert PowerOfTen(0) == 1 && PowerOfTen(1) == 10 && PowerOfTen(2) == 100 && PowerOfTen(3) == 1000;
    assert PowerOfTen(4) == 10000 && PowerOfTen(5) == 100000;
    assert precision == 0 || precision == 1 || precision == 2 || precision == 3 || precision == 4 || precision == 5;
  }

  function ZoneText(zone: nat): (s: string)
    requires zone <= 60
  {
    assert PowerOfTen(1) == 10 && PowerOfTen(2) == 100;
    if zone == 0 then "" else Padded(zone, 2)
  }

  function MgrsString(zone: nat, letters: seq<int>, easting: real, northing: real, precision: nat): string
    requires zone <= 60 && |letters| == MGRS_LETTERS && precision <= MAX_PRECISION
    requires forall i :: 0 <= i < |letters| ==> 0 <= letters[i] < 26
    requires easting >= 0.0 && northing >= 0.0
  {
    ZoneText(zone) + LetterText(letters) + Padded(Kept(easting, precision), precision)
      + Padded(Kept(northing, precision), precision)
  }

  /** Writing a string and its terminator at a place in a buffer. */
  method WriteText(buffer: array<char>, at: nat, s: string) returns (end: nat)
    requires at + |s| < buffer.Length
    modifies buffer
    ensures end == at + |s| && buffer[end] == '\0'
    ensures buffer[..end] == old(buffer[..at]) + s
  {
    end := at;
    while end < at + |s|
      invariant at <= end <= at + |s|
      invariant buffer[..at] == old(buffer[..at])
      invariant buffer[at..end] == s[..end - at]
    {
      buffer[end] := s[end - at];
      end := end + 1;
    }
    buffer[end] := '\0';
    assert buffer[..end] == buffer[..at] + buffer[at..end];
  }

  /** The remainder of a division by the side of a square. */
  function Remainder(v: real): real
    requires v >= 0.0
  {
    v - ((v / 100000.0).Floor * ONEHT) as real
  }

  lemma RemainderFloor(v: real)
    requires v >= 0.0
    ensures 0.0 <= Remainder(v) < 100000.0 && Remainder(v).Floor == v.Floor % ONEHT
  {
    var q := (v / 100000.0).Floor;
    assert q as real <= v / 100000.0 < q as real + 1.0;
    assert (q * ONEHT) as real == q as real * 100000.0;
    assert 0.0 <= Remainder(v) < 100000.0;
    assert v.Floor == q * ONEHT + Remainder(v).Floor;
  }

  lemma FloorDivide(x: real, precision: nat)
    requires 0.0 <= x && precision <= MAX_PRECISION
    ensures Truncate(x / Divisor(precision) as real) == x.Floor / Divisor(precision)
  {
    Divisors();
    var d := Divisor(precision);
    var m := x.Floor;
    var q := m / d;
    assert precision == 0 || precision == 1 || precision == 2 || precision == 3 || precision == 4 || precision == 5;
    assert q * d <= m < q * d + d;
    assert (q * d) as real <= x < (q * d + d) as real;
    assert x / d as real >= 0.0;
    assert q as real <= x / d as real < q as real + 1.0;
  }

  /** The digits of one coordinate; just below the next square the remainder is cut to a whole number. */
  method Keep(v: real, precision: nat) returns (k: nat)
    requires v >= 0.0 && precision <= MAX_PRECISION
    ensures k == Kept(v, precision)
  {
    var rest := Remainder(v);
    RemainderFloor(v);
    if rest >= 99999.5 {
      rest := 99999.0;
    }
    FloorDivide(rest, precision);
    k := Truncate(rest / Divisor(precision) as real);
  }

  /** Writes the text of a reference into a buffer. */
  method MakeMgrsString(mgrs: array<char>, zone: nat, letters: seq<int>, easting: real, northing: real, precision: nat)
    returns (length: nat)
    requires zone <= 60 && |letters| == MGRS_LETTERS && precision <= MAX_PRECISION
    requires forall i :: 0 <= i < |letters| ==> 0 <= letters[i] < 26
    requires easting >= 0.0 && northing >= 0.0
    requires mgrs.Length >= 16
    modifies mgrs
    ensures length <= 15 && mgrs[length] == '\0'
    ensures mgrs[..length] == MgrsString(zone, letters, easting, northing, precision)
  {
    var i := 0;
    if zone != 0 {
      i := WriteText(mgrs, i, ZoneText(zone));
    } else {
      mgrs[0], mgrs[1] := ' ', ' ';
    }
    assert mgrs[..i] == ZoneText(zone);
    ghost var start := i;
    var j := 0;
    while j < MGRS_LETTERS
      invariant 0 <= j <= MGRS_LETTERS && i == start + j
      invariant mgrs[..i] == ZoneText(zone) + LetterText(letters)[..j]
    {
      mgrs[i] := AlphabetLetter(letters[j]);
      i := i + 1;
      j := j + 1;
    }
    assert LetterText(letters)[..j] == LetterText(letters);
    var east := Keep(easting, precision);
    i := WriteText(mgrs, i, Padded(east, precision));
    var north := Keep(northing, precision);
    length := WriteText(mgrs, i, Padded(north, precision));
  }

  // ----- breaking the text -----

  datatype Reference = Reference(zone: nat, letters: seq<int>, easting: nat, northing: nat, precision: nat)

  /** Where the run of characters of a kind that begins at `i` ends. */
  function RunEnd(s: string, i: nat, kind: char -> bool): (e: nat)
    requires i <= |s|
    ensures i <= e <= |s| && (forall k :: i <= k < e ==> kind(s[k])) && (e < |s| ==> !kind(s[e]))
    decreases |s| - i
  {
    if i < |s| && kind(s[i]) then RunEnd(s, i + 1, kind) else i
  }

  lemma {:induction false} RunIs(s: string, i: nat, e: nat, kind: char -> bool)
    requires i <= e <= |s| && (forall k :: i <= k < e ==> kind(s[k])) && (e < |s| ==> !kind(s[e]))
    ensures RunEnd(s, i, kind) == e
    decreases e - i
  {
    if i < e { RunIs(s, i + 1, e, kind); }
  }

  method SkipRun(s: string, i: nat, kind: char -> bool) returns (e: nat)
    requires i <= |s|
    ensures e == RunEnd(s, i, kind)
  {
    e := i;
    while e < |s| && kind(s[e])
      invariant i <= e <= |s| && RunEnd(s, e, kind) == RunEnd(s, i, kind)
    {
      e := e + 1;
    }
  }

  function LetterValue(c: char): (l: int)
    requires IsAlpha(c)
    ensures 0 <= l < 26
  {
    if c <= 'Z' then (c - 'A') as int else (c - 'a') as int
  }

  predicate AllAlpha(s: string)
  {
    forall i :: 0 <= i < |s| ==> IsAlpha(s[i])
  }

  /** The zone: none, or one or two digits from 1 to 60. */
  function ZoneOf(digits: string): Option<nat>
    requires AllDigits(digits)
  {
    if digits == "" then Some(0)
    else if |digits| <= 2 && 1 <= Scanned(digits) <= 60 then Some(Scanned(digits))
    else None
  }

  /** The letters: three, and none of them I or O. */
  function LettersOf(text: string): (r: Option<seq<int>>)
    requires AllAlpha(text)
    ensures r.Some? ==> |r.value| == MGRS_LETTERS
  {
    if |text| != MGRS_LETTERS then None
    else
      var letters := [LetterValue(text[0]), LetterValue(text[1]), LetterValue(text[2])];
      if IsGridLetter(letters[0]) && IsGridLetter(letters[1]) && IsGridLetter(letters[2]) then Some(letters) else None
  }

  datatype Coordinates = Coordinates(easting: nat, northing: nat, precision: nat)

  /** The coordinates: an even number of digits, at most ten; the first half is the easting. */
  function CoordinatesOf(digits: string): Option<Coordinates>
    requires AllDigits(digits)
  {
    if |digits| > 10 || |digits| % 2 != 0 then None
    else
      var n := |digits| / 2;
      Some(Coordinates(Metres(Scanned(digits[..n]), n), Metres(Scanned(digits[n..]), n), n))
  }

  /** A text read from left to right: blanks, zone, letters, digits; what follows them is not looked at. */
  function Broken(s: string): Option<Reference>
  {
    var start := RunEnd(s, 0, IsBlank);
    var zoneEnd := RunEnd(s, start, IsDigit);
    var lettersEnd := RunEnd(s, zoneEnd, IsAlpha);
    var end := RunEnd(s, lettersEnd, IsDigit);
    Assembled(ZoneOf(s[start..zoneEnd]), LettersOf(s[zoneEnd..lettersEnd]), CoordinatesOf(s[lettersEnd..end]))
  }

  /** What a text is broken into always has a possible zone and letters of the grid. */
  lemma BrokenWellFormed(s: string)
    requires Broken(s).Some?
    ensures var r := Broken(s).value;
      && r.zone <= 60 && |r.letters| == MGRS_LETTERS && r.precision <= MAX_PRECISION
      && IsGridLetter(r.letters[0]) && IsGridLetter(r.letters[1]) && IsGridLetter(r.letters[2])
  {}

  function Assembled(zone: Option<nat>, letters: Option<seq<int>>, c: Option<Coordinates>): Option<Reference>
  {
    if zone.Some? && letters.Some? && c.Some? then
      Some(Reference(zone.value, letters.value, c.value.easting, c.value.northing, c.value.precision))
    else None
  }

  method ReadZone(s: string, j: nat, i: nat) returns (zone: nat, error: bool)
    requires j <= i <= |s| && AllDigits(s[j..i])
    ensures ZoneOf(s[j..i]) == if error then None else Some(zone)
  {
    var digits := i - j;
    zone, error := 0, false;
    if digits <= 2 {
      if digits > 0 {
        zone := Scanned(s[j..i]);
        if zone < 1 || zone > 60 {
          error := true;
        }
      }
    } else {
      error := true;
    }
  }

  method ReadLetters(s: string, j: nat, i: nat) returns (letters: seq<int>, error: bool)
    requires j <= i <= |s| && AllAlpha(s[j..i])
    ensures LettersOf(s[j..i]) == if error then None else Some(letters)
  {
    letters, error := [], false;
    ghost var text := s[j..i];
    if i - j == MGRS_LETTERS {
      assert text[0] == s[j] && text[1] == s[j + 1] && text[2] == s[j + 2];
      letters := [LetterValue(s[j]), LetterValue(s[j + 1]), LetterValue(s[j + 2])];
      if letters[0] == I || letters[0] == O {
        error := true;
      }
      if letters[1] == I || letters[1] == O {
        error := true;
      }
      if letters[2] == I || letters[2] == O {
        error := true;
      }
    } else {
      error := true;
    }
  }

  method ReadCoordinates(s: string, j: nat, i: nat) returns (c: Coordinates, error: bool)
    requires j <= i <= |s| && AllDigits(s[j..i])
    ensures CoordinatesOf(s[j..i]) == if error then None else Some(c)
  {
    var digits := i - j;
    c, error := Coordinates(0, 0, 0), false;
    if digits <= 10 && digits % 2 == 0 {
      var n := digits / 2;
      c := Coordinates(0, 0, n);
      if n > 0 {
        assert s[j..i][..n] == s[j..j + n] && s[j..i][n..] == s[j + n..i];
        c := Coordinates(Metres(Scanned(s[j..j + n]), n), Metres(Scanned(s[j + n..i]), n), n);
      }
    } else {
      error := true;
    }
  }

  method BreakMgrsString(s: string) returns (r: Option<Reference>)
    ensures r == Broken(s)
  {
    var j := SkipRun(s, 0, IsBlank);
    var i := SkipRun(s, j, IsDigit);
    var zone, noZone := ReadZone(s, j, i);
    j := i;
    i := SkipRun(s, j, IsAlpha);
    var letters, noLetters := ReadLetters(s, j, i);
    j := i;
    i := SkipRun(s, j, IsDigit);
    var c, noCoordinates := ReadCoordinates(s, j, i);
    r := if noZone || noLetters || noCoordinates then None
         else Some(Reference(zone, letters, c.easting, c.northing, c.precision));
  }

  // ----- there and back -----

  lemma RunBetween(before: string, run: string, after: string, kind: char -> bool)
    requires forall i :: 0 <= i < |run| ==> kind(run[i])
    requires after == "" || !kind(after[0])
    ensures RunEnd(before + run + after, |before|, kind) == |before| + |run|
    ensures (before + run + after)[|before|..|before| + |run|] == run
  {
    var s := before + run + after;
    assert forall k :: |before| <= k < |before| + |run| ==> s[k] == run[k - |before|];
    assert after != "" ==> s[|before| + |run|] == after[0];
    RunIs(s, |before|, |before| + |run|, kind);
  }

  lemma LetterBack(l: int)
    requires 0 <= l < 26
    ensures LetterValue(AlphabetLetter(l)) == l && IsAlpha(AlphabetLetter(l)) && !IsDigit(AlphabetLetter(l))
    ensures !IsBlank(AlphabetLetter(l))
  {}

  lemma LettersBack(letters: seq<int>)
    requires |letters| == MGRS_LETTERS && forall i :: 0 <= i < |letters| ==> 0 <= letters[i] < 26
    ensures AllAlpha(LetterText(letters))
    ensures LettersOf(LetterText(letters)) ==
      if IsGridLetter(letters[0]) && IsGridLetter(letters[1]) && IsGridLetter(letters[2]) then Some(letters) else None
  {
    LetterBack(letters[0]);
    LetterBack(letters[1]);
    LetterBack(letters[2]);
    assert letters == [letters[0], letters[1], letters[2]];
  }

  lemma ZoneBack(zone: nat)
    requires zone <= 60
    ensures AllDigits(ZoneText(zone)) && ZoneOf(ZoneText(zone)) == Some(zone)
  {
    assert PowerOfTen(1) == 10 && PowerOfTen(2) == 100;
    if zone != 0 { ScanPadded(zone, 2); }
  }

  lemma Halves(a: string, b: string, n: nat)
    requires AllDigits(a) && AllDigits(b) && |a| == n == |b| && n <= MAX_PRECISION
    ensures AllDigits(a + b)
    ensures CoordinatesOf(a + b) == Some(Coordinates(Metres(Scanned(a), n), Metres(Scanned(b), n), n))
  {
    assert |a + b| == 2 * n;
    assert (a + b)[..n] == a && (a + b)[n..] == b;
  }

  lemma CoordinatesBack(e: nat, n: nat, precision: nat)
    requires precision <= MAX_PRECISION && e < PowerOfTen(precision) && n < PowerOfTen(precision)
    ensures AllDigits(Padded(e, precision) + Padded(n, precision))
    ensures CoordinatesOf(Padded(e, precision) + Padded(n, precision))
         == Some(Coordinates(Metres(e, precision), Metres(n, precision), precision))
  {
    Halves(Padded(e, precision), Padded(n, precision), precision);
    ScanPadded(e, precision);
    ScanPadded(n, precision);
  }

  lemma FirstOf(a: string, b: string, d: string)
    requires AllDigits(a) && AllAlpha(b) && b != ""
    ensures a + b + d != "" && (a + b + d)[0] == if a == "" then b[0] else a[0]
    ensures !IsBlank((a + b + d)[0])
  {
    assert a != "" ==> IsDigit(a[0]);
    assert IsAlpha(b[0]);
  }

  lemma NotDigit(c: char)
    requires IsAlpha(c)
    ensures !IsDigit(c)
  {}

  lemma ZoneCut(z: string, t: string, d: string)
    requires AllDigits(z) && AllAlpha(t) && t != ""
    ensures RunEnd(z + t + d, 0, IsDigit) == |z|
  {
    NotDigit(t[0]);
    assert z + t + d == "" + z + (t + d) && (t + d)[0] == t[0];
    RunBetween("", z, t + d, IsDigit);
  }

  lemma LettersCut(z: string, t: string, d: string)
    requires AllAlpha(t) && AllDigits(d)
    ensures RunEnd(z + t + d, |z|, IsAlpha) == |z| + |t|
  {
    assert d != "" ==> IsDigit(d[0]);
    RunBetween(z, t, d, IsAlpha);
  }

  lemma DigitsCut(z: string, t: string, d: string)
    requires AllDigits(d)
    ensures RunEnd(z + t + d, |z| + |t|, IsDigit) == |z + t + d|
  {
    assert z + t + d == (z + t) + d + "";
    RunBetween(z + t, d, "", IsDigit);
  }

  /** Digits, letters, digits are cut where they meet. */
  lemma CutWhereTheyMeet(z: string, t: string, d: string)
    requires AllDigits(z) && AllAlpha(t) && t != "" && AllDigits(d)
    ensures var s := z + t + d;
      && RunEnd(s, 0, IsBlank) == 0
      && RunEnd(s, 0, IsDigit) == |z|
      && RunEnd(s, |z|, IsAlpha) == |z| + |t|
      && RunEnd(s, |z| + |t|, IsDigit) == |s|
  {
    FirstOf(z, t, d);
    RunIs(z + t + d, 0, 0, IsBlank);
    ZoneCut(z, t, d);
    LettersCut(z, t, d);
    DigitsCut(z, t, d);
  }

  lemma BrokenPieces(z: string, t: string, d: string)
    requires AllDigits(z) && AllAlpha(t) && t != "" && AllDigits(d)
    ensures Broken(z + t + d) == Assembled(ZoneOf(z), LettersOf(t), CoordinatesOf(d))
  {
    CutWhereTheyMeet(z, t, d);
    var s := z + t + d;
    assert s[0..|z|] == z && s[|z|..|z| + |t|] == t && s[|z| + |t|..|s|] == d;
  }

  /**
   Breaking a made text gives back zone, letters and precision, and the coordinates' places
   in their square cut to that precision; it fails exactly if one of the letters is I or O.
   */
  lemma TextRoundTrip(zone: nat, letters: seq<int>, easting: real, northing: real, precision: nat)
    requires zone <= 60 && |letters| == MGRS_LETTERS && precision <= MAX_PRECISION
    requires forall i :: 0 <= i < |letters| ==> 0 <= letters[i] < 26
    requires easting >= 0.0 && northing >= 0.0
    ensures Broken(MgrsString(zone, letters, easting, northing, precision)) ==
      if IsGridLetter(letters[0]) && IsGridLetter(letters[1]) && IsGridLetter(letters[2]) then
        Some(Reference(zone, letters, Metres(Kept(easting, precision), precision),
                       Metres(Kept(northing, precision), precision), precision))
      else None
  {
    var z, t := ZoneText(zone), LetterText(letters);
    var e, n := Padded(Kept(easting, precision), precision), Padded(Kept(northing, precision), precision);
    ZoneBack(zone);
    LettersBack(letters);
    CoordinatesBack(Kept(easting, precision), Kept(northing, precision), precision);
    assert MgrsString(zone, letters, easting, northing, precision) == z + t + (e + n);
    BrokenPieces(z, t, e + n);
  }
}
