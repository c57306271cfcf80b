/** Letters and metres of the military grid: what the two grids and the text form have in common. */
module MgrsLetters {
  const A := 0
  const B := 1
  const C := 2
  const D := 3
  const E := 4
  const H := 7
  const I := 8
  const J := 9
  const L := 11
  const M := 12
  const N := 13
  const O := 14
  const P := 15
  const R := 17
  const S := 18
  const U := 20
  const V := 21
  const W := 22
  const X := 23
  const Y := 24
  const Z := 25

  const ONEHT := 100000
  const TWOMIL := 2000000
  const MAX_PRECISION := 5

  /** A letter of the grid; I and O are not used. */
  predicate IsGridLetter(l: int)
  {
    0 <= l < 26 && l != I && l != O
  }

  /** The k-th letter of the alphabet without I and O. */
  function Lettered(k: int): (l: int)
    ensures 0 <= k < 24 ==> IsGridLetter(l)
  {
    if k < I then k else if k + 1 < O then k + 1 else k + 2
  }

  function PowerOfTen(k: nat): (p: nat)
    ensures p >= 1
  {
    if k == 0 then 1 else 10 * PowerOfTen(k - 1)
  }

  /** The metres one unit of the last digit stands for. */
  function Divisor(precision: nat): (d: nat)
    requires precision <= MAX_PRECISION
    ensures d >= 1
  {
    PowerOfTen(MAX_PRECISION - precision)
  }

  lemma Divisors()
    ensures Divisor(0) == 100000 && Divisor(1) == 10000 && Divisor(2) == 1000
    ensures Divisor(3) == 100 && Divisor(4) == 10 && Divisor(5) == 1
  {
    assert PowerOfTen(0) == 1 && PowerOfTen(1) == 10 && PowerOfTen(2) == 100;
    assert PowerOfTen(3) == 1000 && PowerOfTen(4) == 10000;
  }
}

/** Rounding, on exact reals. */
module MgrsRounding {
  import opened MgrsLetters

  function Truncate(v: real): int
  {
    if v >= 0.0 then v.Floor else -((-v).Floor)
  }

  function Fraction(v: real): real
  {
    v - Truncate(v) as real
  }

  /**
   The nearest integer, the even one of two that are as near; below zero the next integer
   above, because truncation goes towards zero there and no fraction is ever large enough.
   */
  function Rounded(value: real): int
  {
    if value < 0.0 then -((-value).Floor)
    else
      var up := (value + 0.5).Floor;
      if up as real == value + 0.5 && up % 2 == 1 then up - 1 else up
  }

  method RoundMgrs(value: real) returns (ival: int)
    ensures value >= 0.0 ==> Distance(ival as real, value) <= 0.5
    ensures value >= 0.0 && Distance(ival as real, value) == 0.5 ==> ival % 2 == 0
    ensures value < 0.0 ==> value <= ival as real < value + 1.0
    ensures ival == Rounded(value)
  {
    var fraction := Fraction(value);
    ival := Truncate(value);
    if fraction > 0.5 || (fraction == 0.5 && ival % 2 == 1) {
      ival := ival + 1;
    }
    OnlyOneRounded(value, ival);
  }

  /** What the method promises leaves only one integer. */
  lemma OnlyOneRounded(value: real, ival: int)
    requires value >= 0.0 ==> Distance(ival as real, value) <= 0.5
    requires value >= 0.0 && Distance(ival as real, value) == 0.5 ==> ival % 2 == 0
    requires value < 0.0 ==> value <= ival as real < value + 1.0
    ensures ival == Rounded(value)
  {
    if value >= 0.0 {
      var up := (value + 0.5).Floor;
      assert ival as real <= value + 0.5 && value + 0.5 <= ival as real + 1.0;
      assert ival <= up <= ival + 1;
    } else {
      var above := -((-value).Floor);
      assert above as real - 1.0 < value <= above as real;
      assert -1.0 < ival as real - above as real < 1.0;
    }
  }

  function Distance(a: real, b: real): real
  {
    if a >= b then a - b else b - a
  }

  /** No integer is nearer, exactly if the value is not more than half below the integer above it when negative. */
  lemma RoundsToNearestIff(v: real)
    ensures Distance(Rounded(v) as real, v) <= 0.5 <==> Fraction(v) >= -0.5
  {}

  /** A half goes to the even neighbour exactly if it is positive or the even one is above it. */
  lemma HalvesGoToEvenIff(v: real, k: int)
    requires v == k as real + 0.5
    ensures Distance(Rounded(v) as real, v) == 0.5
    ensures Rounded(v) % 2 == 0 <==> k >= 0 || k % 2 == 1
  {
    if k >= 0 {
      assert v + 0.5 == (k + 1) as real && (v + 0.5).Floor == k + 1;
    } else {
      assert -v == (-k - 1) as real + 0.5 && (-v).Floor == -k - 1;
    }
  }

  lemma NothingNearer(v: real, k: int)
    requires v >= 0.0
    ensures Distance(Rounded(v) as real, v) <= Distance(k as real, v)
  {
    RoundsToNearestIff(v);
    OtherIsFar(Rounded(v), k, v);
  }

  lemma OtherIsFar(r: int, k: int, v: real)
    requires Distance(r as real, v) <= 0.5
    ensures Distance(r as real, v) <= Distance(k as real, v)
  {
    assert k > r ==> k as real >= r as real + 1.0;
    assert k < r ==> k as real <= r as real - 1.0;
  }

  /** Rounding to the last digit moves a coordinate by at most half of what the digit stands for. */
  function RoundedTo(v: real, precision: nat): int
    requires precision <= MAX_PRECISION
  {
    Rounded(v / Divisor(precision) as real) * Divisor(precision)
  }

  lemma RoundedToMoves(v: real, precision: nat)
    requires precision <= MAX_PRECISION && v >= 0.0
    ensures Distance(RoundedTo(v, precision) as real, v) <= Divisor(precision) as real / 2.0
    ensures RoundedTo(v, precision) >= 0 && RoundedTo(v, precision) % Divisor(precision) == 0
  {
    var d := Divisor(precision) as real;
    var q := v / d;
    RoundsToNearestIff(q);
    var r := Rounded(q) as real;
    assert q * d == v;
    assert (Rounded(q) * Divisor(precision)) as real == r * d;
    Scaled(r, q, d, r * d, v);
    Multiple(Rounded(q), precision);
  }

  lemma Scaled(r: real, q: real, d: real, x: real, y: real)
    requires d > 0.0 && Distance(r, q) <= 0.5 && x == r * d && y == q * d
    ensures Distance(x, y) <= 0.5 * d
  {
    if r >= q { ScaledUp(r, q, d, x, y); } else { ScaledUp(q, r, d, y, x); }
  }

  lemma ScaledUp(r: real, q: real, d: real, x: real, y: real)
    requires d > 0.0 && 0.0 <= r - q <= 0.5 && x == r * d && y == q * d
    ensures 0.0 <= x - y <= 0.5 * d
  {
    var gap := r - q;
    assert x - y == gap * d;
    assert 0.0 <= gap * d;
    assert gap * d <= 0.5 * d;
  }

  lemma Multiple(k: int, precision: nat)
    requires precision <= MAX_PRECISION && k >= 0
    ensures k * Divisor(precision) >= 0 && k * Divisor(precision) % Divisor(precision) == 0
  {
    Divisors();
    assert precision == 0 || precision == 1 || precision == 2 || precision == 3 || precision == 4 || precision == 5;
  }
}

/** The grid of the zones between 80 degrees south and 84 degrees north. */
module MgrsGrid {
  import opened Arithmetic
  import opened Options
  import opened MgrsLetters
  import opened MgrsRounding

  // ----- latitude bands -----

  datatype LatitudeBand = LatitudeBand(letter: int, minNorthing: int, north: real, south: real, northingOffset: int)

  const LATITUDE_BAND_TABLE: seq<LatitudeBand> := [
    LatitudeBand(2, 1100000, -72.0, -80.5, 0),
    LatitudeBand(3, 2000000, -64.0, -72.0, 2000000),
    LatitudeBand(4, 2800000, -56.0, -64.0, 2000000),
    LatitudeBand(5, 3700000, -48.0, -56.0, 2000000),
    LatitudeBand(6, 4600000, -40.0, -48.0, 4000000),
    LatitudeBand(7, 5500000, -32.0, -40.0, 4000000),
    LatitudeBand(9, 6400000, -24.0, -32.0, 6000000),
    LatitudeBand(10, 7300000, -16.0, -24.0, 6000000),
    LatitudeBand(11, 8200000, -8.0, -16.0, 8000000),
    LatitudeBand(12, 9100000, 0.0, -8.0, 8000000),
    LatitudeBand(13, 0, 8.0, 0.0, 0),
    LatitudeBand(15, 800000, 16.0, 8.0, 0),
    LatitudeBand(16, 1700000, 24.0, 16.0, 0),
    LatitudeBand(17, 2600000, 32.0, 24.0, 2000000),
    LatitudeBand(18, 3500000, 40.0, 32.0, 2000000),
    LatitudeBand(19, 4400000, 48.0, 40.0, 4000000),
    LatitudeBand(20, 5300000, 56.0, 48.0, 4000000),
    LatitudeBand(21, 6200000, 64.0, 56.0, 6000000),
    LatitudeBand(22, 7000000, 72.0, 64.0, 6000000),
    LatitudeBand(23, 7900000, 84.5, 72.0, 6000000)]

  /** The table entry of a band letter. */
  function BandOf(letter: int): Option<LatitudeBand>
  {
    if C <= letter <= H then Some(LATITUDE_BAND_TABLE[letter - 2])
    else if J <= letter <= N then Some(LATITUDE_BAND_TABLE[letter - 3])
    else if P <= letter <= X then Some(LATITUDE_BAND_TABLE[letter - 4])
    else None
  }

  const TINY: real := 0.000000000001

  /** The band letter of a latitude in degrees. */
  function LatitudeLetter(latitude: real): (r: Option<int>)
    ensures r.Some? <==> -80.5 < latitude < 84.5
  {
    if 72.0 <= latitude < 84.5 then Some(X)
    else if -80.5 < latitude < 72.0 then
      var temp := Truncate((latitude + 80.0) / 8.0 + TINY);
      Some(LATITUDE_BAND_TABLE[temp].letter)
    else None
  }

  lemma BandRow(k: nat)
    requires k < 20
    ensures BandOf(LATITUDE_BAND_TABLE[k].letter) == Some(LATITUDE_BAND_TABLE[k])
    ensures 0 < k < 19 ==> LATITUDE_BAND_TABLE[k].south == -80.0 + 8.0 * k as real
    ensures k < 19 ==> LATITUDE_BAND_TABLE[k].north == -72.0 + 8.0 * k as real
    ensures k == 0 ==> LATITUDE_BAND_TABLE[k].south == -80.5
  {}

  /** A latitude lies in the band whose letter it gets, but for what is added before truncating. */
  lemma LatitudeInItsBand(latitude: real)
    requires -80.5 < latitude < 84.5
    ensures var band := BandOf(LatitudeLetter(latitude).value);
      band.Some? && band.value.south - 8.0 * TINY <= latitude < band.value.north
  {
    if latitude < 72.0 {
      var x := (latitude + 80.0) / 8.0 + TINY;
      BandRow(Truncate(x));
    }
  }

  // ----- grid patterns -----

  function LowColumn(zone: int): int
  {
    Lettered((zone - 1) % 3 * 8)
  }

  function HighColumn(zone: int): int
  {
    Lettered((zone - 1) % 3 * 8 + 7)
  }

  /** The northing of the row that has letter A; the pattern depends on the ellipsoid. */
  function PatternOffset(zone: int, aaPattern: bool): int
  {
    (if zone % 2 == 0 then 500000 else 0) + if aaPattern then 0 else 1000000
  }

  /** Columns repeat every three zones, and the pattern every two. */
  lemma ZoneSets(zone: int, q: int, r: int)
    requires zone == 6 * q + r && 1 <= r <= 6
    ensures (zone - 1) % 3 == (r - 1) % 3 && zone % 2 == r % 2
  {
    OnlyRemainder(zone - 1, 3, 2 * q + (r - 1) / 3, (r - 1) % 3);
    OnlyRemainder(zone, 2, 3 * q + r / 2, r % 2);
  }

  method GetGridValues(zone: int, aaPattern: bool) returns (low: int, high: int, offset: int)
    requires 1 <= zone <= 60
    ensures low == LowColumn(zone) && high == HighColumn(zone) && offset == PatternOffset(zone, aaPattern)
  {
    var setNumber := zone % 6;
    ghost var q := zone / 6;
    if setNumber == 0 {
      setNumber := 6;
      q := q - 1;
    }
    ZoneSets(zone, q, setNumber);
    if setNumber == 1 || setNumber == 4 {
      low, high := A, H;
    } else if setNumber == 2 || setNumber == 5 {
      low, high := J, R;
    } else {
      low, high := S, Z;
    }
    if aaPattern {
      offset := if setNumber % 2 == 0 then 500000 else 0;
    } else {
      offset := if setNumber % 2 == 0 then 1500000 else 1000000;
    }
  }

  // ----- from metres to letters -----

  /** Columns go through 24 letters in three zones. */
  function Column(zone: int, easting: int): int
  {
    Lettered((zone - 1) % 3 * 8 + easting / ONEHT - 1)
  }

  /** Rows go through 20 letters in two million metres. */
  function Row(zone: int, northing: int, aaPattern: bool): int
  {
    Lettered((northing + PatternOffset(zone, aaPattern)) / ONEHT % 20)
  }

  /** The one easting that is moved to the column west of it. */
  predicate MovedWest(zone: int, band: int, easting: int)
  {
    band == V && zone == 31 && easting == 500000
  }

  function GridEasting(zone: int, band: int, easting: int): int
  {
    if MovedWest(zone, band, easting) then easting - 1 else easting
  }

  /** The row letter of a northing once whole two millions have been taken off. */
  method RowLetter(gridNorthing: int) returns (row: int)
    requires 0 <= gridNorthing < TWOMIL
    ensures row == Lettered(gridNorthing / ONEHT)
  {
    row := gridNorthing / ONEHT;
    if row > H {
      row := row + 1;
    }
    if row > N {
      row := row + 1;
    }
  }

  method ColumnLetter(low: int, zone: int, gridEasting: int) returns (column: int)
    requires low == LowColumn(zone) && 1 <= zone <= 60 && 100000 <= gridEasting < 900000
    ensures column == Column(zone, gridEasting)
  {
    var k := gridEasting / ONEHT;
    assert 1 <= k <= 8;
    column := low + (k - 1);
    if low == J && column > N {
      column := column + 1;
    }
    assert (zone - 1) % 3 == 0 || (zone - 1) % 3 == 1 || (zone - 1) % 3 == 2;
  }

  method ReducedNorthing(northing: int, offset: int) returns (gridNorthing: int)
    requires 0 <= northing && 0 <= offset < TWOMIL
    ensures 0 <= gridNorthing < TWOMIL && gridNorthing == (northing + offset) % TWOMIL
  {
    gridNorthing := northing;
    ghost var k := 0;
    while gridNorthing >= TWOMIL
      invariant 0 <= gridNorthing && northing == gridNorthing + k * TWOMIL
    {
      gridNorthing := gridNorthing - TWOMIL;
      k := k + 1;
    }
    gridNorthing := gridNorthing + offset;
    if gridNorthing >= TWOMIL {
      gridNorthing := gridNorthing - TWOMIL;
    }
  }

  method GridSquare(zone: int, band: int, easting: int, northing: int, aaPattern: bool)
    returns (column: int, row: int, gridEasting: int)
    requires 1 <= zone <= 60 && 100000 <= easting < 900000 && 0 <= northing <= 10000000
    ensures gridEasting == GridEasting(zone, band, easting)
    ensures column == Column(zone, gridEasting) && row == Row(zone, northing, aaPattern)
  {
    var low, high, offset := GetGridValues(zone, aaPattern);
    var gridNorthing := ReducedNorthing(northing, offset);
    SameRow(northing + offset);
    row := RowLetter(gridNorthing);
    gridEasting := easting;
    if band == V && zone == 31 && gridEasting == 500000 {
      gridEasting := gridEasting - 1;
    }
    column := ColumnLetter(low, zone, gridEasting);
  }

  lemma SameRow(b: int)
    ensures b % TWOMIL / ONEHT == b / ONEHT % 20
  {
    var q, a := b / TWOMIL, b % TWOMIL;
    assert b == q * TWOMIL + a;
    assert b / ONEHT == q * 20 + a / ONEHT;
  }

  // ----- from letters to metres -----

  datatype GridReference = GridReference(zone: int, band: int, column: int, row: int, easting: int, northing: int)

  datatype UtmPoint = UtmPoint(zone: int, hemisphere: char, easting: int, northing: int)

  function Unlettered(l: int): int
  {
    if l < I then l else if l < O then l - 1 else l - 2
  }

  /** The only northing of a row from `from` up to two million metres above it. */
  function Candidate(from: int, row: int, zone: int, aaPattern: bool): int
  {
    from + (Unlettered(row) * ONEHT - PatternOffset(zone, aaPattern) - from) % TWOMIL
  }

  /** The zones that do not exist in the northernmost band. */
  predicate NoSuchZone(zone: int, band: int)
  {
    band == X && (zone == 32 || zone == 34 || zone == 36)
  }

  predicate AcceptedLetters(g: GridReference)
  {
    && !NoSuchZone(g.zone, g.band)
    && LowColumn(g.zone) <= g.column <= HighColumn(g.zone)
    && g.row <= V
    && BandOf(g.band).Some?
  }

  const MAX_NORTHING := 10000000

  /** The points that the inverse projection does not refuse at once. */
  predicate InUtmRange(p: UtmPoint)
  {
    100000 <= p.easting <= 900000 && 0 <= p.northing <= MAX_NORTHING
  }

  /** The point that the letters and digits stand for. */
  function PointOf(g: GridReference, aaPattern: bool): UtmPoint
    requires BandOf(g.band).Some?
  {
    UtmPoint(g.zone, if g.band < N then 'S' else 'N',
             (Unlettered(g.column) - (g.zone - 1) % 3 * 8 + 1) * ONEHT + g.easting,
             Candidate(BandOf(g.band).value.minNorthing, g.row, g.zone, aaPattern) + g.northing)
  }

  function Located(g: GridReference, aaPattern: bool): Option<UtmPoint>
  {
    if AcceptedLetters(g) && InUtmRange(PointOf(g, aaPattern)) then Some(PointOf(g, aaPattern)) else None
  }

  method ColumnEasting(low: int, zone: int, column: int) returns (gridEasting: int)
    requires low == LowColumn(zone) && 1 <= zone <= 60 && low <= column <= HighColumn(zone) && IsGridLetter(column)
    ensures gridEasting == (Unlettered(column) - (zone - 1) % 3 * 8 + 1) * ONEHT
  {
    gridEasting := (column - low + 1) * ONEHT;
    if low == J && column > O {
      gridEasting := gridEasting - ONEHT;
    }
    assert (zone - 1) % 3 == 0 || (zone - 1) % 3 == 1 || (zone - 1) % 3 == 2;
  }

  method RowNorthing(row: int) returns (northing: int)
    requires IsGridLetter(row) && row <= V
    ensures northing == Unlettered(row) * ONEHT < TWOMIL
  {
    northing := row * ONEHT;
    if row > O {
      northing := northing - ONEHT;
    }
    if row > I {
      northing := northing - ONEHT;
    }
    if northing >= TWOMIL {
      northing := northing - TWOMIL;
    }
  }

  method GridNorthing(row: int, zone: int, band: LatitudeBand, offset: int, aaPattern: bool) returns (northing: int)
    requires offset == PatternOffset(zone, aaPattern) && IsGridLetter(row) && row <= V
    requires band.northingOffset == band.minNorthing / TWOMIL * TWOMIL
    ensures northing == Candidate(band.minNorthing, row, zone, aaPattern)
  {
    northing := RowNorthing(row);
    northing := northing - offset;
    if northing < 0 {
      northing := northing + TWOMIL;
    }
    assert 0 <= northing < TWOMIL;
    northing := northing + band.northingOffset;
    if northing < band.minNorthing {
      northing := northing + TWOMIL;
    }
    OnlyCandidate(northing, band.minNorthing, row, zone, aaPattern);
  }

  method Locate(g: GridReference, aaPattern: bool) returns (r: Option<UtmPoint>)
    requires 1 <= g.zone <= 60 && IsGridLetter(g.band) && IsGridLetter(g.column) && IsGridLetter(g.row)
    ensures r == Located(g, aaPattern)
  {
    if g.band == X && (g.zone == 32 || g.zone == 34 || g.zone == 36) {
      return None;
    }
    var hemisphere := if g.band < N then 'S' else 'N';
    var low, high, offset := GetGridValues(g.zone, aaPattern);
    if g.column < low || g.column > high || g.row > V {
      return None;
    }
    var gridEasting := ColumnEasting(low, g.zone, g.column);
    var band := BandOf(g.band);
    if band.None? {
      return None;
    }
    BandOffset(g.band);
    var gridNorthing := GridNorthing(g.row, g.zone, band.value, offset, aaPattern);
    var easting, northing := gridEasting + g.easting, gridNorthing + g.northing;
    if easting < 100000 || easting > 900000 || northing < 0 || northing > MAX_NORTHING {
      return None;
    }
    r := Some(UtmPoint(g.zone, hemisphere, easting, northing));
  }

  /** The offsets in the table are the two millions below the minimum northings. */
  lemma BandOffset(letter: int)
    requires BandOf(letter).Some?
    ensures var b := BandOf(letter).value;
      b.northingOffset == b.minNorthing / TWOMIL * TWOMIL && 0 <= b.minNorthing <= 9100000
  {
    var k := if letter <= H then letter - 2 else if letter <= N then letter - 3 else letter - 4;
    BandMinimum(k);
  }

  lemma BandMinimum(k: nat)
    requires k < 20
    ensures var b := LATITUDE_BAND_TABLE[k];
      b.northingOffset == b.minNorthing / TWOMIL * TWOMIL && 0 <= b.minNorthing <= 9100000
  {}

  lemma OnlyCandidate(n: int, from: int, row: int, zone: int, aaPattern: bool)
    requires from <= n < from + TWOMIL
    requires (n + PatternOffset(zone, aaPattern) - Unlettered(row) * ONEHT) % TWOMIL == 0
    ensures n == Candidate(from, row, zone, aaPattern)
  {
    var target := Unlettered(row) * ONEHT - PatternOffset(zone, aaPattern);
    assert (n - target) % TWOMIL == 0;
    assert (target - from) % TWOMIL == n - from;
  }

  // ----- there and back -----

  lemma LetteredBack(k: int)
    requires 0 <= k < 24
    ensures Unlettered(Lettered(k)) == k
  {}

  lemma UnletteredBack(l: int)
    requires IsGridLetter(l)
    ensures Lettered(Unlettered(l)) == l && 0 <= Unlettered(l) < 24
  {}

  lemma ColumnInRange(zone: int, easting: int)
    requires 1 <= zone <= 60 && 100000 <= easting < 900000
    ensures LowColumn(zone) <= Column(zone, easting) <= HighColumn(zone) && IsGridLetter(Column(zone, easting))
    ensures Unlettered(Column(zone, easting)) == (zone - 1) % 3 * 8 + easting / ONEHT - 1
  {
    var k := easting / ONEHT - 1;
    assert 0 <= k <= 7 && 0 <= (zone - 1) % 3 <= 2;
    LetteredBack((zone - 1) % 3 * 8 + k);
  }

  lemma RowInRange(zone: int, northing: int, aaPattern: bool)
    requires 0 <= northing
    ensures IsGridLetter(Row(zone, northing, aaPattern)) && Row(zone, northing, aaPattern) <= V
    ensures Unlettered(Row(zone, northing, aaPattern)) == (northing + PatternOffset(zone, aaPattern)) / ONEHT % 20
  {
    LetteredBack((northing + PatternOffset(zone, aaPattern)) / ONEHT % 20);
  }

  /** The start of the row a northing lies in. */
  function RowStart(northing: int): int
  {
    northing / ONEHT * ONEHT
  }

  /** The row start is one of the northings that fit the row letter. */
  lemma RowFits(zone: int, northing: int, aaPattern: bool)
    requires 0 <= northing
    ensures var row := Row(zone, northing, aaPattern);
      (RowStart(northing) + PatternOffset(zone, aaPattern) - Unlettered(row) * ONEHT) % TWOMIL == 0
  {
    var offset := PatternOffset(zone, aaPattern);
    RowInRange(zone, northing, aaPattern);
    var k, o := northing / ONEHT, offset / ONEHT;
    assert offset == o * ONEHT;
    assert (northing + offset) / ONEHT == k + o;
    var q := (k + o) / 20;
    assert k + o == q * 20 + (k + o) % 20;
    assert RowStart(northing) + offset - (k + o) % 20 * ONEHT == q * TWOMIL;
  }

  /** The reference of a point: its band letter, its square and where it lies in the square. */
  function ReferenceOf(zone: int, band: int, easting: int, northing: int, aaPattern: bool): GridReference
  {
    var e := GridEasting(zone, band, easting);
    GridReference(zone, band, Column(zone, e), Row(zone, northing, aaPattern), e % ONEHT, northing % ONEHT)
  }

  /** The row starts the decoder can tell apart in a band. */
  predicate InWindow(band: int, northing: int)
  {
    BandOf(band).Some? &&
    BandOf(band).value.minNorthing <= RowStart(northing) < BandOf(band).value.minNorthing + TWOMIL
  }

  /**
   What decoding gives back has the right easting, but for the one that is moved west; it
   gives back the northing exactly if its row starts in the two million metres above the
   band's minimum, if it is not above the northernmost one, and if there is such a zone.
   */
  lemma GridRoundTrip(zone: int, band: int, easting: int, northing: int, aaPattern: bool)
    requires 1 <= zone <= 60 && 100000 <= easting < 900000 && 0 <= northing && BandOf(band).Some?
    ensures var r := Located(ReferenceOf(zone, band, easting, northing, aaPattern), aaPattern);
      && (r.Some? ==> r.value.zone == zone && r.value.hemisphere == (if band < N then 'S' else 'N')
                      && r.value.easting == GridEasting(zone, band, easting))
      && (r.Some? && r.value.northing == northing <==>
          InWindow(band, northing) && northing <= MAX_NORTHING && !NoSuchZone(zone, band))
  {
    var e, from := GridEasting(zone, band, easting), BandOf(band).value.minNorthing;
    ColumnInRange(zone, e);
    RowInRange(zone, northing, aaPattern);
    RowFits(zone, northing, aaPattern);
    var row := Row(zone, northing, aaPattern);
    assert northing == RowStart(northing) + northing % ONEHT;
    CandidateInWindow(from, row, zone, aaPattern);
    if InWindow(band, northing) {
      OnlyCandidate(RowStart(northing), from, row, zone, aaPattern);
    }
    assert e == e / ONEHT * ONEHT + e % ONEHT;
  }

  lemma CandidateInWindow(from: int, row: int, zone: int, aaPattern: bool)
    ensures from <= Candidate(from, row, zone, aaPattern) < from + TWOMIL
  {}

  lemma ColumnBack(zone: int, column: int)
    requires 1 <= zone <= 60 && IsGridLetter(column) && LowColumn(zone) <= column <= HighColumn(zone)
    ensures var e := (Unlettered(column) - (zone - 1) % 3 * 8 + 1) * ONEHT;
      100000 <= e < 900000 && Column(zone, e) == column
  {
    UnletteredBack(column);
    var first := (zone - 1) % 3 * 8;
    assert 0 <= (zone - 1) % 3 <= 2;
    LetteredBack(first);
    LetteredBack(first + 7);
    var k := Unlettered(column) - first;
    assert 0 <= k <= 7;
    assert (k + 1) * ONEHT / ONEHT == k + 1;
  }

  lemma RowsModulo(x: int)
    ensures (ONEHT * x) % TWOMIL == ONEHT * (x % 20)
  {
    var q := x / 20;
    assert ONEHT * x == TWOMIL * q + ONEHT * (x % 20);
  }

  /** The pattern's offset, in rows. */
  function OffsetRows(zone: int, aaPattern: bool): (o: int)
    ensures PatternOffset(zone, aaPattern) == ONEHT * o && 0 <= o < 20
  {
    (if zone % 2 == 0 then 5 else 0) + if aaPattern then 0 else 10
  }

  lemma RowOfRows(zone: int, rows: int, rest: int, aaPattern: bool)
    requires 0 <= rest < ONEHT
    ensures Row(zone, ONEHT * rows + rest, aaPattern) == Lettered((rows + OffsetRows(zone, aaPattern)) % 20)
  {
    var o := OffsetRows(zone, aaPattern);
    assert (ONEHT * (rows + o) + rest) / ONEHT == rows + o;
  }

  lemma CandidateRows(f: int, row: int, zone: int, aaPattern: bool)
    ensures Candidate(ONEHT * f, row, zone, aaPattern)
         == ONEHT * (f + (Unlettered(row) - OffsetRows(zone, aaPattern) - f) % 20)
  {
    var x := Unlettered(row) - OffsetRows(zone, aaPattern) - f;
    RowsModulo(x);
    assert Unlettered(row) * ONEHT - PatternOffset(zone, aaPattern) - ONEHT * f == ONEHT * x;
  }

  lemma AroundTheRows(k: int, o: int, f: int)
    requires 0 <= k < 20
    ensures (f + (k - o - f) % 20 + o) % 20 == k
  {
    var x := k - o - f;
    assert x == 20 * (x / 20) + x % 20;
    OnlyRemainder(f + x % 20 + o, 20, -(x / 20), k);
  }

  lemma RowBack(from: int, row: int, zone: int, aaPattern: bool)
    requires IsGridLetter(row) && row <= V && 0 <= from && from % ONEHT == 0
    ensures var n := Candidate(from, row, zone, aaPattern);
      0 <= n && n % ONEHT == 0 && Row(zone, n, aaPattern) == row
  {
    var f := from / ONEHT;
    assert from == ONEHT * f;
    CandidateRows(f, row, zone, aaPattern);
    UnletteredBack(row);
    RowBackAmongRows(f, row, zone, aaPattern);
    WholeRows(f + (Unlettered(row) - OffsetRows(zone, aaPattern) - f) % 20);
  }

  lemma RowBackAmongRows(f: int, row: int, zone: int, aaPattern: bool)
    requires IsGridLetter(row) && row <= V
    ensures var rows := f + (Unlettered(row) - OffsetRows(zone, aaPattern) - f) % 20;
      rows >= f && Row(zone, ONEHT * rows, aaPattern) == row
  {
    var rows := f + (Unlettered(row) - OffsetRows(zone, aaPattern) - f) % 20;
    UnletteredBack(row);
    AroundTheRows(Unlettered(row), OffsetRows(zone, aaPattern), f);
    RowOfRows(zone, rows, 0, aaPattern);
    assert ONEHT * rows + 0 == ONEHT * rows;
  }

  lemma WholeRows(rows: int)
    ensures (ONEHT * rows) % ONEHT == 0 && (rows >= 0 ==> ONEHT * rows >= 0)
  {
  }

  lemma MinimumsAreRowStarts(letter: int)
    requires BandOf(letter).Some?
    ensures BandOf(letter).value.minNorthing % ONEHT == 0
  {
    MinimumIsRowStart(if letter <= H then letter - 2 else if letter <= N then letter - 3 else letter - 4);
  }

  lemma MinimumIsRowStart(k: nat)
    requires k < 20
    ensures LATITUDE_BAND_TABLE[k].minNorthing % ONEHT == 0
  {}

  lemma WithinSquare(start: int, rest: int)
    requires start % ONEHT == 0 && 0 <= rest < ONEHT
    ensures (start + rest) / ONEHT == start / ONEHT && (start + rest) % ONEHT == rest
  {}

  /** Every accepted reference is the reference of the point it locates; the row of that starts in the band's window. */
  lemma ReferenceRoundTrip(g: GridReference, aaPattern: bool)
    requires 1 <= g.zone <= 60 && IsGridLetter(g.band) && IsGridLetter(g.column) && IsGridLetter(g.row)
    requires 0 <= g.easting < ONEHT && 0 <= g.northing < ONEHT && Located(g, aaPattern).Some?
    ensures var p := Located(g, aaPattern).value;
      && 100000 <= p.easting < 900000 && 0 <= p.northing && InWindow(g.band, p.northing)
      && (!MovedWest(g.zone, g.band, p.easting) ==> ReferenceOf(p.zone, g.band, p.easting, p.northing, aaPattern) == g)
  {
    var from := BandOf(g.band).value.minNorthing;
    BandOffset(g.band);
    MinimumsAreRowStarts(g.band);
    ColumnBack(g.zone, g.column);
    RowBack(from, g.row, g.zone, aaPattern);
    CandidateInWindow(from, g.row, g.zone, aaPattern);
    var e := (Unlettered(g.column) - (g.zone - 1) % 3 * 8 + 1) * ONEHT;
    var n := Candidate(from, g.row, g.zone, aaPattern);
    WithinSquare(e, g.easting);
    WithinSquare(n, g.northing);
    RowOfStart(g.zone, n, g.northing, aaPattern);
  }

  lemma RowOfStart(zone: int, start: int, rest: int, aaPattern: bool)
    requires start % ONEHT == 0 && 0 <= rest < ONEHT
    ensures Row(zone, start + rest, aaPattern) == Row(zone, start, aaPattern)
  {
    var rows := start / ONEHT;
    assert start == ONEHT * rows;
    RowOfRows(zone, rows, rest, aaPattern);
    RowOfRows(zone, rows, 0, aaPattern);
  }
}
