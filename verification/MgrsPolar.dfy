/** The grid of the polar caps. */
module MgrsPolar {
  import opened Arithmetic
  import opened Options
  import opened MgrsLetters

  datatype PolarPoint = PolarPoint(hemisphere: char, easting: int, northing: int)

  datatype PolarReference = PolarReference(cap: int, column: int, row: int, easting: int, northing: int)

  const MAX_EAST_NORTH := 4000000

  // ----- the four halves of the caps -----

  datatype Half = Half(letter: int, lowColumn: int, highColumn: int, highRow: int, falseEasting: int,
                       falseNorthing: int)

  const UPS_CONSTANT_TABLE: seq<Half> := [
    Half(0, 9, 25, 25, 800000, 800000),
    Half(1, 0, 17, 25, 2000000, 800000),
    Half(24, 9, 25, 15, 800000, 1300000),
    Half(25, 0, 9, 15, 2000000, 1300000)]

  predicate IsCap(letter: int)
  {
    letter == A || letter == B || letter == Y || letter == Z
  }

  /** First letters that lead to a row of the table: C and D lead to the rows of Y and Z. */
  predicate HasRow(first: int)
  {
    A <= first <= D || first == Y || first == Z
  }

  function HalfOf(first: int): (h: Half)
    requires HasRow(first)
    ensures h.letter == if first == C || first == D then first + 22 else first
  {
    if first >= Y then UPS_CONSTANT_TABLE[first - 22] else UPS_CONSTANT_TABLE[first]
  }

  /** The hemispheres are 'N' and 'S'. */
  function CapLetter(hemisphere: char, easting: int): (l: int)
    ensures IsCap(l)
  {
    if hemisphere == 'N' then if easting >= TWOMIL then Z else Y
    else if easting >= TWOMIL then B else A
  }

  // ----- from metres to letters -----

  function Skip(letter: int, last: int, step: int): int
  {
    if letter > last then letter + step else letter
  }

  function PolarRow(half: Half, northing: int): int
  {
    Skip(Skip(Quotient(northing - half.falseNorthing, ONEHT), H, 1), N, 1)
  }

  function PolarColumn(half: Half, easting: int): int
  {
    var letter := half.lowColumn + Quotient(easting - half.falseEasting, ONEHT);
    if easting < TWOMIL then Skip(Skip(letter, L, 3), U, 2)
    else Skip(Skip(Skip(letter, C, 2), H, 1), L, 3)
  }

  function PolarReferenceOf(p: PolarPoint): PolarReference
  {
    var cap := CapLetter(p.hemisphere, p.easting);
    PolarReference(cap, PolarColumn(HalfOf(cap), p.easting), PolarRow(HalfOf(cap), p.northing),
                   p.easting % ONEHT, p.northing % ONEHT)
  }

  method PolarSquare(hemisphere: char, easting: int, northing: int) returns (cap: int, column: int, row: int)
    requires hemisphere == 'N' || hemisphere == 'S'
    requires 0 <= easting <= MAX_EAST_NORTH && 0 <= northing <= MAX_EAST_NORTH
    ensures var g := PolarReferenceOf(PolarPoint(hemisphere, easting, northing));
      cap == g.cap && column == g.column && row == g.row
  {
    var half: Half;
    if hemisphere == 'N' {
      cap := if easting >= TWOMIL then Z else Y;
      half := UPS_CONSTANT_TABLE[cap - 22];
    } else {
      cap := if easting >= TWOMIL then B else A;
      half := UPS_CONSTANT_TABLE[cap];
    }
    row := Quotient(northing - half.falseNorthing, ONEHT);
    if row > H {
      row := row + 1;
    }
    if row > N {
      row := row + 1;
    }
    column := half.lowColumn + Quotient(easting - half.falseEasting, ONEHT);
    if easting < TWOMIL {
      if column > L {
        column := column + 3;
      }
      if column > U {
        column := column + 2;
      }
    } else {
      if column > C {
        column := column + 2;
      }
      if column > H {
        column := column + 1;
      }
      if column > L {
        column := column + 3;
      }
    }
  }

  // ----- from letters to metres -----

  predicate LeftOutColumn(column: int)
  {
    column == D || column == E || column == M || column == N || column == V || column == W
  }

  /** The references that are accepted; letters I and O are refused when the text is read. */
  predicate PolarAccepted(g: PolarReference)
  {
    && HasRow(g.cap) && IsGridLetter(g.column) && IsGridLetter(g.row)
    && HalfOf(g.cap).lowColumn <= g.column <= HalfOf(g.cap).highColumn
    && !LeftOutColumn(g.column)
    && g.row <= HalfOf(g.cap).highRow
  }

  function Back(metres: int, letter: int, last: int, step: int): int
  {
    if letter > last then metres - step else metres
  }

  function PolarEasting(half: Half, column: int): int
  {
    var e := (column - half.lowColumn) * ONEHT + half.falseEasting;
    if half.lowColumn != A then Back(Back(e, column, L, 300000), column, U, 200000)
    else Back(Back(Back(e, column, C, 200000), column, I, ONEHT), column, L, 300000)
  }

  function PolarNorthing(half: Half, row: int): int
  {
    Back(Back(row * ONEHT + half.falseNorthing, row, I, ONEHT), row, O, ONEHT)
  }

  function PolarLocated(g: PolarReference): Option<PolarPoint>
  {
    if !PolarAccepted(g) then None
    else Some(PolarPoint(if g.cap >= Y then 'N' else 'S',
                         PolarEasting(HalfOf(g.cap), g.column) + g.easting,
                         PolarNorthing(HalfOf(g.cap), g.row) + g.northing))
  }

  method PolarLocate(g: PolarReference) returns (r: Option<PolarPoint>)
    requires HasRow(g.cap) && IsGridLetter(g.column) && IsGridLetter(g.row)
    ensures r == PolarLocated(g)
  {
    var hemisphere, half;
    if g.cap >= Y {
      hemisphere, half := 'N', UPS_CONSTANT_TABLE[g.cap - 22];
    } else {
      hemisphere, half := 'S', UPS_CONSTANT_TABLE[g.cap];
    }
    if g.column < half.lowColumn || g.column > half.highColumn ||
       g.column == D || g.column == E || g.column == M || g.column == N || g.column == V || g.column == W ||
       g.row > half.highRow
    {
      return None;
    }
    var gridNorthing := g.row * ONEHT + half.falseNorthing;
    if g.row > I {
      gridNorthing := gridNorthing - ONEHT;
    }
    if g.row > O {
      gridNorthing := gridNorthing - ONEHT;
    }
    var gridEasting := (g.column - half.lowColumn) * ONEHT + half.falseEasting;
    if half.lowColumn != A {
      if g.column > L {
        gridEasting := gridEasting - 300000;
      }
      if g.column > U {
        gridEasting := gridEasting - 200000;
      }
    } else {
      if g.column > C {
        gridEasting := gridEasting - 200000;
      }
      if g.column > I {
        gridEasting := gridEasting - ONEHT;
      }
      if g.column > L {
        gridEasting := gridEasting - 300000;
      }
    }
    r := Some(PolarPoint(hemisphere, gridEasting + g.easting, gridNorthing + g.northing));
  }

  // ----- there and back -----

  /** The points whose letters are in the alphabet. */
  predicate Writable(p: PolarPoint)
  {
    var g := PolarReferenceOf(p);
    A <= g.column <= Z && A <= g.row <= Z
  }

  /** The points the letters reach. */
  predicate InRange(p: PolarPoint)
  {
    if p.hemisphere == 'N' then 800000 <= p.easting < 2700000 && 1300000 <= p.northing < 2700000
    else 800000 <= p.easting < 3200000 && 800000 <= p.northing < 3200000
  }

  /** The letters of the columns, from west to east in each half: the alphabet without D, E, I, M, N, O, V and W. */
  const COLUMN_LETTERS: seq<int> := [0, 1, 2, 5, 6, 7, 9, 10, 11, 15, 16, 17, 18, 19, 20, 23, 24, 25]

  /** In the western halves the columns begin with J, in the eastern ones with A. */
  lemma ColumnsInOrder(p: PolarPoint, k: nat)
    requires k < 24 && 800000 + k * ONEHT <= p.easting < 900000 + k * ONEHT
    ensures PolarReferenceOf(p).column == COLUMN_LETTERS[if k < 12 then 6 + k else k - 12]
  {
    var half := HalfOf(CapLetter(p.hemisphere, p.easting));
    assert half.lowColumn == if k < 12 then 9 else 0;
    assert Quotient(p.easting - half.falseEasting, ONEHT) == if k < 12 then k else k - 12;
  }

  /** No column has one of the letters that are left out. */
  lemma NoLeftOutColumn(p: PolarPoint)
    requires InRange(p)
    ensures !LeftOutColumn(PolarReferenceOf(p).column) && IsGridLetter(PolarReferenceOf(p).column)
  {
    ColumnsInOrder(p, (p.easting - 800000) / ONEHT);
  }

  lemma ColumnThereAndBack(half: Half, easting: int)
    requires half in UPS_CONSTANT_TABLE && half.falseEasting <= easting
    requires if half.lowColumn == A then TWOMIL <= easting < 3200000 else easting < TWOMIL
    ensures PolarEasting(half, PolarColumn(half, easting)) == easting - easting % ONEHT
    ensures half.lowColumn <= PolarColumn(half, easting) <= (if half.lowColumn == A then R else Z)
    ensures half.lowColumn == A ==> (PolarColumn(half, easting) <= J <==> easting < 2700000)
    ensures IsGridLetter(PolarColumn(half, easting)) && !LeftOutColumn(PolarColumn(half, easting))
  {
    var k := Quotient(easting - half.falseEasting, ONEHT);
    assert 0 <= k < 12 && easting - easting % ONEHT == half.falseEasting + k * ONEHT;
  }

  lemma RowThereAndBack(half: Half, northing: int)
    requires half in UPS_CONSTANT_TABLE && half.falseNorthing <= northing < half.falseNorthing + 2400000
    ensures PolarNorthing(half, PolarRow(half, northing)) == northing - northing % ONEHT
    ensures IsGridLetter(PolarRow(half, northing))
    ensures PolarRow(half, northing) <= P <==> northing < half.falseNorthing + 1400000
  {
    var k := Quotient(northing - half.falseNorthing, ONEHT);
    assert 0 <= k < 24 && northing - northing % ONEHT == half.falseNorthing + k * ONEHT;
  }

  lemma InRangeComesBack(p: PolarPoint)
    requires (p.hemisphere == 'N' || p.hemisphere == 'S') && InRange(p)
    ensures PolarLocated(PolarReferenceOf(p)) == Some(p)
  {
    var half := HalfOf(CapLetter(p.hemisphere, p.easting));
    ColumnThereAndBack(half, p.easting);
    RowThereAndBack(half, p.northing);
  }

  /** What any accepted reference locates is in range. */
  lemma LocatedInRange(g: PolarReference)
    requires PolarAccepted(g) && 0 <= g.easting < ONEHT && 0 <= g.northing < ONEHT
    ensures InRange(PolarLocated(g).value)
  {
    var half := HalfOf(g.cap);
    var e, n := PolarEasting(half, g.column), PolarNorthing(half, g.row);
    assert half.falseNorthing <= n <= half.falseNorthing + if g.cap >= Y then 1300000 else 2300000;
  }

  /** Decoding an encoded point gives it back exactly if it is in range. */
  lemma PolarRoundTripIff(p: PolarPoint)
    requires p.hemisphere == 'N' || p.hemisphere == 'S'
    ensures PolarLocated(PolarReferenceOf(p)) == Some(p) <==> InRange(p)
  {
    if InRange(p) {
      InRangeComesBack(p);
    } else if PolarAccepted(PolarReferenceOf(p)) {
      LocatedInRange(PolarReferenceOf(p));
    }
  }

  lemma ColumnBack(half: Half, column: int, rest: int)
    requires half in UPS_CONSTANT_TABLE && half.lowColumn <= column <= half.highColumn && 0 <= rest < ONEHT
    requires IsGridLetter(column) && !LeftOutColumn(column)
    ensures var e := PolarEasting(half, column) + rest;
      PolarColumn(half, e) == column && e % ONEHT == rest && (e >= TWOMIL <==> half.lowColumn == A)
  {
    var e := PolarEasting(half, column);
    var k := (e - half.falseEasting) / ONEHT;
    assert e == half.falseEasting + ONEHT * k && 0 <= k < 12;
    assert Quotient(e + rest - half.falseEasting, ONEHT) == k;
  }

  lemma RowBack(half: Half, row: int, rest: int)
    requires half in UPS_CONSTANT_TABLE && IsGridLetter(row) && 0 <= rest < ONEHT
    ensures var n := PolarNorthing(half, row) + rest; PolarRow(half, n) == row && n % ONEHT == rest
  {
    var n := PolarNorthing(half, row);
    var k := (n - half.falseNorthing) / ONEHT;
    assert n == half.falseNorthing + ONEHT * k && 0 <= k < 24;
    assert Quotient(n + rest - half.falseNorthing, ONEHT) == k;
  }

  /**
   And an accepted reference is the reference of the point it locates exactly if it begins
   with the letter of a cap: C and D are accepted, too, and taken to the south.
   */
  lemma PolarReferenceRoundTripIff(g: PolarReference)
    requires PolarAccepted(g) && 0 <= g.easting < ONEHT && 0 <= g.northing < ONEHT
    ensures PolarReferenceOf(PolarLocated(g).value) == g <==> IsCap(g.cap)
  {
    ColumnBack(HalfOf(g.cap), g.column, g.easting);
    RowBack(HalfOf(g.cap), g.row, g.northing);
  }
}
