/** The layout of the two grids and of the text, letter by letter, and some known references. */
module MgrsLayout {
  import opened Arithmetic
  import opened Options
  import opened MgrsLetters
  import opened MgrsRounding
  import opened MgrsText
  import Grid = MgrsGrid
  import Polar = MgrsPolar
  import Mgrs

  const CAPITALS := "ABCDEFGHIJKLMNOPQRSTUVWXYZ"
  const SMALL := "abcdefghijklmnopqrstuvwxyz"

  lemma Capital(l: nat)
    requires l < 26
    ensures CAPITALS[l] == 'A' + l as char
  {
  }

  lemma Small(l: nat)
    requires l < 26
    ensures SMALL[l] == 'a' + l as char
  {
  }

  /** Letters of either case stand for their places in the alphabet. */
  lemma LetterPlaces(l: nat)
    requires l < 26
    ensures AlphabetLetter(l) == CAPITALS[l]
    ensures IsAlpha(CAPITALS[l]) && LetterValue(CAPITALS[l]) == l
    ensures IsAlpha(SMALL[l]) && LetterValue(SMALL[l]) == l
  {
    Capital(l);
    Small(l);
  }

  // ----- the zones -----

  const BAND_LETTERS := "CDEFGHJKLMNPQRSTUVWX"

  /** What northing a degree of latitude comes to, in metres, from the equator or the false northing of the south. */
  function RoughNorthing(degrees: int): int
  {
    if degrees >= 0 then degrees * 110950 else 10000000 + degrees * 110950
  }

  /**
   The bands are eight degrees high, from 80 degrees south on, and their minimum northings are
   those of their southern edges, rounded down within one square.
   */
  lemma BandTable(k: nat)
    requires k < 20
    ensures var b := Grid.LATITUDE_BAND_TABLE[k];
      && 0 <= b.letter < 26 && AlphabetLetter(b.letter) == BAND_LETTERS[k]
      && b.south == (if k == 0 then -80.5 else (8 * k - 80) as real)
      && b.north == (if k == 19 then 84.5 else (8 * k - 72) as real)
      && 0 <= RoughNorthing(8 * k - 80) - b.minNorthing < 101000 && b.minNorthing % ONEHT == 0
  {
  }

  const COLUMN_SETS := ["ABCDEFGH", "JKLMNPQR", "STUVWXYZ"]

  /** The eight columns of a zone, from its west to its east. */
  lemma ColumnLetters(zone: int, easting: int)
    requires 1 <= zone <= 60 && 100000 <= easting < 900000
    ensures AlphabetLetter(Grid.Column(zone, easting)) == COLUMN_SETS[(zone - 1) % 3][easting / ONEHT - 1]
  {
    Grid.ColumnInRange(zone, easting);
    LetteredIs((zone - 1) % 3 * 8 + easting / ONEHT - 1);
  }

  const GRID_LETTERS := "ABCDEFGHJKLMNPQRSTUVWXYZ"

  lemma LetteredIs(k: nat)
    requires k < 24
    ensures 0 <= Lettered(k) < 26 && AlphabetLetter(Lettered(k)) == GRID_LETTERS[k]
    ensures GRID_LETTERS[k] == COLUMN_SETS[k / 8][k % 8]
  {
  }

  /** The row in which the equator's northing 0 lies: A or F, and on the older ellipsoids L or R. */
  function EquatorRow(zone: int, aaPattern: bool): nat
  {
    (if zone % 2 == 1 then 0 else 5) + if aaPattern then 0 else 10
  }

  /** The rows go through A to V, without I and O, from there. */
  lemma RowLetters(zone: int, northing: int, aaPattern: bool)
    requires 0 <= northing
    ensures AlphabetLetter(Grid.Row(zone, northing, aaPattern)) ==
            "ABCDEFGHJKLMNPQRSTUV"[(northing / ONEHT + EquatorRow(zone, aaPattern)) % 20]
  {
    var k := (northing / ONEHT + EquatorRow(zone, aaPattern)) % 20;
    assert (northing + Grid.PatternOffset(zone, aaPattern)) / ONEHT == northing / ONEHT + EquatorRow(zone, aaPattern);
    LetteredIs(k);
    assert "ABCDEFGHJKLMNPQRSTUV"[k] == GRID_LETTERS[k];
  }

  lemma RowsOfTheEquator()
    ensures Grid.Row(31, 0, true) == A && Grid.Row(32, 0, true) == 5
    ensures Grid.Row(31, 0, false) == L && Grid.Row(32, 0, false) == R
  {
  }

  /** Points of zone 31 in band V with an easting of 500000 are the only ones whose easting is changed. */
  lemma OnlyOneMoved(zone: int, band: int, easting: int)
    ensures Grid.GridEasting(zone, band, easting) == easting <==> !(zone == 31 && band == V && easting == 500000)
    ensures Grid.GridEasting(31, V, 500000) == 499999
  {
  }

  /** The column letter is one of the zone's eight. */
  predicate InColumnSet(zone: int, column: int)
    requires 1 <= zone <= 60 && 0 <= column < 26
  {
    CAPITALS[column] in COLUMN_SETS[(zone - 1) % 3]
  }

  lemma SameLetter(l: nat, m: nat)
    requires l < 26 && m < 26 && AlphabetLetter(l) == AlphabetLetter(m)
    ensures l == m
  {
  }

  lemma OneOfEight(s: string, c: char)
    requires |s| == 8
    ensures c in s <==> c == s[0] || c == s[1] || c == s[2] || c == s[3] || c == s[4] || c == s[5] || c == s[6]
                        || c == s[7]
  {
  }

  lemma SetEntry(kind: nat, i: nat, column: int)
    requires kind < 3 && i < 8 && IsGridLetter(column)
    ensures COLUMN_SETS[kind][i] == CAPITALS[column] <==> Grid.Unlettered(column) == kind * 8 + i
  {
    var k := kind * 8 + i;
    LetterPlaces(column);
    LetteredIs(k);
    Grid.UnletteredBack(column);
    Grid.LetteredBack(k);
    assert COLUMN_SETS[kind][i] == AlphabetLetter(Lettered(k));
    if AlphabetLetter(column) == AlphabetLetter(Lettered(k)) { SameLetter(column, Lettered(k)); }
  }

  lemma SetHas(kind: nat, column: int)
    requires kind < 3 && IsGridLetter(column)
    ensures CAPITALS[column] in COLUMN_SETS[kind] <==> kind * 8 <= Grid.Unlettered(column) < kind * 8 + 8
  {
    SetSize(kind);
    OneOfEight(COLUMN_SETS[kind], CAPITALS[column]);
    forall i | 0 <= i < 8
      ensures COLUMN_SETS[kind][i] == CAPITALS[column] <==> Grid.Unlettered(column) == kind * 8 + i
    {
      SetEntry(kind, i, column);
    }
  }

  lemma SetSize(kind: nat)
    requires kind < 3
    ensures |COLUMN_SETS[kind]| == 8
  {
  }

  lemma ColumnSetIs(zone: int, column: int)
    requires 1 <= zone <= 60 && IsGridLetter(column)
    ensures InColumnSet(zone, column) <==> Grid.LowColumn(zone) <= column <= Grid.HighColumn(zone)
  {
    var kind := (zone - 1) % 3;
    SetHas(kind, column);
    assert kind == 0 || kind == 1 || kind == 2;
  }

  /**
   A reference is refused exactly if there is no such zone, its column is not one of the zone's,
   its row is beyond V, its band is not one of C to X, or its point is off the grid.
   */
  lemma RefusedIff(g: Grid.GridReference, aaPattern: bool)
    requires 1 <= g.zone <= 60 && IsGridLetter(g.band) && IsGridLetter(g.column) && IsGridLetter(g.row)
    ensures Grid.Located(g, aaPattern) == None <==>
      || (g.band == X && g.zone in {32, 34, 36}) || !InColumnSet(g.zone, g.column) || g.row > V
      || !(C <= g.band <= X)
      || (var p := Grid.PointOf(g, aaPattern);
          !(100000 <= p.easting <= 900000 && 0 <= p.northing <= 10000000))
  {
    ColumnSetIs(g.zone, g.column);
  }

  // ----- the caps -----

  lemma PolarColumnIs(k: nat)
    requires k < 24
    ensures var l := Polar.COLUMN_LETTERS[if k < 12 then 6 + k else k - 12];
      0 <= l < 26 && AlphabetLetter(l) == "JKLPQRSTUXYZABCFGHJKLPQR"[k]
  {
  }

  /** The squares of the caps: the half by hemisphere and side of the pole, then columns and rows in order. */
  lemma PolarLetters(p: Polar.PolarPoint, column: nat, row: nat)
    requires (p.hemisphere == 'N' || p.hemisphere == 'S') && Polar.InRange(p)
    requires column == (p.easting - 800000) / ONEHT
    requires row == (p.northing - if p.hemisphere == 'N' then 1300000 else 800000) / ONEHT
    ensures var g := Polar.PolarReferenceOf(p);
      && g.cap == (if p.hemisphere == 'N' then if p.easting < 2000000 then Y else Z
                   else if p.easting < 2000000 then A else B)
      && 0 <= g.column < 26 && AlphabetLetter(g.column) == "JKLPQRSTUXYZABCFGHJKLPQR"[column]
      && 0 <= g.row < 26 && AlphabetLetter(g.row) == GRID_LETTERS[row]
      && g.easting == p.easting % ONEHT && g.northing == p.northing % ONEHT
  {
    Polar.ColumnsInOrder(p, column);
    PolarColumnIs(column);
    PolarRowIs(p, row);
    LetteredIs(row);
  }

  lemma PolarRowIs(p: Polar.PolarPoint, row: nat)
    requires (p.hemisphere == 'N' || p.hemisphere == 'S') && Polar.InRange(p)
    requires row == (p.northing - if p.hemisphere == 'N' then 1300000 else 800000) / ONEHT
    ensures row < 24 && Polar.PolarReferenceOf(p).row == Lettered(row)
  {
    var half := Polar.HalfOf(Polar.CapLetter(p.hemisphere, p.easting));
    assert half.falseNorthing == if p.hemisphere == 'N' then 1300000 else 800000;
  }

  // ----- the text -----

  lemma {:induction false} PaddedDigit(n: nat, width: nat, i: nat)
    requires n < PowerOfTen(width) && i < width
    ensures Padded(n, width)[i] == '0' + (n / PowerOfTen(width - 1 - i) % 10) as char
  {
    if i < width - 1 {
      PaddedDigit(n / 10, width - 1, i);
      TenthDivided(n, PowerOfTen(width - 2 - i));
    } else {
      assert PowerOfTen(0) == 1;
    }
  }

  lemma TenthDivided(n: nat, e: nat)
    requires e > 0
    ensures n / 10 / e == n / (10 * e)
  {
    var q := n / 10;
    var k, s := q / e, q % e;
    assert q == e * k + s;
    TenTimes(e, k);
    Quotients(n, 10 * e, k, 10 * s + n % 10);
  }

  lemma TenTimes(e: nat, k: nat)
    ensures (10 * e) * k == 10 * (e * k)
  {
  }

  lemma Quotients(n: nat, d: nat, k: nat, r: nat)
    requires n == d * k + r && r < d
    ensures n / d == k
  {
    OnlyRemainder(n, d, k, r);
    assert n == d * (n / d) + n % d;
    assert d * (n / d - k) == 0;
  }

  /** Digit i of the five that a coordinate has in its square. */
  function DigitInSquare(v: nat, i: nat): (c: char)
    requires i < 5
  {
    '0' + (v % ONEHT / (if i == 0 then 10000 else if i == 1 then 1000 else if i == 2 then 100 else if i == 3 then 10
                        else 1) % 10) as char
  }

  lemma Tenths(m: nat)
    ensures m / 10 / 10 == m / 100 && m / 10 / 100 == m / 1000 && m / 10 / 1000 == m / 10000
    ensures m / 100 / 10 == m / 1000 && m / 100 / 100 == m / 10000 && m / 1000 / 10 == m / 10000
  {
  }

  lemma KeptDigit(v: real, precision: nat, i: nat)
    requires v >= 0.0 && precision <= MAX_PRECISION && i < precision
    ensures Padded(Kept(v, precision), precision)[i] == DigitInSquare(v.Floor, i)
  {
    Divisors();
    TensAre();
    PaddedDigit(Kept(v, precision), precision, i);
    DigitsCut(v.Floor % ONEHT, precision, i);
  }

  lemma DigitsCut(m: nat, precision: nat, i: nat)
    requires 1 <= precision <= MAX_PRECISION && i < precision
    ensures m / Divisor(precision) / PowerOfTen(precision - 1 - i) ==
            m / (if i == 0 then 10000 else if i == 1 then 1000 else if i == 2 then 100 else if i == 3 then 10 else 1)
  {
    Divisors();
    TensAre();
    Tenths(m);
    if precision == 1 {
      assert Divisor(precision) == 10000;
    } else if precision == 2 {
      assert Divisor(precision) == 1000;
    } else if precision == 3 {
      assert Divisor(precision) == 100;
    } else if precision == 4 {
      assert Divisor(precision) == 10;
    } else {
      assert Divisor(precision) == 1;
    }
  }

  lemma TensAre()
    ensures PowerOfTen(0) == 1 && PowerOfTen(1) == 10 && PowerOfTen(2) == 100 && PowerOfTen(3) == 1000
    ensures PowerOfTen(4) == 10000 && PowerOfTen(5) == 100000
  {
    assert PowerOfTen(2) == 100 && PowerOfTen(4) == 10000;
  }

  /**
   A text, character by character: two digits of the zone if there is one, the three letters, the
   first digits of the easting in its square and then as many of the northing.
   */
  lemma TextStands(zone: nat, letters: seq<int>, easting: real, northing: real, precision: nat, i: nat)
    requires zone <= 60 && |letters| == 3 && precision <= MAX_PRECISION && easting >= 0.0 && northing >= 0.0
    requires forall j :: 0 <= j < |letters| ==> 0 <= letters[j] < 26
    ensures var s := MgrsString(zone, letters, easting, northing, precision);
            var z := if zone == 0 then 0 else 2;
      && |s| == z + 3 + 2 * precision
      && (zone > 0 ==> s[0] == '0' + (zone / 10) as char && s[1] == '0' + (zone % 10) as char)
      && (i < 3 ==> s[z + i] == CAPITALS[letters[i]])
      && (i < precision ==> s[z + 3 + i] == DigitInSquare(easting.Floor, i))
      && (i < precision ==> s[z + 3 + precision + i] == DigitInSquare(northing.Floor, i))
  {
    ZoneDigits(zone);
    JoinedAt(ZoneText(zone), LetterText(letters), Padded(Kept(easting, precision), precision),
             Padded(Kept(northing, precision), precision), i);
    if i < 3 { LetterPlaces(letters[i]); }
    if i < precision {
      KeptDigit(easting, precision, i);
      KeptDigit(northing, precision, i);
    }
  }

  lemma ZoneDigits(zone: nat)
    requires zone <= 60
    ensures |ZoneText(zone)| == if zone == 0 then 0 else 2
    ensures zone > 0 ==> ZoneText(zone) == ['0' + (zone / 10) as char, '0' + (zone % 10) as char]
  {
    TensAre();
    if zone > 0 {
      PaddedDigit(zone, 2, 0);
      PaddedDigit(zone, 2, 1);
    }
  }

  lemma JoinedAt(z: string, t: string, e: string, n: string, i: nat)
    ensures z <= z + t + e + n
    ensures i < |t| ==> (z + t + e + n)[|z| + i] == t[i]
    ensures i < |e| ==> (z + t + e + n)[|z| + |t| + i] == e[i]
    ensures i < |n| ==> (z + t + e + n)[|z| + |t| + |e| + i] == n[i]
  {
  }

  // ----- reading the text -----

  function Raise(c: char): char
  {
    if IsAlpha(c) then CAPITALS[LetterValue(c)] else c
  }

  /** The text in capitals. */
  function Raised(s: string): (r: string)
    ensures |r| == |s|
  {
    seq(|s|, i requires 0 <= i < |s| => Raise(s[i]))
  }

  lemma RaisedCharacter(c: char)
    ensures IsBlank(Raise(c)) == IsBlank(c) && IsDigit(Raise(c)) == IsDigit(c) && IsAlpha(Raise(c)) == IsAlpha(c)
    ensures IsAlpha(c) ==> LetterValue(Raise(c)) == LetterValue(c)
  {
    if IsAlpha(c) { LetterPlaces(LetterValue(c)); }
  }

  lemma RaisedRun(s: string, i: nat, kind: char -> bool)
    requires i <= |s| && forall c :: kind(Raise(c)) == kind(c)
    ensures RunEnd(Raised(s), i, kind) == RunEnd(s, i, kind)
  {
    var e := RunEnd(s, i, kind);
    forall k | i <= k < e ensures kind(Raised(s)[k]) { assert kind(s[k]); }
    RunIs(Raised(s), i, e, kind);
  }

  lemma RaisedRuns(s: string, i: nat)
    requires i <= |s|
    ensures RunEnd(Raised(s), i, IsBlank) == RunEnd(s, i, IsBlank)
    ensures RunEnd(Raised(s), i, IsDigit) == RunEnd(s, i, IsDigit)
    ensures RunEnd(Raised(s), i, IsAlpha) == RunEnd(s, i, IsAlpha)
  {
    forall c
      ensures IsBlank(Raise(c)) == IsBlank(c) && IsDigit(Raise(c)) == IsDigit(c) && IsAlpha(Raise(c)) == IsAlpha(c)
    {
      RaisedCharacter(c);
    }
    RaisedRun(s, i, IsBlank);
    RaisedRun(s, i, IsDigit);
    RaisedRun(s, i, IsAlpha);
  }

  lemma RaisedDigits(s: string, i: nat, j: nat)
    requires i <= j <= |s| && forall k :: i <= k < j ==> IsDigit(s[k])
    ensures Raised(s)[i..j] == s[i..j]
  {
  }

  lemma BrokenBy(s: string, a: nat, b: nat, c: nat, d: nat)
    requires a <= b <= c <= d <= |s| && a == RunEnd(s, 0, IsBlank) && b == RunEnd(s, a, IsDigit)
    requires c == RunEnd(s, b, IsAlpha) && d == RunEnd(s, c, IsDigit)
    ensures AllDigits(s[a..b]) && AllAlpha(s[b..c]) && AllDigits(s[c..d])
    ensures Broken(s) == Assembled(ZoneOf(s[a..b]), LettersOf(s[b..c]), CoordinatesOf(s[c..d]))
  {
  }

  /** Small letters are read as capitals. */
  lemma CaseDoesNotMatter(s: string)
    ensures Broken(Raised(s)) == Broken(s)
  {
    var a := RunEnd(s, 0, IsBlank);
    var b := RunEnd(s, a, IsDigit);
    var c := RunEnd(s, b, IsAlpha);
    var d := RunEnd(s, c, IsDigit);
    RaisedRuns(s, 0);
    RaisedRuns(s, a);
    RaisedRuns(s, b);
    RaisedRuns(s, c);
    SameParts(s, a, b, c, d);
    BrokenBy(s, a, b, c, d);
    BrokenBy(Raised(s), a, b, c, d);
    RaisedLetters(Raised(s)[b..c], s[b..c]);
  }

  lemma SameParts(s: string, a: nat, b: nat, c: nat, d: nat)
    requires a <= b <= c <= d <= |s|
    requires (forall k :: a <= k < b ==> IsDigit(s[k])) && (forall k :: c <= k < d ==> IsDigit(s[k]))
    ensures Raised(s)[a..b] == s[a..b] && Raised(s)[c..d] == s[c..d] && Raised(s)[b..c] == Raised(s[b..c])
  {
    RaisedDigits(s, a, b);
    RaisedDigits(s, c, d);
  }

  lemma RaisedLetters(t: string, u: string)
    requires AllAlpha(u) && t == Raised(u)
    ensures AllAlpha(t) && LettersOf(t) == LettersOf(u)
  {
    forall i | 0 <= i < |u| ensures IsAlpha(t[i]) && LetterValue(t[i]) == LetterValue(u[i]) { RaisedCharacter(u[i]); }
  }

  /** The number that one or two digits stand for. */
  function ZoneNumber(z: string): int
    requires AllDigits(z) && 1 <= |z| <= 2
  {
    if |z| == 1 then (z[0] - '0') as int else 10 * (z[0] - '0') as int + (z[1] - '0') as int
  }

  lemma ZoneAccepted(z: string)
    requires AllDigits(z)
    ensures ZoneOf(z).Some? <==> |z| <= 2 && (z != "" ==> 1 <= ZoneNumber(z) <= 60)
    ensures ZoneOf(z).Some? ==> ZoneOf(z).value == if z == "" then 0 else ZoneNumber(z)
  {
    if |z| == 1 {
      assert z[..0] == "" && Scanned("") == 0;
      assert Scanned(z) == DigitValue(z[0]);
    } else if |z| == 2 {
      assert z[..1][..0] == "" && Scanned(z[..1]) == DigitValue(z[0]);
    }
  }

  lemma LettersAccepted(t: string)
    requires AllAlpha(t)
    ensures LettersOf(t).Some? <==> |t| == 3 && forall i :: 0 <= i < 3 ==> t[i] !in "IOio"
    ensures LettersOf(t).Some? ==> forall i :: 0 <= i < 3 ==> LettersOf(t).value[i] == LetterValue(t[i])
  {
  }

  /** Nothing that could still belong to the digits, or to the letters if there are no digits. */
  predicate EndsThere(d: string, rest: string)
  {
    rest == "" || (!IsDigit(rest[0]) && (d == "" ==> !IsAlpha(rest[0])))
  }

  lemma Regrouped(a: string, b: string, c: string, d: string, e: string)
    ensures a + b + c + d + e == "" + a + (b + c + d + e)
    ensures a + b + c + d + e == a + b + (c + d + e)
    ensures a + b + c + d + e == (a + b) + c + (d + e)
  {
  }

  lemma FirstParts(blanks: string, z: string, t: string, d: string, rest: string)
    requires (forall i :: 0 <= i < |blanks| ==> IsBlank(blanks[i])) && AllDigits(z) && AllAlpha(t) && t != ""
    ensures var s := blanks + z + t + d + rest;
      && RunEnd(s, 0, IsBlank) == |blanks|
      && RunEnd(s, |blanks|, IsDigit) == |blanks + z| && s[|blanks|..|blanks + z|] == z
  {
    Regrouped(blanks, z, t, d, rest);
    var b, c := z + t + d + rest, t + d + rest;
    assert b[0] == (if z == "" then t[0] else z[0]) && c[0] == t[0];
    RunBetween("", blanks, b, IsBlank);
    RunBetween(blanks, z, c, IsDigit);
  }

  lemma LastParts(blanks: string, z: string, t: string, d: string, rest: string)
    requires AllAlpha(t) && AllDigits(d) && EndsThere(d, rest)
    ensures var s := blanks + z + t + d + rest;
      && RunEnd(s, |blanks + z|, IsAlpha) == |blanks + z + t| && s[|blanks + z|..|blanks + z + t|] == t
      && RunEnd(s, |blanks + z + t|, IsDigit) == |blanks + z + t + d|
      && s[|blanks + z + t|..|blanks + z + t + d|] == d
  {
    Regrouped(blanks, z, t, d, rest);
    var e := d + rest;
    assert e != "" ==> e[0] == if d == "" then rest[0] else d[0];
    RunBetween(blanks + z, t, e, IsAlpha);
    RunBetween(blanks + z + t, d, rest, IsDigit);
  }

  lemma Pieces(blanks: string, z: string, t: string, d: string, rest: string)
    requires (forall i :: 0 <= i < |blanks| ==> IsBlank(blanks[i])) && AllDigits(z) && AllAlpha(t) && t != ""
    requires AllDigits(d) && EndsThere(d, rest)
    ensures Broken(blanks + z + t + d + rest) == Assembled(ZoneOf(z), LettersOf(t), CoordinatesOf(d))
  {
    FirstParts(blanks, z, t, d, rest);
    LastParts(blanks, z, t, d, rest);
  }

  /**
   Whatever blanks stand in front and whatever follows, a text is accepted exactly if its zone is
   missing or has one or two digits from 1 to 60, it has three letters, none of them I or O, and
   an even number of digits, at most ten.
   */
  lemma AcceptedIff(blanks: string, z: string, t: string, d: string, rest: string)
    requires (forall i :: 0 <= i < |blanks| ==> IsBlank(blanks[i])) && AllDigits(z) && AllAlpha(t) && t != ""
    requires AllDigits(d) && EndsThere(d, rest)
    ensures var r := Broken(blanks + z + t + d + rest);
      && (r.Some? <==>
          && |z| <= 2 && (z != "" ==> 1 <= ZoneNumber(z) <= 60)
          && |t| == 3 && (forall i :: 0 <= i < 3 ==> t[i] !in "IOio")
          && |d| <= 10 && |d| % 2 == 0)
      && (r.Some? ==>
          && r.value.zone == (if z == "" then 0 else ZoneNumber(z)) && r.value.precision == |d| / 2
          && |r.value.letters| == 3 && forall i :: 0 <= i < 3 ==> r.value.letters[i] == LetterValue(t[i]))
  {
    Pieces(blanks, z, t, d, rest);
    ZoneAccepted(z);
    LettersAccepted(t);
  }

  // ----- known references -----

  /** What a text of full precision must be, from its letters and coordinates. */
  ghost predicate Describes(text: string, zone: nat, letters: seq<int>, easting: int, northing: int)
    requires |letters| == 3 && easting >= 0 && northing >= 0
    requires forall j :: 0 <= j < |letters| ==> 0 <= letters[j] < 26
  {
    && |text| == 15
    && text[0] == '0' + (zone / 10 % 10) as char && text[1] == '0' + (zone % 10) as char
    && (forall i: nat :: i < 3 ==> text[2 + i] == CAPITALS[letters[i]])
    && (forall i: nat :: i < 5 ==> text[5 + i] == DigitInSquare(easting, i))
    && (forall i: nat :: i < 5 ==> text[10 + i] == DigitInSquare(northing, i))
  }

  lemma CharacterIs(zone: nat, letters: seq<int>, easting: real, northing: real, text: string, k: nat)
    requires 0 < zone <= 60 && |letters| == 3 && easting >= 0.0 && northing >= 0.0 && k < 15
    requires forall j :: 0 <= j < |letters| ==> 0 <= letters[j] < 26
    requires Describes(text, zone, letters, easting.Floor, northing.Floor)
    ensures var s := MgrsString(zone, letters, easting, northing, 5); |s| == 15 && s[k] == text[k]
  {
    var i := if k < 2 then 0 else if k < 5 then k - 2 else if k < 10 then k - 5 else k - 10;
    TextStands(zone, letters, easting, northing, 5, i);
    if 2 <= k < 5 {
      assert text[2 + i] == CAPITALS[letters[i]];
    } else if 5 <= k < 10 {
      assert text[5 + i] == DigitInSquare(easting.Floor, i);
    } else if k >= 10 {
      assert text[10 + i] == DigitInSquare(northing.Floor, i);
    }
  }

  lemma ReadsAs(zone: nat, letters: seq<int>, easting: real, northing: real, text: string)
    requires 0 < zone <= 60 && |letters| == 3 && easting >= 0.0 && northing >= 0.0
    requires forall j :: 0 <= j < |letters| ==> 0 <= letters[j] < 26
    requires Describes(text, zone, letters, easting.Floor, northing.Floor)
    ensures MgrsString(zone, letters, easting, northing, 5) == text
  {
    CharacterIs(zone, letters, easting, northing, text, 0);
    forall k: nat | k < 15 ensures MgrsString(zone, letters, easting, northing, 5)[k] == text[k] {
      CharacterIs(zone, letters, easting, northing, text, k);
    }
  }

  lemma WholeMetres(m: nat)
    ensures RoundedTo(m as real, 5) == m && (m as real).Floor == m
  {
    Divisors();
    assert m as real / 1.0 == m as real;
  }

  lemma NullSquare()
    ensures Grid.LatitudeLetter(0.0) == Some(N)
    ensures Grid.Column(31, 166021) == A && Grid.Row(31, 0, true) == A
  {
  }

  lemma NullDigits()
    ensures Describes("31NAA6602100000", 31, [N, A, A], 166021, 0)
  {
    assert CAPITALS[N] == 'N' && CAPITALS[A] == 'A';
  }

  /** Where the equator and the meridian of Greenwich cross, at 166021 metres east in zone 31. */
  lemma NullIsland()
    ensures Mgrs.UtmInput(31, 0.0, 0.0, 166021.0, 0.0, 5)
    ensures Mgrs.UtmText(31, 0.0, 0.0, 166021.0, 0.0, 5, true) == Some("31NAA6602100000")
  {
    WholeMetres(166021);
    WholeMetres(0);
    NullSquare();
    NullDigits();
    ReadsAs(31, [N, A, A], 166021.0, 0.0, "31NAA6602100000");
  }

  lemma WashingtonSquare()
    ensures Grid.LatitudeLetter(38.9) == Some(S)
    ensures Grid.Column(18, 323371) == U && Grid.Row(18, 4306519, true) == J
  {
  }

  lemma WashingtonDigits()
    ensures Describes("18SUJ2337106519", 18, [S, U, J], 323371, 4306519)
  {
    assert CAPITALS[S] == 'S' && CAPITALS[U] == 'U' && CAPITALS[J] == 'J';
  }

  /** A point in Washington. */
  lemma Washington()
    ensures Mgrs.UtmInput(18, 38.9, -77.0, 323371.0, 4306519.0, 5)
    ensures Mgrs.UtmText(18, 38.9, -77.0, 323371.0, 4306519.0, 5, true) == Some("18SUJ2337106519")
  {
    WholeMetres(323371);
    WholeMetres(4306519);
    WashingtonSquare();
    WashingtonDigits();
    ReadsAs(18, [S, U, J], 323371.0, 4306519.0, "18SUJ2337106519");
  }

  lemma NoDigits()
    ensures Padded(0, 5) == "00000"
  {
    TensAre();
    assert Padded(0, 1) == "0" && Padded(0, 2) == "00" && Padded(0, 3) == "000" && Padded(0, 4) == "0000";
  }

  lemma PoleSquares()
    ensures Polar.PolarReferenceOf(Polar.PolarPoint('N', 2000000, 2000000)) == Polar.PolarReference(Z, A, H, 0, 0)
    ensures Polar.PolarReferenceOf(Polar.PolarPoint('S', 2000000, 2000000)) == Polar.PolarReference(B, A, N, 0, 0)
  {
  }

  lemma CornerText(letters: seq<int>, v: real, text: string)
    requires |letters| == 3 && (forall j :: 0 <= j < |letters| ==> 0 <= letters[j] < 26)
    requires v >= 0.0 && v.Floor % ONEHT == 0
    requires |text| == 13 && text[..3] == LetterText(letters) && text[3..] == "0000000000"
    ensures MgrsString(0, letters, v, v, 5) == text
  {
    Divisors();
    NoDigits();
    assert text == text[..3] + text[3..] && "00000" + "00000" == "0000000000";
    assert MgrsString(0, letters, v, v, 5) == "" + LetterText(letters) + "00000" + "00000";
  }

  /** The two poles. */
  lemma Poles()
    ensures Polar.Writable(Mgrs.RoundedPoint('N', 2000000.0, 2000000.0, 5))
    ensures Polar.Writable(Mgrs.RoundedPoint('S', 2000000.0, 2000000.0, 5))
    ensures Mgrs.UpsText('N', 2000000.0, 2000000.0, 5) == "ZAH0000000000"
    ensures Mgrs.UpsText('S', 2000000.0, 2000000.0, 5) == "BAN0000000000"
  {
    WholeMetres(2000000);
    PoleSquares();
    assert LetterText([Z, A, H]) == "ZAH" && LetterText([B, A, N]) == "BAN";
    CornerText([Z, A, H], 2000000.0, "ZAH0000000000");
    CornerText([B, A, N], 2000000.0, "BAN0000000000");
  }

  /** A point that rounds to the equator from the south is written as one of the north. */
  lemma EquatorIsNorthern(zone: int, latitude: real, longitude: real, easting: real, northing: real, precision: nat,
                          aaPattern: bool)
    requires Mgrs.UtmInput(zone, latitude, longitude, easting, northing, precision)
    requires latitude <= 0.0 && RoundedTo(northing, precision) == 10000000
    ensures Mgrs.UtmInput(zone, 0.0, longitude, easting, 0.0, precision)
    ensures Mgrs.UtmText(zone, latitude, longitude, easting, northing, precision, aaPattern)
         == Mgrs.UtmText(zone, 0.0, longitude, easting, 0.0, precision, aaPattern)
  {
    Divisors();
    assert 0.0 / Divisor(precision) as real == 0.0;
    assert RoundedTo(0.0, precision) == 0;
  }
}
