/** From coordinates to text and back. */
module Mgrs {
  import opened Options
  import opened MgrsLetters
  import opened MgrsRounding
  import opened MgrsText
  import Grid = MgrsGrid
  import Polar = MgrsPolar

  // ----- the zones -----

  /** On the equator a point of the southern grid is taken to the northern one. */
  predicate OnEquatorFromSouth(latitude: real, northing: int)
  {
    latitude <= 0.0 && northing == 10000000
  }

  function FinalNorthing(latitude: real, northing: real, precision: nat): int
    requires precision <= MAX_PRECISION
  {
    var n := RoundedTo(northing, precision);
    if OnEquatorFromSouth(latitude, n) then 0 else n
  }

  function FinalLatitude(latitude: real, northing: real, precision: nat): real
    requires precision <= MAX_PRECISION
  {
    if OnEquatorFromSouth(latitude, RoundedTo(northing, precision)) then 0.0 else latitude
  }

  /** Points at the cut-off eastern edge of zone 31V, which are converted again for zone 32. */
  predicate TakenToZone32(zone: int, latitude: real, longitude: real, roundedEasting: int)
  {
    zone == 31 && 56.0 <= latitude < 64.0 && (longitude >= 3.0 || roundedEasting >= 500000)
  }

  ghost predicate UtmInput(zone: int, latitude: real, longitude: real, easting: real, northing: real, precision: nat)
  {
    && 1 <= zone <= 60 && precision <= MAX_PRECISION && easting >= 0.0 && 0.0 <= northing <= 10000000.0
    && 100000 <= RoundedTo(easting, precision) < 900000
    && !TakenToZone32(zone, latitude, longitude, RoundedTo(easting, precision))
  }

  function BandAt(latitude: real): int
    requires Grid.LatitudeLetter(latitude).Some?
  {
    Grid.LatitudeLetter(latitude).value
  }

  /** The text of a point of a zone, if its latitude has a band. */
  ghost function UtmText(zone: int, latitude: real, longitude: real, easting: real, northing: real, precision: nat,
                         aaPattern: bool): Option<string>
    requires UtmInput(zone, latitude, longitude, easting, northing, precision)
  {
    var lat := FinalLatitude(latitude, northing, precision);
    if Grid.LatitudeLetter(lat).None? then None
    else
      var n := FinalNorthing(latitude, northing, precision);
      var e := Grid.GridEasting(zone, BandAt(lat), RoundedTo(easting, precision));
      RoundedToMoves(northing, precision);
      UtmLetters(zone, e, n, aaPattern);
      BandIsLetter(lat);
      Some(MgrsString(zone, [BandAt(lat), Grid.Column(zone, e), Grid.Row(zone, n, aaPattern)], e as real, n as real,
                      precision))
  }

  lemma UtmLetters(zone: int, e: int, n: int, aaPattern: bool)
    requires 1 <= zone <= 60 && 100000 <= e < 900000 && 0 <= n
    ensures IsGridLetter(Grid.Column(zone, e)) && IsGridLetter(Grid.Row(zone, n, aaPattern))
  {
    Grid.ColumnInRange(zone, e);
    Grid.RowInRange(zone, n, aaPattern);
  }

  lemma BandIsLetter(latitude: real)
    requires Grid.LatitudeLetter(latitude).Some?
    ensures IsGridLetter(BandAt(latitude)) && Grid.BandOf(BandAt(latitude)).Some?
  {
    Grid.LatitudeInItsBand(latitude);
  }

  /** Writes the text into the buffer; without a band it reports an error and leaves the buffer alone. */
  method UtmToMgrs(zone: int, latitude: real, longitude: real, easting: real, northing: real, precision: nat,
                   aaPattern: bool, mgrs: array<char>)
    returns (length: Option<nat>)
    requires UtmInput(zone, latitude, longitude, easting, northing, precision) && mgrs.Length >= 16
    modifies mgrs
    ensures length.None? ==>
      UtmText(zone, latitude, longitude, easting, northing, precision, aaPattern) == None && mgrs[..] == old(mgrs[..])
    ensures length.Some? ==>
      && length.value <= 15 && mgrs[length.value] == '\0'
      && Some(mgrs[..length.value]) == UtmText(zone, latitude, longitude, easting, northing, precision, aaPattern)
  {
    var divisor := Divisor(precision) as real;
    var roundedEasting := RoundMgrs(easting / divisor);
    roundedEasting := roundedEasting * Divisor(precision);
    var roundedNorthing := RoundMgrs(northing / divisor);
    roundedNorthing := roundedNorthing * Divisor(precision);
    RoundedToMoves(northing, precision);
    NorthingStaysBelow(northing, precision);
    var lat := latitude;
    if lat <= 0.0 && roundedNorthing == 10000000 {
      lat := 0.0;
      roundedNorthing := 0;
    }
    var band := Grid.LatitudeLetter(lat);
    if band.None? {
      return None;
    }
    BandIsLetter(lat);
    var column, row, gridEasting := Grid.GridSquare(zone, band.value, roundedEasting, roundedNorthing, aaPattern);
    UtmLetters(zone, gridEasting, roundedNorthing, aaPattern);
    var end := MakeMgrsString(mgrs, zone, [band.value, column, row], gridEasting as real, roundedNorthing as real,
                              precision);
    length := Some(end);
  }

  lemma NorthingStaysBelow(northing: real, precision: nat)
    requires 0.0 <= northing <= 10000000.0 && precision <= MAX_PRECISION
    ensures RoundedTo(northing, precision) <= 10000000
  {
    Divisors();
    var d := Divisor(precision);
    var limit := 10000000 / d;
    assert limit * d == 10000000 by {
      assert precision == 0 || precision == 1 || precision == 2 || precision == 3 || precision == 4 || precision == 5;
    }
    assert northing / d as real <= limit as real;
    assert Rounded(northing / d as real) <= limit;
  }

  function UtmFromText(s: string, aaPattern: bool): Option<Grid.UtmPoint>
  {
    var r := Broken(s);
    if r.None? || r.value.zone == 0 then None
    else
      BrokenWellFormed(s);
      Grid.Located(Grid.GridReference(r.value.zone, r.value.letters[0], r.value.letters[1], r.value.letters[2],
                                      r.value.easting, r.value.northing), aaPattern)
  }

  method ConvertMgrsToUtm(mgrs: string, aaPattern: bool) returns (r: Option<Grid.UtmPoint>)
    ensures r == UtmFromText(mgrs, aaPattern)
  {
    var broken := BreakMgrsString(mgrs);
    if broken.None? || broken.value.zone == 0 {
      return None;
    }
    BrokenWellFormed(mgrs);
    var letters := broken.value.letters;
    r := Grid.Locate(Grid.GridReference(broken.value.zone, letters[0], letters[1], letters[2],
                                        broken.value.easting, broken.value.northing), aaPattern);
  }

  lemma WholeUnits(r: int, q: int, d: int)
    requires 0 < d && r == q * d
    ensures r / d * d == r
  {
    var k, rest := r / d, r % d;
    assert r == d * k + rest && 0 <= rest < d;
    assert (q - k) * d == rest;
    assert q - k >= 1 ==> (q - k) * d >= d;
    assert q - k <= -1 ==> (q - k) * d <= -d;
  }

  lemma WholeDigits(v: int, precision: nat)
    requires precision <= MAX_PRECISION && 0 <= v && v % Divisor(precision) == 0
    ensures v as real >= 0.0 && (v as real).Floor == v
    ensures v % ONEHT / Divisor(precision) * Divisor(precision) == v % ONEHT
  {
    Divisors();
    var d := Divisor(precision);
    var units := ONEHT / d;
    assert units * d == ONEHT by {
      assert precision == 0 || precision == 1 || precision == 2 || precision == 3 || precision == 4 || precision == 5;
    }
    var q := v / ONEHT;
    assert v == v / d * d && v % ONEHT == v - q * ONEHT;
    assert q * ONEHT == q * units * d;
    assert v / d * d - q * units * d == (v / d - q * units) * d;
    WholeUnits(v % ONEHT, v / d - q * units, d);
  }

  lemma UtmBroken(zone: int, band: int, e: int, n: int, precision: nat, aaPattern: bool)
    requires 1 <= zone <= 60 && precision <= MAX_PRECISION && IsGridLetter(band) && 100000 <= e < 900000 && 0 <= n
    requires e % Divisor(precision) == 0 && n % Divisor(precision) == 0
    requires IsGridLetter(Grid.Column(zone, e)) && IsGridLetter(Grid.Row(zone, n, aaPattern))
    ensures Broken(MgrsString(zone, [band, Grid.Column(zone, e), Grid.Row(zone, n, aaPattern)], e as real, n as real,
                              precision))
         == Some(Reference(zone, [band, Grid.Column(zone, e), Grid.Row(zone, n, aaPattern)], e % ONEHT, n % ONEHT,
                           precision))
  {
    WholeDigits(e, precision);
    WholeDigits(n, precision);
    TextRoundTrip(zone, [band, Grid.Column(zone, e), Grid.Row(zone, n, aaPattern)], e as real, n as real, precision);
  }

  /**
   A point written as text and read again: if the text is not refused, the zone, the
   hemisphere of its band and the rounded easting come back, and the rounded northing
   comes back exactly if its row starts in the band's window and there is such a zone.
   Rounding has moved each by at most half of what the last digit stands for.
   */
  lemma UtmTextRoundTrip(zone: int, latitude: real, longitude: real, easting: real, northing: real, precision: nat,
                         aaPattern: bool)
    requires UtmInput(zone, latitude, longitude, easting, northing, precision)
    requires Grid.LatitudeLetter(FinalLatitude(latitude, northing, precision)).Some?
    requires var band := BandAt(FinalLatitude(latitude, northing, precision));
      !Grid.MovedWest(zone, band, RoundedTo(easting, precision))
    ensures var band := BandAt(FinalLatitude(latitude, northing, precision));
      var n := FinalNorthing(latitude, northing, precision);
      var text := UtmText(zone, latitude, longitude, easting, northing, precision, aaPattern);
      && text.Some?
      && var r := UtmFromText(text.value, aaPattern);
      && (r.Some? ==> r.value.zone == zone && r.value.hemisphere == (if band < N then 'S' else 'N')
                      && r.value.easting == RoundedTo(easting, precision))
      && (r.Some? && r.value.northing == n <==> Grid.InWindow(band, n) && !Grid.NoSuchZone(zone, band))
    ensures Distance(RoundedTo(easting, precision) as real, easting) <= Divisor(precision) as real / 2.0
    ensures OnEquatorFromSouth(latitude, RoundedTo(northing, precision))
         || Distance(FinalNorthing(latitude, northing, precision) as real, northing) <= Divisor(precision) as real / 2.0
  {
    var e, n := RoundedTo(easting, precision), FinalNorthing(latitude, northing, precision);
    var band := BandAt(FinalLatitude(latitude, northing, precision));
    RoundedToMoves(easting, precision);
    RoundedToMoves(northing, precision);
    BandIsLetter(FinalLatitude(latitude, northing, precision));
    UtmLetters(zone, e, n, aaPattern);
    UtmBroken(zone, band, e, n, precision, aaPattern);
    Grid.GridRoundTrip(zone, band, e, n, aaPattern);
    NorthingStaysBelow(northing, precision);
  }

  // ----- the caps -----

  ghost predicate UpsInput(hemisphere: char, easting: real, northing: real, precision: int)
  {
    && (hemisphere == 'N' || hemisphere == 'S') && 0 <= precision <= MAX_PRECISION
    && 0.0 <= easting <= 4000000.0 && 0.0 <= northing <= 4000000.0
  }

  function RoundedPoint(hemisphere: char, easting: real, northing: real, precision: nat): Polar.PolarPoint
    requires precision <= MAX_PRECISION
  {
    Polar.PolarPoint(hemisphere, RoundedTo(easting, precision), RoundedTo(northing, precision))
  }

  ghost function UpsText(hemisphere: char, easting: real, northing: real, precision: nat): string
    requires UpsInput(hemisphere, easting, northing, precision)
    requires Polar.Writable(RoundedPoint(hemisphere, easting, northing, precision))
  {
    var p := RoundedPoint(hemisphere, easting, northing, precision);
    var g := Polar.PolarReferenceOf(p);
    RoundedToMoves(easting, precision);
    RoundedToMoves(northing, precision);
    MgrsString(0, [g.cap, g.column, g.row], p.easting as real, p.northing as real, precision)
  }

  /** Refuses what is not a point of the caps at all, and leaves the buffer alone then. */
  method UpsToMgrs(hemisphere: char, easting: real, northing: real, precision: int, mgrs: array<char>)
    returns (length: Option<nat>)
    requires mgrs.Length >= 16
    requires UpsInput(hemisphere, easting, northing, precision) ==>
               Polar.Writable(RoundedPoint(hemisphere, easting, northing, precision))
    modifies mgrs
    ensures length.Some? <==> UpsInput(hemisphere, easting, northing, precision)
    ensures length.None? ==> mgrs[..] == old(mgrs[..])
    ensures length.Some? ==>
      && length.value <= 15 && mgrs[length.value] == '\0'
      && mgrs[..length.value] == UpsText(hemisphere, easting, northing, precision)
  {
    if (hemisphere != 'N' && hemisphere != 'S')
       || easting < 0.0 || easting > 4000000.0 || northing < 0.0 || northing > 4000000.0
       || precision < 0 || precision > MAX_PRECISION
    {
      return None;
    }
    var divisor := Divisor(precision) as real;
    var roundedEasting := RoundMgrs(easting / divisor);
    roundedEasting := roundedEasting * Divisor(precision);
    var roundedNorthing := RoundMgrs(northing / divisor);
    roundedNorthing := roundedNorthing * Divisor(precision);
    RoundedToMoves(easting, precision);
    RoundedToMoves(northing, precision);
    var cap, column, row := Polar.PolarSquare(hemisphere, roundedEasting, roundedNorthing);
    var end := MakeMgrsString(mgrs, 0, [cap, column, row], roundedEasting as real, roundedNorthing as real, precision);
    return Some(end);
  }

  function UpsFromText(s: string): Option<Polar.PolarPoint>
  {
    var r := Broken(s);
    if r.None? || r.value.zone != 0 then None
    else
      BrokenWellFormed(s);
      Polar.PolarLocated(Polar.PolarReference(r.value.letters[0], r.value.letters[1], r.value.letters[2],
                                              r.value.easting, r.value.northing))
  }

  method ConvertMgrsToUps(mgrs: string) returns (r: Option<Polar.PolarPoint>)
    requires Broken(mgrs).Some? && Broken(mgrs).value.zone == 0 ==> Polar.HasRow(Broken(mgrs).value.letters[0])
    ensures r == UpsFromText(mgrs)
  {
    var broken := BreakMgrsString(mgrs);
    if broken.None? || broken.value.zone != 0 {
      return None;
    }
    BrokenWellFormed(mgrs);
    var letters := broken.value.letters;
    r := Polar.PolarLocate(Polar.PolarReference(letters[0], letters[1], letters[2],
                                                broken.value.easting, broken.value.northing));
  }

  /** A point of a cap written as text and read again is the rounded point, exactly if that is in range. */
  lemma UpsTextRoundTrip(hemisphere: char, easting: real, northing: real, precision: nat)
    requires UpsInput(hemisphere, easting, northing, precision)
    requires Polar.Writable(RoundedPoint(hemisphere, easting, northing, precision))
    ensures var p := RoundedPoint(hemisphere, easting, northing, precision);
      && (UpsFromText(UpsText(hemisphere, easting, northing, precision)) == Some(p) <==> Polar.InRange(p))
      && Distance(p.easting as real, easting) <= Divisor(precision) as real / 2.0
      && Distance(p.northing as real, northing) <= Divisor(precision) as real / 2.0
  {
    var p := RoundedPoint(hemisphere, easting, northing, precision);
    var g := Polar.PolarReferenceOf(p);
    RoundedToMoves(easting, precision);
    RoundedToMoves(northing, precision);
    WholeDigits(p.easting, precision);
    WholeDigits(p.northing, precision);
    TextRoundTrip(0, [g.cap, g.column, g.row], p.easting as real, p.northing as real, precision);
    Polar.PolarRoundTripIff(p);
  }

  lemma ThreeLetters(letters: string)
    requires |letters| == 3 && AllAlpha(letters) && LettersOf(letters).Some?
    ensures Broken(letters) == Some(Reference(0, LettersOf(letters).value, 0, 0, 0))
  {
    BrokenPieces("", letters, "");
    assert "" + letters + "" == letters;
    ZoneBack(0);
    CoordinatesBack(0, 0, 0);
    assert Padded(0, 0) + Padded(0, 0) == "";
    Divisors();
  }

  /** Read without digits, three letters stand for the corner of their square. */
  lemma CornerRead(text: string, first: int, column: int, row: int)
    requires |text| == 3 && AllAlpha(text) && LettersOf(text) == Some([first, column, row])
    ensures UpsFromText(text) == Polar.PolarLocated(Polar.PolarReference(first, column, row, 0, 0))
  {
    ThreeLetters(text);
  }

  lemma LettersRead()
    ensures AllAlpha("CJA") && LettersOf("CJA") == Some([C, J, A])
    ensures AllAlpha("AJF") && LettersOf("AJF") == Some([A, J, 5])
  {
  }

  lemma SameCorner()
    ensures Polar.PolarLocated(Polar.PolarReference(C, J, A, 0, 0)) == Some(Polar.PolarPoint('S', 800000, 1300000))
    ensures Polar.PolarLocated(Polar.PolarReference(A, J, 5, 0, 0)) == Some(Polar.PolarPoint('S', 800000, 1300000))
  {
  }

  /** A text that begins with C is read as the point of the south that also has its own text. */
  lemma TakenToTheSouth()
    ensures UpsFromText("CJA") == UpsFromText("AJF") == Some(Polar.PolarPoint('S', 800000, 1300000))
  {
    LettersRead();
    SameCorner();
    CornerRead("CJA", C, J, A);
    CornerRead("AJF", A, J, 5);
  }
}
