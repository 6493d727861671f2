/**
  The particulate Air Quality Index: the piecewise-linear interpolation of Equation 1 in
  section 12 of Appendix G to 40 CFR Part 58, over the pre-2024 PM2.5 and PM10 breakpoint
  tables, with Python's round-half-to-even on the result.
*/
module AqiEngine {
  import opened Common

  /** One row of a breakpoint table: concentrations [cLow, cHigh] map onto [iLow, iHigh]. */
  datatype Breakpoint = Breakpoint(cLow: real, cHigh: real, iLow: int, iHigh: int)

  /** A row the interpolation can use: a proper concentration range and a rising index range. */
  predicate ValidBand(b: Breakpoint) {
    b.cLow < b.cHigh && b.iLow <= b.iHigh
  }

  predicate ValidTable(bps: seq<Breakpoint>) {
    forall i :: 0 <= i < |bps| ==> ValidBand(bps[i])
  }

  /** The band test of `calculate_sub_index`: both ends inclusive. */
  predicate Contains(b: Breakpoint, c: real) {
    b.cLow <= c <= b.cHigh
  }

  // ---------------------------------------------------------------------------
  // Python's round on a real
  // ---------------------------------------------------------------------------

  /** Python's `round(x)`: the nearest integer, ties to the even one. */
  function RoundHalfEven(x: real): (r: int)
    ensures x - 0.5 <= r as real <= x + 0.5
    ensures r as real == x - 0.5 || r as real == x + 0.5 ==> r % 2 == 0
  {
    var f := x.Floor;
    var frac := x - f as real;
    if frac < 0.5 then f
    else if frac > 0.5 then f + 1
    else if f % 2 == 0 then f
    else f + 1
  }

  /** An integer rounds to itself. */
  lemma RoundInteger(n: int)
    ensures RoundHalfEven(n as real) == n
  {
    assert (n as real).Floor == n;
  }

  /** Rounding never reverses the order of two reals. */
  lemma RoundMonotone(x: real, y: real)
    requires x <= y
    ensures RoundHalfEven(x) <= RoundHalfEven(y)
  {
  }

  // ---------------------------------------------------------------------------
  // Sub-index
  // ---------------------------------------------------------------------------

  /** Equation 1: the linear interpolation of `c` inside band `b`, before rounding. */
  function Interpolate(b: Breakpoint, c: real): real
    requires ValidBand(b)
  {
    ((b.iHigh - b.iLow) as real / (b.cHigh - b.cLow)) * (c - b.cLow) + b.iLow as real
  }

  /** The interpolation is exact at both ends of the band and never falls as `c` rises. */
  lemma InterpolateProperties(b: Breakpoint, c: real, d: real)
    requires ValidBand(b)
    ensures Interpolate(b, b.cLow) == b.iLow as real
    ensures Interpolate(b, b.cHigh) == b.iHigh as real
    ensures c <= d ==> Interpolate(b, c) <= Interpolate(b, d)
  {
    var slope := (b.iHigh - b.iLow) as real / (b.cHigh - b.cLow);
    assert slope >= 0.0;
    assert slope * (b.cHigh - b.cLow) == (b.iHigh - b.iLow) as real;
    if c <= d {
      assert slope * (c - b.cLow) <= slope * (d - b.cLow);
    }
  }

  /** The rounded index of `c` in band `b`. */
  function BandIndex(b: Breakpoint, c: real): int
    requires ValidBand(b)
  {
    RoundHalfEven(Interpolate(b, c))
  }

  /** Inside a band the index lies in [iLow, iHigh], hits both ends, and never falls as `c` rises. */
  lemma BandIndexProperties(b: Breakpoint, c: real, d: real)
    requires ValidBand(b) && Contains(b, c)
    ensures BandIndex(b, b.cLow) == b.iLow && BandIndex(b, b.cHigh) == b.iHigh
    ensures b.iLow <= BandIndex(b, c) <= b.iHigh
    ensures c <= d <= b.cHigh ==> BandIndex(b, c) <= BandIndex(b, d)
  {
    InterpolateProperties(b, c, d);
    InterpolateProperties(b, b.cLow, c);
    InterpolateProperties(b, c, b.cHigh);
    RoundInteger(b.iLow);
    RoundInteger(b.iHigh);
    RoundMonotone(b.iLow as real, Interpolate(b, c));
    RoundMonotone(Interpolate(b, c), b.iHigh as real);
    if c <= d {
      RoundMonotone(Interpolate(b, c), Interpolate(b, d));
    }
  }

  /** The position of the first band that contains `c`, if any. */
  function FirstBand(bps: seq<Breakpoint>, c: real): (r: Option<nat>)
    ensures r.Some? ==> r.value < |bps| && Contains(bps[r.value], c) &&
                        forall j :: 0 <= j < r.value ==> !Contains(bps[j], c)
    ensures r.None? ==> forall j :: 0 <= j < |bps| ==> !Contains(bps[j], c)
  {
    if bps == [] then None
    else if Contains(bps[0], c) then Some(0)
    else
      match FirstBand(bps[1..], c)
      case None => None
      case Some(i) => Some(i + 1)
  }

  /** What `calculate_sub_index(c, bps)` returns: the first containing band's index, or `None`. */
  function SubIndexOf(c: real, bps: seq<Breakpoint>): Option<int>
    requires ValidTable(bps)
  {
    match FirstBand(bps, c)
    case None => None
    case Some(i) => Some(BandIndex(bps[i], c))
  }

  /** `calculate_sub_index`: scans the bands and returns from the first one containing `c`. */
  method CalculateSubIndex(c: real, bps: seq<Breakpoint>) returns (r: Option<int>)
    requires ValidTable(bps)
    ensures r == SubIndexOf(c, bps)
  {
    for i := 0 to |bps|
      invariant forall j :: 0 <= j < i ==> !Contains(bps[j], c)
    {
      var bp := bps[i];
      if bp.cLow <= c <= bp.cHigh {
        FirstBandIs(bps, c, i);
        var value := ((bp.iHigh - bp.iLow) as real / (bp.cHigh - bp.cLow)) * (c - bp.cLow) + bp.iLow as real;
        assert value == Interpolate(bp, c);
        return Some(RoundHalfEven(value));
      }
    }
    return None;
  }

  /** The first band is the one whose predecessors all miss. */
  lemma FirstBandIs(bps: seq<Breakpoint>, c: real, i: nat)
    requires i < |bps| && Contains(bps[i], c)
    requires forall j :: 0 <= j < i ==> !Contains(bps[j], c)
    ensures FirstBand(bps, c) == Some(i)
  {
  }

  // ---------------------------------------------------------------------------
  // The tables
  // ---------------------------------------------------------------------------

  const Pm25Breakpoints: seq<Breakpoint> := [
    Breakpoint(0.0, 12.0, 0, 50),
    Breakpoint(12.1, 35.4, 51, 100),
    Breakpoint(35.5, 55.4, 101, 150),
    Breakpoint(55.5, 150.4, 151, 200),
    Breakpoint(150.5, 250.4, 201, 300)]

  const Pm10Breakpoints: seq<Breakpoint> := [
    Breakpoint(0.0, 54.0, 0, 50),
    Breakpoint(55.0, 154.0, 51, 100),
    Breakpoint(155.0, 254.0, 101, 150),
    Breakpoint(255.0, 354.0, 151, 200),
    Breakpoint(355.0, 424.0, 201, 300)]

  /** Both tables are usable, and their bands rise and do not overlap. */
  lemma TablesValid()
    ensures ValidTable(Pm25Breakpoints) && ValidTable(Pm10Breakpoints)
    ensures forall i, j :: 0 <= i < j < 5 ==> Pm25Breakpoints[i].cHigh < Pm25Breakpoints[j].cLow
    ensures forall i, j :: 0 <= i < j < 5 ==> Pm10Breakpoints[i].cHigh < Pm10Breakpoints[j].cLow
  {
  }

  /** A concentration no band contains has no sub-index. */
  lemma NoBandNoIndex(c: real, bps: seq<Breakpoint>)
    requires ValidTable(bps)
    ensures SubIndexOf(c, bps).None? <==> forall j :: 0 <= j < |bps| ==> !Contains(bps[j], c)
  {
  }

  /** A sub-index lies within the index range of the band that produced it. */
  lemma SubIndexInBand(c: real, bps: seq<Breakpoint>)
    requires ValidTable(bps)
    ensures SubIndexOf(c, bps).Some? ==>
              var i := FirstBand(bps, c).value;
              bps[i].iLow <= SubIndexOf(c, bps).value <= bps[i].iHigh
  {
    if FirstBand(bps, c).Some? {
      var i := FirstBand(bps, c).value;
      BandIndexProperties(bps[i], c, c);
    }
  }

  /** On both tables a sub-index, when there is one, lies in [0, 300]. */
  lemma TableSubIndexRange(c: real)
    ensures (TablesValid(); SubIndexOf(c, Pm25Breakpoints).Some? ==> 0 <= SubIndexOf(c, Pm25Breakpoints).value <= 300)
    ensures (TablesValid(); SubIndexOf(c, Pm10Breakpoints).Some? ==> 0 <= SubIndexOf(c, Pm10Breakpoints).value <= 300)
  {
    TablesValid();
    SubIndexInBand(c, Pm25Breakpoints);
    SubIndexInBand(c, Pm10Breakpoints);
  }

  /** PM2.5 below 0, in a gap between bands, or above 250.4 has no sub-index. */
  lemma Pm25OutsideBandsIsNone(c: real)
    requires c < 0.0 || 12.0 < c < 12.1 || 35.4 < c < 35.5 || 55.4 < c < 55.5
             || 150.4 < c < 150.5 || c > 250.4
    ensures (TablesValid(); SubIndexOf(c, Pm25Breakpoints).None?)
  {
    TablesValid();
    NoBandNoIndex(c, Pm25Breakpoints);
  }

  /** PM10 below 0, in a gap between bands, or above 424 has no sub-index. */
  lemma Pm10OutsideBandsIsNone(c: real)
    requires c < 0.0 || 54.0 < c < 55.0 || 154.0 < c < 155.0 || 254.0 < c < 255.0
             || 354.0 < c < 355.0 || c > 424.0
    ensures (TablesValid(); SubIndexOf(c, Pm10Breakpoints).None?)
  {
    TablesValid();
    NoBandNoIndex(c, Pm10Breakpoints);
  }

  // ---------------------------------------------------------------------------
  // Category and the combined index
  // ---------------------------------------------------------------------------

  datatype Category = Good | Moderate | Poor | Unhealthy | Severe

  /** `get_aqi_category`. */
  function AqiCategory(aqi: int): (cat: Category)
    ensures cat == Good <==> aqi <= 50
    ensures cat == Moderate <==> 50 < aqi <= 100
    ensures cat == Poor <==> 100 < aqi <= 150
    ensures cat == Unhealthy <==> 150 < aqi <= 200
    ensures cat == Severe <==> aqi > 200
  {
    if aqi <= 50 then Good
    else if aqi <= 100 then Moderate
    else if aqi <= 150 then Poor
    else if aqi <= 200 then Unhealthy
    else Severe
  }

  const Basis := "PM2.5 & PM10 (Particulate-based)"

  datatype AqiReport = AqiReport(aqi: int, category: Category, basis: string, pm25Aqi: Option<int>, pm10Aqi: Option<int>)

  /** The largest of the sub-indices that exist. */
  function MaxPresent(a: Option<int>, b: Option<int>): (m: Option<int>)
    ensures m.None? <==> a.None? && b.None?
    ensures m.Some? ==> (m == a || m == b)
    ensures m.Some? && a.Some? ==> m.value >= a.value
    ensures m.Some? && b.Some? ==> m.value >= b.value
  {
    if a.None? then b
    else if b.None? then a
    else Some(Max(a.value, b.value))
  }

  /** What `calculate_pm_aqi` returns, from the two sub-indices. */
  function PmAqiOf(pm25Aqi: Option<int>, pm10Aqi: Option<int>): (r: Option<AqiReport>)
    ensures r.None? <==> pm25Aqi.None? && pm10Aqi.None?
    ensures r.Some? ==> r.value.pm25Aqi == pm25Aqi && r.value.pm10Aqi == pm10Aqi
    ensures r.Some? ==> Some(r.value.aqi) == MaxPresent(pm25Aqi, pm10Aqi)
    ensures r.Some? ==> r.value.category == AqiCategory(r.value.aqi)
  {
    match MaxPresent(pm25Aqi, pm10Aqi)
    case None => None
    case Some(m) => Some(AqiReport(m, AqiCategory(m), Basis, pm25Aqi, pm10Aqi))
  }

  /** `calculate_pm_aqi`: both sub-indices, the largest that exists, and its category. */
  method CalculatePmAqi(pm25: real, pm10: real) returns (r: Option<AqiReport>)
    ensures (TablesValid(); r == PmAqiOf(SubIndexOf(pm25, Pm25Breakpoints), SubIndexOf(pm10, Pm10Breakpoints)))
  {
    TablesValid();
    var aqiPm25 := CalculateSubIndex(pm25, Pm25Breakpoints);
    var aqiPm10 := CalculateSubIndex(pm10, Pm10Breakpoints);
    var valid: seq<int> := [];
    if aqiPm25.Some? {
      valid := valid + [aqiPm25.value];
    }
    if aqiPm10.Some? {
      valid := valid + [aqiPm10.value];
    }
    if valid == [] {
      return None;
    }
    var finalAqi := if |valid| == 1 then valid[0] else Max(valid[0], valid[1]);
    return Some(AqiReport(finalAqi, AqiCategory(finalAqi), Basis, aqiPm25, aqiPm10));
  }
}
