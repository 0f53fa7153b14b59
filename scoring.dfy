/**
 * The pure part of the risk scoring engine (logic.py): the coordinate
 * table, the three component risks, the aggregate score and its
 * three-tier classification. The geodesic distance and every random draw
 * are inputs.
 */
module Scoring {

  import opened Optional
  import opened Frames
  import opened PyStr

  // ---------------------------------------------------------------- geo index

  /** A (latitude, longitude) pair in degrees. */
  datatype Point = Point(lat: real, lon: real)

  /** The internal coordinates table. */
  const LocCoords: map<string, Point> := map[
    "London" := Point(51.5074, -0.1278),
    "New York" := Point(40.7128, -74.0060),
    "Dubai" := Point(25.2048, 55.2708),
    "Tokyo" := Point(35.6762, 139.6503),
    "Singapore" := Point(1.3521, 103.8198),
    "Sydney" := Point(-33.8688, 151.2093)
  ]

  /** Where an office missing from the table is placed. */
  const DefaultOffice: Point := Point(51.5, -0.1)

  /** Kilometres between two points; absent when the geodesic library is not installed. */
  type Geodesic = (Point, Point) -> real

  /** `LOC_COORDS.get(office_loc, (51.5, -0.1))`. */
  function OfficePoint(officeLoc: string): (p: Point)
    ensures officeLoc in LocCoords ==> p == LocCoords[officeLoc]
    ensures p == DefaultOffice <==> officeLoc !in LocCoords
  {
    if officeLoc in LocCoords then LocCoords[officeLoc] else DefaultOffice
  }

  /** `LOC_COORDS.get(loc, <random point>)`, the random point passed in as `fallback`. */
  function TargetPoint(loc: Cell, fallback: Point): (p: Point)
    ensures loc.Text? && loc.s in LocCoords ==> p == LocCoords[loc.s]
    ensures !(loc.Text? && loc.s in LocCoords) ==> p == fallback
  {
    if loc.Text? && loc.s in LocCoords then LocCoords[loc.s] else fallback
  }

  // ---------------------------------------------------------------- component risks

  /** `m in flagged_merchants`: only a string equal to a listed name matches. */
  predicate Watchlisted(m: Cell, watchlist: seq<string>) {
    m.Text? && m.s in watchlist
  }

  /** Merchant risk: 95 for a watchlisted merchant and 10 for any other value. */
  function MerchantRisk(m: Cell, watchlist: seq<string>): (r: int)
    ensures r == 95 <==> Watchlisted(m, watchlist)
    ensures r == 10 <==> !Watchlisted(m, watchlist)
  {
    if Watchlisted(m, watchlist) then 95 else 10
  }

  /** Geo risk is switched off by a zero threshold, a missing geodesic, or the "Unknown" location. */
  predicate GeoDisabled(loc: Cell, kmThreshold: real, geodesic: Option<Geodesic>) {
    kmThreshold == 0.0 || geodesic.None? || loc == Text("Unknown")
  }

  /**
   * `calc_geo_risk`: a step function. 10 when switched off; otherwise 95
   * when the office is farther than the threshold from the location and
   * 15 when it is not.
   */
  function GeoRisk(loc: Cell, office: Point, kmThreshold: real, geodesic: Option<Geodesic>, fallback: Point): (r: int)
    ensures r == 10 || r == 15 || r == 95
    ensures r == 10 <==> GeoDisabled(loc, kmThreshold, geodesic)
    ensures !GeoDisabled(loc, kmThreshold, geodesic) ==>
              (r == 95 <==> geodesic.value(office, TargetPoint(loc, fallback)) > kmThreshold)
  {
    if GeoDisabled(loc, kmThreshold, geodesic) then 10
    else
      var dist := geodesic.value(office, TargetPoint(loc, fallback));
      if dist > kmThreshold then 95 else 15
  }

  /** Geo risk draws on the random point only for a location outside the table. */
  lemma GeoRiskIgnoresFallback(loc: Cell, office: Point, kmThreshold: real, geodesic: Option<Geodesic>, f1: Point, f2: Point)
    requires GeoDisabled(loc, kmThreshold, geodesic) || (loc.Text? && loc.s in LocCoords)
    ensures GeoRisk(loc, office, kmThreshold, geodesic, f1) == GeoRisk(loc, office, kmThreshold, geodesic, f2)
  {
  }

  // ---------------------------------------------------------------- aggregate

  /**
   * `round((merchant + geo + velocity) / 3, 1)`. The sum is an integer, so
   * ten times the mean is a whole number plus 0, 1/3 or 2/3 and the nearest
   * tenth is (10 * sum + 1) div 3 tenths: never a tie.
   */
  function RiskScore(merchant: int, geo: int, velocity: int): (score: real)
    ensures -0.05 < score - (merchant + geo + velocity) as real / 3.0 < 0.05
    ensures (score * 10.0).Floor as real == score * 10.0
  {
    var sum := merchant + geo + velocity;
    var tenths := (10 * sum + 1) / 3;
    var d := 3 * tenths - 10 * sum;
    assert -1 <= d <= 1;
    assert tenths as real / 10.0 - sum as real / 3.0 == d as real / 30.0;
    tenths as real / 10.0
  }

  /** RiskScore is the only one-decimal value within half a tenth of the mean. */
  lemma RiskScoreIsNearestTenth(merchant: int, geo: int, velocity: int, x: real)
    requires (x * 10.0).Floor as real == x * 10.0
    requires -0.05 < x - (merchant + geo + velocity) as real / 3.0 < 0.05
    ensures x == RiskScore(merchant, geo, velocity)
  {
    var s := RiskScore(merchant, geo, velocity);
    var a, b := (x * 10.0).Floor, (s * 10.0).Floor;
    assert -1.0 < a as real - b as real < 1.0;
    assert a == b;
  }

  // ---------------------------------------------------------------- classification

  datatype Flag = Clean | Warning | Critical

  /** The label written to the Flagged column. */
  function Label(f: Flag): string {
    match f
    case Critical => "\U{1F6A8} CRITICAL"
    case Warning => "\U{26A0}\U{FE0F} WARNING"
    case Clean => "\U{2705} CLEAN"
  }

  /** Distinct tiers have distinct labels. */
  lemma LabelInjective(f: Flag, g: Flag)
    ensures Label(f) == Label(g) ==> f == g
  {
    assert Label(f)[0] == Label(g)[0] ==> f == g;
  }

  /** Tiers in order of severity. */
  function Rank(f: Flag): nat {
    match f
    case Clean => 0
    case Warning => 1
    case Critical => 2
  }

  /** The batch classifier: CRITICAL above 75, WARNING above 45, CLEAN otherwise. */
  function Classify(score: real): (f: Flag)
    ensures f == Critical <==> score > 75.0
    ensures f == Warning <==> 45.0 < score <= 75.0
    ensures f == Clean <==> score <= 45.0
  {
    if score > 75.0 then Critical else if score > 45.0 then Warning else Clean
  }

  /** A higher score never gets a milder tier. */
  lemma ClassifyMonotone(x: real, y: real)
    requires x <= y
    ensures Rank(Classify(x)) <= Rank(Classify(y))
  {
  }

  /** On the aggregate score the tier boundaries fall between whole sums: 135/136 and 225/226. */
  lemma FlagBySum(merchant: int, geo: int, velocity: int)
    ensures var sum := merchant + geo + velocity;
            Classify(RiskScore(merchant, geo, velocity))
              == if sum >= 226 then Critical else if sum >= 136 then Warning else Clean
  {
    var sum := merchant + geo + velocity;
    var t := (10 * sum + 1) / 3;
    assert RiskScore(merchant, geo, velocity) == t as real / 10.0;
    assert t > 750 <==> sum >= 226;
    assert t > 450 <==> sum >= 136;
  }

  // ---------------------------------------------------------------- one row

  /** What one scoring run is given: the watchlist, the office, the threshold and the geodesic. */
  datatype Config = Config(watchlist: seq<string>, officeLoc: string, kmThreshold: real, geodesic: Option<Geodesic>)

  /**
   * The random draws one row consumes: the point used for a location outside
   * the table, `random.randint(5, 95)` for velocity and
   * `random.randint(1000, 9999)` for a made-up transaction id.
   */
  datatype RowDraw = RowDraw(fallback: Point, velocity: int, txnNumber: nat)

  predicate DrawInRange(d: RowDraw) {
    5 <= d.velocity <= 95 && 1000 <= d.txnNumber <= 9999
  }

  /** The scored columns of one row. */
  datatype Assessment = Assessment(merchantRisk: int, geoRisk: int, velocityRisk: int, riskScore: real, flagged: Flag)

  /** One row through the engine. */
  function Assess(merchant: Cell, location: Cell, cfg: Config, draw: RowDraw): (a: Assessment)
    ensures a.merchantRisk == 95 <==> Watchlisted(merchant, cfg.watchlist)
    ensures a.geoRisk == 10 <==> GeoDisabled(location, cfg.kmThreshold, cfg.geodesic)
    ensures a.velocityRisk == draw.velocity
    ensures -0.05 < a.riskScore - (a.merchantRisk + a.geoRisk + a.velocityRisk) as real / 3.0 < 0.05
    ensures 5 <= draw.velocity <= 95 ==> 8.3 <= a.riskScore <= 95.0
    ensures a.flagged == Classify(a.riskScore)
    ensures a.merchantRisk == MerchantRisk(merchant, cfg.watchlist)
    ensures a.geoRisk == GeoRisk(location, OfficePoint(cfg.officeLoc), cfg.kmThreshold, cfg.geodesic, draw.fallback)
    ensures a.riskScore == RiskScore(a.merchantRisk, a.geoRisk, draw.velocity)
  {
    var m := MerchantRisk(merchant, cfg.watchlist);
    var g := GeoRisk(location, OfficePoint(cfg.officeLoc), cfg.kmThreshold, cfg.geodesic, draw.fallback);
    var score := RiskScore(m, g, draw.velocity);
    FlagBySum(m, g, draw.velocity);
    Assessment(m, g, draw.velocity, score, Classify(score))
  }

  /**
   * CRITICAL needs all of: a watchlisted merchant, a far-away location and a
   * velocity draw of at least 36; no other combination gets above 75.
   */
  lemma CriticalIff(merchant: Cell, location: Cell, cfg: Config, draw: RowDraw)
    requires 5 <= draw.velocity <= 95
    ensures var a := Assess(merchant, location, cfg, draw);
            a.flagged == Critical <==> a.merchantRisk == 95 && a.geoRisk == 95 && draw.velocity >= 36
  {
    var a := Assess(merchant, location, cfg, draw);
    FlagBySum(a.merchantRisk, a.geoRisk, a.velocityRisk);
  }

  /**
   * A watchlisted merchant at an "Unknown" location is never CRITICAL: it is
   * WARNING from a velocity draw of 31 up and CLEAN below.
   */
  lemma WatchlistedAtUnknown(merchant: Cell, cfg: Config, draw: RowDraw)
    requires Watchlisted(merchant, cfg.watchlist) && 5 <= draw.velocity <= 95
    ensures Assess(merchant, Text("Unknown"), cfg, draw).flagged
              == if draw.velocity >= 31 then Warning else Clean
  {
    var a := Assess(merchant, Text("Unknown"), cfg, draw);
    FlagBySum(a.merchantRisk, a.geoRisk, a.velocityRisk);
  }

  /**
   * Scoring the same row twice with the same configuration gives the same
   * merchant and geo risk whatever the velocity draws, and the same geo risk
   * whatever the random point unless the location is outside the table.
   */
  lemma AssessRepeatable(merchant: Cell, location: Cell, cfg: Config, d1: RowDraw, d2: RowDraw)
    requires d1.fallback == d2.fallback || GeoDisabled(location, cfg.kmThreshold, cfg.geodesic)
             || (location.Text? && location.s in LocCoords)
    ensures Assess(merchant, location, cfg, d1).merchantRisk == Assess(merchant, location, cfg, d2).merchantRisk
    ensures Assess(merchant, location, cfg, d1).geoRisk == Assess(merchant, location, cfg, d2).geoRisk
  {
    if d1.fallback != d2.fallback {
      GeoRiskIgnoresFallback(location, OfficePoint(cfg.officeLoc), cfg.kmThreshold, cfg.geodesic, d1.fallback, d2.fallback);
    }
  }

  // ---------------------------------------------------------------- transaction ids

  /** `f"TXN-{n}"`. */
  function TxnId(n: nat): (id: string)
    ensures |id| > 4 && id[..4] == "TXN-"
    ensures 1000 <= n <= 9999 ==> |id| == 8
    ensures AllDigits(id[4..]) && DigitsValue(id[4..]) == n
  {
    DecimalWidth4(n);
    DecimalRoundTrip(n);
    assert ("TXN-" + Decimal(n))[4..] == Decimal(n);
    "TXN-" + Decimal(n)
  }

  /** Different draws give different ids. */
  lemma TxnIdInjective(a: nat, b: nat)
    ensures TxnId(a) == TxnId(b) ==> a == b
  {
    if TxnId(a) == TxnId(b) {
      assert Decimal(a) == TxnId(a)[4..];
      assert Decimal(b) == TxnId(b)[4..];
      DecimalInjective(a, b);
    }
  }
}
