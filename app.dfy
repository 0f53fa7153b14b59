/**
 * The computation in app.py: the mock batch scorer and the live feed,
 * whose session keeps the ten newest scored transactions, newest first.
 */
module App {

  import opened Optional
  import opened Frames
  import opened Scoring
  import opened Logic

  // ---------------------------------------------------------------- mock batch scorer

  /**
   * The draws one row of the mock scorer consumes: `random.randint(5, 45)`
   * (used only for a merchant off the watchlist) and `random.randint(10, 90)`.
   */
  datatype MockDraw = MockDraw(merchantRisk: int, geoRisk: int)

  predicate MockDrawInRange(d: MockDraw) {
    5 <= d.merchantRisk <= 45 && 10 <= d.geoRisk <= 90
  }

  datatype MockAssessment = MockAssessment(merchantRisk: int, geoRisk: int, riskScore: real, flagged: Flag)

  /** The mock classifier: CRITICAL above 70, WARNING above 40, CLEAN otherwise. */
  function MockClassify(score: real): (f: Flag)
    ensures f == Critical <==> score > 70.0
    ensures f == Warning <==> 40.0 < score <= 70.0
    ensures f == Clean <==> score <= 40.0
  {
    if score > 70.0 then Critical else if score > 40.0 then Warning else Clean
  }

  /**
   * One row through the mock scorer: the mean of a merchant risk (80 on the
   * watchlist, the draw otherwise) and a drawn geo risk. The office location
   * and threshold play no part.
   */
  function MockAssess(merchant: Cell, watchlist: seq<string>, draw: MockDraw): (a: MockAssessment)
    ensures Watchlisted(merchant, watchlist) ==> a.merchantRisk == 80
    ensures !Watchlisted(merchant, watchlist) ==> a.merchantRisk == draw.merchantRisk
    ensures a.geoRisk == draw.geoRisk
    ensures 2.0 * a.riskScore == (a.merchantRisk + a.geoRisk) as real
    ensures MockDrawInRange(draw) ==>
              && (a.merchantRisk == 80 <==> Watchlisted(merchant, watchlist))
              && 10 <= a.geoRisk <= 90
              && 7.5 <= a.riskScore <= 85.0
    ensures a.flagged == MockClassify(a.riskScore)
  {
    var m := if Watchlisted(merchant, watchlist) then 80 else draw.merchantRisk;
    var score := (m + draw.geoRisk) as real / 2.0;
    MockAssessment(m, draw.geoRisk, score, MockClassify(score))
  }

  /** `df['Merchant'].apply(lambda x: 80 if x in watchlist else random.randint(5, 45))`. */
  function MockMerchantRisks(merchants: seq<Cell>, watchlist: seq<string>, draws: seq<MockDraw>): seq<int>
    requires |draws| == |merchants|
  {
    seq(|merchants|, i requires 0 <= i < |merchants| =>
      if Watchlisted(merchants[i], watchlist) then 80 else draws[i].merchantRisk)
  }

  /** `[random.randint(10, 90) for _ in range(len(df))]`. */
  function MockGeoRisks(draws: seq<MockDraw>): seq<int> {
    seq(|draws|, i requires 0 <= i < |draws| => draws[i].geoRisk)
  }

  /** `(df['Merchant_Risk'] + df['Geo_Risk']) / 2`. */
  function MockScores(m: seq<int>, g: seq<int>): seq<real>
    requires |m| == |g|
  {
    seq(|m|, i requires 0 <= i < |m| => (m[i] + g[i]) as real / 2.0)
  }

  function MockFlagCells(s: seq<real>): seq<Cell> {
    seq(|s|, i requires 0 <= i < |s| => Text(Label(MockClassify(s[i]))))
  }

  predicate MockScorable(cols: map<string, seq<Cell>>, n: nat) {
    "Merchant" in cols && forall l :: l in cols ==> |cols[l]| == n
  }

  /** The columns after the mock scorer has run. */
  function MockColumns(cols: map<string, seq<Cell>>, n: nat, watchlist: seq<string>, draws: seq<MockDraw>): map<string, seq<Cell>>
    requires MockScorable(cols, n) && |draws| == n
  {
    var m := MockMerchantRisks(cols["Merchant"], watchlist, draws);
    var g := MockGeoRisks(draws);
    var s := MockScores(m, g);
    cols["Merchant_Risk" := IntCells(m)]["Geo_Risk" := IntCells(g)]
        ["Risk_Score" := ScoreCells(s)]["Flagged" := MockFlagCells(s)]
  }

  /**
   * Row `i` of the mock scorer's columns holds that row's mock assessment,
   * and every column other than the four it writes is untouched.
   */
  lemma MockColumnsRow(cols: map<string, seq<Cell>>, n: nat, watchlist: seq<string>, draws: seq<MockDraw>, i: nat)
    requires MockScorable(cols, n) && |draws| == n && i < n
    ensures var r := MockColumns(cols, n, watchlist, draws);
            var a := MockAssess(cols["Merchant"][i], watchlist, draws[i]);
            && r["Merchant_Risk"][i] == Int(a.merchantRisk)
            && r["Geo_Risk"][i] == Int(a.geoRisk)
            && r["Risk_Score"][i] == Real(a.riskScore)
            && r["Flagged"][i] == Text(Label(a.flagged))
            && forall l :: l in cols && l !in ["Merchant_Risk", "Geo_Risk", "Risk_Score", "Flagged"] ==> r[l] == cols[l]
  {
  }

  /**
   * `mock_apply_scoring`: adds Merchant_Risk, Geo_Risk, Risk_Score and
   * Flagged in place. `location` and `threshold` are accepted and ignored.
   * A frame without a Merchant column raises a KeyError before any change.
   */
  method MockApplyScoring(df: Frame, watchlist: seq<string>, location: string, threshold: int, draws: seq<MockDraw>)
    returns (out: Outcome)
    requires df.Valid() && |draws| == df.height
    modifies df
    ensures df.Valid() && df.height == old(df.height)
    ensures "Merchant" !in old(df.columns) ==> out == MissingColumn("Merchant") && unchanged(df)
    ensures "Merchant" in old(df.columns) ==>
              && out == Scored
              && df.labels == WithLabel(WithLabel(WithLabel(WithLabel(old(df.labels),
                                "Merchant_Risk"), "Geo_Risk"), "Risk_Score"), "Flagged")
              && df.columns == MockColumns(old(df.columns), old(df.height), watchlist, draws)
  {
    if "Merchant" !in df.columns {
      return MissingColumn("Merchant");
    }
    var m := MockMerchantRisks(df.columns["Merchant"], watchlist, draws);
    df.SetColumn("Merchant_Risk", IntCells(m));
    var g := MockGeoRisks(draws);
    df.SetColumn("Geo_Risk", IntCells(g));
    var s := MockScores(m, g);
    df.SetColumn("Risk_Score", ScoreCells(s));
    df.SetColumn("Flagged", MockFlagCells(s));
    return Scored;
  }

  // ---------------------------------------------------------------- the classifiers side by side

  /** The mock and engine classifiers disagree exactly on (40, 45] and (70, 75]. */
  lemma MockAndEngineDisagree(x: real)
    ensures MockClassify(x) != Classify(x) <==> (40.0 < x <= 45.0) || (70.0 < x <= 75.0)
    ensures Rank(MockClassify(x)) >= Rank(Classify(x))
  {
  }

  /**
   * A score of 72 is reachable by both batch scorers and is CRITICAL in the
   * mock scorer but WARNING in the engine: a watchlisted merchant with a geo
   * draw of 64 in one, and a watchlisted merchant in a far-away table city
   * with a velocity draw of 26 in the other.
   */
  lemma SeventyTwoSplitsTheScorers(geodesic: Geodesic)
    requires geodesic(LocCoords["London"], LocCoords["Tokyo"]) > 5000.0
    ensures var mock := MockAssess(Text("Global Casino"), ["Global Casino"], MockDraw(5, 64));
            mock.riskScore == 72.0 && mock.flagged == Critical
    ensures var cfg := Config(["Global Casino"], "London", 5000.0, Some(geodesic));
            var a := Assess(Text("Global Casino"), Text("Tokyo"), cfg, RowDraw(DefaultOffice, 26, 1000));
            a.riskScore == 72.0 && a.flagged == Warning
  {
    var cfg := Config(["Global Casino"], "London", 5000.0, Some(geodesic));
    assert OfficePoint("London") == LocCoords["London"];
    assert TargetPoint(Text("Tokyo"), DefaultOffice) == LocCoords["Tokyo"];
    assert !GeoDisabled(Text("Tokyo"), 5000.0, Some(geodesic));
    assert RiskScore(95, 95, 26) == 72.0;
  }

  // ---------------------------------------------------------------- live feed

  /** The live window keeps this many transactions. */
  const Capacity: nat := 10

  /** The merchants the live generator picks from. */
  const LiveMerchants: seq<string> := ["Global Casino", "Apple"]

  /** One live transaction as shown: ID, merchant, a drawn score and its flag. */
  datatype LiveTxn = LiveTxn(id: string, merchant: string, riskScore: int, flagged: Flag)

  /**
   * The draws one live tick consumes: `random.randint(1000, 9999)` for the id,
   * the index `random.choice` picks, and `random.randint(10, 100)` for the score.
   */
  datatype LiveDraw = LiveDraw(idNumber: nat, pick: nat, riskScore: int)

  predicate LiveDrawInRange(d: LiveDraw) {
    1000 <= d.idNumber <= 9999 && d.pick < |LiveMerchants| && 10 <= d.riskScore <= 100
  }

  /** The live classifier has two tiers: CRITICAL above 75, CLEAN otherwise. */
  function LiveClassify(score: int): (f: Flag)
    ensures f == Critical <==> score > 75
    ensures f == Clean <==> score <= 75
  {
    if score > 75 then Critical else Clean
  }

  /** The live classifier agrees with the engine on CRITICAL and says CLEAN where the engine says WARNING. */
  lemma LiveAndEngineClassify(x: int)
    ensures LiveClassify(x) == Critical <==> Classify(x as real) == Critical
    ensures LiveClassify(x) != Classify(x as real) <==> 45 < x <= 75
  {
  }

  /** The transaction one tick makes. */
  function NewLiveTxn(d: LiveDraw): (t: LiveTxn)
    requires d.pick < |LiveMerchants|
    ensures t.merchant in LiveMerchants && t.id == TxnId(d.idNumber) && t.riskScore == d.riskScore
    ensures t.flagged == Critical <==> d.riskScore > 75
    ensures t.flagged != Warning
    ensures LiveDrawInRange(d) ==> |t.id| == 8 && 10 <= t.riskScore <= 100
  {
    LiveTxn(TxnId(d.idNumber), LiveMerchants[d.pick], d.riskScore, LiveClassify(d.riskScore))
  }

  function Min(a: int, b: int): int {
    if a < b then a else b
  }

  /**
   * The window after one tick: the new transaction in front, the old ones
   * behind it in their order, cut to Capacity.
   */
  function Pushed(window: seq<LiveTxn>, t: LiveTxn): (r: seq<LiveTxn>)
    ensures |r| == Min(|window| + 1, Capacity)
    ensures r[0] == t
    ensures forall i :: 1 <= i < |r| ==> r[i] == window[i - 1]
  {
    var inserted := [t] + window;
    inserted[..Min(|inserted|, Capacity)]
  }

  /** A tick on a full window drops exactly its oldest entry. */
  lemma PushedDropsOldest(window: seq<LiveTxn>, t: LiveTxn)
    requires |window| == Capacity
    ensures Pushed(window, t) == [t] + window[..Capacity - 1]
  {
    var r := Pushed(window, t);
    assert forall i :: 0 <= i < |r| ==> r[i] == ([t] + window[..Capacity - 1])[i];
  }

  /** The window after the ticks `ts`, oldest first, starting from an empty window. */
  function Feed(ts: seq<LiveTxn>): seq<LiveTxn> {
    if ts == [] then [] else Pushed(Feed(ts[..|ts| - 1]), ts[|ts| - 1])
  }

  /**
   * After n ticks from empty the window holds min(n, Capacity) entries: the
   * latest ticks, newest first.
   */
  lemma {:induction false} FeedWindow(ts: seq<LiveTxn>)
    ensures |Feed(ts)| == Min(|ts|, Capacity)
    ensures forall i :: 0 <= i < |Feed(ts)| ==> Feed(ts)[i] == ts[|ts| - 1 - i]
  {
    if ts != [] {
      var init := ts[..|ts| - 1];
      FeedWindow(init);
      forall i | 0 <= i < |Feed(ts)|
        ensures Feed(ts)[i] == ts[|ts| - 1 - i]
      {
        if i > 0 {
          assert Feed(ts)[i] == Feed(init)[i - 1];
        }
      }
    }
  }

  /**
   * Eleven distinct ticks into an empty window: ten entries, the eleventh
   * tick in front, the second at the back, and the first gone.
   */
  lemma EleventhTickEvictsFirst(ts: seq<LiveTxn>)
    requires |ts| == 11 && Distinct(ts)
    ensures |Feed(ts)| == 10
    ensures Feed(ts)[0] == ts[10] && Feed(ts)[9] == ts[1]
    ensures ts[0] !in Feed(ts)
  {
    FeedWindow(ts);
  }

  /**
   * The session state of the live view. `liveData` is absent until the feed
   * is first opened and from then on holds the window, newest first.
   */
  class LiveSession {
    var liveData: Option<seq<LiveTxn>>

    ghost predicate Valid()
      reads this
    {
      liveData.Some? ==> |liveData.value| <= Capacity
    }

    /** A session that has never opened the feed. */
    constructor ()
      ensures Valid() && liveData == None
    {
      liveData := None;
    }

    /** Opening the feed creates an empty window only if there is none; an existing one is kept. */
    method OpenFeed()
      requires Valid()
      modifies this
      ensures Valid()
      ensures old(liveData).None? ==> liveData == Some([])
      ensures old(liveData).Some? ==> liveData == old(liveData)
    {
      if liveData.None? {
        liveData := Some([]);
      }
    }

    /**
     * One tick: make a transaction, insert it at the front, then keep the
     * first Capacity entries.
     */
    method Pulse(d: LiveDraw) returns (t: LiveTxn)
      requires Valid() && liveData.Some? && d.pick < |LiveMerchants|
      modifies this
      ensures Valid() && liveData.Some?
      ensures t == NewLiveTxn(d)
      ensures liveData.value == Pushed(old(liveData.value), t)
    {
      t := NewLiveTxn(d);
      liveData := Some([t] + liveData.value);
      liveData := Some(liveData.value[..Min(|liveData.value|, Capacity)]);
    }
  }
}
