/**
 * The frame-level operations of logic.py: normalising an uploaded sheet,
 * scoring every row of a frame in place, and scoring a single record.
 */
module Logic {

  import opened Optional
  import opened Frames
  import opened PyStr
  import opened Scoring

  // ---------------------------------------------------------------- upload

  /** What `pd.read_excel` hands back: header cells and one column per header. */
  datatype Sheet = Sheet(headers: seq<Cell>, columns: seq<seq<Cell>>, rows: nat)

  predicate SheetShape(sh: Sheet) {
    |sh.columns| == |sh.headers| && forall k :: 0 <= k < |sh.columns| ==> |sh.columns[k]| == sh.rows
  }

  /** `name.lower().endswith(('.xlsx', '.xls'))`. */
  function AcceptedName(name: string): (ok: bool)
    ensures ok <==> || (|name| >= 5 && Lower(name[|name| - 5..]) == ".xlsx")
                    || (|name| >= 4 && Lower(name[|name| - 4..]) == ".xls")
  {
    var low := Lower(name);
    assert |name| >= 5 ==> low[|name| - 5..] == Lower(name[|name| - 5..]);
    assert |name| >= 4 ==> low[|name| - 4..] == Lower(name[|name| - 4..]);
    EndsWith(low, ".xlsx") || EndsWith(low, ".xls")
  }

  /** The extension test ignores case: a name and its lower-cased form are accepted alike. */
  lemma AcceptedNameIgnoresCase(name: string)
    ensures AcceptedName(Lower(name)) == AcceptedName(name)
  {
    assert Lower(Lower(name)) == Lower(name);
  }

  /**
   * `[c.strip().capitalize() for c in df.columns]`; a header that is not a
   * string has no `strip()`, and the exception this raises makes the upload
   * fail, so the result is None.
   */
  function UploadHeaders(hs: seq<Cell>): (r: Option<seq<string>>)
    ensures r.Some? <==> forall k :: 0 <= k < |hs| ==> hs[k].Text?
    ensures r.Some? ==> |r.value| == |hs|
    ensures r.Some? ==> forall k :: 0 <= k < |hs| ==> r.value[k] == NormaliseHeader(hs[k].s)
  {
    if forall k :: 0 <= k < |hs| ==> hs[k].Text?
    then Some(seq(|hs|, k requires 0 <= k < |hs| => NormaliseHeader(hs[k].s)))
    else None
  }

  /** The labels after the three defaults have been added where missing. */
  function WithDefaults(labels: seq<string>): seq<string> {
    WithLabel(WithLabel(WithLabel(labels, "Merchant"), "Location"), "Amount")
  }

  /**
   * `process_upload`: rejects a name without an Excel extension and a sheet
   * that cannot be read; otherwise normalises the headers and adds
   * Merchant = "Unknown", Location = "Unknown" and Amount = 0.0 where they
   * are missing, keeping every column read.
   */
  method ProcessUpload(fileName: string, sheet: Option<Sheet>) returns (df: Frame?)
    requires sheet.Some? ==> SheetShape(sheet.value)
    ensures df != null <==>
              && AcceptedName(fileName) && sheet.Some?
              && UploadHeaders(sheet.value.headers).Some?
              && Distinct(UploadHeaders(sheet.value.headers).value)
    ensures df != null ==>
              var sh, hs := sheet.value, UploadHeaders(sheet.value.headers).value;
              && fresh(df) && df.Valid() && df.height == sh.rows
              && df.labels == WithDefaults(hs)
              && "Merchant" in df.columns && "Location" in df.columns && "Amount" in df.columns
              && (forall k :: 0 <= k < |hs| ==> hs[k] in df.columns && df.columns[hs[k]] == sh.columns[k])
              && ("Merchant" !in hs ==> df.columns["Merchant"] == seq(sh.rows, _ => Text("Unknown")))
              && ("Location" !in hs ==> df.columns["Location"] == seq(sh.rows, _ => Text("Unknown")))
              && ("Amount" !in hs ==> df.columns["Amount"] == seq(sh.rows, _ => Real(0.0)))
  {
    if !AcceptedName(fileName) {
      return null;
    }
    if sheet.None? {
      return null;
    }
    var sh := sheet.value;
    var hs := UploadHeaders(sh.headers);
    if hs.None? || !Distinct(hs.value) {
      return null;
    }
    df := new Frame(hs.value, sh.columns, sh.rows);
    AddDefaults(df);
  }

  /** The three `if '<name>' not in df.columns: df['<name>'] = <default>` lines. */
  method AddDefaults(df: Frame)
    requires df.Valid()
    modifies df
    ensures df.Valid() && df.height == old(df.height)
    ensures df.labels == WithDefaults(old(df.labels))
    ensures "Merchant" in df.columns && "Location" in df.columns && "Amount" in df.columns
    ensures forall l :: l in old(df.columns) ==> l in df.columns && df.columns[l] == old(df.columns)[l]
    ensures "Merchant" !in old(df.columns) ==> df.columns["Merchant"] == seq(df.height, _ => Text("Unknown"))
    ensures "Location" !in old(df.columns) ==> df.columns["Location"] == seq(df.height, _ => Text("Unknown"))
    ensures "Amount" !in old(df.columns) ==> df.columns["Amount"] == seq(df.height, _ => Real(0.0))
  {
    if "Merchant" !in df.columns {
      df.FillColumn("Merchant", Text("Unknown"));
    }
    if "Location" !in df.columns {
      df.FillColumn("Location", Text("Unknown"));
    }
    if "Amount" !in df.columns {
      df.FillColumn("Amount", Real(0.0));
    }
  }

  /**
   * A raw header fills one of the named columns exactly when, stripped, it
   * spells that name in any case: " merchant" is the Merchant column and
   * "TRANSACTION_ID" the Transaction_id column.
   */
  lemma HeaderMatchesColumn(h: string, name: string)
    requires name in ["Merchant", "Location", "Amount", "Transaction_id", "Flagged"]
    ensures NormaliseHeader(h) == name <==> Lower(Strip(h)) == Lower(name)
  {
    NormaliseMatches(h, name);
  }

  /**
   * No header of an upload can normalise to one of the four score columns:
   * each has an upper-case letter after its first character.
   */
  lemma HeaderMissesScoreColumns(h: string)
    ensures NormaliseHeader(h) != "Merchant_Risk" && NormaliseHeader(h) != "Geo_Risk"
    ensures NormaliseHeader(h) != "Velocity_Risk" && NormaliseHeader(h) != "Risk_Score"
  {
    CapitalizedMissesScoreColumns(NormaliseHeader(h));
  }

  /** No capitalized string is one of the four score column names. */
  lemma CapitalizedMissesScoreColumns(n: string)
    requires IsCapitalized(n)
    ensures n != "Merchant_Risk" && n != "Geo_Risk" && n != "Velocity_Risk" && n != "Risk_Score"
  {
    CapitalizedMisses(n, "Merchant_Risk", 9);
    CapitalizedMisses(n, "Geo_Risk", 4);
    CapitalizedMisses(n, "Velocity_Risk", 9);
    CapitalizedMisses(n, "Risk_Score", 5);
  }

  lemma CapitalizedMisses(n: string, name: string, k: nat)
    requires IsCapitalized(n) && 1 <= k < |name| && IsUpper(name[k])
    ensures n != name
  {
    if k < |n| {
      assert !IsUpper(n[k]);
    }
  }

  // ---------------------------------------------------------------- scoring a frame

  /** How `apply_ai_scoring` ends: scored in place, no frame at all, or a KeyError on a column. */
  datatype Outcome = Scored | NoFrame | MissingColumn(name: string)

  /** The five columns every scoring run writes. */
  const ScoreLabels: seq<string> := ["Merchant_Risk", "Geo_Risk", "Velocity_Risk", "Risk_Score", "Flagged"]

  /** The labels after a full scoring run. */
  function ScoredLabels(labels: seq<string>): seq<string> {
    WithLabel(WithLabel(WithLabel(WithLabel(WithLabel(WithLabel(labels,
      "Merchant_Risk"), "Geo_Risk"), "Velocity_Risk"), "Risk_Score"), "Flagged"), "Transaction_id")
  }

  /** A frame the engine can score: it has Merchant and Location columns, all of `n` rows. */
  predicate Scorable(cols: map<string, seq<Cell>>, n: nat) {
    && "Merchant" in cols && "Location" in cols
    && forall l :: l in cols ==> |cols[l]| == n
  }

  function IntCells(xs: seq<int>): seq<Cell> {
    seq(|xs|, i requires 0 <= i < |xs| => Int(xs[i]))
  }

  /** `df['Merchant'].apply(lambda m: 95 if m in flagged_merchants else 10)`. */
  function MerchantRisks(merchants: seq<Cell>, watchlist: seq<string>): seq<int> {
    seq(|merchants|, i requires 0 <= i < |merchants| => MerchantRisk(merchants[i], watchlist))
  }

  /** `df['Location'].apply(calc_geo_risk)`. */
  function GeoRisks(locations: seq<Cell>, cfg: Config, draws: seq<RowDraw>): seq<int>
    requires |draws| == |locations|
  {
    var office := OfficePoint(cfg.officeLoc);
    seq(|locations|, i requires 0 <= i < |locations| =>
      GeoRisk(locations[i], office, cfg.kmThreshold, cfg.geodesic, draws[i].fallback))
  }

  /** `[random.randint(5, 95) for _ in range(len(df))]`. */
  function Velocities(draws: seq<RowDraw>): seq<int> {
    seq(|draws|, i requires 0 <= i < |draws| => draws[i].velocity)
  }

  /** `((df['Merchant_Risk'] + df['Geo_Risk'] + df['Velocity_Risk']) / 3).round(1)`. */
  function Scores(m: seq<int>, g: seq<int>, v: seq<int>): seq<real>
    requires |m| == |g| == |v|
  {
    seq(|m|, i requires 0 <= i < |m| => RiskScore(m[i], g[i], v[i]))
  }

  function ScoreCells(s: seq<real>): seq<Cell> {
    seq(|s|, i requires 0 <= i < |s| => Real(s[i]))
  }

  /** `df['Risk_Score'].apply(lambda x: <label of the tier of x>)`. */
  function FlagCells(s: seq<real>): seq<Cell> {
    seq(|s|, i requires 0 <= i < |s| => Text(Label(Classify(s[i]))))
  }

  /** `[f"TXN-{random.randint(1000, 9999)}" for _ in range(len(df))]`. */
  function TxnIdColumn(draws: seq<RowDraw>): (c: seq<Cell>)
    ensures |c| == |draws|
    ensures forall i :: 0 <= i < |c| ==> c[i].Text? && |c[i].s| > 4 && c[i].s[..4] == "TXN-"
    ensures forall i :: 0 <= i < |c| && DrawInRange(draws[i]) ==> |c[i].s| == 8
    ensures forall i :: 0 <= i < |c| ==> c[i] == Text(TxnId(draws[i].txnNumber))
  {
    seq(|draws|, i requires 0 <= i < |draws| => Text(TxnId(draws[i].txnNumber)))
  }

  /** The columns after a full scoring run. */
  function ScoredColumns(cols: map<string, seq<Cell>>, n: nat, cfg: Config, draws: seq<RowDraw>): (r: map<string, seq<Cell>>)
    requires Scorable(cols, n) && |draws| == n
  {
    var m := MerchantRisks(cols["Merchant"], cfg.watchlist);
    var g := GeoRisks(cols["Location"], cfg, draws);
    var v := Velocities(draws);
    var s := Scores(m, g, v);
    var scored := cols
      ["Merchant_Risk" := IntCells(m)]
      ["Geo_Risk" := IntCells(g)]
      ["Velocity_Risk" := IntCells(v)]
      ["Risk_Score" := ScoreCells(s)]
      ["Flagged" := FlagCells(s)];
    if "Transaction_id" in cols then scored else scored["Transaction_id" := TxnIdColumn(draws)]
  }

  /**
   * A scored frame keeps every column it had except the five score
   * columns, gains exactly those five and Transaction_id, and makes up
   * Transaction_id only where the frame had none.
   */
  lemma ScoredColumnsShape(cols: map<string, seq<Cell>>, n: nat, cfg: Config, draws: seq<RowDraw>)
    requires Scorable(cols, n) && |draws| == n
    ensures var r := ScoredColumns(cols, n, cfg, draws);
            && (forall l :: l in r <==> l in cols || l in ScoreLabels || l == "Transaction_id")
            && (forall l :: l in r ==> |r[l]| == n)
            && (forall l :: l in cols && l !in ScoreLabels ==> r[l] == cols[l])
            && ("Transaction_id" !in cols ==> r["Transaction_id"] == TxnIdColumn(draws))
  {
  }

  /** Row `i` of each score column holds the assessment of row `i`. */
  lemma ScoredColumnsRow(cols: map<string, seq<Cell>>, n: nat, cfg: Config, draws: seq<RowDraw>, i: nat)
    requires Scorable(cols, n) && |draws| == n && i < n
    ensures var r := ScoredColumns(cols, n, cfg, draws);
            var a := Assess(cols["Merchant"][i], cols["Location"][i], cfg, draws[i]);
            && r["Merchant_Risk"][i] == Int(a.merchantRisk)
            && r["Geo_Risk"][i] == Int(a.geoRisk)
            && r["Velocity_Risk"][i] == Int(a.velocityRisk)
            && r["Risk_Score"][i] == Real(a.riskScore)
            && r["Flagged"][i] == Text(Label(a.flagged))
  {
  }

  /**
   * What a scored frame promises row by row: merchant risk 95 exactly for
   * watchlisted merchants, geo risk in {10, 15, 95}, a score in [8.3, 95.0]
   * for in-range draws, and a Flagged label that is CRITICAL exactly above 75.
   */
  lemma ScoredRowFacts(cols: map<string, seq<Cell>>, n: nat, cfg: Config, draws: seq<RowDraw>, i: nat)
    requires Scorable(cols, n) && |draws| == n && i < n
    ensures var r := ScoredColumns(cols, n, cfg, draws);
            && (r["Merchant_Risk"][i] == Int(95) <==> Watchlisted(cols["Merchant"][i], cfg.watchlist))
            && (r["Geo_Risk"][i] == Int(10) || r["Geo_Risk"][i] == Int(15) || r["Geo_Risk"][i] == Int(95))
            && r["Risk_Score"][i].Real?
            && (DrawInRange(draws[i]) ==> 8.3 <= r["Risk_Score"][i].r <= 95.0)
            && (r["Flagged"][i] == Text(Label(Critical)) <==> r["Risk_Score"][i].r > 75.0)
  {
    var a := Assess(cols["Merchant"][i], cols["Location"][i], cfg, draws[i]);
    ScoredColumnsRow(cols, n, cfg, draws, i);
    LabelInjective(a.flagged, Critical);
  }

  /**
   * `apply_ai_scoring`: None gives None. Otherwise the frame is scored in
   * place, one column at a time; a missing Merchant column stops it before
   * any change and a missing Location column right after Merchant_Risk.
   */
  method ApplyAiScoring(df: Frame?, cfg: Config, draws: seq<RowDraw>) returns (out: Outcome)
    requires df != null ==> df.Valid() && |draws| == df.height
    modifies df
    ensures df == null <==> out == NoFrame
    ensures df != null ==> df.Valid() && df.height == old(df.height)
    ensures df != null && "Merchant" !in old(df.columns) ==>
              out == MissingColumn("Merchant") && unchanged(df)
    ensures df != null && "Merchant" in old(df.columns) && "Location" !in old(df.columns) ==>
              && out == MissingColumn("Location")
              && df.labels == WithLabel(old(df.labels), "Merchant_Risk")
              && df.columns == old(df.columns)["Merchant_Risk" := IntCells(MerchantRisks(old(df.columns)["Merchant"], cfg.watchlist))]
    ensures df != null && "Merchant" in old(df.columns) && "Location" in old(df.columns) ==>
              && out == Scored
              && df.labels == ScoredLabels(old(df.labels))
              && df.columns == ScoredColumns(old(df.columns), old(df.height), cfg, draws)
  {
    if df == null {
      return NoFrame;
    }
    if "Merchant" !in df.columns {
      return MissingColumn("Merchant");
    }
    if "Location" !in df.columns {
      var m := MerchantRisks(df.columns["Merchant"], cfg.watchlist);
      df.SetColumn("Merchant_Risk", IntCells(m));
      return MissingColumn("Location");
    }
    ScoreFrame(df, cfg, draws);
    return Scored;
  }

  /**
   * The body of `apply_ai_scoring` on a frame that has both Merchant and
   * Location: the five score columns, then Transaction_id if missing.
   */
  method ScoreFrame(df: Frame, cfg: Config, draws: seq<RowDraw>)
    requires df.Valid() && Scorable(df.columns, df.height) && |draws| == df.height
    modifies df
    ensures df.Valid() && df.height == old(df.height)
    ensures df.labels == ScoredLabels(old(df.labels))
    ensures df.columns == ScoredColumns(old(df.columns), old(df.height), cfg, draws)
  {
    ghost var cols0 := df.columns;
    var m := MerchantRisks(df.columns["Merchant"], cfg.watchlist);
    df.SetColumn("Merchant_Risk", IntCells(m));
    var g := GeoRisks(df.columns["Location"], cfg, draws);
    df.SetColumn("Geo_Risk", IntCells(g));
    var v := Velocities(draws);
    df.SetColumn("Velocity_Risk", IntCells(v));
    var s := Scores(m, g, v);
    df.SetColumn("Risk_Score", ScoreCells(s));
    df.SetColumn("Flagged", FlagCells(s));
    if "Transaction_id" !in df.columns {
      df.SetColumn("Transaction_id", TxnIdColumn(draws));
    }
  }

  /**
   * `analyze_single_json`: one record through the engine. A record without
   * Merchant or Location raises a KeyError; otherwise the result keeps every
   * field of the record except the score columns, which hold the record's
   * assessment, and gains a made-up Transaction_id only if it had none.
   */
  method AnalyzeSingleJson(rec: Record, cfg: Config, draw: RowDraw) returns (r: Result<Record>)
    requires Distinct(Keys(rec))
    ensures Get(rec, "Merchant").None? ==> r == Err("Merchant")
    ensures Get(rec, "Merchant").Some? && Get(rec, "Location").None? ==> r == Err("Location")
    ensures Get(rec, "Merchant").Some? && Get(rec, "Location").Some? ==>
              var a := Assess(Get(rec, "Merchant").value, Get(rec, "Location").value, cfg, draw);
              && r.Ok?
              && Keys(r.value) == ScoredLabels(Keys(rec))
              && Get(r.value, "Merchant_Risk") == Some(Int(a.merchantRisk))
              && Get(r.value, "Geo_Risk") == Some(Int(a.geoRisk))
              && Get(r.value, "Velocity_Risk") == Some(Int(a.velocityRisk))
              && Get(r.value, "Risk_Score") == Some(Real(a.riskScore))
              && Get(r.value, "Flagged") == Some(Text(Label(a.flagged)))
              && Get(r.value, "Transaction_id")
                   == (if "Transaction_id" in Keys(rec) then Get(rec, "Transaction_id")
                       else Some(Text(TxnId(draw.txnNumber))))
              && forall k :: k in Keys(rec) && k !in ScoreLabels ==> Get(r.value, k) == Get(rec, k)
  {
    var df := new Frame.FromRecord(rec);
    ghost var cols0 := df.columns;
    var out := ApplyAiScoring(df, cfg, [draw]);
    if out.MissingColumn? {
      return Err(out.name);
    }
    r := Ok(df.Row(0));
    ScoredColumnsShape(cols0, 1, cfg, [draw]);
    ScoredColumnsRow(cols0, 1, cfg, [draw], 0);
  }
}
