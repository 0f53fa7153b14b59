# AIFraudMonitoring risk engine in Dafny

This project models the transaction risk scorer of AIFraudMonitoring ("RedLine AI") and proves properties of it. The model covers:

- **`process_upload`** (logic.py): it accepts only `.xlsx`/`.xls` file names, normalises each header with `strip().capitalize()`, and adds `Merchant`, `Location` and `Amount` columns where they are missing.
- **`apply_ai_scoring`** (logic.py): it adds five columns to a frame, in place:
  - a merchant risk (95 or 10);
  - a geo risk (10, 15 or 95), which depends on the office, a kilometre threshold and a geodesic distance;
  - a velocity draw;
  - the mean of the three, rounded to one decimal;
  - a three-tier flag.
  
  It also makes up a `Transaction_id` when the frame has none.
- **`analyze_single_json`** (logic.py): the same scoring, applied to one record.
- **`mock_apply_scoring`** (app.py): a second, two-component scorer with different thresholds.
- **The live feed** (app.py): the session keeps the ten newest transactions, newest first. Each transaction gets a two-tier flag.

The code is organised in modules:

| module | file | contents |
|---|---|---|
| `Optional` | option.dfy | `Option` and `Result` |
| `PyStr` | pystr.dfy | The Python string operations the code relies on: `strip`, `capitalize`, `lower`, `endswith`, and `str` of an int |
| `Frames` | frames.dfy | The part of a pandas DataFrame that is used, as a class `Frame` whose columns are assigned in place |
| `Scoring` | scoring.dfy | The pure part of the engine: the coordinate table, the component risks, the score, the classifier and one-row assessment |
| `Logic` | logic.dfy | logic.py's frame operations, as methods that change a `Frame` |
| `App` | app.dfy | The mock scorer, the live classifier, and the live session as a class with its window |

Inputs:

- Every random draw is an input: `RowDraw`, `MockDraw` and `LiveDraw`. The predicates `DrawInRange`, `MockDrawInRange` and `LiveDrawInRange` state the ranges of the integer draws; the point drawn with `random.uniform` for a location outside the table is left unconstrained.
- The geodesic distance is an input: an optional function from two points to kilometres.

Scores are exact rationals. The engine's `round(x, 1)` of a mean of three integers is computed as `(10 * sum + 1) div 3` tenths. `Scoring.RiskScoreIsNearestTenth` proves that this is the unique one-decimal value within half a tenth of the mean, so rounding never meets a tie.

Two consequences of the code worth knowing:

- The live window is created only when none exists (app.py:189), so a feed that is switched off and on again keeps its old entries (`App.LiveSession.OpenFeed`).
- A watchlisted merchant at location "Unknown" is WARNING or CLEAN, never CRITICAL (`Scoring.WatchlistedAtUnknown`).

## Model

| member | source | states |
|---|---|---|
| PyStr.StripLeft | logic.py:24 | The result is a suffix of the input; everything removed is whitespace; the result does not start with whitespace |
| PyStr.StripRight | logic.py:24 | The result is a prefix of the input; everything removed is whitespace; the result does not end with whitespace |
| PyStr.Strip | logic.py:24 | `strip()` leaves no whitespace at either end and removes only whitespace, at the two ends |
| PyStr.StripSpan | logic.py:24 | Where the stripped header sits inside the raw header, and that only whitespace lies around it |
| PyStr.StripKeepsStripped | logic.py:24 | A header with no whitespace at its ends is left unchanged by `strip()` |
| PyStr.StripIdempotent | logic.py:24 | `strip()` applied twice equals `strip()` applied once |
| PyStr.Capitalize | logic.py:24 | `capitalize()` keeps the length and the letters up to case; the first letter is not lower-case and no later letter is upper-case |
| PyStr.CapitalizeUnique | logic.py:24 | Those two properties determine `capitalize()` completely |
| PyStr.CapitalizeMatches | logic.py:24 | A capitalised name is produced exactly by the strings that spell it in any case |
| PyStr.CapitalizeIdempotent | logic.py:24 | `capitalize()` is idempotent |
| PyStr.NormaliseHeader | logic.py:24 | A normalised header is stripped and capitalised, and spells the stripped header up to case |
| PyStr.CaseKeepsSpaces | logic.py:24 | Capitalising moves no whitespace, so capitalising a stripped header leaves it stripped |
| PyStr.CaseKeepsSpace | logic.py:24 | Neither case mapping turns a character into whitespace or back |
| PyStr.NormaliseIdempotent | logic.py:24 | Normalising a normalised header changes nothing |
| PyStr.NormaliseMatches | logic.py:24 | A raw header becomes a given stripped, capitalised name exactly when, once stripped, it spells that name in any case |
| PyStr.ToUpper | logic.py:24 | A lower-case ASCII letter becomes its capital; every other character is unchanged |
| PyStr.ToLower | logic.py:18 | A capital ASCII letter becomes its lower-case letter; every other character is unchanged |
| PyStr.Lower | logic.py:18 | `lower()` keeps the length, lower-cases each capital in place and leaves every other character as it is, so no capital remains |
| PyStr.Decimal | logic.py:52 | `str(n)` is a non-empty string of digits, with a leading zero only for 0 |
| PyStr.DecimalRoundTrip | logic.py:52 | `int(str(n)) == n` |
| PyStr.DecimalInjective | logic.py:52 | Different numbers print differently |
| PyStr.DecimalWidth4 | logic.py:52 | Every number in [1000, 9999] prints as four digits |
| Frames.WithLabelDistinct | logic.py:43-52 | Assigning a column keeps the labels distinct and adds only that label |
| Frames.Get | logic.py:58 | A lookup succeeds exactly for a present key and returns a pair of the record |
| Frames.Frame.Row | logic.py:58 | `iloc[i].to_dict()` has the frame's labels in order, and each key maps to row `i` of its column |
| Frames.Frame.GetDistinct | logic.py:58 | With distinct keys, a lookup returns the value paired with that key |
| Frames.Frame.constructor | logic.py:22-24 | A frame built from labels and columns has exactly those columns, each of the given height |
| Frames.Frame.FromRecord | logic.py:56 | `pd.DataFrame([rec])` has one row, the record's keys as labels and the record's values |
| Frames.Frame.SetColumn | logic.py:43-52 | `df[name] = values` replaces or appends the one column and leaves every other column, the row count and the label order unchanged |
| Frames.Frame.FillColumn | logic.py:25-27 | `df[name] = scalar` broadcasts the value to every row |
| Logic.AcceptedName | logic.py:18-19 | A file name is accepted exactly when it ends in `.xlsx` or `.xls` in any letter case |
| Logic.AcceptedNameIgnoresCase | logic.py:18 | A name and its lower-cased form are accepted alike |
| Logic.UploadHeaders | logic.py:24 | Headers normalise exactly when all are strings, each to its stripped and capitalised form |
| Logic.ProcessUpload | logic.py:16-30 | Succeeds exactly for an accepted name, a readable sheet and string headers (and distinct normalised headers). On success it keeps every column read, and Merchant, Location and Amount exist, defaulting to "Unknown", "Unknown" and 0.0 |
| Logic.AddDefaults | logic.py:25-27 | Adds the three columns only where missing, with their defaults, and leaves every existing column alone |
| Logic.HeaderMatchesColumn | logic.py:24-27 | An uploaded header fills Merchant, Location, Amount, Transaction_id or Flagged exactly when, stripped, it spells that name in any case |
| Logic.HeaderMissesScoreColumns | logic.py:24 | No uploaded header can normalise to Merchant_Risk, Geo_Risk, Velocity_Risk or Risk_Score |
| Logic.CapitalizedMissesScoreColumns | logic.py:24 | No capitalised string equals Merchant_Risk, Geo_Risk, Velocity_Risk or Risk_Score |
| Logic.CapitalizedMisses | logic.py:24 | A capitalised string never equals a name with an upper-case letter after its first character |
| Logic.TxnIdColumn | logic.py:52 | Row `i` holds the id made from the `i`-th draw: "TXN-" followed by its digits, eight characters for an in-range draw |
| Logic.ScoredColumnsShape | logic.py:43-52 | A scored frame keeps every non-score column and the row count, gains exactly the five score columns, and gains Transaction_id only where it had none |
| Logic.ScoredColumnsRow | logic.py:43-50 | Row `i` of each score column is that row's one-row assessment |
| Logic.ScoredRowFacts | logic.py:43-50 | Per row: Merchant_Risk is 95 exactly for a watchlisted merchant; Geo_Risk is in {10, 15, 95}; the score is in [8.3, 95.0] for in-range draws; Flagged is CRITICAL exactly above 75 |
| Logic.ApplyAiScoring | logic.py:32-53 | None gives None. A missing Merchant raises before any change. A missing Location raises after Merchant_Risk is set. Otherwise the frame holds the scored columns, with the row count kept |
| Logic.ScoreFrame | logic.py:43-53 | The in-place column assignments produce exactly the scored columns and labels |
| Logic.AnalyzeSingleJson | logic.py:55-58 | A record without Merchant or Location raises. Otherwise the result's score fields are the record's assessment, every other field is kept, and Transaction_id is made up only when absent |
| Scoring.OfficePoint | logic.py:10-35 | A known office resolves to its table entry; the default point (51.5, -0.1) is used exactly for unknown offices |
| Scoring.TargetPoint | logic.py:39 | A table city resolves to its entry; anything else resolves to the random point |
| Scoring.MerchantRisk | logic.py:43 | 95 exactly for a watchlisted merchant, 10 otherwise |
| Scoring.GeoRisk | logic.py:37-41 | Always 10, 15 or 95. It is 10 exactly when the threshold is 0, the geodesic is missing or the location is "Unknown"; otherwise it is 95 exactly when the distance exceeds the threshold |
| Scoring.GeoRiskIgnoresFallback | logic.py:39 | The random point matters only for a location outside the table |
| Scoring.RiskScore | logic.py:47 | The score is a one-decimal value within 0.05 of the mean of the three risks |
| Scoring.RiskScoreIsNearestTenth | logic.py:47 | It is the only such value, so it equals the rounded mean |
| Scoring.LabelInjective | logic.py:48-50 | The three Flagged labels are distinct |
| Scoring.Classify | logic.py:48-50 | CRITICAL exactly above 75, WARNING exactly in (45, 75], CLEAN otherwise |
| Scoring.ClassifyMonotone | logic.py:48-50 | A higher score never gets a milder tier |
| Scoring.FlagBySum | logic.py:47-50 | On the rounded mean, CRITICAL means a sum ≥ 226, WARNING a sum in [136, 225], and CLEAN a sum ≤ 135 |
| Scoring.Assess | logic.py:35-50 | One row: the merchant risk is MerchantRisk (95 on the watchlist, 10 off it), the geo risk is GeoRisk (10 when disabled, else 95 above the threshold and 15 at or below it), the velocity is the draw, the score is the rounded mean RiskScore (in [8.3, 95.0] for draws in [5, 95]), and the flag is its tier |
| Scoring.CriticalIff | logic.py:43-50 | A row is CRITICAL exactly when the merchant is watchlisted, the location is far and the velocity draw is at least 36 |
| Scoring.WatchlistedAtUnknown | logic.py:38-50 | A watchlisted merchant at "Unknown" is WARNING for a velocity of 31 or more, CLEAN below, never CRITICAL |
| Scoring.AssessRepeatable | logic.py:38-43 | The merchant and geo risks do not depend on the draws, except the random point for a location outside the table |
| Scoring.TxnId | logic.py:52 | An id is "TXN-" followed by digits whose value is the drawn number; eight characters for a four-digit draw |
| Scoring.TxnIdInjective | logic.py:52 | Different draws give different ids |
| App.MockClassify | app.py:12 | CRITICAL exactly above 70, WARNING exactly in (40, 70], CLEAN otherwise |
| App.MockAssess | app.py:9-12 | Merchant risk is 80 for a watchlisted merchant, else the draw in [5, 45]; geo risk is the draw in [10, 90]; the score is their exact mean, in [7.5, 85.0]; the flag is the mock tier of the score |
| App.MockColumnsRow | app.py:9-12 | Row `i` of each mock column is that row's mock assessment, and no other column changes |
| App.MockApplyScoring | app.py:8-13 | A frame without Merchant raises before any change. Otherwise the four mock columns are added in place, independent of location and threshold |
| App.MockAndEngineDisagree | app.py:12 | The two batch classifiers disagree exactly on (40, 45] and (70, 75], where the mock is the harsher |
| App.SeventyTwoSplitsTheScorers | app.py:9-12 | A score of 72 arises in both scorers and is CRITICAL in the mock but WARNING in the engine |
| App.LiveClassify | app.py:194 | CRITICAL exactly above 75, CLEAN otherwise |
| App.LiveAndEngineClassify | app.py:194 | The live and engine classifiers agree on CRITICAL and disagree exactly on (45, 75] |
| App.NewLiveTxn | app.py:193-194 | A live transaction gets a listed merchant, the id "TXN-" plus the draw, and a score in [10, 100]; it is CRITICAL exactly above 75 and never WARNING |
| App.Pushed | app.py:195-196 | After a tick the new transaction is at index 0, the old entries follow in their order, and the length is min(old + 1, 10) |
| App.PushedDropsOldest | app.py:195-196 | On a full window a tick drops exactly the oldest entry |
| App.FeedWindow | app.py:189-196 | After n ticks from empty the window holds min(n, 10) entries, the newest ticks, newest first |
| App.EleventhTickEvictsFirst | app.py:189-196 | After eleven distinct ticks the window has ten entries, tick 11 in front and tick 2 at the back; tick 1 is gone |
| App.LiveSession.constructor | app.py:189 | A new session has no window |
| App.LiveSession.OpenFeed | app.py:189 | An empty window is created only when none exists; an existing one is kept |
| App.LiveSession.Pulse | app.py:193-196 | One tick inserts the new transaction in front and cuts the window to ten, which keeps the session invariant of at most ten entries |

## Left out

- The Streamlit page: configuration, CSS, sidebar widgets, metrics and charts in app.py. This is display code.
- The `while is_live` loop with `time.sleep` and `st.rerun` (app.py:192, app.py:208-209). It is timing plumbing. `App.Feed` composes ticks instead.
- Random draws (`random.randint`, `random.uniform`, `random.choice`). They are parameters; predicates give the ranges of the integer draws, and the `random.uniform` point is unconstrained.
- `geopy.geodesic`. It is a floating-point great-circle computation in a foreign library, so the distance is an input function. Its absence (the `ImportError` path) is the `None` value.
- `pd.read_excel` and the file I/O. The sheet read is an input `Option<Sheet>`; `None` stands for a file `pd.read_excel` cannot read. The exception raised by a non-string header is modelled separately, by `Logic.UploadHeaders`.
- Floating point. Scores are exact rationals. Python's floats and `round` agree with them on the values the engine produces, except for binary representation.
- The batch branch of app.py that makes up a 100-row demo frame (app.py:154-158). It is demo input.
- generate_data.py and make_data.py. They are random data generators that write files.
- Nested JSON values in `analyze_single_json`. A record's values are single cells.
- PyStr.ToUpper: case mapping covers the ASCII letters only, not Python's full Unicode case tables.
- PyStr.ToLower: ASCII letters only, as for ToUpper.
- PyStr.Lower: ASCII letters only, as for ToUpper.
- Logic.ProcessUpload: a sheet whose headers coincide after normalisation (say "merchant" and "Merchant") returns null, because a `Frame` keeps distinct labels. pandas would accept it and keep duplicate labels.
