# Crop improvement advisor — a Dafny model

CropUpGrad predicts the crop best suited to a plot from seven soil and climate
measurements (Nitrogen, Phosphorus, Potassium, Temperature, Humidity,
pH_Value, Rainfall) and then advises how to move each out-of-range
measurement toward the predicted crop's optimal band. This project models the
advisor, `suggest_improvements` in `server/main.py`, together with the three
constant tables it reads: the `features` list, the `optimal_ranges` table
(22 crops, an inclusive `(lo, hi)` band per measurement) and the
`improvement_actions` table (an increase text and a decrease text per
measurement).

Files:

- `wrappers.dfy` — `Option` and `Result`.
- `crop_tables.dfy` — module `CropTables`: the `Feature` datatype and the
  `Features` list, the column names, the range table (its 22 entries as
  `CropName(i)` and `CropBands(i)`, read through `OptimalRanges(crop)`) and the
  action table, with the facts that make every lookup of a listed crop succeed.
- `advisor.dfy` — module `Advisor`: the specification (`Verdict` for one
  measurement, `Advise` for a prefix of the row, `Suggest` for the whole call),
  the imperative `SuggestImprovements` with its loop `SuggestionLoop`, proved
  equal to `Suggest`, and the lemmas about the suggestions.
- `scenarios.dfy` — module `Scenarios`: worked cases on the real table data.

How the code's behaviour is represented:

- `input_data` is a list of rows; only row 0 is read. It is a
  `seq<seq<real>>`. An input with no row fails with `NoInputRow`, as Python's
  `input_data[0]` would raise.
- `zip(features, input_data[0])` stops at the shorter list, so the loop visits
  `Visited(row)` = min(7, |row|) measurements, pairing position i of the row
  with entry i of `features`.
- `optimal_ranges[crop_name]` raises `KeyError` for an unlisted crop. The model
  returns `Failure(UnknownCrop(crop))`, and this check happens before row 0 is read.
  The dictionary literal is read as its entries in written order; the lookup
  returns the bands of the entry with that name. No two entries share a name,
  so this first match is the entry Python's dictionary keeps.
- `crop_optimal[feature]` would raise `KeyError` for a crop entry that lacks a
  measurement. `SuggestionLoop` and `Advise` take any bands and return
  `MissingFeatureRange` for the first such measurement. `CropBands` and
  `OptimalRangesComplete` prove this never happens with the real table.
- The suggestion text is `"Increase " + name + ": " + increase text`, or the same
  with `"Decrease "` and the decrease text. The name is the code's column name,
  `pH_Value` included.
- Measurements and bounds are `real`. The code only compares them with `<` and `>`.

## Model

| member | source | states |
|---|---|---|
| `CropTables.Name` | server/main.py:24 | the column name of each measurement as written in the `features` list (`pH_Value` for pH); every name has at least 8 characters |
| `CropTables.Rank` | server/main.py:24 | every measurement stands at one position of the `features` list |
| `CropTables.FeaturesListEachOnce` | server/main.py:24 | the `features` list names each of the seven measurements exactly once, and `Rank` inverts indexing into it |
| `CropTables.NameInjective` | server/main.py:24 | distinct measurements have distinct column names (already in their first two characters) |
| `CropTables.Bands` | server/main.py:82-190 | a crop entry defines a band for every measurement, holding the seven given bands, and is complete exactly when each band has lo <= hi |
| `CropTables.CropBands` | server/main.py:81-192 | every one of the 22 entries (whose bands are those the table writes) is complete: it defines all seven measurements, each with lo <= hi |
| `CropTables.LookupFrom` | server/main.py:229 | looking a name up from entry i on fails exactly when no later entry carries that name, and otherwise yields the bands of an entry that does |
| `CropTables.OptimalRanges` | server/main.py:81-192 | `optimal_ranges[crop]` yields nothing exactly when none of the 22 entries is named `crop`, and otherwise the bands of the entry named `crop` |
| `CropTables.CropNamesDistinct` | server/main.py:81-192 | no two of the 22 entries carry the same crop name |
| `CropTables.OptimalRangesOfEntry` | server/main.py:81-192 | looking up the name of any entry yields exactly the bands written for that entry |
| `CropTables.OptimalRangesComplete` | server/main.py:81-192 | every crop the range table lists defines all seven measurements with lo <= hi, so the per-measurement lookup never fails for a listed crop |
| `CropTables.ImprovementActions` | server/main.py:195-224 | every measurement has both an increase text and a decrease text, neither empty; the texts are those of the table |
| `Advisor.Message` | server/main.py:233-238 | a suggestion starts with its direction's initial, and positions 9 and 10 hold the first two characters of the measurement's column name |
| `Advisor.MessageSpells` | server/main.py:233-238 | a suggestion reads "Increase " or "Decrease ", then the full column name, then ": ", then the action text for that direction, with nothing else |
| `Advisor.MessageInjective` | server/main.py:233-238 | a suggestion text determines its direction and its measurement |
| `Advisor.OutOfBand` | server/main.py:233-236 | a value calls for a suggestion exactly when it is not within the inclusive band lo..hi |
| `Advisor.DirectionOf` | server/main.py:233-236 | the direction is Increase exactly when the value is below lo (the `if` is tested first); a Decrease for an out-of-band value means it is above hi |
| `Advisor.Verdict` | server/main.py:233-238 | one measurement contributes at most one suggestion, none exactly when lo <= value <= hi, otherwise the text for Increase when below and Decrease when above |
| `Advisor.Advise` | server/main.py:231-238 | advising on n measurements succeeds exactly when each of them has a band, and then yields at most n suggestions |
| `Advisor.Visited` | server/main.py:231 | the loop visits min(7, length of row 0) measurements, as `zip` does |
| `Advisor.Suggest` | server/main.py:227-240 | an unlisted crop fails with `UnknownCrop` and only then; a listed crop with no input row fails with `NoInputRow`; a result has at most 7 entries and no more than row 0 has values |
| `Advisor.SuggestImprovements` | server/main.py:227-240 | looking the crop up, reading row 0 and running the loop returns exactly `Suggest` of its inputs, including each error |
| `Advisor.SuggestionLoop` | server/main.py:228-240 | the append loop over `zip(features, row)` returns exactly `Advise` over the visited measurements, including the error for a missing band |
| `Advisor.AdviseStopsAtFirstGap` | server/main.py:231-232 | when a crop entry lacks a visited measurement, the call fails naming the first missing one in list order |
| `Advisor.AdvisePrefix` | server/main.py:228-238 | the loop only appends: the list after m measurements is a prefix of the list after any later n, and a run that gets through n measurements got through every m before it |
| `Advisor.ProducerIsNamed` | server/main.py:231-238 | a suggestion produced by the measurement at position i names the measurement of rank i, with the direction its value calls for |
| `Advisor.OutOfBandPositions` | server/main.py:231-236 | the out-of-band positions among the first n, strictly increasing, each out of band, and none left out |
| `Advisor.AdviseSelectsOutOfBand` | server/main.py:231-238 | the suggestions match the out-of-band positions one to one and in order, each with the text of its direction, so each measurement gives at most one |
| `Advisor.AdviseClassifies` | server/main.py:233-238 | for any crop entry: Increase for a measurement appears iff its value is below lo; Decrease iff not below lo and above hi; neither when in the band |
| `Advisor.AdviseFullRow` | server/main.py:231-238 | for a full row the result is the ordered concatenation of the seven per-measurement contributions |
| `Advisor.AdviseInFeatureOrder` | server/main.py:231-238 | for any crop entry, every suggestion is the text of one measurement, and suggestions follow the order of the `features` list |
| `Advisor.AdviseEmptyIffAllInBand` | server/main.py:231-238 | for any crop entry, nothing is suggested exactly when every visited value lies in its band |
| `Advisor.SuggestSucceedsForListedCrop` | server/main.py:229-232 | a listed crop and an input with a row 0 always produce a list |
| `Advisor.SuggestClassifies` | server/main.py:233-238 | with the real tables: Increase iff value < lo, Decrease iff value > hi, never both, and no suggestion for that measurement iff lo <= value <= hi |
| `Advisor.SuggestInFeatureOrder` | server/main.py:227-240 | every entry is the text of one measurement, and entries follow the order Nitrogen, Phosphorus, Potassium, Temperature, Humidity, pH_Value, Rainfall |
| `Advisor.SuggestEmptyIffAllInBand` | server/main.py:227-240 | the list is empty exactly when every visited measurement lies in its band |
| `Advisor.SuggestOnlyVisited` | server/main.py:227-240 | every entry comes from a visited measurement: entry j is, for some position i below min(7, length of row 0) whose value lies outside its band, the text of that measurement for the direction its value calls for |
| `Scenarios.RiceFullRow` | server/main.py:82-86 | a full row against Rice is judged against Rice's seven bands in order |
| `Scenarios.RiceCanonicalPlot` | server/main.py:82-86 | canonical Rice conditions (80, 50, 50, 24, 82, 6.5, 200) need no change |
| `Scenarios.RiceNitrogenProbe` | server/main.py:82-86 | Nitrogen 50, 80 and 100 against Rice's 70..90 give Increase Nitrogen, nothing, and Decrease Nitrogen |
| `Scenarios.RiceBandEnds` | server/main.py:82-86 | values equal to a band's ends count as inside it |
| `Scenarios.MaizeFullRow` | server/main.py:87-91 | a full row against Maize is judged against Maize's seven bands in order |
| `Scenarios.MaizeEveryBandMissed` | server/main.py:87-91 | a row outside every Maize band gets seven suggestions in feature order, with the direction of each |
| `Scenarios.UnlistedCropFails` | server/main.py:229 | "Wheat" and the lower-case "rice" are not listed and fail, whatever the input, instead of giving an empty list |
| `Scenarios.ShortRowVisitsAPrefix` | server/main.py:231 | a row of two values is judged on Nitrogen and Phosphorus only |

## Left out

- Dataset loading and training (server/main.py:19-49): CSV reading, label encoding, the train/test split and gradient-boosted training happen in foreign libraries whose behaviour is not visible.
- Prediction (server/main.py:69-73): model inference and decoding of the class index. The predicted crop name is an arbitrary `string` input of the advisor.
- The web layer (server/main.py:10-17, 52-78): the FastAPI app, CORS settings, the request schema and the endpoint that builds the one-row input and the response.
- client/src/App.jsx is not part of this model: it holds only user-interface state and an HTTP call.
- Whether every crop label in the training data is a key of the range table depends on the CSV file. The model can only express the failure `UnknownCrop`.
- Floating point: values are exact `real`s. NaN and infinities are not modelled. In Python a NaN compares false both ways and gets no suggestion. Rounding of decimal literals such as 7.2 is not modelled either. Input and bound are rounded alike, so comparisons of equal decimal literals agree.
- `CropTables.OptimalRanges`: the dictionary is modelled as its 22 entries in written order, read by a lookup on crop names returning `Option`. Hashing and dictionary iteration are not modelled; the advisor only looks keys up.
- Python's exception objects and messages: a failure is a `Result` carrying which lookup failed.
