# NYC taxi trip-duration inference service: a Dafny model

This project models the structural core of a small FastAPI service that
predicts NYC taxi trip durations with an XGBoost regressor. For every trip
the service turns pickup and dropoff coordinates plus a pickup timestamp
into an 18-column feature row. The row's layout must match the one the
regressor was trained on. The model covers:

- `Config`: the ordered `FEATURE_COLUMNS` schema and the service constants.
- `Preprocessing`: `build_features_from_input`. It builds the one-hot
  weekday block (`wd_0`..`wd_6`) and a string-keyed feature record, then
  reindexes the record onto the schema. A null anywhere in the result
  raises `ValueError`.
- `Schemas`: validation of `TripRequest` and `TripBatchRequest`. This
  covers the inclusive coordinate ranges and the `pickup_datetime`
  validator, which rewrites `Z` to `+00:00` before parsing and returns the
  original string.
- `Model`: the module-level `_model` slot as a class. `load_model` fills it
  once; `predict` and `predict_batch` refuse to score before loading.
- `Api`: the handlers `/predict`, `/predict_batch`, `/model_info` and
  `/health`. A batch builds one row per trip, in order, and fails as a
  whole. A `ValueError` becomes a 400 carrying its message; anything else
  becomes a 500 with fixed text.
- `Frames`, `Exceptions` and `Wrappers`: the small part of pandas the
  pipeline uses, the Python exception classes it distinguishes, and
  Option/Result.

Floating-point work stays opaque. This covers numpy's trigonometry,
`haversine_km`, `bearing_deg`, the `2*pi*h/24` and `2*pi*m/60` angles,
pandas' timestamp decoding and `datetime.fromisoformat`. Each of these
enters as a field of the `Numerics` value, or as the `isoParses`
parameter. The decoded timestamp is a `Clock` with hour in 0..23, minute
in 0..59 and weekday in 0..6 (Monday = 0). A cell is a `Float`, either
`Num(v)` or `NaN`; `NaN` is what pandas reports as null. The regressor is
a `Booster`, an opaque function from a feature frame to its output
sequence.

The main theorem is `Preprocessing.BuildFeaturesMatchesSchemaRow`. The
implementation merges four maps and reindexes the result onto the column
list. The theorem shows this gives exactly `SchemaRow`, a reference
definition written position by position. Every position-level property
follows from it: column order, the one-hot block, coordinate
pass-through, the argument order of the spatial calls, the two-step
bearing encoding, and the exact failure condition. The contract of
`Preprocessing.FeatureRecord` states key coverage separately: the merged
record's keys are exactly the schema's names. So the reindex never
introduces a missing column, and a null in the row can only come from a
null input or a null computed value.

## Model

| member | source | states |
|---|---|---|
| `Config.FeatureColumns` | app/config.py:14-33 | the schema has exactly 18 names |
| `Config.FeatureColumnsDistinct` | app/config.py:15-32 | no name appears twice in the schema |
| `Config.FeatureColumnsBlocks` | app/config.py:15-32 | the schema is, in order: the four coordinates (longitude before latitude, pickup before dropoff), hour sin/cos then minute sin/cos, `wd_0`..`wd_6`, then `haversine_km`, `bearing_sin`, `bearing_cos` |
| `Frames.Reindex` | app/preprocessing.py:137 | one value per requested column: the record's value under that name, or NaN when the record lacks it |
| `Frames.ReindexSubmap` | app/preprocessing.py:112-137 | a record that agrees with a smaller map on the smaller map's keys projects like it onto columns the smaller map covers |
| `Frames.HasNull` | app/preprocessing.py:139 | a frame without rows has no null; a one-row frame has one iff its row holds a NaN |
| `Frames.ReindexAppend` | app/preprocessing.py:137 | reindexing onto a concatenation of column lists concatenates the two projections |
| `Frames.Concat` | app/api.py:90 | concatenating no frames raises `ValueError("No objects to concatenate")`; otherwise the result keeps the shared columns and stacks the rows in list order |
| `Frames.StackSingleRows` | app/api.py:90 | stacking one-row frames gives one row per frame, row i being frame i's row |
| `Schemas.ReplaceZ` | app/schemas.py:17 | the string handed to the ISO parser contains no `Z`, and each `Z` grew the string by exactly five characters |
| `Schemas.ReplaceZWithoutZ` | app/schemas.py:17 | a string without `Z` is handed to the parser unchanged |
| `Schemas.ReplaceZAppend` | app/schemas.py:17 | the rewrite works character by character: it distributes over concatenation |
| `Schemas.ValidateDatetime` | app/schemas.py:12-23 | accepted iff the parser accepts the rewritten string; on success the original (not the rewritten) string is returned; on failure the fixed ISO-8601 message |
| `Schemas.ValidateDatetimeWithoutZ` | app/schemas.py:14-23 | a `Z`-free timestamp is accepted iff the parser accepts it as it stands |
| `Schemas.RangeErrors` | app/schemas.py:6-9 | an `OutOfRange` entry for a coordinate iff it is outside its inclusive range (NaN included), at most four entries, none for the timestamp |
| `Schemas.FieldErrors` | app/schemas.py:5-23 | the same coordinate entries as the range failures, and the validator's fixed message iff the rewritten timestamp does not parse (then as the last entry); nothing else is reported, at most five entries |
| `Schemas.FlaggedInFieldOrder` | app/schemas.py:6-9 | whichever of the four range checks fail, their entries come in field declaration order |
| `Schemas.RangeErrorsInFieldOrder` | app/schemas.py:6-9 | the range failures of a trip are in field declaration order, so each failing coordinate is reported exactly once |
| `Schemas.FieldErrorsSplit` | app/schemas.py:5-23 | a trip's failures are its range failures followed by the datetime message exactly when the timestamp does not parse |
| `Schemas.AscendingWithDatetime` | app/schemas.py:5-23 | appending the datetime message, or nothing, to range failures in field order keeps them in order and free of repeats |
| `Schemas.FieldErrorsInFieldOrder` | app/schemas.py:5-23 | all failures of a trip are in field declaration order, the datetime message last, and none is reported twice |
| `Schemas.ValidateTrip` | app/schemas.py:5-23 | a trip is accepted iff both latitudes lie in [-90, 90] and both longitudes in [-180, 180] (bounds inclusive, NaN rejected) and the timestamp validates; an accepted trip is unchanged; each coordinate is reported iff it is out of range; a parsing timestamp adds no datetime error |
| `Schemas.TripOutcomes` | app/schemas.py:25-26 | one validation outcome per trip, outcome k being the validation of trip k |
| `Schemas.BatchErrors` | app/schemas.py:25-26 | only failing trips are reported, each with its own errors, in increasing index order; empty iff every trip validates |
| `Schemas.BatchErrorsComplete` | app/schemas.py:25-26 | every failing trip is reported, with its own errors |
| `Schemas.ValidateBatch` | app/schemas.py:25-26 | a batch is accepted iff every trip is a valid `TripRequest`, and the accepted list is the request's list; otherwise exactly the failing trips are reported, each with its own errors |
| `Preprocessing.WeekdayColumn` | app/preprocessing.py:107 | `f"wd_{i}"` is a four-character name starting `wd_` |
| `Preprocessing.Flag` | app/preprocessing.py:107 | a flag is never null; it is 1 exactly at the pickup weekday and 0 elsewhere |
| `Preprocessing.WeekdayFeatures` | app/preprocessing.py:106-109 | the comprehension's keys are exactly the schema's weekday columns, and column i holds flag i |
| `Preprocessing.CoordinateFeatures` | app/preprocessing.py:113-117 | the coordinate entries of the dict literal are keyed by exactly the schema's coordinate columns |
| `Preprocessing.TimeFeatures` | app/preprocessing.py:119-123 | the time entries are keyed by exactly the schema's time columns |
| `Preprocessing.SpatialFeatures` | app/preprocessing.py:88-131 | the spatial entries are keyed by exactly the schema's spatial columns |
| `Preprocessing.FeatureRecord` | app/preprocessing.py:112-132 | the merged record's keys are exactly the names of `FEATURE_COLUMNS`: none missing, none extra |
| `Preprocessing.WeekdayColumnsAll` | app/preprocessing.py:106-109 | for every weekday at once: name i is the schema's i-th weekday column, and distinct weekdays give distinct names |
| `Preprocessing.WeekdayColumnsAgree` | app/preprocessing.py:106-109 | the name built for weekday i is the schema's i-th weekday column |
| `Preprocessing.WeekdayColumnInjective` | app/preprocessing.py:106-109 | distinct weekdays build distinct names, so the comprehension loses no flag |
| `Preprocessing.NotWeekdayKey` | app/preprocessing.py:106-109 | only four-character names can be keys of the weekday block |
| `Preprocessing.WeekdayLookup` | app/preprocessing.py:106-126 | under `wd_i` the merged record holds flag i (1 iff i is the pickup weekday) |
| `Preprocessing.FromCoordinateBlock` | app/preprocessing.py:112-132 | a coordinate key that no later block of the dict literal redefines keeps its coordinate value |
| `Preprocessing.FromTimeBlock` | app/preprocessing.py:112-132 | a time key that no later block redefines keeps its time value |
| `Preprocessing.FromSpatialBlock` | app/preprocessing.py:112-132 | a spatial key, merged last, keeps its spatial value |
| `Preprocessing.PickupLookup` | app/preprocessing.py:83-115 | the record holds the pickup longitude and latitude unchanged under their names |
| `Preprocessing.DropoffLookup` | app/preprocessing.py:85-117 | the record holds the dropoff longitude and latitude unchanged under their names |
| `Preprocessing.HourLookup` | app/preprocessing.py:76-121 | the record holds sin and cos of the hour angle under the hour names |
| `Preprocessing.MinuteLookup` | app/preprocessing.py:79-123 | the record holds sin and cos of the minute angle under the minute names |
| `Preprocessing.CoordinateBlock` | app/preprocessing.py:114-137 | projecting onto the coordinate columns gives (pickup lon, pickup lat, dropoff lon, dropoff lat) |
| `Preprocessing.TimeBlock` | app/preprocessing.py:119-137 | projecting onto the time columns gives hour sin, hour cos, minute sin, minute cos |
| `Preprocessing.WeekdayBlock` | app/preprocessing.py:106-137 | projecting onto the weekday columns gives the one-hot flags |
| `Preprocessing.SpatialBlock` | app/preprocessing.py:88-137 | projecting onto the spatial columns gives the distance and sin/cos of `radians(bearing_deg(...))`, both routines called pickup-to-dropoff in (lat, lon) order |
| `Preprocessing.SpatialProjection` | app/preprocessing.py:88-137 | the spatial entries alone project onto the spatial columns as the reference spatial block |
| `Preprocessing.ReindexIsSchemaRow` | app/preprocessing.py:106-137 | every schema name is a key of the record (the reindex introduces no missing column), and the projection equals the reference row |
| `Preprocessing.BuildFeatures` | app/preprocessing.py:47-142 | only `ValueError` is raised; an undecodable timestamp raises its `ValueError`; a result has the schema's columns, one row and no null |
| `Preprocessing.BuildFeaturesMatchesSchemaRow` | app/preprocessing.py:65-142 | a timestamp that fails to decode raises; otherwise the result is the one-row frame over `FEATURE_COLUMNS` holding the reference row, or the null-feature `ValueError` exactly when that row holds a null |
| `Preprocessing.WeekdayRowHasNoNull` | app/preprocessing.py:106-109 | weekday flags are never null |
| `Preprocessing.BuildFeaturesFailsIffNull` | app/preprocessing.py:139-140 | once the timestamp decodes, the call raises iff one of the four coordinates or one of the seven computed values is null |
| `Preprocessing.SchemaRowNulls` | app/preprocessing.py:112-140 | the reference row holds a null iff one of the four coordinates or one of the seven computed values is null |
| `Preprocessing.SchemaRowSlices` | app/preprocessing.py:112-137 | the reference row has 18 entries in the four blocks |
| `Preprocessing.BuildFeaturesRow` | app/preprocessing.py:135-142 | a successful call returns exactly the reference row |
| `Preprocessing.FeatureRowLayout` | app/preprocessing.py:83-132 | positions 0-3 are the raw coordinates (longitude before latitude, pickup before dropoff); 4-7 are sin/cos of the hour then minute angles; 15-17 are `haversine_km(plat, plon, dlat, dlon)`, then `sin(radians(b))` and `cos(radians(b))` for `b = bearing_deg(plat, plon, dlat, dlon)` |
| `Preprocessing.WeekdayRowOneHot` | app/preprocessing.py:106-109 | flag i is 1 iff i is the weekday, else 0; the set of raised flags is exactly {weekday} |
| `Preprocessing.FeatureRowOneHot` | app/preprocessing.py:106-109 | in a successful feature row, positions 8-14 are one-hot at the decoded weekday: exactly one flag is 1, the rest 0 |
| `Model.PredictOne` | app/model.py:22-42 | unloaded: `RuntimeError` with the not-loaded message, without scoring; loaded: element 0 of the scorer's output with the latency, or an `IndexError` when the output is empty; never a `ValueError` |
| `Model.PredictMany` | app/model.py:45-65 | fails iff unloaded, with `RuntimeError`; otherwise returns the scorer's whole output list in order, with the latency |
| `Model.PredictManyOnePerRow` | app/model.py:56-65 | with a regressor that scores each row, the batch output has exactly as many predictions as input rows |
| `Model.PredictOneAgreesWithBatch` | app/model.py:38-61 | on a one-row frame, `predict` succeeds with the number `predict_batch` puts first |
| `Model.ModelState.constructor` | app/model.py:9 | the slot starts unloaded |
| `Model.ModelState.LoadModel` | app/model.py:12-18 | unloaded: a readable artifact is stored and a failed read leaves the slot empty and propagates; loaded: the slot is unchanged and nothing is read (idempotent) |
| `Model.ModelState.Predict` | app/model.py:22-42 | behaves as `PredictOne` on the current slot and does not modify the slot |
| `Model.ModelState.PredictBatch` | app/model.py:45-65 | behaves as `PredictMany` on the current slot and does not modify the slot |
| `Api.HttpErrorFor` | app/api.py:61-70 | `ValueError` gives status 400 with `str(e)`; any other exception gives 500 with the handler's fixed detail, which leaks nothing from the exception |
| `Api.HealthCheck` | app/api.py:28-33 | status "ok" with the model version |
| `Api.GetModelInfo` | app/api.py:109-118 | `num_features` equals the length of the reported feature list, which is `FEATURE_COLUMNS`, so 18 |
| `Api.PredictTripDuration` | app/api.py:41-70 | a feature error gives 400 with its message whatever the model slot holds; with features but no model, 500 with the fixed detail; with features and a model, a reply carrying the scorer's first output on the trip's feature frame, `MODEL_VERSION` and the latency, or 500 with the fixed detail when the output is empty; a reply only arises this way |
| `Api.TripFeatures` | app/api.py:84-88 | one assembly outcome per trip, outcome k being the single-trip assembly of trip k |
| `Api.CollectFrames` | app/api.py:86-88 | the comprehension succeeds iff every trip assembles, yielding one frame per trip in order |
| `Api.CollectFramesFirstFailure` | app/api.py:86-88 | a failing comprehension raises the exception of its first failing trip |
| `Api.CollectedFramesShape` | app/api.py:86-88 | every collected frame has the schema's columns and one row |
| `Api.BatchFeatures` | app/api.py:84-90 | batch assembly raises only `ValueError` |
| `Api.PredictTripDurationBatch` | app/api.py:78-107 | a reply only comes from a loaded model and a built table, carrying `MODEL_VERSION` and the latency |
| `Api.BatchTableRows` | app/api.py:84-90 | a batch table exists only for a non-empty batch whose trips all assemble; it has the schema's columns and one row per trip, row k being trip k's single-trip row |
| `Api.BatchFailsOnFirstBadTrip` | app/api.py:86-101 | if trip k is the first that raises, the batch answers 400 with that trip's message whatever the model slot holds: `predict_batch` is never reached |
| `Api.EmptyBatchIsClientError` | app/api.py:90-101 | an empty batch answers 400 "No objects to concatenate" |
| `Api.BatchOfGoodTrips` | app/api.py:90-107 | for a non-empty batch of good trips: unloaded gives 500 with the fixed detail; loaded replies with the scorer's output on the batch table, one prediction per trip when the regressor scores each row |

## Left out

- Floating-point arithmetic: `haversine_km`, `bearing_deg`, the hour and minute angles, numpy's `sin`, `cos` and `radians`, and the `(x + 360) % 360` normalisation are opaque `Numerics` fields. Distance symmetry, zero distance and the bearing range are therefore not stated.
- Timestamp decoding (`pd.to_datetime(..., utc=True).tz_convert(None)` with `.hour`, `.minute`, `.weekday()`) and `datetime.fromisoformat` are library calendar code. They are parameters. The decoder's ranges are carried by its result type; its failure text is part of its result.
- Infinities are not distinguished from other numbers. Only NaN is modelled, because only NaN is null to pandas.
- XGBoost internals and reading the model file: a `Booster` is an opaque function, and the artifact read is a parameter of `LoadModel`. Exceptions the regressor itself could raise while scoring are not modelled.
- Latency measurement with `time.perf_counter`: the elapsed time is a parameter and is returned unchanged.
- FastAPI routing, `HTTPException` machinery and Pydantic parsing beyond the range constraints and the validator. A rejected request's 422 response is not modelled, and neither are missing or mistyped fields.
- App construction and the startup hook in `app/main.py`, and path construction in `app/config.py`.
- Concurrency: there is no locking around `_model` in the code, so a concurrent first load is not modelled.
- `Frames.Concat` requires all frames to share their columns. The feature frames always do; pandas' union of differing columns is not modelled.
- `Api.CollectFrames` is given every trip's assembly outcome up front, while the comprehension stops at the first exception. Assembly is pure, so the observable result (the first failure, or all frames) is the same.
- Dict key order of the intermediate record is not modelled (a `map` has none). It does not matter, because the reindex imposes `FEATURE_COLUMNS` order.
- `Schemas.ValidateTrip`: Pydantic's own error objects (their `loc`, `type` and wording such as "Input should be greater than or equal to -90") are reduced to `OutOfRange(field)`. The validator's `ValueError` is reduced to its message.
