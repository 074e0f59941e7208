/**
 * `build_features_from_input`: from one trip to the one-row feature frame
 * the regressor scores.
 *
 * The floating-point routines (numpy's trigonometry, `haversine_km`,
 * `bearing_deg`, the `2*pi*h/24` and `2*pi*m/60` angles) and pandas'
 * timestamp decoding are library code and enter as the fields of a
 * `Numerics` value; what is modelled and proved is how their results are
 * wired into the schema.
 */
module Preprocessing {
  import opened Wrappers
  import opened Exceptions
  import opened Frames
  import opened Schemas
  import Config

  type Hour = h: int | 0 <= h < 24
  type Minute = m: int | 0 <= m < 60
  /** Monday = 0 ... Sunday = 6, as `datetime.weekday()` numbers them. */
  type Weekday = d: int | 0 <= d < 7

  /** The UTC wall-clock fields of a decoded pickup timestamp. */
  datatype Clock = Clock(hour: Hour, minute: Minute, weekday: Weekday)

  /** The library routines the assembler calls, taken as given. */
  datatype Numerics = Numerics(
    /** `pd.to_datetime(s, utc=True, errors="raise").tz_convert(None)`; a failure carries the `ValueError` text. */
    toDatetime: string -> Result<Clock, string>,
    /** `2 * np.pi * hour / 24` */
    hourAngle: Hour -> Float,
    /** `2 * np.pi * minute / 60` */
    minuteAngle: Minute -> Float,
    sin: Float -> Float,
    cos: Float -> Float,
    radians: Float -> Float,
    /** `haversine_km(lat1, lon1, lat2, lon2)` */
    haversineKm: (Float, Float, Float, Float) -> Float,
    /** `bearing_deg(lat1, lon1, lat2, lon2)` */
    bearingDeg: (Float, Float, Float, Float) -> Float)

  const NULL_FEATURE_MESSAGE: string := "NaN detected in feature vector"

  /** The column name `f"wd_{i}"`. */
  function WeekdayColumn(i: Weekday): (name: string)
    ensures |name| == 4 && name[..3] == "wd_"
  {
    "wd_" + [('0' as int + i) as char]
  }

  /** The weekday flag `1 if i == weekday else 0`: never null, one exactly at the pickup weekday. */
  function Flag(weekday: Weekday, i: Weekday): (f: Float)
    ensures f.Num?
    ensures f.v == 1.0 <==> i == weekday
    ensures f.v == 0.0 <==> i != weekday
  {
    if i == weekday then Num(1.0) else Num(0.0)
  }

  /**
   * The dict comprehension of weekday flags: its keys are exactly the
   * schema's weekday columns, and column i holds flag i.
   */
  function WeekdayFeatures(weekday: Weekday): (m: map<string, Float>)
    ensures forall name :: name in m <==> name in Config.WeekdayColumns()
    ensures forall i: Weekday :: m[Config.WeekdayColumns()[i]] == Flag(weekday, i)
  {
    WeekdayColumnsAll();
    map i: Weekday | 0 <= i < 7 :: WeekdayColumn(i) := Flag(weekday, i)
  }

  /** The raw-coordinate block of the feature record, keyed by the schema's coordinate columns. */
  function CoordinateFeatures(t: TripRequest): (m: map<string, Float>)
    ensures forall name :: name in m <==> name in Config.CoordinateColumns()
  {
    map[
      "pickup_longitude" := t.pickupLon,
      "pickup_latitude" := t.pickupLat,
      "dropoff_longitude" := t.dropoffLon,
      "dropoff_latitude" := t.dropoffLat]
  }

  /** The cyclical hour and minute block of the feature record, keyed by the schema's time columns. */
  function TimeFeatures(N: Numerics, c: Clock): (m: map<string, Float>)
    ensures forall name :: name in m <==> name in Config.TimeColumns()
  {
    map[
      "pickup_hour_sin" := N.sin(N.hourAngle(c.hour)),
      "pickup_hour_cos" := N.cos(N.hourAngle(c.hour)),
      "pickup_minute_sin" := N.sin(N.minuteAngle(c.minute)),
      "pickup_minute_cos" := N.cos(N.minuteAngle(c.minute))]
  }

  /** The distance and bearing block of the feature record, keyed by the schema's spatial columns. */
  function SpatialFeatures(t: TripRequest, N: Numerics): (m: map<string, Float>)
    ensures forall name :: name in m <==> name in Config.SpatialColumns()
  {
    var bearing := N.bearingDeg(t.pickupLat, t.pickupLon, t.dropoffLat, t.dropoffLon);
    map[
      "haversine_km" := N.haversineKm(t.pickupLat, t.pickupLon, t.dropoffLat, t.dropoffLon),
      "bearing_sin" := N.sin(N.radians(bearing)),
      "bearing_cos" := N.cos(N.radians(bearing))]
  }

  /**
   * The named feature record: the four blocks merged in the order of the
   * dict literal (the weekday block is spliced in with `**`). Its keys are
   * exactly the schema's names: none is missing and none is extra.
   */
  function FeatureRecord(t: TripRequest, N: Numerics, c: Clock): (rec: map<string, Float>)
    ensures forall name :: name in rec <==> name in Config.FeatureColumns()
  {
    Config.FeatureColumnsBlocks();
    CoordinateFeatures(t) + TimeFeatures(N, c) + WeekdayFeatures(c.weekday) + SpatialFeatures(t, N)
  }

  /**
   * Reference layout of the feature vector, block by block (positions
   * 0-3, 4-7, 8-14, 15-17).
   */
  function SchemaRow(t: TripRequest, N: Numerics, c: Clock): seq<Float>
  {
    CoordinateRow(t) + TimeRow(N, c) + WeekdayRow(c.weekday) + SpatialRow(t, N)
  }

  /** Longitude before latitude, pickup before dropoff, values passed through. */
  function CoordinateRow(t: TripRequest): seq<Float>
  {
    [t.pickupLon, t.pickupLat, t.dropoffLon, t.dropoffLat]
  }

  /** Hour then minute, sine before cosine. */
  function TimeRow(N: Numerics, c: Clock): seq<Float>
  {
    [ N.sin(N.hourAngle(c.hour)), N.cos(N.hourAngle(c.hour)),
      N.sin(N.minuteAngle(c.minute)), N.cos(N.minuteAngle(c.minute)) ]
  }

  /** Flag i at offset i: one for the pickup weekday, zero elsewhere. */
  function WeekdayRow(weekday: Weekday): seq<Float>
  {
    seq(7, i requires 0 <= i < 7 => if i == weekday then Num(1.0) else Num(0.0))
  }

  /**
   * Distance, then sine and cosine of `radians(bearing_deg(...))`; both
   * routines are called from pickup (lat, lon) to dropoff (lat, lon).
   */
  function SpatialRow(t: TripRequest, N: Numerics): seq<Float>
  {
    var bearing := N.bearingDeg(t.pickupLat, t.pickupLon, t.dropoffLat, t.dropoffLon);
    [ N.haversineKm(t.pickupLat, t.pickupLon, t.dropoffLat, t.dropoffLon),
      N.sin(N.radians(bearing)), N.cos(N.radians(bearing)) ]
  }

  /**
   * `build_features_from_input`: decode the timestamp (failure is a
   * `ValueError`), build the record, reindex it onto `FEATURE_COLUMNS`
   * and refuse a row holding a null.
   */
  function BuildFeatures(t: TripRequest, N: Numerics): (r: Result<Frame, Exception>)
    ensures r.Err? ==> r.error.ValueError?
    ensures N.toDatetime(t.pickupDatetime).Err? ==> r == Err(ValueError(N.toDatetime(t.pickupDatetime).error))
    ensures r.Ok? ==> r.value.columns == Config.FeatureColumns() && |r.value.rows| == 1 && !HasNull(r.value)
  {
    match N.toDatetime(t.pickupDatetime)
    case Err(msg) => Err(ValueError(msg))
    case Ok(c) =>
      var frame := Frame(Config.FeatureColumns(), [Reindex(FeatureRecord(t, N, c), Config.FeatureColumns())]);
      if HasNull(frame) then Err(ValueError(NULL_FEATURE_MESSAGE)) else Ok(frame)
  }

  /** `"wd_" + i` is the schema's i-th weekday column. */
  lemma WeekdayColumnsAgree(i: Weekday)
    ensures WeekdayColumn(i) == Config.WeekdayColumns()[i]
  {
  }

  /** The two facts above for every weekday at once. */
  lemma WeekdayColumnsAll()
    ensures forall i: Weekday :: WeekdayColumn(i) == Config.WeekdayColumns()[i]
    ensures forall i: Weekday, j: Weekday :: WeekdayColumn(i) == WeekdayColumn(j) ==> i == j
  {
    forall i: Weekday ensures WeekdayColumn(i) == Config.WeekdayColumns()[i] {
      WeekdayColumnsAgree(i);
    }
    forall i: Weekday, j: Weekday | WeekdayColumn(i) == WeekdayColumn(j) ensures i == j {
      WeekdayColumnInjective(i, j);
    }
  }

  /** Distinct weekdays give distinct column names. */
  lemma WeekdayColumnInjective(i: Weekday, j: Weekday)
    requires WeekdayColumn(i) == WeekdayColumn(j)
    ensures i == j
  {
  }

  /** Only four-character names can be weekday keys. */
  lemma NotWeekdayKey(weekday: Weekday, name: string)
    requires |name| != 4
    ensures name !in WeekdayFeatures(weekday)
  {
  }

  /** Under `wd_i` the record holds flag i. */
  lemma WeekdayLookup(t: TripRequest, N: Numerics, c: Clock, i: Weekday)
    ensures WeekdayColumn(i) in FeatureRecord(t, N, c)
    ensures FeatureRecord(t, N, c)[WeekdayColumn(i)] == WeekdayRow(c.weekday)[i]
  {
    var wf := WeekdayFeatures(c.weekday);
    var name := WeekdayColumn(i);
    assert name in wf;
    forall j: Weekday | WeekdayColumn(j) == name ensures j == i {
      WeekdayColumnInjective(i, j);
    }
    assert wf[name] == Flag(c.weekday, i);
    assert name !in SpatialFeatures(t, N);
  }

  /** A key of the coordinate block found in no later block keeps its coordinate value. */
  lemma FromCoordinateBlock(t: TripRequest, N: Numerics, c: Clock, name: string)
    requires name in CoordinateFeatures(t) && name !in TimeFeatures(N, c) && name !in SpatialFeatures(t, N)
    requires |name| != 4
    ensures name in FeatureRecord(t, N, c) && FeatureRecord(t, N, c)[name] == CoordinateFeatures(t)[name]
  {
    NotWeekdayKey(c.weekday, name);
  }

  /** A key of the time block found in no later block keeps its time value. */
  lemma FromTimeBlock(t: TripRequest, N: Numerics, c: Clock, name: string)
    requires name in TimeFeatures(N, c) && name !in SpatialFeatures(t, N)
    requires |name| != 4
    ensures name in FeatureRecord(t, N, c) && FeatureRecord(t, N, c)[name] == TimeFeatures(N, c)[name]
  {
    NotWeekdayKey(c.weekday, name);
  }

  /** The record holds the pickup coordinates under their names. */
  lemma PickupLookup(t: TripRequest, N: Numerics, c: Clock)
    ensures "pickup_longitude" in FeatureRecord(t, N, c) && FeatureRecord(t, N, c)["pickup_longitude"] == t.pickupLon
    ensures "pickup_latitude" in FeatureRecord(t, N, c) && FeatureRecord(t, N, c)["pickup_latitude"] == t.pickupLat
  {
    FromCoordinateBlock(t, N, c, "pickup_longitude");
    FromCoordinateBlock(t, N, c, "pickup_latitude");
  }

  /** The record holds the dropoff coordinates under their names. */
  lemma DropoffLookup(t: TripRequest, N: Numerics, c: Clock)
    ensures "dropoff_longitude" in FeatureRecord(t, N, c) && FeatureRecord(t, N, c)["dropoff_longitude"] == t.dropoffLon
    ensures "dropoff_latitude" in FeatureRecord(t, N, c) && FeatureRecord(t, N, c)["dropoff_latitude"] == t.dropoffLat
  {
    FromCoordinateBlock(t, N, c, "dropoff_longitude");
    FromCoordinateBlock(t, N, c, "dropoff_latitude");
  }

  /** The record holds the hour encodings under their names. */
  lemma HourLookup(t: TripRequest, N: Numerics, c: Clock)
    ensures "pickup_hour_sin" in FeatureRecord(t, N, c) && FeatureRecord(t, N, c)["pickup_hour_sin"] == N.sin(N.hourAngle(c.hour))
    ensures "pickup_hour_cos" in FeatureRecord(t, N, c) && FeatureRecord(t, N, c)["pickup_hour_cos"] == N.cos(N.hourAngle(c.hour))
  {
    FromTimeBlock(t, N, c, "pickup_hour_sin");
    FromTimeBlock(t, N, c, "pickup_hour_cos");
  }

  /** The record holds the minute encodings under their names. */
  lemma MinuteLookup(t: TripRequest, N: Numerics, c: Clock)
    ensures "pickup_minute_sin" in FeatureRecord(t, N, c) && FeatureRecord(t, N, c)["pickup_minute_sin"] == N.sin(N.minuteAngle(c.minute))
    ensures "pickup_minute_cos" in FeatureRecord(t, N, c) && FeatureRecord(t, N, c)["pickup_minute_cos"] == N.cos(N.minuteAngle(c.minute))
  {
    FromTimeBlock(t, N, c, "pickup_minute_sin");
    FromTimeBlock(t, N, c, "pickup_minute_cos");
  }

  /** The coordinate columns pick the raw coordinates, unchanged and in schema order. */
  lemma CoordinateBlock(t: TripRequest, N: Numerics, c: Clock)
    ensures Reindex(FeatureRecord(t, N, c), Config.CoordinateColumns()) == CoordinateRow(t)
  {
    PickupLookup(t, N, c);
    DropoffLookup(t, N, c);
    ReindexFour(FeatureRecord(t, N, c), "pickup_longitude", "pickup_latitude", "dropoff_longitude", "dropoff_latitude",
      t.pickupLon, t.pickupLat, t.dropoffLon, t.dropoffLat);
  }

  /** The time columns pick the four cyclical encodings. */
  lemma TimeBlock(t: TripRequest, N: Numerics, c: Clock)
    ensures Reindex(FeatureRecord(t, N, c), Config.TimeColumns()) == TimeRow(N, c)
  {
    HourLookup(t, N, c);
    MinuteLookup(t, N, c);
    ReindexFour(FeatureRecord(t, N, c), "pickup_hour_sin", "pickup_hour_cos", "pickup_minute_sin", "pickup_minute_cos",
      N.sin(N.hourAngle(c.hour)), N.cos(N.hourAngle(c.hour)), N.sin(N.minuteAngle(c.minute)), N.cos(N.minuteAngle(c.minute)));
  }

  /** The weekday columns pick the one-hot flags. */
  lemma WeekdayBlock(t: TripRequest, N: Numerics, c: Clock)
    ensures Reindex(FeatureRecord(t, N, c), Config.WeekdayColumns()) == WeekdayRow(c.weekday)
  {
    var rec := FeatureRecord(t, N, c);
    forall i: Weekday
      ensures Config.WeekdayColumns()[i] in rec && rec[Config.WeekdayColumns()[i]] == WeekdayRow(c.weekday)[i]
    {
      WeekdayColumnsAgree(i);
      WeekdayLookup(t, N, c, i);
    }
  }

  /** The spatial columns pick distance and the two bearing encodings. */
  lemma SpatialBlock(t: TripRequest, N: Numerics, c: Clock)
    ensures Reindex(FeatureRecord(t, N, c), Config.SpatialColumns()) == SpatialRow(t, N)
  {
    var rec, sp := FeatureRecord(t, N, c), SpatialFeatures(t, N);
    forall name | name in sp ensures name in rec && rec[name] == sp[name] {
      FromSpatialBlock(t, N, c, name);
    }
    ReindexSubmap(rec, sp, Config.SpatialColumns());
    SpatialProjection(t, N);
  }

  /** The spatial block alone projects onto the spatial columns as the reference row. */
  lemma SpatialProjection(t: TripRequest, N: Numerics)
    ensures Reindex(SpatialFeatures(t, N), Config.SpatialColumns()) == SpatialRow(t, N)
  {
  }

  /** A key of the spatial block, the last one merged, keeps its spatial value. */
  lemma FromSpatialBlock(t: TripRequest, N: Numerics, c: Clock, name: string)
    requires name in SpatialFeatures(t, N)
    ensures name in FeatureRecord(t, N, c) && FeatureRecord(t, N, c)[name] == SpatialFeatures(t, N)[name]
  {
  }

  /**
   * Projecting the record onto `FEATURE_COLUMNS` yields the reference
   * layout: every schema name is found in the record (no column is
   * missing) and its value lands at the name's position.
   */
  lemma ReindexIsSchemaRow(t: TripRequest, N: Numerics, c: Clock)
    ensures forall i :: 0 <= i < |Config.FeatureColumns()| ==> Config.FeatureColumns()[i] in FeatureRecord(t, N, c)
    ensures Reindex(FeatureRecord(t, N, c), Config.FeatureColumns()) == SchemaRow(t, N, c)
  {
    var rec := FeatureRecord(t, N, c);
    Config.FeatureColumnsBlocks();
    ReindexAppend(rec, Config.CoordinateColumns() + Config.TimeColumns() + Config.WeekdayColumns(), Config.SpatialColumns());
    ReindexAppend(rec, Config.CoordinateColumns() + Config.TimeColumns(), Config.WeekdayColumns());
    ReindexAppend(rec, Config.CoordinateColumns(), Config.TimeColumns());
    CoordinateBlock(t, N, c);
    TimeBlock(t, N, c);
    WeekdayBlock(t, N, c);
    SpatialBlock(t, N, c);
  }

  /**
   * `build_features_from_input` against the reference layout: a timestamp
   * that does not decode raises its `ValueError`; otherwise the call
   * returns the one-row frame over `FEATURE_COLUMNS` holding the reference
   * row, or raises the null-feature `ValueError` exactly when that row
   * holds a null.
   */
  lemma BuildFeaturesMatchesSchemaRow(t: TripRequest, N: Numerics)
    ensures N.toDatetime(t.pickupDatetime).Err? ==>
      BuildFeatures(t, N) == Err(ValueError(N.toDatetime(t.pickupDatetime).error))
    ensures N.toDatetime(t.pickupDatetime).Ok? ==>
      var row := SchemaRow(t, N, N.toDatetime(t.pickupDatetime).value);
      BuildFeatures(t, N) ==
        if NaN in row then Err(ValueError(NULL_FEATURE_MESSAGE))
        else Ok(Frame(Config.FeatureColumns(), [row]))
  {
    if N.toDatetime(t.pickupDatetime).Ok? {
      var c := N.toDatetime(t.pickupDatetime).value;
      var row := SchemaRow(t, N, c);
      ReindexIsSchemaRow(t, N, c);
      var frame := Frame(Config.FeatureColumns(), [row]);
      if NaN in row {
        var k :| 0 <= k < |row| && row[k] == NaN;
        assert frame.rows[0][k].NaN?;
      }
    }
  }

  /** The weekday flags never hold a null. */
  lemma WeekdayRowHasNoNull(weekday: Weekday)
    ensures NaN !in WeekdayRow(weekday)
  {
  }

  /**
   * Once the timestamp decodes, the call fails iff one of the four input
   * coordinates or one of the seven computed trigonometric and distance
   * values is null; the weekday flags never cause a failure.
   */
  lemma BuildFeaturesFailsIffNull(t: TripRequest, N: Numerics)
    requires N.toDatetime(t.pickupDatetime).Ok?
    ensures var c := N.toDatetime(t.pickupDatetime).value;
      var bearing := N.bearingDeg(t.pickupLat, t.pickupLon, t.dropoffLat, t.dropoffLon);
      BuildFeatures(t, N).Err? <==>
        || t.pickupLon.NaN? || t.pickupLat.NaN? || t.dropoffLon.NaN? || t.dropoffLat.NaN?
        || N.sin(N.hourAngle(c.hour)).NaN? || N.cos(N.hourAngle(c.hour)).NaN?
        || N.sin(N.minuteAngle(c.minute)).NaN? || N.cos(N.minuteAngle(c.minute)).NaN?
        || N.haversineKm(t.pickupLat, t.pickupLon, t.dropoffLat, t.dropoffLon).NaN?
        || N.sin(N.radians(bearing)).NaN? || N.cos(N.radians(bearing)).NaN?
  {
    BuildFeaturesMatchesSchemaRow(t, N);
    SchemaRowNulls(t, N, N.toDatetime(t.pickupDatetime).value);
  }

  /** The reference row holds a null iff a coordinate or a computed value is null. */
  lemma SchemaRowNulls(t: TripRequest, N: Numerics, c: Clock)
    ensures var bearing := N.bearingDeg(t.pickupLat, t.pickupLon, t.dropoffLat, t.dropoffLon);
      NaN in SchemaRow(t, N, c) <==>
        || t.pickupLon.NaN? || t.pickupLat.NaN? || t.dropoffLon.NaN? || t.dropoffLat.NaN?
        || N.sin(N.hourAngle(c.hour)).NaN? || N.cos(N.hourAngle(c.hour)).NaN?
        || N.sin(N.minuteAngle(c.minute)).NaN? || N.cos(N.minuteAngle(c.minute)).NaN?
        || N.haversineKm(t.pickupLat, t.pickupLon, t.dropoffLat, t.dropoffLon).NaN?
        || N.sin(N.radians(bearing)).NaN? || N.cos(N.radians(bearing)).NaN?
  {
  }

  /** The positions of the reference row, block by block. */
  lemma SchemaRowSlices(t: TripRequest, N: Numerics, c: Clock)
    ensures var row := SchemaRow(t, N, c);
      && |row| == 18
      && row[..4] == CoordinateRow(t)
      && row[4..8] == TimeRow(N, c)
      && row[8..15] == WeekdayRow(c.weekday)
      && row[15..] == SpatialRow(t, N)
  {
  }

  /** A successful call returns exactly the reference row. */
  lemma BuildFeaturesRow(t: TripRequest, N: Numerics)
    requires BuildFeatures(t, N).Ok?
    ensures N.toDatetime(t.pickupDatetime).Ok?
    ensures BuildFeatures(t, N).value.rows[0] == SchemaRow(t, N, N.toDatetime(t.pickupDatetime).value)
  {
    BuildFeaturesMatchesSchemaRow(t, N);
  }

  /**
   * Meaning of the positions of a successful feature row: the raw
   * coordinates (longitude before latitude, pickup before dropoff), the
   * hour and minute encodings, then, after the weekday flags, the distance
   * and the two-step bearing encodings, both computed from pickup
   * (lat, lon) to dropoff (lat, lon).
   */
  lemma FeatureRowLayout(t: TripRequest, N: Numerics)
    requires BuildFeatures(t, N).Ok?
    ensures N.toDatetime(t.pickupDatetime).Ok?
    ensures var c := N.toDatetime(t.pickupDatetime).value;
      var row := BuildFeatures(t, N).value.rows[0];
      var bearing := N.bearingDeg(t.pickupLat, t.pickupLon, t.dropoffLat, t.dropoffLon);
      && |row| == 18
      && row[..4] == [t.pickupLon, t.pickupLat, t.dropoffLon, t.dropoffLat]
      && row[4..8] == [ N.sin(N.hourAngle(c.hour)), N.cos(N.hourAngle(c.hour)),
                        N.sin(N.minuteAngle(c.minute)), N.cos(N.minuteAngle(c.minute)) ]
      && row[15..] == [ N.haversineKm(t.pickupLat, t.pickupLon, t.dropoffLat, t.dropoffLon),
                        N.sin(N.radians(bearing)), N.cos(N.radians(bearing)) ]
  {
    BuildFeaturesRow(t, N);
    SchemaRowSlices(t, N, N.toDatetime(t.pickupDatetime).value);
  }

  /** The reference weekday block is one-hot at the given weekday. */
  lemma WeekdayRowOneHot(weekday: Weekday)
    ensures forall i :: 0 <= i < 7 ==> WeekdayRow(weekday)[i] == if i == weekday then Num(1.0) else Num(0.0)
    ensures (set i | 0 <= i < 7 && WeekdayRow(weekday)[i] == Num(1.0)) == {weekday}
  {
  }

  /**
   * The weekday block of a successful feature row is one-hot: every flag
   * is 0 or 1, the flag of the pickup weekday is 1, and it is the only one.
   */
  lemma FeatureRowOneHot(t: TripRequest, N: Numerics)
    requires BuildFeatures(t, N).Ok?
    ensures N.toDatetime(t.pickupDatetime).Ok?
    ensures var w := N.toDatetime(t.pickupDatetime).value.weekday;
      var flags := BuildFeatures(t, N).value.rows[0][8..15];
      && |flags| == 7
      && (forall i :: 0 <= i < 7 ==> flags[i] == if i == w then Num(1.0) else Num(0.0))
      && (set i | 0 <= i < 7 && flags[i] == Num(1.0)) == {w}
  {
    BuildFeaturesRow(t, N);
    var c := N.toDatetime(t.pickupDatetime).value;
    SchemaRowSlices(t, N, c);
    WeekdayRowOneHot(c.weekday);
  }
}
