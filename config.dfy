/** Service constants and the feature schema the trained model expects. */
module Config {

  const MODEL_NAME: string := "nyc_taxi_xgb_regressor"
  const MODEL_VERSION: string := "v1.0"
  const MODEL_TASK: string := "regression"
  const PREDICTION_TARGET: string := "trip_duration_seconds"

  /**
   * `FEATURE_COLUMNS`: the fixed, ordered column list of eighteen names.
   */
  function FeatureColumns(): (cols: seq<string>)
    ensures |cols| == 18
  {
    [ "pickup_longitude",
      "pickup_latitude",
      "dropoff_longitude",
      "dropoff_latitude",
      "pickup_hour_sin",
      "pickup_hour_cos",
      "pickup_minute_sin",
      "pickup_minute_cos",
      "wd_0",
      "wd_1",
      "wd_2",
      "wd_3",
      "wd_4",
      "wd_5",
      "wd_6",
      "haversine_km",
      "bearing_sin",
      "bearing_cos" ]
  }

  /** No name appears twice in the schema. */
  lemma FeatureColumnsDistinct()
    ensures forall i, j :: 0 <= i < j < |FeatureColumns()| ==> FeatureColumns()[i] != FeatureColumns()[j]
  {
  }

  /** Positions 0 to 3: the raw coordinates, longitude before latitude, pickup before dropoff. */
  function CoordinateColumns(): seq<string>
  {
    ["pickup_longitude", "pickup_latitude", "dropoff_longitude", "dropoff_latitude"]
  }

  /** Positions 4 to 7: hour sine, hour cosine, minute sine, minute cosine. */
  function TimeColumns(): seq<string>
  {
    ["pickup_hour_sin", "pickup_hour_cos", "pickup_minute_sin", "pickup_minute_cos"]
  }

  /** Positions 8 to 14: the weekday flags, Monday first. */
  function WeekdayColumns(): seq<string>
  {
    ["wd_0", "wd_1", "wd_2", "wd_3", "wd_4", "wd_5", "wd_6"]
  }

  /** Positions 15 to 17: distance, bearing sine, bearing cosine. */
  function SpatialColumns(): seq<string>
  {
    ["haversine_km", "bearing_sin", "bearing_cos"]
  }

  /** The schema is the four blocks in order. */
  lemma FeatureColumnsBlocks()
    ensures FeatureColumns() == CoordinateColumns() + TimeColumns() + WeekdayColumns() + SpatialColumns()
  {
  }
}
