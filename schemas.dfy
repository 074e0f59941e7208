/**
 * Request validation: the inclusive coordinate ranges of `TripRequest`,
 * its `pickup_datetime` validator, and `TripBatchRequest`.
 *
 * `datetime.fromisoformat` is library code and enters as the parameter
 * `isoParses`: whether the ISO parser accepts a string.
 */
module Schemas {
  import opened Wrappers
  import opened Frames

  /** One trip as the client sends it (and as `model_dump()` returns it). */
  datatype TripRequest = TripRequest(
    pickupLat: Float,
    pickupLon: Float,
    dropoffLat: Float,
    dropoffLon: Float,
    pickupDatetime: string)

  /** The fields of `TripRequest`, in declaration order. */
  datatype Field = PickupLat | PickupLon | DropoffLat | DropoffLon | PickupDatetime

  /** One validation failure of one field. */
  datatype FieldError = OutOfRange(field: Field) | InvalidDatetime(message: string)

  /** The failures of trip number `index` of a batch. */
  datatype TripErrors = TripErrors(index: nat, errors: seq<FieldError>)

  const DATETIME_MESSAGE: string :=
    "pickup_datetime must be ISO-8601 format (e.g. 2016-01-15T18:30:00 or 2016-01-15T18:30:00Z)"

  /** `Field(..., ge=lo, le=hi)` on a float; NaN fails both comparisons. */
  predicate InRange(x: Float, lo: real, hi: real)
  {
    x.Num? && lo <= x.v && x.v <= hi
  }

  /**
   * `v.replace("Z", "+00:00")`: every `'Z'` becomes `"+00:00"`, so none
   * survives and each one grows the string by five characters.
   */
  function ReplaceZ(s: string): (r: string)
    ensures 'Z' !in r
    ensures |r| == |s| + 5 * CountZ(s)
  {
    if s == [] then []
    else (if s[0] == 'Z' then "+00:00" else [s[0]]) + ReplaceZ(s[1..])
  }

  /** Number of `'Z'` characters in a string. */
  function CountZ(s: string): nat
  {
    if s == [] then 0 else (if s[0] == 'Z' then 1 else 0) + CountZ(s[1..])
  }

  /** A string without `'Z'` is handed to the parser unchanged. */
  lemma {:induction false} ReplaceZWithoutZ(s: string)
    requires 'Z' !in s
    ensures ReplaceZ(s) == s
  {
    if s != [] {
      assert 'Z' !in s[1..] by {
        forall k | 0 <= k < |s[1..]| ensures s[1..][k] != 'Z' { assert s[1..][k] == s[k + 1]; }
      }
      ReplaceZWithoutZ(s[1..]);
    }
  }

  /** The rewrite works character by character: it distributes over concatenation. */
  lemma {:induction false} ReplaceZAppend(a: string, b: string)
    ensures ReplaceZ(a + b) == ReplaceZ(a) + ReplaceZ(b)
  {
    if a != [] {
      assert (a + b)[1..] == a[1..] + b;
      ReplaceZAppend(a[1..], b);
    } else {
      assert a + b == b;
    }
  }

  /**
   * `validate_datetime`: the parser sees the rewritten string, the field
   * keeps the ORIGINAL string, and a parse failure is a `ValueError` with
   * the fixed message.
   */
  function ValidateDatetime(v: string, isoParses: string -> bool): (r: Result<string, string>)
    ensures r.Ok? <==> isoParses(ReplaceZ(v))
    ensures r.Ok? ==> r.value == v
    ensures r.Err? ==> r.error == DATETIME_MESSAGE
  {
    if isoParses(ReplaceZ(v)) then Ok(v) else Err(DATETIME_MESSAGE)
  }

  /** The validator accepts a `'Z'`-free string iff the parser accepts it as it stands. */
  lemma ValidateDatetimeWithoutZ(v: string, isoParses: string -> bool)
    requires 'Z' !in v
    ensures ValidateDatetime(v, isoParses).Ok? <==> isoParses(v)
  {
    ReplaceZWithoutZ(v);
  }

  /** Position of a failure in pydantic's report: the fields in declaration order. */
  function Rank(e: FieldError): nat
  {
    match e
    case OutOfRange(PickupLat) => 0
    case OutOfRange(PickupLon) => 1
    case OutOfRange(DropoffLat) => 2
    case OutOfRange(DropoffLon) => 3
    case OutOfRange(PickupDatetime) => 4
    case InvalidDatetime(_) => 4
  }

  /**
   * The range failures of one trip, in field order: exactly one entry per
   * coordinate outside its inclusive range.
   */
  function RangeErrors(t: TripRequest): (errs: seq<FieldError>)
    ensures |errs| <= 4
    ensures forall e :: e in errs ==> e.OutOfRange? && e.field != PickupDatetime
    ensures OutOfRange(PickupLat) in errs <==> !InRange(t.pickupLat, -90.0, 90.0)
    ensures OutOfRange(PickupLon) in errs <==> !InRange(t.pickupLon, -180.0, 180.0)
    ensures OutOfRange(DropoffLat) in errs <==> !InRange(t.dropoffLat, -90.0, 90.0)
    ensures OutOfRange(DropoffLon) in errs <==> !InRange(t.dropoffLon, -180.0, 180.0)
  {
    (if InRange(t.pickupLat, -90.0, 90.0) then [] else [OutOfRange(PickupLat)])
    + (if InRange(t.pickupLon, -180.0, 180.0) then [] else [OutOfRange(PickupLon)])
    + (if InRange(t.dropoffLat, -90.0, 90.0) then [] else [OutOfRange(DropoffLat)])
    + (if InRange(t.dropoffLon, -180.0, 180.0) then [] else [OutOfRange(DropoffLon)])
  }

  /**
   * The failures pydantic collects for one trip, in field order: the range
   * failures, then the validator's message when the timestamp does not parse.
   */
  function FieldErrors(t: TripRequest, isoParses: string -> bool): (errs: seq<FieldError>)
    ensures |errs| <= 5
    ensures forall e :: e in errs ==> e.OutOfRange? || e == InvalidDatetime(DATETIME_MESSAGE)
    ensures InvalidDatetime(DATETIME_MESSAGE) in errs <==> !isoParses(ReplaceZ(t.pickupDatetime))
    ensures !isoParses(ReplaceZ(t.pickupDatetime)) ==> errs[|errs| - 1] == InvalidDatetime(DATETIME_MESSAGE)
    ensures forall f :: OutOfRange(f) in errs <==> OutOfRange(f) in RangeErrors(t)
  {
    RangeErrors(t)
    + (match ValidateDatetime(t.pickupDatetime, isoParses)
       case Ok(_) => []
       case Err(m) => [InvalidDatetime(m)])
  }

  /** Failures listed in strictly increasing field order. */
  predicate Ascending(errs: seq<FieldError>)
  {
    forall i, j :: 0 <= i < j < |errs| ==> Rank(errs[i]) < Rank(errs[j])
  }

  /** Strictly increasing ranks rule out a repeated failure. */
  lemma AscendingDistinct(errs: seq<FieldError>)
    requires Ascending(errs)
    ensures forall i, j :: 0 <= i < j < |errs| ==> errs[i] != errs[j]
  {
  }

  /** The range-failure list for any outcome of the four checks is in field order. */
  lemma FlaggedInFieldOrder(pLat: bool, pLon: bool, dLat: bool, dLon: bool)
    ensures Ascending(
      (if pLat then [] else [OutOfRange(PickupLat)])
      + (if pLon then [] else [OutOfRange(PickupLon)])
      + (if dLat then [] else [OutOfRange(DropoffLat)])
      + (if dLon then [] else [OutOfRange(DropoffLon)]))
  {
  }

  /**
   * Pydantic reports the range failures of a trip in the order the fields
   * are declared, each failing field exactly once.
   */
  lemma RangeErrorsInFieldOrder(t: TripRequest)
    ensures Ascending(RangeErrors(t))
    ensures forall i, j :: 0 <= i < j < |RangeErrors(t)| ==> RangeErrors(t)[i] != RangeErrors(t)[j]
  {
    FlaggedInFieldOrder(InRange(t.pickupLat, -90.0, 90.0), InRange(t.pickupLon, -180.0, 180.0),
      InRange(t.dropoffLat, -90.0, 90.0), InRange(t.dropoffLon, -180.0, 180.0));
    AscendingDistinct(RangeErrors(t));
  }

  /** The failures of a trip are its range failures, then at most the datetime message. */
  lemma FieldErrorsSplit(t: TripRequest, isoParses: string -> bool)
    ensures FieldErrors(t, isoParses) ==
      RangeErrors(t) + (if isoParses(ReplaceZ(t.pickupDatetime)) then [] else [InvalidDatetime(DATETIME_MESSAGE)])
  {
  }

  /**
   * All failures of a trip come in field order, the datetime message
   * last, and no failure is reported twice.
   */
  lemma FieldErrorsInFieldOrder(t: TripRequest, isoParses: string -> bool)
    ensures Ascending(FieldErrors(t, isoParses))
    ensures forall i, j :: 0 <= i < j < |FieldErrors(t, isoParses)| ==> FieldErrors(t, isoParses)[i] != FieldErrors(t, isoParses)[j]
  {
    RangeErrorsInFieldOrder(t);
    FieldErrorsSplit(t, isoParses);
    AscendingWithDatetime(RangeErrors(t), isoParses(ReplaceZ(t.pickupDatetime)));
  }

  /** Range failures in field order, then at most the datetime message, stay in field order. */
  lemma AscendingWithDatetime(range: seq<FieldError>, parses: bool)
    requires Ascending(range)
    requires forall x :: x in range ==> x.OutOfRange? && x.field != PickupDatetime
    ensures var errs := range + (if parses then [] else [InvalidDatetime(DATETIME_MESSAGE)]);
      Ascending(errs) && forall i, j :: 0 <= i < j < |errs| ==> errs[i] != errs[j]
  {
  }

  /**
   * Validating a `TripRequest`: accepted iff both latitudes lie in
   * [-90, 90], both longitudes in [-180, 180] (bounds included) and the
   * rewritten timestamp parses; an accepted trip is returned unchanged.
   */
  function ValidateTrip(t: TripRequest, isoParses: string -> bool): (r: Result<TripRequest, seq<FieldError>>)
    ensures r.Ok? <==>
      && t.pickupLat.Num? && -90.0 <= t.pickupLat.v <= 90.0
      && t.pickupLon.Num? && -180.0 <= t.pickupLon.v <= 180.0
      && t.dropoffLat.Num? && -90.0 <= t.dropoffLat.v <= 90.0
      && t.dropoffLon.Num? && -180.0 <= t.dropoffLon.v <= 180.0
      && isoParses(ReplaceZ(t.pickupDatetime))
    ensures r.Ok? ==> r.value == t
    ensures r.Err? ==> r.error != []
    ensures r.Err? && !isoParses(ReplaceZ(t.pickupDatetime)) ==> r.error[|r.error| - 1] == InvalidDatetime(DATETIME_MESSAGE)
    ensures r.Err? ==> (OutOfRange(PickupLat) in r.error <==> !InRange(t.pickupLat, -90.0, 90.0))
    ensures r.Err? ==> (OutOfRange(PickupLon) in r.error <==> !InRange(t.pickupLon, -180.0, 180.0))
    ensures r.Err? ==> (OutOfRange(DropoffLat) in r.error <==> !InRange(t.dropoffLat, -90.0, 90.0))
    ensures r.Err? ==> (OutOfRange(DropoffLon) in r.error <==> !InRange(t.dropoffLon, -180.0, 180.0))
    ensures r.Err? && isoParses(ReplaceZ(t.pickupDatetime)) ==> forall e :: e in r.error ==> e.OutOfRange?
  {
    var errs := FieldErrors(t, isoParses);
    if errs == [] then Ok(t) else Err(errs)
  }

  /** Each trip of a batch validated on its own, in request order. */
  function TripOutcomes(trips: seq<TripRequest>, isoParses: string -> bool): (outcomes: seq<Result<TripRequest, seq<FieldError>>>)
    ensures |outcomes| == |trips|
    ensures forall k :: 0 <= k < |trips| ==> outcomes[k] == ValidateTrip(trips[k], isoParses)
  {
    seq(|trips|, k requires 0 <= k < |trips| => ValidateTrip(trips[k], isoParses))
  }

  /**
   * The failures among the outcomes from `from` on, one entry per failing
   * trip, in order, each carrying that trip's own errors.
   */
  function BatchErrors(outcomes: seq<Result<TripRequest, seq<FieldError>>>, from: nat): (errs: seq<TripErrors>)
    requires from <= |outcomes|
    ensures errs == [] <==> forall k :: from <= k < |outcomes| ==> outcomes[k].Ok?
    ensures forall e :: e in errs ==> from <= e.index < |outcomes| && outcomes[e.index] == Err(e.errors)
    ensures forall i, j :: 0 <= i < j < |errs| ==> errs[i].index < errs[j].index
    decreases |outcomes| - from
  {
    if from == |outcomes| then []
    else
      var rest := BatchErrors(outcomes, from + 1);
      match outcomes[from]
      case Ok(_) => rest
      case Err(es) => [TripErrors(from, es)] + rest
  }

  /** Every failure among the outcomes has its entry: no failing trip goes unreported. */
  lemma {:induction false} BatchErrorsComplete(outcomes: seq<Result<TripRequest, seq<FieldError>>>, from: nat)
    requires from <= |outcomes|
    ensures forall k :: from <= k < |outcomes| && outcomes[k].Err? ==>
      TripErrors(k, outcomes[k].error) in BatchErrors(outcomes, from)
    decreases |outcomes| - from
  {
    if from < |outcomes| {
      BatchErrorsComplete(outcomes, from + 1);
    }
  }

  /**
   * Validating a `TripBatchRequest`: accepted iff every trip is a valid
   * `TripRequest`, the accepted list being the request's list; otherwise
   * every failing trip, and only those, is reported with its own errors.
   */
  function ValidateBatch(trips: seq<TripRequest>, isoParses: string -> bool): (r: Result<seq<TripRequest>, seq<TripErrors>>)
    ensures r.Ok? <==> forall k :: 0 <= k < |trips| ==> ValidateTrip(trips[k], isoParses).Ok?
    ensures r.Ok? ==> r.value == trips
    ensures r.Err? ==> forall e :: e in r.error ==> e.index < |trips| && ValidateTrip(trips[e.index], isoParses) == Err(e.errors)
    ensures r.Err? ==> forall k :: 0 <= k < |trips| && ValidateTrip(trips[k], isoParses).Err? ==>
      TripErrors(k, ValidateTrip(trips[k], isoParses).error) in r.error
  {
    var outcomes := TripOutcomes(trips, isoParses);
    BatchErrorsComplete(outcomes, 0);
    var errs := BatchErrors(outcomes, 0);
    if errs == [] then Ok(trips) else Err(errs)
  }
}
