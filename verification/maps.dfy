/**
 * The decision pipeline of `GetDistance`: from the fetched provider response
 * to the (distance, duration, fare, error) quadruple it returns.
 *
 * The surge collaborator's outcome is an input, and the fare model is a
 * function parameter whose internals are not modelled.
 */
module Maps {
  import opened Wrappers
  import opened DistanceMatrix
  import opened MapsErrors

  /** The fare model: (distance in km, vehicle type, surge multiplier) to fare. */
  type FareModel = (real, string, real) -> real

  /**
   * The four values `GetDistance` returns: kilometres, minutes, fare, and
   * an error that is `None` exactly when the call succeeded.
   */
  datatype Reply = Reply(distance: real, duration: real, fare: real, err: Option<DistanceError>)

  /** The reply of every failure path: three zeros and the error. */
  function Fail(e: DistanceError): Reply {
    Reply(0.0, 0.0, 0.0, Some(e))
  }

  /** Metres to kilometres. */
  function Kilometres(metres: real): (km: real)
    ensures km * 1000.0 == metres
  {
    metres / 1000.0
  }

  /** Seconds to minutes. */
  function Minutes(seconds: real): (min: real)
    ensures min * 60.0 == seconds
  {
    seconds / 60.0
  }

  /**
   * The pipeline: transport and decode failures, then the status check,
   * then the emptiness check, then extraction of the first cell, then the
   * surge outcome, then the fare.
   */
  function GetDistance(fetch: Fetch, vehicleType: string, surge: Result<real>, fare: FareModel): (r: Reply)
    ensures r.err.Some? ==> r.distance == 0.0 && r.duration == 0.0 && r.fare == 0.0
    ensures r.err.None? <==> fetch.Decoded? && Usable(fetch.data) && surge.Ok?
    ensures r.err.None? ==>
              && r.distance * 1000.0 == FirstElement(fetch.data).distance.value
              && r.duration * 60.0 == FirstElement(fetch.data).duration.value
              && r.fare == fare(r.distance, vehicleType, surge.value)
  {
    match fetch
    case TransportFail(cause) => Fail(RequestFailed(cause))
    case DecodeFail(cause) => Fail(ParseFailed(cause))
    case Decoded(data) =>
      if data.status != StatusOK then Fail(ApiStatus(data.status))
      else if |data.rows| == 0 || |data.rows[0].elements| == 0 then Fail(NoData)
      else
        var distance := Kilometres(data.rows[0].elements[0].distance.value);
        var duration := Minutes(data.rows[0].elements[0].duration.value);
        match surge
        case Err(cause) => Fail(SurgeFailed(cause))
        case Ok(multiplier) => Reply(distance, duration, fare(distance, vehicleType, multiplier), None)
  }

  /** A failed request or a failed decode is reported with its cause and three zeros. */
  lemma FetchFailureIsZero(fetch: Fetch, vehicleType: string, surge: Result<real>, fare: FareModel)
    requires !fetch.Decoded?
    ensures fetch.TransportFail? ==> GetDistance(fetch, vehicleType, surge, fare) == Fail(RequestFailed(fetch.cause))
    ensures fetch.DecodeFail? ==> GetDistance(fetch, vehicleType, surge, fare) == Fail(ParseFailed(fetch.cause))
  {
  }

  /**
   * A status other than "OK" is reported with that exact status, whatever the
   * rows hold; in particular an empty matrix does not turn it into `NoData`.
   */
  lemma StatusCheckedFirst(data: DistanceMatrixResponse, vehicleType: string, surge: Result<real>, fare: FareModel)
    requires data.status != StatusOK
    ensures GetDistance(Decoded(data), vehicleType, surge, fare) == Fail(ApiStatus(data.status))
  {
  }

  /** The status error's text reads back as exactly the status the provider sent. */
  lemma StatusMessageNamesStatus(status: string)
    ensures ParseMessage(Message(ApiStatus(status))) == Some(ApiStatus(status))
  {
    ParseMessageInvertsMessage(ApiStatus(status));
  }

  /** With status "OK", a matrix with no row or an empty first row is reported as `NoData`. */
  lemma EmptyMatrixIsNoData(data: DistanceMatrixResponse, vehicleType: string, surge: Result<real>, fare: FareModel)
    requires data.status == StatusOK
    ensures GetDistance(Decoded(data), vehicleType, surge, fare) == Fail(NoData) <==> !HasData(data)
  {
  }

  /**
   * On success the distance and duration are the first cell's metres over
   * 1000 and seconds over 60, and the fare is the fare model applied to that
   * same distance and the surge value of this call.
   */
  lemma SuccessValues(data: DistanceMatrixResponse, vehicleType: string, multiplier: real, fare: FareModel)
    requires Usable(data)
    ensures GetDistance(Decoded(data), vehicleType, Ok(multiplier), fare)
         == Reply(FirstElement(data).distance.value / 1000.0,
                  FirstElement(data).duration.value / 60.0,
                  fare(FirstElement(data).distance.value / 1000.0, vehicleType, multiplier),
                  None)
  {
  }

  /**
   * A cell carries no status of its own, so an unroutable cell decodes as
   * 0 m and 0 s and, under an overall "OK", is priced as a 0 km trip.
   */
  lemma UnroutableCellIsSuccess(rest: seq<Element>, rows: seq<Row>, vehicleType: string,
                                multiplier: real, fare: FareModel)
    ensures GetDistance(Decoded(DistanceMatrixResponse([Row([Element(Quantity(0.0), Quantity(0.0))] + rest)] + rows, "OK")),
                        vehicleType, Ok(multiplier), fare)
         == Reply(0.0, 0.0, fare(0.0, vehicleType, multiplier), None)
  {
  }

  /** Two responses agree on everything the pipeline reads. */
  predicate SameFirstCell(a: DistanceMatrixResponse, b: DistanceMatrixResponse) {
    && a.status == b.status
    && HasData(a) == HasData(b)
    && (HasData(a) ==> FirstElement(a) == FirstElement(b))
  }

  /** Only the status and the first cell of the first row matter. */
  lemma FirstCellOnly(a: DistanceMatrixResponse, b: DistanceMatrixResponse,
                      vehicleType: string, surge: Result<real>, fare: FareModel)
    requires SameFirstCell(a, b)
    ensures GetDistance(Decoded(a), vehicleType, surge, fare) == GetDistance(Decoded(b), vehicleType, surge, fare)
  {
  }

  /** `data` with cell `j` of row `i` replaced by `e`. */
  function WithCell(data: DistanceMatrixResponse, i: nat, j: nat, e: Element): (d: DistanceMatrixResponse)
    requires i < |data.rows| && j < |data.rows[i].elements|
    ensures |d.rows| == |data.rows| && d.status == data.status
    ensures |d.rows[i].elements| == |data.rows[i].elements| && d.rows[i].elements[j] == e
    ensures forall k :: 0 <= k < |data.rows| && k != i ==> d.rows[k] == data.rows[k]
    ensures forall k :: 0 <= k < |data.rows[i].elements| && k != j ==> d.rows[i].elements[k] == data.rows[i].elements[k]
  {
    data.(rows := data.rows[i := Row(data.rows[i].elements[j := e])])
  }

  /** Changing any cell other than the first cell of the first row leaves the reply unchanged. */
  lemma OtherCellIrrelevant(data: DistanceMatrixResponse, i: nat, j: nat, e: Element,
                            vehicleType: string, surge: Result<real>, fare: FareModel)
    requires i < |data.rows| && j < |data.rows[i].elements|
    requires i != 0 || j != 0
    ensures GetDistance(Decoded(WithCell(data, i, j, e)), vehicleType, surge, fare)
         == GetDistance(Decoded(data), vehicleType, surge, fare)
  {
    FirstCellOnly(WithCell(data, i, j, e), data, vehicleType, surge, fare);
  }

  /** Replacing any row after the first leaves the reply unchanged. */
  lemma OtherRowIrrelevant(data: DistanceMatrixResponse, i: nat, row: Row,
                           vehicleType: string, surge: Result<real>, fare: FareModel)
    requires 0 < i < |data.rows|
    ensures GetDistance(Decoded(data.(rows := data.rows[i := row])), vehicleType, surge, fare)
         == GetDistance(Decoded(data), vehicleType, surge, fare)
  {
  }

  /**
   * On a fetch failure or an unusable response, the reply depends neither on
   * the surge outcome nor on the fare model: neither is consulted.
   */
  lemma InvalidIgnoresPricing(fetch: Fetch, vehicleType: string,
                              surge1: Result<real>, fare1: FareModel,
                              surge2: Result<real>, fare2: FareModel)
    requires !(fetch.Decoded? && Usable(fetch.data))
    ensures GetDistance(fetch, vehicleType, surge1, fare1) == GetDistance(fetch, vehicleType, surge2, fare2)
  {
  }

  /** A surge failure on a usable response is reported with its cause, and no fare is produced. */
  lemma SurgeFailureIgnoresFare(data: DistanceMatrixResponse, vehicleType: string, cause: string,
                                fare1: FareModel, fare2: FareModel)
    requires Usable(data)
    ensures GetDistance(Decoded(data), vehicleType, Err(cause), fare1) == Fail(SurgeFailed(cause))
    ensures GetDistance(Decoded(data), vehicleType, Err(cause), fare1)
         == GetDistance(Decoded(data), vehicleType, Err(cause), fare2)
  {
  }

  /** Distinct failure paths are reported with distinct messages. */
  lemma FailuresDistinguishable(f1: Fetch, vt1: string, s1: Result<real>, fare1: FareModel,
                                f2: Fetch, vt2: string, s2: Result<real>, fare2: FareModel)
    requires GetDistance(f1, vt1, s1, fare1).err.Some? && GetDistance(f2, vt2, s2, fare2).err.Some?
    ensures Message(GetDistance(f1, vt1, s1, fare1).err.value) == Message(GetDistance(f2, vt2, s2, fare2).err.value)
        ==> GetDistance(f1, vt1, s1, fare1) == GetDistance(f2, vt2, s2, fare2)
  {
    MessageInjective(GetDistance(f1, vt1, s1, fare1).err.value, GetDistance(f2, vt2, s2, fare2).err.value);
  }

  /** 5000 m and 600 s with surge 1.0 and a flat fare of 10.0 give (5.0, 10.0, 10.0). */
  lemma ScenarioFlatFare()
    ensures GetDistance(Decoded(DistanceMatrixResponse([Row([Element(Quantity(5000.0), Quantity(600.0))])], "OK")),
                        "car", Ok(1.0), (d, v, s) => 10.0)
         == Reply(5.0, 10.0, 10.0, None)
  {
  }

  /** "OVER_QUERY_LIMIT" is reported as a status error whose text names that status. */
  lemma ScenarioOverQueryLimit(rows: seq<Row>, vehicleType: string, surge: Result<real>, fare: FareModel)
    ensures GetDistance(Decoded(DistanceMatrixResponse(rows, "OVER_QUERY_LIMIT")), vehicleType, surge, fare).err
         == Some(ApiStatus("OVER_QUERY_LIMIT"))
    ensures Message(ApiStatus("OVER_QUERY_LIMIT")) == "API error: OVER_QUERY_LIMIT"
  {
  }

  /** An "OK" response with no rows is reported as `NoData`. */
  lemma ScenarioNoRows(vehicleType: string, surge: Result<real>, fare: FareModel)
    ensures GetDistance(Decoded(DistanceMatrixResponse([], "OK")), vehicleType, surge, fare) == Fail(NoData)
  {
  }
}
