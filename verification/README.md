# Distance and fare estimate — a Dafny model of `GetDistance`

This project models the decision pipeline of `GetDistance` in the ride-hailing
service's `services/maps.go`. The pipeline starts once the Distance Matrix
provider has been asked for a route. It reports a failed request or a failed
decode. It rejects any provider status other than `"OK"`, then a matrix with no
row or an empty first row. It reads only the first cell of the first row. It
converts metres to kilometres and seconds to minutes. It asks the surge
collaborator for a multiplier, which may fail. It then prices the trip with the
fare model. Every failure returns `(0, 0, 0, err)`.

Modules:

- `Wrappers` (`wrappers.dfy`): `Option`, and `Result` for a fallible collaborator whose error is its text.
- `DistanceMatrix` (`distance_matrix.dfy`): the decoded `DistanceMatrixResponse` (rows of elements, each
  with a distance and a duration `value`, plus the status), and `Fetch`, the outcome of the HTTP request
  and JSON decoding (`TransportFail | DecodeFail | Decoded`).
- `MapsErrors` (`errors.dfy`): the five errors, the exact text the source gives each, and a decoder
  `ParseMessage` proving that the text alone identifies the error and its payload.
- `Maps` (`maps.dfy`): `GetDistance` as a pure function of the fetch outcome, the vehicle type, the
  surge outcome and the fare model, and the properties of its check ordering.

The surge collaborator's outcome is an input of type `Result<real>`. The fare model is a function
parameter of type `(real, string, real) -> real`, so every property holds for every fare model.
Distances and durations are Dafny `real`s. The equalities with `/ 1000` and `/ 60` are exact here; in
the Go code they hold only up to float64 rounding.

Every error is built with `fmt.Errorf` and no `%w`, so a caller can tell the failures apart only by
their text. The model follows the code: an error is its message, and `MessageInjective` shows that the
five messages never collide.

There is no fare-failure path: `CalculateFare` returns a bare value (services/maps.go:66).

The response type decodes no per-element status (services/maps.go:16-23). A cell the provider marks
`NOT_FOUND` or `ZERO_RESULTS` therefore arrives as 0 m and 0 s under an overall status of `"OK"`, and
`GetDistance` reports it as a success with distance 0, duration 0 and the fare at 0 km.
`Maps.UnroutableCellIsSuccess` states this.

## Model

| member | source | states |
|---|---|---|
| DistanceMatrix.FirstElement | services/maps.go:57-58 | the cell read is a member of the first row; that no other cell matters is stated by Maps.FirstCellOnly, Maps.OtherCellIrrelevant and Maps.OtherRowIrrelevant |
| Maps.Kilometres | services/maps.go:57 | the kilometre value times 1000 gives back the metres |
| Maps.Minutes | services/maps.go:58 | the minute value times 60 gives back the seconds |
| Maps.GetDistance | services/maps.go:29-69 | every failure has three zero outputs; success holds exactly when the fetch decoded, the status is "OK", the first row has a cell and surge succeeded; on success distance and duration convert back to the first cell's metres and seconds, and the fare is the fare model at that distance, vehicle type and surge value |
| Maps.FetchFailureIsZero | services/maps.go:36-45 | a transport failure or a decode failure gives the matching error carrying its cause, with three zeros |
| Maps.StatusCheckedFirst | services/maps.go:47-54 | a status other than "OK" gives the status error with that exact status whatever the rows hold, so an empty matrix does not turn it into the no-data error |
| Maps.StatusMessageNamesStatus | services/maps.go:49 | the status error's text decodes back to exactly the status the provider sent |
| Maps.EmptyMatrixIsNoData | services/maps.go:52-54 | with status "OK" the reply is the no-data error if and only if there is no row or the first row is empty |
| Maps.SuccessValues | services/maps.go:56-68 | on a usable response with a surge value, the reply is first-cell metres / 1000, seconds / 60, and the fare model at that distance, with no error |
| Maps.UnroutableCellIsSuccess | services/maps.go:16-23 | an "OK" response whose first cell is 0 m and 0 s, as an unroutable cell decodes, is a success with distance 0, duration 0 and the fare at 0 km |
| Maps.FirstCellOnly | services/maps.go:52-58 | two responses with the same status and the same first cell of the first row give the same reply |
| Maps.OtherCellIrrelevant | services/maps.go:57-58 | changing any cell other than the first cell of the first row leaves the reply unchanged |
| Maps.OtherRowIrrelevant | services/maps.go:57-58 | replacing any row after the first leaves the reply unchanged |
| Maps.InvalidIgnoresPricing | services/maps.go:36-61 | on a fetch failure or an unusable response the reply is the same for every surge outcome and every fare model |
| Maps.SurgeFailureIgnoresFare | services/maps.go:61-64 | a surge failure on a usable response gives the surge error carrying its cause and three zeros, whatever the fare model |
| Maps.FailuresDistinguishable | services/maps.go:38-63 | two failed replies with the same error text are the same reply |
| Maps.ScenarioFlatFare | services/maps.go:56-68 | 5000 m, 600 s, surge 1.0 and a flat fare of 10.0 give (5.0, 10.0, 10.0) |
| Maps.ScenarioOverQueryLimit | services/maps.go:48-50 | status "OVER_QUERY_LIMIT" gives the status error, whose text is "API error: OVER_QUERY_LIMIT" |
| Maps.ScenarioNoRows | services/maps.go:52-54 | an "OK" response with no rows gives the no-data error |
| MapsErrors.ParseMessageInvertsMessage | services/maps.go:38-63 | decoding the text of any of the five errors gives back that error, payload included |
| MapsErrors.ParseMessageSound | services/maps.go:38-63 | any text the decoder accepts is exactly the text of the error it returns |
| MapsErrors.MessageInjective | services/maps.go:38-63 | distinct errors never have the same text |

## Left out

- `config.MustGetEnv` (services/maps.go:30): a process-environment lookup that aborts when the key is absent. It returns no error value, so the configuration-error path has no counterpart here.
- URL construction with `%f` (services/maps.go:31-34) and the latitude and longitude arguments: they only go into the request URL and are never inspected.
- `http.Get`, closing the body and JSON decoding (services/maps.go:36-45): network and library plumbing. Only their outcome is modelled, as the `Fetch` input.
- `CalculateSurge` and `CalculateFare`: their bodies are not part of this model. Surge is a `Result<real>` input and the fare model a function parameter.
- IEEE-754 float64 rounding in the `/ 1000` and `/ 60` conversions: `real` arithmetic is exact.
- The text of an underlying Go error rendered through `%v` is modelled as the string `cause`; how the Go library formats its own errors is not modelled.
