/**
 * The decoded payload of the Distance Matrix provider, and the outcome of
 * fetching and decoding it.
 */
module DistanceMatrix {

  /** A JSON object of the shape `{"value": <number>}`. */
  datatype Quantity = Quantity(value: real)

  /** One origin-destination cell: distance in metres, duration in seconds. */
  datatype Element = Element(distance: Quantity, duration: Quantity)

  /** One row of the matrix: the cells for one origin. */
  datatype Row = Row(elements: seq<Element>)

  /** The whole decoded response: the matrix rows and the provider's status code. */
  datatype DistanceMatrixResponse = DistanceMatrixResponse(rows: seq<Row>, status: string)

  /** The status the provider reports for a usable answer. */
  const StatusOK: string := "OK"

  /** The response holds at least one row, and its first row at least one cell. */
  predicate HasData(data: DistanceMatrixResponse) {
    |data.rows| > 0 && |data.rows[0].elements| > 0
  }

  /** The response passes both checks that precede extraction. */
  predicate Usable(data: DistanceMatrixResponse) {
    data.status == StatusOK && HasData(data)
  }

  /** The only cell the pipeline ever reads. */
  function FirstElement(data: DistanceMatrixResponse): (e: Element)
    requires HasData(data)
    ensures e in data.rows[0].elements
  {
    data.rows[0].elements[0]
  }

  /**
   * What the HTTP request and the JSON decoding produced, before any
   * validation: a transport error, a decode error, or a decoded response.
   */
  datatype Fetch =
    | TransportFail(cause: string)
    | DecodeFail(cause: string)
    | Decoded(data: DistanceMatrixResponse)
}
