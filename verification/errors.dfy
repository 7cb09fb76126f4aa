/**
 * The five errors the pipeline can report, the exact text each one carries,
 * and a decoder showing that the text alone identifies the error.
 *
 * The Go code wraps collaborator errors with `%v`, not `%w`, so a caller can
 * tell the errors apart only by their text; `ParseMessage` is that reading.
 */
module MapsErrors {
  import opened Wrappers

  datatype DistanceError =
    | RequestFailed(cause: string)   // the HTTP request failed
    | ParseFailed(cause: string)     // the body did not decode
    | ApiStatus(status: string)      // the provider's status was not "OK"
    | NoData                         // no row, or no cell in the first row
    | SurgeFailed(cause: string)     // the surge collaborator failed

  const RequestPrefix: string := "API request failed: "
  const ParsePrefix: string := "failed to parse response: "
  const StatusPrefix: string := "API error: "
  const NoDataMessage: string := "no distance or duration data found"
  const SurgePrefix: string := "failed to calculate surge: "

  /** The text of the error value the Go code constructs for `e`. */
  function Message(e: DistanceError): string {
    match e
    case RequestFailed(cause) => RequestPrefix + cause
    case ParseFailed(cause) => ParsePrefix + cause
    case ApiStatus(status) => StatusPrefix + status
    case NoData => NoDataMessage
    case SurgeFailed(cause) => SurgePrefix + cause
  }

  /** Reads an error back from its text; `None` for text no error produces. */
  function ParseMessage(m: string): Option<DistanceError> {
    if RequestPrefix <= m then Some(RequestFailed(m[|RequestPrefix|..]))
    else if ParsePrefix <= m then Some(ParseFailed(m[|ParsePrefix|..]))
    else if StatusPrefix <= m then Some(ApiStatus(m[|StatusPrefix|..]))
    else if m == NoDataMessage then Some(NoData)
    else if SurgePrefix <= m then Some(SurgeFailed(m[|SurgePrefix|..]))
    else None
  }

  /** Two texts that differ at position `i` cannot be prefixes of one another's extensions. */
  lemma DiffersAt(p: string, q: string, rest: string, i: nat)
    requires i < |p| && i < |q| && p[i] != q[i]
    ensures !(p <= q + rest)
  {
  }

  /** Every error is read back from its own text, payload included. */
  lemma {:induction false} ParseMessageInvertsMessage(e: DistanceError)
    ensures ParseMessage(Message(e)) == Some(e)
  {
    match e
    case RequestFailed(cause) =>
      assert Message(e)[|RequestPrefix|..] == cause;
    case ParseFailed(cause) =>
      DiffersAt(RequestPrefix, ParsePrefix, cause, 0);
      assert Message(e)[|ParsePrefix|..] == cause;
    case ApiStatus(status) =>
      DiffersAt(RequestPrefix, StatusPrefix, status, 4);
      DiffersAt(ParsePrefix, StatusPrefix, status, 0);
      assert Message(e)[|StatusPrefix|..] == status;
    case NoData =>
      DiffersAt(RequestPrefix, NoDataMessage, [], 0);
      DiffersAt(ParsePrefix, NoDataMessage, [], 0);
      DiffersAt(StatusPrefix, NoDataMessage, [], 0);
    case SurgeFailed(cause) =>
      DiffersAt(RequestPrefix, SurgePrefix, cause, 0);
      DiffersAt(ParsePrefix, SurgePrefix, cause, 10);
      DiffersAt(StatusPrefix, SurgePrefix, cause, 0);
      assert Message(e)[|SurgePrefix|..] == cause;
      assert Message(e) != NoDataMessage by {
        assert Message(e)[0] == 'f' != NoDataMessage[0];
      }
  }

  /** Whatever text the decoder accepts is exactly the text of the error it returns. */
  lemma {:induction false} ParseMessageSound(m: string, e: DistanceError)
    requires ParseMessage(m) == Some(e)
    ensures Message(e) == m
  {
    if RequestPrefix <= m {
      assert m == RequestPrefix + m[|RequestPrefix|..];
    } else if ParsePrefix <= m {
      assert m == ParsePrefix + m[|ParsePrefix|..];
    } else if StatusPrefix <= m {
      assert m == StatusPrefix + m[|StatusPrefix|..];
    } else if m == NoDataMessage {
    } else {
      assert m == SurgePrefix + m[|SurgePrefix|..];
    }
  }

  /** Distinct errors never share a text: the message identifies kind and payload. */
  lemma {:induction false} MessageInjective(e1: DistanceError, e2: DistanceError)
    ensures Message(e1) == Message(e2) ==> e1 == e2
  {
    ParseMessageInvertsMessage(e1);
    ParseMessageInvertsMessage(e2);
  }
}
