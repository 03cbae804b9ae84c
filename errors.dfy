/**
 * The client's failures as a tagged result instead of an exception hierarchy,
 * the request-error message and its string form, and the classification of a
 * transport outcome shared by the GET and PUT primitives.
 */
module Errors {
  import opened Decimal
  import opened Http

  datatype Error =
    | ConnectionError(cause: string)  // the transport could not complete the exchange
    | RequestError(status: int)       // the exchange completed with a status other than 200
    | LookupError(key: string)        // a field the caller asked for is missing from the body
  {
    /** The failures of the client's own hierarchy (the base error type), as opposed to a failed field lookup. */
    predicate IsValetudoError() {
      ConnectionError? || RequestError?
    }
  }

  datatype Result<+T> = Ok(value: T) | Err(error: Error)

  const InternalErrorMessage := "Valetudo internal error (you may re-try)"
  const RequestFailedMessage := "Valetudo request failed"

  /** The message a request error carries: the retry hint exactly for server-side statuses. */
  function RequestErrorMessage(status: int): (msg: string)
    ensures msg == InternalErrorMessage <==> status >= 500
    ensures msg == RequestFailedMessage <==> status < 500
  {
    if status >= 500 then InternalErrorMessage else RequestFailedMessage
  }

  /** The string form `'<msg> (<status>)'` of a request error. */
  function Describe(status: int): string {
    RequestErrorMessage(status) + " (" + IntToString(status) + ")"
  }

  /** The status written between the parentheses of a description, read back. */
  function StatusInDescription(text: string, msg: string): int
    requires |text| >= |msg| + 3
    requires IsIntLiteral(text[|msg| + 2..|text| - 1])
  {
    ParseInt(text[|msg| + 2..|text| - 1])
  }

  /** Where the pieces of `msg + " (" + num + ")"` sit, for any message and number text. */
  lemma {:induction false} ParenthesisedLayout(msg: string, num: string)
    ensures var text := msg + " (" + num + ")";
      && |text| == |msg| + |num| + 3
      && text[..|msg|] == msg
      && text[|msg|..|msg| + 2] == " (" && text[|text| - 1] == ')'
      && text[|msg| + 2..|text| - 1] == num
  {
    var text := msg + " (" + num + ")";
    assert text == msg + (" (" + num + ")");
    assert text[|msg|..] == " (" + num + ")";
    assert text[|msg|..][2..|num| + 2] == num;
  }

  /** A description starts with the message and ends with the exact status in parentheses. */
  lemma DescribeRoundTrip(status: int)
    ensures var text, msg := Describe(status), RequestErrorMessage(status);
      && |text| >= |msg| + 3
      && text[..|msg|] == msg
      && text[|msg|..|msg| + 2] == " (" && text[|text| - 1] == ')'
      && IsIntLiteral(text[|msg| + 2..|text| - 1])
      && StatusInDescription(text, msg) == status
  {
    ParenthesisedLayout(RequestErrorMessage(status), IntToString(status));
    IntRoundTrip(status);
  }

  /** With messages of equal length, equal texts carry equal numbers. */
  lemma ParenthesisedInjective(m1: string, n1: string, m2: string, n2: string)
    requires |m1| == |m2|
    requires m1 + " (" + n1 + ")" == m2 + " (" + n2 + ")"
    ensures m1 == m2 && n1 == n2
  {
    ParenthesisedLayout(m1, n1);
    ParenthesisedLayout(m2, n2);
  }

  /** Distinct statuses give distinct descriptions. */
  lemma DescribeInjective(a: int, b: int)
    ensures Describe(a) == Describe(b) ==> a == b
  {
    var ma, mb := RequestErrorMessage(a), RequestErrorMessage(b);
    var na, nb := IntToString(a), IntToString(b);
    if Describe(a) == Describe(b) {
      ParenthesisedLayout(ma, na);
      ParenthesisedLayout(mb, nb);
      // the retry hint and the plain message differ at index 9, so both statuses fall on the same side of 500
      assert ma[9] == Describe(a)[9] == mb[9];
      assert |ma| == |mb| by {
        if (a >= 500) != (b >= 500) {
          assert false;
        }
      }
      ParenthesisedInjective(ma, na, mb, nb);
      IntToStringInjective(a, b);
    }
  }

  /**
   * How a GET or PUT primitive turns the transport's outcome into its result:
   * a failed exchange is a connection error, a status other than 200 a request
   * error with that exact status, and only status 200 yields the body.
   */
  function Classify(o: Outcome): (r: Result<Json>)
    ensures r.Ok? <==> o.Response? && o.status == 200
    ensures r.Ok? ==> r.value == o.body
    ensures r.Err? ==> r.error.IsValetudoError()
    ensures r.Err? && r.error.ConnectionError? <==> o.TransportFailure?
    ensures o.TransportFailure? ==> r.error.cause == o.cause
    ensures r.Err? && r.error.RequestError? ==> o.Response? && r.error.status == o.status != 200
  {
    match o
    case TransportFailure(cause) => Err(ConnectionError(cause))
    case Response(status, body) => if status != 200 then Err(RequestError(status)) else Ok(body)
  }
}
