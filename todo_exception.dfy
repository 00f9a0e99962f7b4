/**
 * The sealed `TodoException` hierarchy and the user-visible `message` of each
 * variant, together with a classifier that reads a message back to its kind.
 */
module TodoExceptions {
  import opened Wrappers
  import opened Decimal

  datatype TodoException =
    | EmptyBodyError
    | UnauthorizedError
    | ForbiddenError
    | NotFoundError
    | ValidationError(details: Option<string>)
    | TooManyRequestsError
    | ServerError(errorMessage: Option<string>)
    | NetworkError(code: int, errorMessage: Option<string>)
    | ConnectionError(details: Option<string>)
    | UnknownError(message: string)

  /** The failure kinds of the taxonomy, without their payloads. */
  datatype Kind =
    | EmptyBody | Unauthorized | Forbidden | NotFound | Validation
    | TooManyRequests | Server | Network | Connection | Unknown

  const EmptyBodyText := "Response body is empty"
  const UnauthorizedText := "Authentication required"
  const ForbiddenText := "Access forbidden"
  const NotFoundText := "Resource not found"
  const TooManyRequestsText := "Too many requests. Please try again later"
  const ValidationPrefix := "Validation failed: "
  const ServerPrefix := "Server error: "
  const NetworkPrefix := "Network error ("
  const ConnectionPrefix := "Connection failed: "

  function KindOf(e: TodoException): Kind {
    match e
    case EmptyBodyError => EmptyBody
    case UnauthorizedError => Unauthorized
    case ForbiddenError => Forbidden
    case NotFoundError => NotFound
    case ValidationError(_) => Validation
    case TooManyRequestsError => TooManyRequests
    case ServerError(_) => Server
    case NetworkError(_, _) => Network
    case ConnectionError(_) => Connection
    case UnknownError(_) => Unknown
  }

  /** A fixed prefix followed by a payload; the payload is what follows the prefix. */
  function Prefixed(prefix: string, payload: string): (m: string)
    ensures StartsWith(m, prefix) && m[|prefix|..] == payload
  {
    var m := prefix + payload;
    assert m[..|prefix|] == prefix;
    m
  }

  /** "Network error (" + digits + "): " + tail, with each part recoverable by position. */
  function NetworkText(digits: string, tail: string): (m: string)
    ensures var k := |NetworkPrefix| + |digits|;
      && StartsWith(m, NetworkPrefix)
      && k + 3 <= |m|
      && m[|NetworkPrefix|..k] == digits
      && m[k..k + 3] == "): "
      && m[k + 3..] == tail
  {
    var m := NetworkPrefix + digits + "): " + tail;
    assert m[..|NetworkPrefix|] == NetworkPrefix;
    assert m[|NetworkPrefix|..|NetworkPrefix| + |digits|] == digits;
    m
  }

  /**
   * The overridden `message` property of each variant. A variant with a
   * payload renders its fixed prefix followed by the payload, or by the
   * variant's own default when the payload is null; a network error puts its
   * status code, rendered in decimal, between the prefix and "): ".
   */
  function Message(e: TodoException): (m: string)
    ensures e.UnknownError? ==> m == e.message
    ensures !e.UnknownError? ==> m != []
    ensures e.ValidationError? ==>
              StartsWith(m, ValidationPrefix) && m[|ValidationPrefix|..] == e.details.GetOr("Invalid input")
    ensures e.ServerError? ==>
              StartsWith(m, ServerPrefix) && m[|ServerPrefix|..] == e.errorMessage.GetOr("Internal server error")
    ensures e.ConnectionError? ==>
              StartsWith(m, ConnectionPrefix)
              && m[|ConnectionPrefix|..] == e.details.GetOr("Check your internet connection")
    ensures e.NetworkError? ==>
              var k := |NetworkPrefix| + |IntToString(e.code)|;
              && StartsWith(m, NetworkPrefix)
              && k + 3 <= |m|
              && m[|NetworkPrefix|..k] == IntToString(e.code)
              && m[k..k + 3] == "): "
              && m[k + 3..] == e.errorMessage.GetOr("Unknown error")
  {
    match e
    case EmptyBodyError => EmptyBodyText
    case UnauthorizedError => UnauthorizedText
    case ForbiddenError => ForbiddenText
    case NotFoundError => NotFoundText
    case ValidationError(details) => Prefixed(ValidationPrefix, details.GetOr("Invalid input"))
    case TooManyRequestsError => TooManyRequestsText
    case ServerError(errorMessage) => Prefixed(ServerPrefix, errorMessage.GetOr("Internal server error"))
    case NetworkError(code, errorMessage) => NetworkText(IntToString(code), errorMessage.GetOr("Unknown error"))
    case ConnectionError(details) => Prefixed(ConnectionPrefix, details.GetOr("Check your internet connection"))
    case UnknownError(message) => message
  }

  predicate StartsWith(s: string, prefix: string) {
    |prefix| <= |s| && s[..|prefix|] == prefix
  }

  /**
   * Reads the kind of failure back from a message, the way a presentation layer
   * that only sees the text would. Free-form `UnknownError` texts have no kind.
   */
  function ClassifyMessage(m: string): Option<Kind> {
    if m == EmptyBodyText then Some(EmptyBody)
    else if m == UnauthorizedText then Some(Unauthorized)
    else if m == ForbiddenText then Some(Forbidden)
    else if m == NotFoundText then Some(NotFound)
    else if m == TooManyRequestsText then Some(TooManyRequests)
    else if StartsWith(m, ValidationPrefix) then Some(Validation)
    else if StartsWith(m, ServerPrefix) then Some(Server)
    else if StartsWith(m, NetworkPrefix) then Some(Network)
    else if StartsWith(m, ConnectionPrefix) then Some(Connection)
    else None
  }

  /** Position of the first `c` in `s`, or `|s|` when there is none. */
  function IndexOf(s: string, c: char): (i: nat)
    ensures i <= |s|
    ensures i < |s| ==> s[i] == c
    ensures forall k :: 0 <= k < i ==> s[k] != c
  {
    if s == [] then 0
    else if s[0] == c then 0
    else 1 + IndexOf(s[1..], c)
  }

  /** The status code a "Network error (<code>): ..." message names, if it is one. */
  function NetworkErrorCodeOf(m: string): Option<int> {
    if StartsWith(m, NetworkPrefix) then
      var rest := m[|NetworkPrefix|..];
      ParseInt(rest[..IndexOf(rest, ')')])
    else None
  }

  lemma {:induction false} IndexOfAfter(a: string, b: string, c: char)
    requires c !in a && b != [] && b[0] == c
    ensures IndexOf(a + b, c) == |a|
    decreases |a|
  {
    if a != [] {
      assert (a + b)[0] == a[0];
      assert (a + b)[1..] == a[1..] + b;
      IndexOfAfter(a[1..], b, c);
    }
  }

  /** A network-error message names the exact status code it was built from. */
  lemma NetworkErrorMessageNamesCode(code: int, errorMessage: Option<string>)
    ensures NetworkErrorCodeOf(Message(NetworkError(code, errorMessage))) == Some(code)
  {
    var digits := IntToString(code);
    var m := Message(NetworkError(code, errorMessage));
    var k := |NetworkPrefix| + |digits|;
    var rest := m[|NetworkPrefix|..];
    assert rest == m[|NetworkPrefix|..k] + m[k..];
    assert m[k..][0] == m[k..k + 3][0];
    IndexOfAfter(digits, m[k..], ')');
    assert rest[..|digits|] == digits;
    IntToStringRoundTrip(code);
  }

  /** Two network errors with the same message carry the same status code. */
  lemma NetworkErrorMessageInjectiveOnCode(c1: int, m1: Option<string>, c2: int, m2: Option<string>)
    requires Message(NetworkError(c1, m1)) == Message(NetworkError(c2, m2))
    ensures c1 == c2
  {
    NetworkErrorMessageNamesCode(c1, m1);
    NetworkErrorMessageNamesCode(c2, m2);
  }

  /** The texts and prefixes of the taxonomy differ from each other in their first character. */
  lemma FirstCharRulesOut(m: string)
    requires m != []
    ensures m[0] != 'R' ==> m != EmptyBodyText && m != NotFoundText
    ensures m[0] != 'A' ==> m != UnauthorizedText && m != ForbiddenText
    ensures m[0] != 'T' ==> m != TooManyRequestsText
    ensures m[0] != 'V' ==> !StartsWith(m, ValidationPrefix)
    ensures m[0] != 'S' ==> !StartsWith(m, ServerPrefix)
    ensures m[0] != 'N' ==> !StartsWith(m, NetworkPrefix)
  {
    assert EmptyBodyText[0] == 'R' && NotFoundText[0] == 'R';
    assert UnauthorizedText[0] == 'A' && ForbiddenText[0] == 'A';
    assert TooManyRequestsText[0] == 'T';
    assert ValidationPrefix[0] == 'V' && ServerPrefix[0] == 'S' && NetworkPrefix[0] == 'N';
    if StartsWith(m, ValidationPrefix) { assert m[0] == m[..|ValidationPrefix|][0]; }
    if StartsWith(m, ServerPrefix) { assert m[0] == m[..|ServerPrefix|][0]; }
    if StartsWith(m, NetworkPrefix) { assert m[0] == m[..|NetworkPrefix|][0]; }
  }

  /** A message that starts with the validation prefix classifies as a validation error. */
  lemma ValidationClassified(m: string)
    requires StartsWith(m, ValidationPrefix)
    ensures ClassifyMessage(m) == Some(Validation)
  {
    assert m[0] == m[..|ValidationPrefix|][0] == 'V';
    FirstCharRulesOut(m);
  }

  /** A message that starts with the server prefix classifies as a server error. */
  lemma ServerClassified(m: string)
    requires StartsWith(m, ServerPrefix)
    ensures ClassifyMessage(m) == Some(Server)
  {
    assert m[0] == m[..|ServerPrefix|][0] == 'S';
    FirstCharRulesOut(m);
  }

  /** A message that starts with the network prefix classifies as a network error. */
  lemma NetworkClassified(m: string)
    requires StartsWith(m, NetworkPrefix)
    ensures ClassifyMessage(m) == Some(Network)
  {
    assert m[0] == m[..|NetworkPrefix|][0] == 'N';
    FirstCharRulesOut(m);
  }

  /** A message that starts with the connection prefix classifies as a connection error. */
  lemma ConnectionClassified(m: string)
    requires StartsWith(m, ConnectionPrefix)
    ensures ClassifyMessage(m) == Some(Connection)
  {
    assert m[0] == m[..|ConnectionPrefix|][0] == 'C';
    FirstCharRulesOut(m);
  }

  /**
   * Every message but a free-form `UnknownError` text identifies its variant:
   * the classifier recovers the kind the exception was built with.
   */
  lemma ClassifyMessageRecoversKind(e: TodoException)
    requires !e.UnknownError?
    ensures ClassifyMessage(Message(e)) == Some(KindOf(e))
  {
    match e
    case ValidationError(_) => ValidationClassified(Message(e));
    case ServerError(_) => ServerClassified(Message(e));
    case NetworkError(_, _) => NetworkClassified(Message(e));
    case ConnectionError(_) => ConnectionClassified(Message(e));
    case _ =>
  }

  /**
   * A null payload and the literal default render identically, so the message
   * does not tell them apart.
   */
  lemma NullPayloadIndistinguishable(code: int)
    ensures Message(NetworkError(code, None)) == Message(NetworkError(code, Some("Unknown error")))
    ensures Message(ValidationError(None)) == Message(ValidationError(Some("Invalid input")))
    ensures Message(ServerError(None)) == Message(ServerError(Some("Internal server error")))
    ensures Message(ConnectionError(None)) == Message(ConnectionError(Some("Check your internet connection")))
  {
  }
}
