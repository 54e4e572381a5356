/** `send` and `perform` of src/http.rs, with curl abstracted away: what
    `perform` configures on the handle is a `Setup` value, and what comes back
    from the network is an `Outcome`, which `Send` classifies into the
    decoded answer or an error message. */
module Transport {
  import opened Wrappers
  import opened Wire
  import Decimal

  /** The three verbs the client uses. */
  datatype Method = GET | POST | DELETE

  /** The name of the header the Livy server demands on every request that
      changes state, as declared in src/http/mod.rs. */
  const XRequestedBy: string := "X-Requested-By"

  const ContentTypeHeader: string := "Content-Type: application/json"

  /** How curl is told the verb: GET and POST have their own switches, DELETE
      goes through a custom request line. */
  datatype Verb = HttpGet | HttpPost | CustomRequest(name: string)

  /** What `perform` sets on the curl handle before performing it. */
  datatype Setup = Setup(
    verb: Verb,
    url: string,
    negotiate: Option<bool>,
    username: Option<string>,
    headers: seq<string>)

  function VerbOf(m: Method): (v: Verb)
    ensures v == HttpGet <==> m == GET
    ensures v == HttpPost <==> m == POST
    ensures v.CustomRequest? <==> m == DELETE
  {
    match m
    case GET => HttpGet
    case POST => HttpPost
    case DELETE => CustomRequest("DELETE")
  }

  /** The handle configuration of one request. */
  function Perform(m: Method, url: string, gssnegotiate: Option<bool>, username: Option<string>): (s: Setup)
    ensures s.verb == VerbOf(m) && s.url == url
    ensures s.negotiate == gssnegotiate && s.username == username
    ensures |s.headers| == 2 && s.headers[0] == ContentTypeHeader
  {
    Setup(VerbOf(m), url, gssnegotiate, username, [ContentTypeHeader, XRequestedBy + ": x"])
  }

  /** Every request carries the JSON content type and the CSRF header, whatever
      its verb and authentication; negotiate authentication and the user name
      are set exactly when given. */
  lemma PerformHeaders(m: Method, url: string, gssnegotiate: Option<bool>, username: Option<string>)
    ensures Perform(m, url, gssnegotiate, username).headers
      == ["Content-Type: application/json", "X-Requested-By: x"]
    ensures Perform(m, url, gssnegotiate, username).negotiate.Some? <==> gssnegotiate.Some?
    ensures Perform(m, url, gssnegotiate, username).username.Some? <==> username.Some?
  {
    assert XRequestedBy + ": x" == "X-Requested-By: x";
  }

  /** The headers do not depend on the verb. */
  lemma PerformHeadersIndependentOfVerb(m: Method, n: Method, url: string, g: Option<bool>, u: Option<string>)
    ensures Perform(m, url, g, u).headers == Perform(n, url, g, u).headers
    ensures Perform(m, url, g, u).url == Perform(n, url, g, u).url
  {
  }

  /** What the network gives back: `perform` failed, the status code could
      not be read, or the server answered with a status and a body that did
      or did not parse as JSON. */
  datatype Outcome =
    | PerformFailed(cause: string)
    | CodeUnavailable(cause: string)
    | Answered(status: nat, body: Result<Value, string>)

  const InvalidStatusPrefix: string := "invalid status code: "

  function InvalidStatus(status: nat): (msg: string)
    ensures |msg| > |InvalidStatusPrefix| && msg[..|InvalidStatusPrefix|] == InvalidStatusPrefix
  {
    InvalidStatusPrefix + Decimal.Decimal(status)
  }

  /** The classification in `send`: a transport failure passes its message
      on; only status 200 goes on to decode the body, whose failure is the
      error; any other status is reported by number. */
  function Send<T>(outcome: Outcome, decode: Value -> Result<T, string>): (r: Result<T, string>)
    ensures r.Ok? <==> outcome.Answered? && outcome.status == 200 && outcome.body.Ok? && decode(outcome.body.value).Ok?
    ensures r.Ok? ==> r.value == decode(outcome.body.value).value
    ensures !outcome.Answered? ==> r == Err(outcome.cause)
    ensures outcome.Answered? && outcome.status != 200 ==> r == Err(InvalidStatus(outcome.status))
  {
    match outcome
    case PerformFailed(cause) => Err(cause)
    case CodeUnavailable(cause) => Err(cause)
    case Answered(status, body) =>
      if status != 200 then Err(InvalidStatus(status))
      else
        var json :- body;
        decode(json)
  }

  /** A status other than 200 is an error whatever the body is and whatever
      the caller expects to decode: the body is never read. */
  lemma SendIgnoresBodyOnBadStatus<T>(status: nat, b1: Result<Value, string>, b2: Result<Value, string>,
                                      d1: Value -> Result<T, string>, d2: Value -> Result<T, string>)
    requires status != 200
    ensures Send(Answered(status, b1), d1) == Send(Answered(status, b2), d2)
  {
  }

  /** The status error names the code: the number after the prefix reads back. */
  lemma InvalidStatusNamesCode(status: nat)
    ensures InvalidStatus(status)[..|InvalidStatusPrefix|] == InvalidStatusPrefix
    ensures Decimal.ReadInt(InvalidStatus(status)[|InvalidStatusPrefix|..]) == Some((status as int, ""))
  {
    var d := Decimal.Decimal(status);
    assert InvalidStatus(status)[|InvalidStatusPrefix|..] == d + "";
    Decimal.ReadIntDecimal(status, "");
  }

  /** Distinct bad statuses give distinct messages. */
  lemma InvalidStatusInjective(s1: nat, s2: nat)
    requires InvalidStatus(s1) == InvalidStatus(s2)
    ensures s1 == s2
  {
    InvalidStatusNamesCode(s1);
    InvalidStatusNamesCode(s2);
  }

  /** A 200 answer that parses is exactly the decoder's verdict on the body. */
  lemma SendOkIsDecode<T>(json: Value, decode: Value -> Result<T, string>)
    ensures Send(Answered(200, Ok(json)), decode) == decode(json)
  {
  }

  lemma InvalidStatusExample()
    ensures InvalidStatus(404) == "invalid status code: 404"
  {
    assert Decimal.Digits(404) == "404" by {
      assert Decimal.DigitChar(4) == '4' && Decimal.DigitChar(0) == '0';
    }
  }
}
