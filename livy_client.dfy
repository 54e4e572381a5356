/** The `Client` of src/client.rs: its constructor, the sixteen operations
    as a table of verb, path and body, the request each sends, and the
    answer each reads back. `Client` is never changed after `new`, so it is a
    value; the network is a parameter of `Call`. */
module LivyClient {
  import opened Wrappers
  import opened Wire
  import Decimal
  import Query
  import opened LivyTypes
  import opened Responses
  import opened Transport

  datatype Client = Client(url: string, gssnegotiate: Option<bool>, username: Option<string>)

  /** `Client::new`: the base URL loses one trailing '/', the authentication
      settings are kept as given. */
  function New(url: string, gssnegotiate: Option<bool>, username: Option<string>): (c: Client)
    ensures Query.EndsWithSlash(url) ==> c.url + "/" == url
    ensures !Query.EndsWithSlash(url) ==> c.url == url
    ensures c.gssnegotiate == gssnegotiate && c.username == username
  {
    Query.RemoveTrailingSlashCases(url);
    Client(Query.RemoveTrailingSlash(url), gssnegotiate, username)
  }

  /** The constructor tests. */
  lemma NewExamples()
    ensures New("http://example.com:8998", None, None) == Client("http://example.com:8998", None, None)
    ensures New("http://example.com:8998/", Some(false), Some("")) == Client("http://example.com:8998", Some(false), Some(""))
    ensures New("http://example.com:8998", Some(true), Some("user")) == Client("http://example.com:8998", Some(true), Some("user"))
  {
    var u := "http://example.com:8998";
    assert !Query.EndsWithSlash(u);
    assert Query.EndsWithSlash(u + "/");
    assert "http://example.com:8998/" == u + "/";
  }

  /** The operations of the client and their arguments. */
  datatype Operation =
    | GetSessions(from: Option<i64>, size: Option<i64>)
    | CreateSession(newSession: NewSessionRequest)
    | GetSession(sessionId: i64)
    | GetSessionState(sessionId: i64)
    | KillSession(sessionId: i64)
    | GetSessionLog(sessionId: i64, from: Option<i64>, size: Option<i64>)
    | GetStatements(sessionId: i64)
    | RunStatement(sessionId: i64, runStatement: RunStatementRequest)
    | GetStatement(sessionId: i64, statementId: i64)
    | CancelStatement(sessionId: i64, statementId: i64)
    | GetBatches(from: Option<i64>, size: Option<i64>)
    | CreateBatch(newBatch: NewBatchRequest)
    | GetBatch(batchId: i64)
    | GetBatchState(batchId: i64)
    | KillBatch(batchId: i64)
    | GetBatchLog(batchId: i64, from: Option<i64>, size: Option<i64>)

  /** The paging query of the list and log operations:
      `params([param("from", from), param("size", size)])`. */
  function FromSize(from: Option<i64>, size: Option<i64>): string
  {
    Query.QueryString([Query.Param("from", from), Query.Param("size", size)])
  }

  lemma FromSizeBoth(f: i64, z: i64)
    ensures FromSize(Some(f), Some(z)) == "?from=" + Decimal.Decimal(f) + "&size=" + Decimal.Decimal(z)
    ensures FromSize(Some(f), Some(z)) == "?from=" + (Decimal.Decimal(f) + "&size=" + Decimal.Decimal(z))
  {
    var a := Query.Param("from", Some(f));
    var b := Query.Param("size", Some(z));
    Query.QueryStringOfPair(a, b);
    var d := Decimal.Decimal(f);
    var e := Decimal.Decimal(z);
    calc {
      FromSize(Some(f), Some(z));
      "?" + ("from" + "=" + d) + "&" + ("size" + "=" + e);
      "?from=" + d + "&size=" + e;
    }
  }

  lemma FromSizeFromOnly(f: i64)
    ensures FromSize(Some(f), None) == "?from=" + Decimal.Decimal(f)
  {
    var a := Query.Param("from", Some(f));
    Query.QueryStringOfPair(a, None);
    var d := Decimal.Decimal(f);
    assert "?" + ("from" + "=" + d) == "?from=" + d;
  }

  lemma FromSizeSizeOnly(z: i64)
    ensures FromSize(None, Some(z)) == "?size=" + Decimal.Decimal(z)
  {
    var b := Query.Param("size", Some(z));
    Query.QueryStringOfPair(None, b);
    var e := Decimal.Decimal(z);
    assert "?" + ("size" + "=" + e) == "?size=" + e;
  }

  /** The four shapes of the paging query. */
  lemma FromSizeCases(from: Option<i64>, size: Option<i64>)
    ensures from.None? && size.None? ==> FromSize(from, size) == ""
    ensures from.Some? && size.None? ==> FromSize(from, size) == "?from=" + Decimal.Decimal(from.value)
    ensures from.None? && size.Some? ==> FromSize(from, size) == "?size=" + Decimal.Decimal(size.value)
    ensures from.Some? && size.Some? ==>
      FromSize(from, size) == "?from=" + Decimal.Decimal(from.value) + "&size=" + Decimal.Decimal(size.value)
  {
    match (from, size)
    case (None, None) => Query.QueryStringOfPair(None, None);
    case (Some(f), None) => FromSizeFromOnly(f);
    case (None, Some(z)) => FromSizeSizeOnly(z);
    case (Some(f), Some(z)) => FromSizeBoth(f, z);
  }

  function Id(n: i64): string { Decimal.Decimal(n) }

  /** The path of each operation, appended to the base URL. */
  function Path(op: Operation): (p: string)
    ensures |p| > 0 && p[0] == '/'
  {
    match op
    case GetSessions(from, size) => "/sessions" + FromSize(from, size)
    case CreateSession(_) => "/sessions"
    case GetSession(id) => "/sessions/" + Id(id)
    case GetSessionState(id) => "/sessions/" + Id(id) + "/state"
    case KillSession(id) => "/sessions/" + Id(id)
    case GetSessionLog(id, from, size) => "/sessions/" + Id(id) + "/log" + FromSize(from, size)
    case GetStatements(id) => "/sessions/" + Id(id) + "/statements"
    case RunStatement(id, _) => "/sessions/" + Id(id) + "/statements"
    case GetStatement(id, sid) => "/sessions/" + Id(id) + "/statements/" + Id(sid)
    case CancelStatement(id, sid) => "/sessions/" + Id(id) + "/statements/" + Id(sid) + "/cancel"
    case GetBatches(from, size) => "/batches" + FromSize(from, size)
    case CreateBatch(_) => "/batches"
    case GetBatch(id) => "/batches/" + Id(id)
    case GetBatchState(id) => "/batches/" + Id(id) + "/state"
    case KillBatch(id) => "/batches/" + Id(id)
    case GetBatchLog(id, from, size) => "/batches/" + Id(id) + "/log" + FromSize(from, size)
  }

  /** Which of `get`, `post` and `delete` each operation goes through. */
  function MethodOf(op: Operation): Method
  {
    match op
    case CreateSession(_) => POST
    case RunStatement(_, _) => POST
    case CancelStatement(_, _) => POST
    case CreateBatch(_) => POST
    case KillSession(_) => DELETE
    case KillBatch(_) => DELETE
    case _ => GET
  }

  /** The data handed to `send`: the serialised spec of the three creating
      operations, nothing otherwise. */
  function Body(op: Operation): Option<Value>
  {
    match op
    case CreateSession(r) => Some(EncodeNewSessionRequest(r))
    case RunStatement(_, r) => Some(EncodeRunStatementRequest(r))
    case CreateBatch(r) => Some(EncodeNewBatchRequest(r))
    case _ => None
  }

  /** The verb and body table: reads are GETs without a body, the creating
      operations POST a body, cancelling POSTs none, killing DELETEs. */
  lemma MethodAndBody(op: Operation)
    ensures MethodOf(op) == GET ==> Body(op).None?
    ensures MethodOf(op) == DELETE <==> op.KillSession? || op.KillBatch?
    ensures Body(op).Some? <==> op.CreateSession? || op.RunStatement? || op.CreateBatch?
    ensures Body(op).Some? ==> MethodOf(op) == POST && Body(op).value.Obj?
    ensures MethodOf(op) == POST && Body(op).None? <==> op.CancelStatement?
  {
  }

  /** What `Client::send` hands to `http::send`. */
  datatype Request = Request(httpMethod: Method, url: string, body: Option<Value>,
                             gssnegotiate: Option<bool>, username: Option<string>)

  function RequestFor(c: Client, op: Operation): (r: Request)
    ensures r.url == c.url + Path(op)
    ensures r.httpMethod == MethodOf(op) && r.body == Body(op)
    ensures r.gssnegotiate == c.gssnegotiate && r.username == c.username
  {
    Request(MethodOf(op), c.url + Path(op), Body(op), c.gssnegotiate, c.username)
  }

  /** The curl handle an operation configures: its verb and URL, the client's
      authentication, and the same two headers for every operation. */
  function SetupFor(c: Client, op: Operation): (s: Setup)
    ensures s.verb == VerbOf(MethodOf(op)) && s.url == RequestFor(c, op).url
    ensures s.negotiate == c.gssnegotiate && s.username == c.username
    ensures s.headers == ["Content-Type: application/json", "X-Requested-By: x"]
  {
    PerformHeaders(MethodOf(op), c.url + Path(op), c.gssnegotiate, c.username);
    Perform(MethodOf(op), c.url + Path(op), c.gssnegotiate, c.username)
  }

  lemma DecimalExamples()
    ensures Id(0) == "0" && Id(1) == "1" && Id(2) == "2" && Id(3) == "3"
    ensures Decimal.Decimal(5) == "5" && Decimal.Decimal(10) == "10"
  {
    assert Decimal.DigitChar(0) == '0' && Decimal.DigitChar(1) == '1' && Decimal.DigitChar(2) == '2';
    assert Decimal.DigitChar(3) == '3' && Decimal.DigitChar(5) == '5';
  }

  /** The list paths without paging. */
  lemma ListPathExamples()
    ensures Path(GetSessions(None, None)) == "/sessions"
    ensures Path(GetBatches(None, None)) == "/batches"
  {
    FromSizeCases(None, None);
  }

  /** Paging with both bounds. */
  lemma PagedPathExample()
    ensures Path(GetSessions(Some(0), Some(10))) == "/sessions?from=0&size=10"
  {
    FromSizeBoth(0, 10);
    DecimalExamples();
  }

  /** Paging with the size alone. */
  lemma SizedLogPathExample()
    ensures Path(GetBatchLog(3, None, Some(5))) == "/batches/3/log?size=5"
  {
    FromSizeSizeOnly(5);
    DecimalExamples();
  }

  /** The deepest statement path. */
  lemma CancelPathExample()
    ensures Path(CancelStatement(1, 2)) == "/sessions/1/statements/2/cancel"
  {
    DecimalExamples();
  }

  // Answers

  /** The record each operation reads from a successful answer. */
  datatype Reply =
    | SessionsReply(sessions: Sessions)
    | SessionReply(session: Session)
    | SessionStateReply(sessionState: SessionStateOnly)
    | MessageReply(message: Message)
    | LogReply(log: LogPage)
    | StatementsReply(statements: Statements)
    | StatementReply(statement: Statement)
    | BatchesReply(batches: Batches)
    | BatchReply(batch: Batch)
    | BatchStateReply(batchState: BatchStateOnly)

  /** The result types of the operations' signatures. */
  datatype ReplyType =
    | SessionsType | SessionType | SessionStateType | MessageType | LogType
    | StatementsType | StatementType | BatchesType | BatchType | BatchStateType

  function TypeOf(reply: Reply): ReplyType
  {
    match reply
    case SessionsReply(_) => SessionsType
    case SessionReply(_) => SessionType
    case SessionStateReply(_) => SessionStateType
    case MessageReply(_) => MessageType
    case LogReply(_) => LogType
    case StatementsReply(_) => StatementsType
    case StatementReply(_) => StatementType
    case BatchesReply(_) => BatchesType
    case BatchReply(_) => BatchType
    case BatchStateReply(_) => BatchStateType
  }

  /** The result type of each operation. */
  function ResultType(op: Operation): ReplyType
  {
    match op
    case GetSessions(_, _) => SessionsType
    case CreateSession(_) => SessionType
    case GetSession(_) => SessionType
    case GetSessionState(_) => SessionStateType
    case KillSession(_) => MessageType
    case GetSessionLog(_, _, _) => LogType
    case GetStatements(_) => StatementsType
    case RunStatement(_, _) => StatementType
    case GetStatement(_, _) => StatementType
    case CancelStatement(_, _) => MessageType
    case GetBatches(_, _) => BatchesType
    case CreateBatch(_) => BatchType
    case GetBatch(_) => BatchType
    case GetBatchState(_) => BatchStateType
    case KillBatch(_) => MessageType
    case GetBatchLog(_, _, _) => LogType
  }

  /** The `Deserialize` of a result type applied to a body. */
  function DecodeAs(t: ReplyType, v: Value): (r: Result<Reply, string>)
    ensures r.Ok? ==> TypeOf(r.value) == t
  {
    match t
    case SessionsType => var x :- DecodeSessions(v); Ok(SessionsReply(x))
    case SessionType => var x :- DecodeSession(v); Ok(SessionReply(x))
    case SessionStateType => var x :- DecodeSessionStateOnly(v); Ok(SessionStateReply(x))
    case MessageType => var x :- DecodeMessage(v); Ok(MessageReply(x))
    case LogType => var x :- DecodeLogPage(v); Ok(LogReply(x))
    case StatementsType => var x :- DecodeStatements(v); Ok(StatementsReply(x))
    case StatementType => var x :- DecodeStatement(v); Ok(StatementReply(x))
    case BatchesType => var x :- DecodeBatches(v); Ok(BatchesReply(x))
    case BatchType => var x :- DecodeBatch(v); Ok(BatchReply(x))
    case BatchStateType => var x :- DecodeBatchStateOnly(v); Ok(BatchStateReply(x))
  }

  /** The JSON a server sends for a reply. */
  function EncodeReply(reply: Reply): Value
  {
    match reply
    case SessionsReply(x) => EncodeSessions(x)
    case SessionReply(x) => EncodeSession(x)
    case SessionStateReply(x) => EncodeSessionStateOnly(x)
    case MessageReply(x) => EncodeMessage(x)
    case LogReply(x) => EncodeLogPage(x)
    case StatementsReply(x) => EncodeStatements(x)
    case StatementReply(x) => EncodeStatement(x)
    case BatchesReply(x) => EncodeBatches(x)
    case BatchReply(x) => EncodeBatch(x)
    case BatchStateReply(x) => EncodeBatchStateOnly(x)
  }

  /** Every reply reads back from its JSON as its own type. */
  lemma DecodeAsOfEncode(reply: Reply)
    ensures DecodeAs(TypeOf(reply), EncodeReply(reply)) == Ok(reply)
  {
    if reply.SessionsReply? || reply.SessionReply? || reply.SessionStateReply? {
      SessionRepliesReadBack(reply);
    } else if reply.MessageReply? || reply.LogReply? || reply.StatementsReply? || reply.StatementReply? {
      StatementRepliesReadBack(reply);
    } else {
      BatchRepliesReadBack(reply);
    }
  }

  lemma SessionRepliesReadBack(reply: Reply)
    requires reply.SessionsReply? || reply.SessionReply? || reply.SessionStateReply?
    ensures DecodeAs(TypeOf(reply), EncodeReply(reply)) == Ok(reply)
  {
    match reply
    case SessionsReply(x) => SessionsRoundTrip(x);
    case SessionReply(x) => SessionRoundTrip(x);
    case SessionStateReply(x) => SessionStateOnlyRoundTrip(x);
  }

  lemma StatementRepliesReadBack(reply: Reply)
    requires reply.MessageReply? || reply.LogReply? || reply.StatementsReply? || reply.StatementReply?
    ensures DecodeAs(TypeOf(reply), EncodeReply(reply)) == Ok(reply)
  {
    match reply
    case MessageReply(x) => MessageRoundTrip(x);
    case LogReply(x) => LogPageRoundTrip(x);
    case StatementsReply(x) => StatementsRoundTrip(x);
    case StatementReply(x) => StatementRoundTrip(x);
  }

  lemma BatchRepliesReadBack(reply: Reply)
    requires reply.BatchesReply? || reply.BatchReply? || reply.BatchStateReply?
    ensures DecodeAs(TypeOf(reply), EncodeReply(reply)) == Ok(reply)
  {
    match reply
    case BatchesReply(x) => BatchesRoundTrip(x);
    case BatchReply(x) => BatchRoundTrip(x);
    case BatchStateReply(x) => BatchStateOnlyRoundTrip(x);
  }

  /** One call of an operation: the request goes to `network`, whose answer
      `send` classifies with the operation's decoder. */
  function Call(c: Client, op: Operation, network: Request -> Outcome): (r: Result<Reply, string>)
    ensures r.Ok? ==> TypeOf(r.value) == ResultType(op)
    ensures r.Ok? <==> var o := network(RequestFor(c, op));
      o.Answered? && o.status == 200 && o.body.Ok? && DecodeAs(ResultType(op), o.body.value).Ok?
  {
    Send(network(RequestFor(c, op)), v => DecodeAs(ResultType(op), v))
  }

  /** A server that answers 200 with the JSON of a reply of the right type
      makes the call return exactly that reply. */
  lemma CallReturnsServedReply(c: Client, op: Operation, network: Request -> Outcome, reply: Reply)
    requires TypeOf(reply) == ResultType(op)
    requires network(RequestFor(c, op)) == Answered(200, Ok(EncodeReply(reply)))
    ensures Call(c, op, network) == Ok(reply)
  {
    DecodeAsOfEncode(reply);
  }

  /** Any other status makes the call fail with the status message, whatever
      the body holds. */
  lemma CallFailsOnBadStatus(c: Client, op: Operation, network: Request -> Outcome, status: nat, body: Result<Value, string>)
    requires status != 200
    requires network(RequestFor(c, op)) == Answered(status, body)
    ensures Call(c, op, network) == Err(InvalidStatus(status))
  {
  }
}
