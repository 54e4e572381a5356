/** The older client of src/v0_3_0.rs: the same immutable `Client`, a table
    of thirteen operations (no batch state, kill or log, and `delete_session`
    where the current client kills), the getters of its answer records, and
    state enumerations it only reads. Request specs, enumerations and answer
    records have the same fields and keys as the current client's, so they
    are shared with it; the operation table is its own and is proved to agree
    with the current one. */
module LivyV030 {
  import opened Wrappers
  import opened Wire
  import Query
  import opened LivyTypes
  import opened Responses
  import opened Transport
  import Current = LivyClient
  import ClientRoutes

  /** `Client::new`: one trailing '/' is dropped, the authentication settings
      are kept as given. */
  function New(url: string, gssnegotiate: Option<bool>, username: Option<string>): (c: Current.Client)
    ensures Query.EndsWithSlash(url) ==> c.url + "/" == url
    ensures !Query.EndsWithSlash(url) ==> c.url == url
    ensures c.gssnegotiate == gssnegotiate && c.username == username
  {
    Query.RemoveTrailingSlashCases(url);
    Current.Client(Query.RemoveTrailingSlash(url), gssnegotiate, username)
  }

  /** The constructor test cases. */
  lemma NewExamples()
    ensures New("http://example.com:8998", None, None).url == "http://example.com:8998"
    ensures New("http://example.com:8998/", Some(false), Some("")) == Current.Client("http://example.com:8998", Some(false), Some(""))
    ensures New("http://example.com:8998", Some(true), Some("user")) == Current.Client("http://example.com:8998", Some(true), Some("user"))
  {
    Current.NewExamples();
  }

  /** The thirteen operations of the older client. */
  datatype Operation =
    | GetSessions(from: Option<i64>, size: Option<i64>)
    | CreateSession(newSession: NewSessionRequest)
    | GetSession(sessionId: i64)
    | GetSessionState(sessionId: i64)
    | DeleteSession(sessionId: i64)
    | GetSessionLog(sessionId: i64, from: Option<i64>, size: Option<i64>)
    | GetStatements(sessionId: i64)
    | RunStatement(sessionId: i64, runStatement: RunStatementRequest)
    | GetStatement(sessionId: i64, statementId: i64)
    | CancelStatement(sessionId: i64, statementId: i64)
    | GetBatches(from: Option<i64>, size: Option<i64>)
    | CreateBatch(newBatch: NewBatchRequest)
    | GetBatch(batchId: i64)

  function Path(op: Operation): string
  {
    match op
    case GetSessions(from, size) => "/sessions" + Current.FromSize(from, size)
    case CreateSession(_) => "/sessions"
    case GetSession(id) => "/sessions/" + Current.Id(id)
    case GetSessionState(id) => "/sessions/" + Current.Id(id) + "/state"
    case DeleteSession(id) => "/sessions/" + Current.Id(id)
    case GetSessionLog(id, from, size) => "/sessions/" + Current.Id(id) + "/log" + Current.FromSize(from, size)
    case GetStatements(id) => "/sessions/" + Current.Id(id) + "/statements"
    case RunStatement(id, _) => "/sessions/" + Current.Id(id) + "/statements"
    case GetStatement(id, sid) => "/sessions/" + Current.Id(id) + "/statements/" + Current.Id(sid)
    case CancelStatement(id, sid) => "/sessions/" + Current.Id(id) + "/statements/" + Current.Id(sid) + "/cancel"
    case GetBatches(from, size) => "/batches" + Current.FromSize(from, size)
    case CreateBatch(_) => "/batches"
    case GetBatch(id) => "/batches/" + Current.Id(id)
  }

  function MethodOf(op: Operation): Method
  {
    match op
    case CreateSession(_) => POST
    case RunStatement(_, _) => POST
    case CancelStatement(_, _) => POST
    case CreateBatch(_) => POST
    case DeleteSession(_) => DELETE
    case _ => GET
  }

  function Body(op: Operation): Option<Value>
  {
    match op
    case CreateSession(r) => Some(EncodeNewSessionRequest(r))
    case RunStatement(_, r) => Some(EncodeRunStatementRequest(r))
    case CreateBatch(r) => Some(EncodeNewBatchRequest(r))
    case _ => None
  }

  /** The verb and body table: `delete_session` is the only DELETE, the
      creating operations POST a body, cancelling POSTs none, and everything
      else is a GET without a body. */
  lemma MethodAndBody(op: Operation)
    ensures MethodOf(op) == DELETE <==> op.DeleteSession?
    ensures MethodOf(op) == GET ==> Body(op).None?
    ensures Body(op).Some? <==> op.CreateSession? || op.RunStatement? || op.CreateBatch?
    ensures Body(op).Some? ==> MethodOf(op) == POST && Body(op).value.Obj?
    ensures MethodOf(op) == POST && Body(op).None? <==> op.CancelStatement?
  {
  }

  function RequestFor(c: Current.Client, op: Operation): (r: Current.Request)
    ensures r.url == c.url + Path(op)
    ensures r.httpMethod == MethodOf(op) && r.body == Body(op)
    ensures r.gssnegotiate == c.gssnegotiate && r.username == c.username
  {
    Current.Request(MethodOf(op), c.url + Path(op), Body(op), c.gssnegotiate, c.username)
  }

  /** The operation of the current client that each older one became:
      deleting a session is killing it. */
  function Successor(op: Operation): Current.Operation
  {
    match op
    case GetSessions(from, size) => Current.GetSessions(from, size)
    case CreateSession(r) => Current.CreateSession(r)
    case GetSession(id) => Current.GetSession(id)
    case GetSessionState(id) => Current.GetSessionState(id)
    case DeleteSession(id) => Current.KillSession(id)
    case GetSessionLog(id, from, size) => Current.GetSessionLog(id, from, size)
    case GetStatements(id) => Current.GetStatements(id)
    case RunStatement(id, r) => Current.RunStatement(id, r)
    case GetStatement(id, sid) => Current.GetStatement(id, sid)
    case CancelStatement(id, sid) => Current.CancelStatement(id, sid)
    case GetBatches(from, size) => Current.GetBatches(from, size)
    case CreateBatch(r) => Current.CreateBatch(r)
    case GetBatch(id) => Current.GetBatch(id)
  }

  /** Both clients send the same request for an operation: same verb, same
      URL, same body. */
  lemma SameRequestAsCurrent(c: Current.Client, op: Operation)
    ensures RequestFor(c, op) == Current.RequestFor(c, Successor(op))
  {
  }

  /** The older client has no batch state, kill or log operation. */
  lemma NoBatchStateKillOrLog(op: Operation)
    ensures !Successor(op).GetBatchState? && !Successor(op).KillBatch? && !Successor(op).GetBatchLog?
  {
  }

  /** A Livy server reads each request of the older client as the current
      client's matching operation, so two different operations never send
      the same request. */
  lemma RequestForInjective(c: Current.Client, op1: Operation, op2: Operation)
    requires RequestFor(c, op1) == RequestFor(c, op2)
    ensures op1 == op2
  {
    SameRequestAsCurrent(c, op1);
    SameRequestAsCurrent(c, op2);
    ClientRoutes.RequestForInjective(c, Successor(op1), Successor(op2));
  }

  /** The result type of each operation's signature (`SessionDeleteResult`
      and `StatementCancelResult` are both the `msg` record). */
  function ResultType(op: Operation): Current.ReplyType
  {
    match op
    case GetSessions(_, _) => Current.SessionsType
    case CreateSession(_) => Current.SessionType
    case GetSession(_) => Current.SessionType
    case GetSessionState(_) => Current.SessionStateType
    case DeleteSession(_) => Current.MessageType
    case GetSessionLog(_, _, _) => Current.LogType
    case GetStatements(_) => Current.StatementsType
    case RunStatement(_, _) => Current.StatementType
    case GetStatement(_, _) => Current.StatementType
    case CancelStatement(_, _) => Current.MessageType
    case GetBatches(_, _) => Current.BatchesType
    case CreateBatch(_) => Current.BatchType
    case GetBatch(_) => Current.BatchType
  }

  /** One call: the request goes to `network`, `send` classifies the answer. */
  function Call(c: Current.Client, op: Operation, network: Current.Request -> Outcome): (r: Result<Current.Reply, string>)
    ensures r.Ok? ==> Current.TypeOf(r.value) == ResultType(op)
  {
    Send(network(RequestFor(c, op)), v => Current.DecodeAs(ResultType(op), v))
  }

  /** Each operation expects the same record as its successor. */
  lemma SameResultTypeAsCurrent(op: Operation)
    ensures ResultType(op) == Current.ResultType(Successor(op))
  {
  }

  /** A call of the older client gives what the current client's call of the
      successor operation gives, against any server. */
  lemma SameCallAsCurrent(c: Current.Client, op: Operation, network: Current.Request -> Outcome)
    ensures Call(c, op, network) == Current.Call(c, Successor(op), network)
  {
    SameRequestAsCurrent(c, op);
    SameResultTypeAsCurrent(op);
  }

  // The state enumerations are only read

  /** Of the forms modelled (tag strings; not the one-key object form), a
      session state is read from exactly the eight tags. */
  lemma SessionStateReadsExactlyTags(v: Value)
    ensures DecodeSessionState(v).Ok? <==> exists s :: v == EncodeSessionState(s)
  {
    if exists s :: v == EncodeSessionState(s) {
      var s :| v == EncodeSessionState(s);
      EnumRoundTrips(s, Spark, Waiting);
    }
  }

  /** Of the forms modelled (tag strings; not the one-key object form), a
      statement state is read from exactly the six tags. */
  lemma StatementStateReadsExactlyTags(v: Value)
    ensures DecodeStatementState(v).Ok? <==> exists s :: v == EncodeStatementState(s)
  {
    if exists s :: v == EncodeStatementState(s) {
      var s :| v == EncodeStatementState(s);
      EnumRoundTrips(Idle, Spark, s);
    }
  }

  // Getters

  /** The getters of `Session` return what the server sent under each key. */
  lemma SessionGetters(o: Object, x: Session)
    requires DecodeSession(Obj(o)) == Ok(x)
    ensures Optional(o, "id", AsI64) == Ok(x.id)
    ensures Optional(o, "appId", AsString) == Ok(x.appId)
    ensures Optional(o, "owner", AsString) == Ok(x.owner)
    ensures Optional(o, "proxyUser", AsString) == Ok(x.proxyUser)
    ensures Optional(o, "kind", DecodeSessionKind) == Ok(x.kind)
    ensures Optional(o, "log", AsStrings) == Ok(x.log)
    ensures Optional(o, "state", DecodeSessionState) == Ok(x.state)
    ensures Optional(o, "appInfo", AsOptStringMap) == Ok(x.appInfo)
  {
  }

  /** The getters of `Sessions` return what the server sent under each key. */
  lemma SessionsGetters(o: Object, x: Sessions)
    requires DecodeSessions(Obj(o)) == Ok(x)
    ensures Optional(o, "from", AsI64) == Ok(x.from)
    ensures Optional(o, "total", AsI64) == Ok(x.total)
    ensures Optional(o, "sessions", AsSessions) == Ok(x.sessions)
  {
  }

  /** The getters of `SessionStateOnly` return what the server sent under each key. */
  lemma SessionStateOnlyGetters(o: Object, x: SessionStateOnly)
    requires DecodeSessionStateOnly(Obj(o)) == Ok(x)
    ensures Optional(o, "id", AsI64) == Ok(x.id)
    ensures Optional(o, "state", DecodeSessionState) == Ok(x.state)
  {
  }

  /** The getters of `SessionDeleteResult` and `StatementCancelResult` return what the server sent under each key. */
  lemma MessageGetters(o: Object, x: Message)
    requires DecodeMessage(Obj(o)) == Ok(x)
    ensures Optional(o, "msg", AsString) == Ok(x.msg)
  {
  }

  /** The getters of `SessionLog` return what the server sent under each key. */
  lemma LogPageGetters(o: Object, x: LogPage)
    requires DecodeLogPage(Obj(o)) == Ok(x)
    ensures Optional(o, "id", AsI64) == Ok(x.id)
    ensures Optional(o, "from", AsI64) == Ok(x.from)
    ensures Optional(o, "total", AsI64) == Ok(x.total)
    ensures Optional(o, "log", AsStrings) == Ok(x.log)
  {
  }

  /** The getters of `StatementOutput` return what the server sent under each key. */
  lemma StatementOutputGetters(o: Object, x: StatementOutput)
    requires DecodeStatementOutput(Obj(o)) == Ok(x)
    ensures Optional(o, "status", AsString) == Ok(x.status)
    ensures Optional(o, "execution_count", AsI64) == Ok(x.executionCount)
    ensures Optional(o, "data", AsOptStringMap) == Ok(x.data)
  {
  }

  /** The getters of `Statement` return what the server sent under each key. */
  lemma StatementGetters(o: Object, x: Statement)
    requires DecodeStatement(Obj(o)) == Ok(x)
    ensures Optional(o, "id", AsI64) == Ok(x.id)
    ensures Optional(o, "state", DecodeStatementState) == Ok(x.state)
    ensures Optional(o, "output", DecodeStatementOutput) == Ok(x.output)
  {
  }

  /** The getters of `Statements` return what the server sent under each key. */
  lemma StatementsGetters(o: Object, x: Statements)
    requires DecodeStatements(Obj(o)) == Ok(x)
    ensures Optional(o, "total_statements", AsI64) == Ok(x.totalStatements)
    ensures Optional(o, "statements", AsStatements) == Ok(x.statements)
  {
  }

  /** The getters of `Batch` return what the server sent under each key. */
  lemma BatchGetters(o: Object, x: Batch)
    requires DecodeBatch(Obj(o)) == Ok(x)
    ensures Optional(o, "id", AsI64) == Ok(x.id)
    ensures Optional(o, "appId", AsString) == Ok(x.appId)
    ensures Optional(o, "appInfo", AsOptStringMap) == Ok(x.appInfo)
    ensures Optional(o, "log", AsStrings) == Ok(x.log)
    ensures Optional(o, "state", AsString) == Ok(x.state)
  {
  }

  /** The getters of `Batches` return what the server sent under each key. */
  lemma BatchesGetters(o: Object, x: Batches)
    requires DecodeBatches(Obj(o)) == Ok(x)
    ensures Optional(o, "from", AsI64) == Ok(x.from)
    ensures Optional(o, "total", AsI64) == Ok(x.total)
    ensures Optional(o, "sessions", AsBatches) == Ok(x.sessions)
  {
  }

}
