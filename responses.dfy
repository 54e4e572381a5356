/** The records the Livy server answers with, read from JSON objects (serde's
    positional array form of a struct is not modelled). Every field is an `Option`:
    a missing or null key reads as `None`, unknown keys are ignored, and
    writing a record back (the current client also derives `Serialize`)
    puts every key, a `None` as null. */
module Responses {
  import opened Wrappers
  import opened Wire
  import opened LivyTypes

  /** The record of one interactive session (`Session`, camelCase keys). */
  datatype Session = Session(id: Option<i64>, appId: Option<string>, owner: Option<string>, proxyUser: Option<string>, kind: Option<SessionKind>, log: Option<seq<string>>, state: Option<SessionState>, appInfo: Option<map<string, Option<string>>>)

  /** A page of sessions (`Sessions`). */
  datatype Sessions = Sessions(from: Option<i64>, total: Option<i64>, sessions: Option<seq<Session>>)

  /** The state of one session (`SessionStateOnly`). */
  datatype SessionStateOnly = SessionStateOnly(id: Option<i64>, state: Option<SessionState>)

  /** The answer to a kill, delete or cancel (`SessionKillResult`, `StatementCancelResult`, `BatchKillResult` and, in the older client, `SessionDeleteResult`: all read the single key `msg`). */
  datatype Message = Message(msg: Option<string>)

  /** A page of log lines (`SessionLog`, `BatchLog`). */
  datatype LogPage = LogPage(id: Option<i64>, from: Option<i64>, total: Option<i64>, log: Option<seq<string>>)

  /** The output of a statement (`StatementOutput`, keys as written in Rust). */
  datatype StatementOutput = StatementOutput(status: Option<string>, executionCount: Option<i64>, data: Option<map<string, Option<string>>>)

  /** One statement of a session (`Statement`). */
  datatype Statement = Statement(id: Option<i64>, state: Option<StatementState>, output: Option<StatementOutput>)

  /** The statements of a session (`Statements`, keys as written in Rust). */
  datatype Statements = Statements(totalStatements: Option<i64>, statements: Option<seq<Statement>>)

  /** The record of one batch (`Batch`, camelCase keys; its state is a plain string). */
  datatype Batch = Batch(id: Option<i64>, appId: Option<string>, appInfo: Option<map<string, Option<string>>>, log: Option<seq<string>>, state: Option<string>)

  /** A page of batches (`Batches`). */
  datatype Batches = Batches(from: Option<i64>, total: Option<i64>, sessions: Option<seq<Batch>>)

  /** The state of one batch (`BatchStateOnly`; a plain string). */
  datatype BatchStateOnly = BatchStateOnly(id: Option<i64>, state: Option<string>)

  // Session

  function EncodeSession(x: Session): (v: Value)
    ensures v.Obj? && v.fields.Keys == {"id", "appId", "owner", "proxyUser", "kind", "log", "state", "appInfo"}
  {
    Obj(map["id" := OfOption(x.id, OfI64), "appId" := OfOption(x.appId, OfString), "owner" := OfOption(x.owner, OfString), "proxyUser" := OfOption(x.proxyUser, OfString), "kind" := OfOption(x.kind, EncodeSessionKind), "log" := OfOption(x.log, OfStrings), "state" := OfOption(x.state, EncodeSessionState), "appInfo" := OfOption(x.appInfo, OfOptStringMap)])
  }

  function DecodeSession(v: Value): (r: Result<Session, string>)
    ensures !v.Obj? ==> r.Err?
  {
    if !v.Obj? then Err("invalid type: expected struct Session")
    else
      var o := v.fields;
      var id :- Optional(o, "id", AsI64);
      var appId :- Optional(o, "appId", AsString);
      var owner :- Optional(o, "owner", AsString);
      var proxyUser :- Optional(o, "proxyUser", AsString);
      var kind :- Optional(o, "kind", DecodeSessionKind);
      var log :- Optional(o, "log", AsStrings);
      var state :- Optional(o, "state", DecodeSessionState);
      var appInfo :- Optional(o, "appInfo", AsOptStringMap);
      Ok(Session(id, appId, owner, proxyUser, kind, log, state, appInfo))
  }

  /** A Session reads back from what it writes. */
  lemma SessionRoundTrip(x: Session)
    ensures DecodeSession(EncodeSession(x)) == Ok(x)
  {
    var o := EncodeSession(x).fields;
    if x.id.Some? { I64RoundTrip(x.id.value); }
    OptionRoundTrip(o, "id", x.id, OfI64, AsI64);
    OptionRoundTrip(o, "appId", x.appId, OfString, AsString);
    OptionRoundTrip(o, "owner", x.owner, OfString, AsString);
    OptionRoundTrip(o, "proxyUser", x.proxyUser, OfString, AsString);
    if x.kind.Some? { EnumRoundTrips(Idle, x.kind.value, Waiting); }
    OptionRoundTrip(o, "kind", x.kind, EncodeSessionKind, DecodeSessionKind);
    if x.log.Some? { StringsRoundTrip(x.log.value); }
    OptionRoundTrip(o, "log", x.log, OfStrings, AsStrings);
    if x.state.Some? { EnumRoundTrips(x.state.value, Spark, Waiting); }
    OptionRoundTrip(o, "state", x.state, EncodeSessionState, DecodeSessionState);
    if x.appInfo.Some? { OptStringMapRoundTrip(x.appInfo.value); }
    OptionRoundTrip(o, "appInfo", x.appInfo, OfOptStringMap, AsOptStringMap);
  }

  /** Every field is optional: an empty object reads as the record with
      every field `None`. */
  lemma SessionFromEmptyObject()
    ensures DecodeSession(Obj(map[])) == Ok(Session(None, None, None, None, None, None, None, None))
  {
  }

  /** Keys the record does not name are ignored. */
  lemma SessionIgnoresUnknownKeys(o: Object, k: string, extra: Value)
    requires k !in {"id", "appId", "owner", "proxyUser", "kind", "log", "state", "appInfo"}
    ensures DecodeSession(Obj(o[k := extra])) == DecodeSession(Obj(o))
  {
    OptionalIgnoresOtherKeys(o, k, extra, "id", AsI64);
    OptionalIgnoresOtherKeys(o, k, extra, "appId", AsString);
    OptionalIgnoresOtherKeys(o, k, extra, "owner", AsString);
    OptionalIgnoresOtherKeys(o, k, extra, "proxyUser", AsString);
    OptionalIgnoresOtherKeys(o, k, extra, "kind", DecodeSessionKind);
    OptionalIgnoresOtherKeys(o, k, extra, "log", AsStrings);
    OptionalIgnoresOtherKeys(o, k, extra, "state", DecodeSessionState);
    OptionalIgnoresOtherKeys(o, k, extra, "appInfo", AsOptStringMap);
  }

  function OfSessions(xs: seq<Session>): Value { OfList(xs, EncodeSession) }

  function AsSessions(v: Value): Result<seq<Session>, string> { AsList(v, DecodeSession) }

  lemma SessionsListRoundTrip(xs: seq<Session>)
    ensures AsSessions(OfSessions(xs)) == Ok(xs)
  {
    forall i | 0 <= i < |xs| ensures DecodeSession(EncodeSession(xs[i])) == Ok(xs[i]) {
      SessionRoundTrip(xs[i]);
    }
    ListRoundTrip(xs, EncodeSession, DecodeSession);
  }

  // Sessions

  function EncodeSessions(x: Sessions): (v: Value)
    ensures v.Obj? && v.fields.Keys == {"from", "total", "sessions"}
  {
    Obj(map["from" := OfOption(x.from, OfI64), "total" := OfOption(x.total, OfI64), "sessions" := OfOption(x.sessions, OfSessions)])
  }

  function DecodeSessions(v: Value): (r: Result<Sessions, string>)
    ensures !v.Obj? ==> r.Err?
  {
    if !v.Obj? then Err("invalid type: expected struct Sessions")
    else
      var o := v.fields;
      var from :- Optional(o, "from", AsI64);
      var total :- Optional(o, "total", AsI64);
      var sessions :- Optional(o, "sessions", AsSessions);
      Ok(Sessions(from, total, sessions))
  }

  /** A Sessions reads back from what it writes. */
  lemma SessionsRoundTrip(x: Sessions)
    ensures DecodeSessions(EncodeSessions(x)) == Ok(x)
  {
    var o := EncodeSessions(x).fields;
    if x.from.Some? { I64RoundTrip(x.from.value); }
    OptionRoundTrip(o, "from", x.from, OfI64, AsI64);
    if x.total.Some? { I64RoundTrip(x.total.value); }
    OptionRoundTrip(o, "total", x.total, OfI64, AsI64);
    if x.sessions.Some? { SessionsListRoundTrip(x.sessions.value); }
    OptionRoundTrip(o, "sessions", x.sessions, OfSessions, AsSessions);
  }

  /** Every field is optional: an empty object reads as the record with
      every field `None`. */
  lemma SessionsFromEmptyObject()
    ensures DecodeSessions(Obj(map[])) == Ok(Sessions(None, None, None))
  {
  }

  /** Keys the record does not name are ignored. */
  lemma SessionsIgnoresUnknownKeys(o: Object, k: string, extra: Value)
    requires k !in {"from", "total", "sessions"}
    ensures DecodeSessions(Obj(o[k := extra])) == DecodeSessions(Obj(o))
  {
    OptionalIgnoresOtherKeys(o, k, extra, "from", AsI64);
    OptionalIgnoresOtherKeys(o, k, extra, "total", AsI64);
    OptionalIgnoresOtherKeys(o, k, extra, "sessions", AsSessions);
  }

  // SessionStateOnly

  function EncodeSessionStateOnly(x: SessionStateOnly): (v: Value)
    ensures v.Obj? && v.fields.Keys == {"id", "state"}
  {
    Obj(map["id" := OfOption(x.id, OfI64), "state" := OfOption(x.state, EncodeSessionState)])
  }

  function DecodeSessionStateOnly(v: Value): (r: Result<SessionStateOnly, string>)
    ensures !v.Obj? ==> r.Err?
  {
    if !v.Obj? then Err("invalid type: expected struct SessionStateOnly")
    else
      var o := v.fields;
      var id :- Optional(o, "id", AsI64);
      var state :- Optional(o, "state", DecodeSessionState);
      Ok(SessionStateOnly(id, state))
  }

  /** A SessionStateOnly reads back from what it writes. */
  lemma SessionStateOnlyRoundTrip(x: SessionStateOnly)
    ensures DecodeSessionStateOnly(EncodeSessionStateOnly(x)) == Ok(x)
  {
    var o := EncodeSessionStateOnly(x).fields;
    if x.id.Some? { I64RoundTrip(x.id.value); }
    OptionRoundTrip(o, "id", x.id, OfI64, AsI64);
    if x.state.Some? { EnumRoundTrips(x.state.value, Spark, Waiting); }
    OptionRoundTrip(o, "state", x.state, EncodeSessionState, DecodeSessionState);
  }

  /** Every field is optional: an empty object reads as the record with
      every field `None`. */
  lemma SessionStateOnlyFromEmptyObject()
    ensures DecodeSessionStateOnly(Obj(map[])) == Ok(SessionStateOnly(None, None))
  {
  }

  /** Keys the record does not name are ignored. */
  lemma SessionStateOnlyIgnoresUnknownKeys(o: Object, k: string, extra: Value)
    requires k !in {"id", "state"}
    ensures DecodeSessionStateOnly(Obj(o[k := extra])) == DecodeSessionStateOnly(Obj(o))
  {
    OptionalIgnoresOtherKeys(o, k, extra, "id", AsI64);
    OptionalIgnoresOtherKeys(o, k, extra, "state", DecodeSessionState);
  }

  // Message

  function EncodeMessage(x: Message): (v: Value)
    ensures v.Obj? && v.fields.Keys == {"msg"}
  {
    Obj(map["msg" := OfOption(x.msg, OfString)])
  }

  function DecodeMessage(v: Value): (r: Result<Message, string>)
    ensures !v.Obj? ==> r.Err?
  {
    if !v.Obj? then Err("invalid type: expected struct Message")
    else
      var o := v.fields;
      var msg :- Optional(o, "msg", AsString);
      Ok(Message(msg))
  }

  /** A Message reads back from what it writes. */
  lemma MessageRoundTrip(x: Message)
    ensures DecodeMessage(EncodeMessage(x)) == Ok(x)
  {
    var o := EncodeMessage(x).fields;
    OptionRoundTrip(o, "msg", x.msg, OfString, AsString);
  }

  /** Every field is optional: an empty object reads as the record with
      every field `None`. */
  lemma MessageFromEmptyObject()
    ensures DecodeMessage(Obj(map[])) == Ok(Message(None))
  {
  }

  /** Keys the record does not name are ignored. */
  lemma MessageIgnoresUnknownKeys(o: Object, k: string, extra: Value)
    requires k !in {"msg"}
    ensures DecodeMessage(Obj(o[k := extra])) == DecodeMessage(Obj(o))
  {
    OptionalIgnoresOtherKeys(o, k, extra, "msg", AsString);
  }

  // LogPage

  function EncodeLogPage(x: LogPage): (v: Value)
    ensures v.Obj? && v.fields.Keys == {"id", "from", "total", "log"}
  {
    Obj(map["id" := OfOption(x.id, OfI64), "from" := OfOption(x.from, OfI64), "total" := OfOption(x.total, OfI64), "log" := OfOption(x.log, OfStrings)])
  }

  function DecodeLogPage(v: Value): (r: Result<LogPage, string>)
    ensures !v.Obj? ==> r.Err?
  {
    if !v.Obj? then Err("invalid type: expected struct LogPage")
    else
      var o := v.fields;
      var id :- Optional(o, "id", AsI64);
      var from :- Optional(o, "from", AsI64);
      var total :- Optional(o, "total", AsI64);
      var log :- Optional(o, "log", AsStrings);
      Ok(LogPage(id, from, total, log))
  }

  /** A LogPage reads back from what it writes. */
  lemma LogPageRoundTrip(x: LogPage)
    ensures DecodeLogPage(EncodeLogPage(x)) == Ok(x)
  {
    var o := EncodeLogPage(x).fields;
    if x.id.Some? { I64RoundTrip(x.id.value); }
    OptionRoundTrip(o, "id", x.id, OfI64, AsI64);
    if x.from.Some? { I64RoundTrip(x.from.value); }
    OptionRoundTrip(o, "from", x.from, OfI64, AsI64);
    if x.total.Some? { I64RoundTrip(x.total.value); }
    OptionRoundTrip(o, "total", x.total, OfI64, AsI64);
    if x.log.Some? { StringsRoundTrip(x.log.value); }
    OptionRoundTrip(o, "log", x.log, OfStrings, AsStrings);
  }

  /** Every field is optional: an empty object reads as the record with
      every field `None`. */
  lemma LogPageFromEmptyObject()
    ensures DecodeLogPage(Obj(map[])) == Ok(LogPage(None, None, None, None))
  {
  }

  /** Keys the record does not name are ignored. */
  lemma LogPageIgnoresUnknownKeys(o: Object, k: string, extra: Value)
    requires k !in {"id", "from", "total", "log"}
    ensures DecodeLogPage(Obj(o[k := extra])) == DecodeLogPage(Obj(o))
  {
    OptionalIgnoresOtherKeys(o, k, extra, "id", AsI64);
    OptionalIgnoresOtherKeys(o, k, extra, "from", AsI64);
    OptionalIgnoresOtherKeys(o, k, extra, "total", AsI64);
    OptionalIgnoresOtherKeys(o, k, extra, "log", AsStrings);
  }

  // StatementOutput

  function EncodeStatementOutput(x: StatementOutput): (v: Value)
    ensures v.Obj? && v.fields.Keys == {"status", "execution_count", "data"}
  {
    Obj(map["status" := OfOption(x.status, OfString), "execution_count" := OfOption(x.executionCount, OfI64), "data" := OfOption(x.data, OfOptStringMap)])
  }

  function DecodeStatementOutput(v: Value): (r: Result<StatementOutput, string>)
    ensures !v.Obj? ==> r.Err?
  {
    if !v.Obj? then Err("invalid type: expected struct StatementOutput")
    else
      var o := v.fields;
      var status :- Optional(o, "status", AsString);
      var executionCount :- Optional(o, "execution_count", AsI64);
      var data :- Optional(o, "data", AsOptStringMap);
      Ok(StatementOutput(status, executionCount, data))
  }

  /** A StatementOutput reads back from what it writes. */
  lemma StatementOutputRoundTrip(x: StatementOutput)
    ensures DecodeStatementOutput(EncodeStatementOutput(x)) == Ok(x)
  {
    var o := EncodeStatementOutput(x).fields;
    OptionRoundTrip(o, "status", x.status, OfString, AsString);
    if x.executionCount.Some? { I64RoundTrip(x.executionCount.value); }
    OptionRoundTrip(o, "execution_count", x.executionCount, OfI64, AsI64);
    if x.data.Some? { OptStringMapRoundTrip(x.data.value); }
    OptionRoundTrip(o, "data", x.data, OfOptStringMap, AsOptStringMap);
  }

  /** Every field is optional: an empty object reads as the record with
      every field `None`. */
  lemma StatementOutputFromEmptyObject()
    ensures DecodeStatementOutput(Obj(map[])) == Ok(StatementOutput(None, None, None))
  {
  }

  /** Keys the record does not name are ignored. */
  lemma StatementOutputIgnoresUnknownKeys(o: Object, k: string, extra: Value)
    requires k !in {"status", "execution_count", "data"}
    ensures DecodeStatementOutput(Obj(o[k := extra])) == DecodeStatementOutput(Obj(o))
  {
    OptionalIgnoresOtherKeys(o, k, extra, "status", AsString);
    OptionalIgnoresOtherKeys(o, k, extra, "execution_count", AsI64);
    OptionalIgnoresOtherKeys(o, k, extra, "data", AsOptStringMap);
  }

  // Statement

  function EncodeStatement(x: Statement): (v: Value)
    ensures v.Obj? && v.fields.Keys == {"id", "state", "output"}
  {
    Obj(map["id" := OfOption(x.id, OfI64), "state" := OfOption(x.state, EncodeStatementState), "output" := OfOption(x.output, EncodeStatementOutput)])
  }

  function DecodeStatement(v: Value): (r: Result<Statement, string>)
    ensures !v.Obj? ==> r.Err?
  {
    if !v.Obj? then Err("invalid type: expected struct Statement")
    else
      var o := v.fields;
      var id :- Optional(o, "id", AsI64);
      var state :- Optional(o, "state", DecodeStatementState);
      var output :- Optional(o, "output", DecodeStatementOutput);
      Ok(Statement(id, state, output))
  }

  /** A Statement reads back from what it writes. */
  lemma StatementRoundTrip(x: Statement)
    ensures DecodeStatement(EncodeStatement(x)) == Ok(x)
  {
    var o := EncodeStatement(x).fields;
    if x.id.Some? { I64RoundTrip(x.id.value); }
    OptionRoundTrip(o, "id", x.id, OfI64, AsI64);
    if x.state.Some? { EnumRoundTrips(Idle, Spark, x.state.value); }
    OptionRoundTrip(o, "state", x.state, EncodeStatementState, DecodeStatementState);
    if x.output.Some? { StatementOutputRoundTrip(x.output.value); }
    OptionRoundTrip(o, "output", x.output, EncodeStatementOutput, DecodeStatementOutput);
  }

  /** Every field is optional: an empty object reads as the record with
      every field `None`. */
  lemma StatementFromEmptyObject()
    ensures DecodeStatement(Obj(map[])) == Ok(Statement(None, None, None))
  {
  }

  /** Keys the record does not name are ignored. */
  lemma StatementIgnoresUnknownKeys(o: Object, k: string, extra: Value)
    requires k !in {"id", "state", "output"}
    ensures DecodeStatement(Obj(o[k := extra])) == DecodeStatement(Obj(o))
  {
    OptionalIgnoresOtherKeys(o, k, extra, "id", AsI64);
    OptionalIgnoresOtherKeys(o, k, extra, "state", DecodeStatementState);
    OptionalIgnoresOtherKeys(o, k, extra, "output", DecodeStatementOutput);
  }

  function OfStatements(xs: seq<Statement>): Value { OfList(xs, EncodeStatement) }

  function AsStatements(v: Value): Result<seq<Statement>, string> { AsList(v, DecodeStatement) }

  lemma StatementsListRoundTrip(xs: seq<Statement>)
    ensures AsStatements(OfStatements(xs)) == Ok(xs)
  {
    forall i | 0 <= i < |xs| ensures DecodeStatement(EncodeStatement(xs[i])) == Ok(xs[i]) {
      StatementRoundTrip(xs[i]);
    }
    ListRoundTrip(xs, EncodeStatement, DecodeStatement);
  }

  // Statements

  function EncodeStatements(x: Statements): (v: Value)
    ensures v.Obj? && v.fields.Keys == {"total_statements", "statements"}
  {
    Obj(map["total_statements" := OfOption(x.totalStatements, OfI64), "statements" := OfOption(x.statements, OfStatements)])
  }

  function DecodeStatements(v: Value): (r: Result<Statements, string>)
    ensures !v.Obj? ==> r.Err?
  {
    if !v.Obj? then Err("invalid type: expected struct Statements")
    else
      var o := v.fields;
      var totalStatements :- Optional(o, "total_statements", AsI64);
      var statements :- Optional(o, "statements", AsStatements);
      Ok(Statements(totalStatements, statements))
  }

  /** A Statements reads back from what it writes. */
  lemma StatementsRoundTrip(x: Statements)
    ensures DecodeStatements(EncodeStatements(x)) == Ok(x)
  {
    var o := EncodeStatements(x).fields;
    if x.totalStatements.Some? { I64RoundTrip(x.totalStatements.value); }
    OptionRoundTrip(o, "total_statements", x.totalStatements, OfI64, AsI64);
    if x.statements.Some? { StatementsListRoundTrip(x.statements.value); }
    OptionRoundTrip(o, "statements", x.statements, OfStatements, AsStatements);
  }

  /** Every field is optional: an empty object reads as the record with
      every field `None`. */
  lemma StatementsFromEmptyObject()
    ensures DecodeStatements(Obj(map[])) == Ok(Statements(None, None))
  {
  }

  /** Keys the record does not name are ignored. */
  lemma StatementsIgnoresUnknownKeys(o: Object, k: string, extra: Value)
    requires k !in {"total_statements", "statements"}
    ensures DecodeStatements(Obj(o[k := extra])) == DecodeStatements(Obj(o))
  {
    OptionalIgnoresOtherKeys(o, k, extra, "total_statements", AsI64);
    OptionalIgnoresOtherKeys(o, k, extra, "statements", AsStatements);
  }

  // Batch

  function EncodeBatch(x: Batch): (v: Value)
    ensures v.Obj? && v.fields.Keys == {"id", "appId", "appInfo", "log", "state"}
  {
    Obj(map["id" := OfOption(x.id, OfI64), "appId" := OfOption(x.appId, OfString), "appInfo" := OfOption(x.appInfo, OfOptStringMap), "log" := OfOption(x.log, OfStrings), "state" := OfOption(x.state, OfString)])
  }

  function DecodeBatch(v: Value): (r: Result<Batch, string>)
    ensures !v.Obj? ==> r.Err?
  {
    if !v.Obj? then Err("invalid type: expected struct Batch")
    else
      var o := v.fields;
      var id :- Optional(o, "id", AsI64);
      var appId :- Optional(o, "appId", AsString);
      var appInfo :- Optional(o, "appInfo", AsOptStringMap);
      var log :- Optional(o, "log", AsStrings);
      var state :- Optional(o, "state", AsString);
      Ok(Batch(id, appId, appInfo, log, state))
  }

  /** A Batch reads back from what it writes. */
  lemma BatchRoundTrip(x: Batch)
    ensures DecodeBatch(EncodeBatch(x)) == Ok(x)
  {
    var o := EncodeBatch(x).fields;
    if x.id.Some? { I64RoundTrip(x.id.value); }
    OptionRoundTrip(o, "id", x.id, OfI64, AsI64);
    OptionRoundTrip(o, "appId", x.appId, OfString, AsString);
    if x.appInfo.Some? { OptStringMapRoundTrip(x.appInfo.value); }
    OptionRoundTrip(o, "appInfo", x.appInfo, OfOptStringMap, AsOptStringMap);
    if x.log.Some? { StringsRoundTrip(x.log.value); }
    OptionRoundTrip(o, "log", x.log, OfStrings, AsStrings);
    OptionRoundTrip(o, "state", x.state, OfString, AsString);
  }

  /** Every field is optional: an empty object reads as the record with
      every field `None`. */
  lemma BatchFromEmptyObject()
    ensures DecodeBatch(Obj(map[])) == Ok(Batch(None, None, None, None, None))
  {
  }

  /** Keys the record does not name are ignored. */
  lemma BatchIgnoresUnknownKeys(o: Object, k: string, extra: Value)
    requires k !in {"id", "appId", "appInfo", "log", "state"}
    ensures DecodeBatch(Obj(o[k := extra])) == DecodeBatch(Obj(o))
  {
    OptionalIgnoresOtherKeys(o, k, extra, "id", AsI64);
    OptionalIgnoresOtherKeys(o, k, extra, "appId", AsString);
    OptionalIgnoresOtherKeys(o, k, extra, "appInfo", AsOptStringMap);
    OptionalIgnoresOtherKeys(o, k, extra, "log", AsStrings);
    OptionalIgnoresOtherKeys(o, k, extra, "state", AsString);
  }

  function OfBatches(xs: seq<Batch>): Value { OfList(xs, EncodeBatch) }

  function AsBatches(v: Value): Result<seq<Batch>, string> { AsList(v, DecodeBatch) }

  lemma BatchesListRoundTrip(xs: seq<Batch>)
    ensures AsBatches(OfBatches(xs)) == Ok(xs)
  {
    forall i | 0 <= i < |xs| ensures DecodeBatch(EncodeBatch(xs[i])) == Ok(xs[i]) {
      BatchRoundTrip(xs[i]);
    }
    ListRoundTrip(xs, EncodeBatch, DecodeBatch);
  }

  // Batches

  function EncodeBatches(x: Batches): (v: Value)
    ensures v.Obj? && v.fields.Keys == {"from", "total", "sessions"}
  {
    Obj(map["from" := OfOption(x.from, OfI64), "total" := OfOption(x.total, OfI64), "sessions" := OfOption(x.sessions, OfBatches)])
  }

  function DecodeBatches(v: Value): (r: Result<Batches, string>)
    ensures !v.Obj? ==> r.Err?
  {
    if !v.Obj? then Err("invalid type: expected struct Batches")
    else
      var o := v.fields;
      var from :- Optional(o, "from", AsI64);
      var total :- Optional(o, "total", AsI64);
      var sessions :- Optional(o, "sessions", AsBatches);
      Ok(Batches(from, total, sessions))
  }

  /** A Batches reads back from what it writes. */
  lemma BatchesRoundTrip(x: Batches)
    ensures DecodeBatches(EncodeBatches(x)) == Ok(x)
  {
    var o := EncodeBatches(x).fields;
    if x.from.Some? { I64RoundTrip(x.from.value); }
    OptionRoundTrip(o, "from", x.from, OfI64, AsI64);
    if x.total.Some? { I64RoundTrip(x.total.value); }
    OptionRoundTrip(o, "total", x.total, OfI64, AsI64);
    if x.sessions.Some? { BatchesListRoundTrip(x.sessions.value); }
    OptionRoundTrip(o, "sessions", x.sessions, OfBatches, AsBatches);
  }

  /** Every field is optional: an empty object reads as the record with
      every field `None`. */
  lemma BatchesFromEmptyObject()
    ensures DecodeBatches(Obj(map[])) == Ok(Batches(None, None, None))
  {
  }

  /** Keys the record does not name are ignored. */
  lemma BatchesIgnoresUnknownKeys(o: Object, k: string, extra: Value)
    requires k !in {"from", "total", "sessions"}
    ensures DecodeBatches(Obj(o[k := extra])) == DecodeBatches(Obj(o))
  {
    OptionalIgnoresOtherKeys(o, k, extra, "from", AsI64);
    OptionalIgnoresOtherKeys(o, k, extra, "total", AsI64);
    OptionalIgnoresOtherKeys(o, k, extra, "sessions", AsBatches);
  }

  // BatchStateOnly

  function EncodeBatchStateOnly(x: BatchStateOnly): (v: Value)
    ensures v.Obj? && v.fields.Keys == {"id", "state"}
  {
    Obj(map["id" := OfOption(x.id, OfI64), "state" := OfOption(x.state, OfString)])
  }

  function DecodeBatchStateOnly(v: Value): (r: Result<BatchStateOnly, string>)
    ensures !v.Obj? ==> r.Err?
  {
    if !v.Obj? then Err("invalid type: expected struct BatchStateOnly")
    else
      var o := v.fields;
      var id :- Optional(o, "id", AsI64);
      var state :- Optional(o, "state", AsString);
      Ok(BatchStateOnly(id, state))
  }

  /** A BatchStateOnly reads back from what it writes. */
  lemma BatchStateOnlyRoundTrip(x: BatchStateOnly)
    ensures DecodeBatchStateOnly(EncodeBatchStateOnly(x)) == Ok(x)
  {
    var o := EncodeBatchStateOnly(x).fields;
    if x.id.Some? { I64RoundTrip(x.id.value); }
    OptionRoundTrip(o, "id", x.id, OfI64, AsI64);
    OptionRoundTrip(o, "state", x.state, OfString, AsString);
  }

  /** Every field is optional: an empty object reads as the record with
      every field `None`. */
  lemma BatchStateOnlyFromEmptyObject()
    ensures DecodeBatchStateOnly(Obj(map[])) == Ok(BatchStateOnly(None, None))
  {
  }

  /** Keys the record does not name are ignored. */
  lemma BatchStateOnlyIgnoresUnknownKeys(o: Object, k: string, extra: Value)
    requires k !in {"id", "state"}
    ensures DecodeBatchStateOnly(Obj(o[k := extra])) == DecodeBatchStateOnly(Obj(o))
  {
    OptionalIgnoresOtherKeys(o, k, extra, "id", AsI64);
    OptionalIgnoresOtherKeys(o, k, extra, "state", AsString);
  }
}
