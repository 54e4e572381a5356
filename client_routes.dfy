/** The way a Livy server reads the client's requests: from the verb, the
    path after the base URL and the body it recovers the operation and its
    arguments. This is the inverse of `LivyClient.RequestFor`: it shows that
    every operation sends a request of its own. */
module ClientRoutes {
  import opened Wrappers
  import opened Wire
  import Decimal
  import Query
  import opened LivyTypes
  import opened Transport
  import opened LivyClient

  predicate StartsWith(s: string, p: string)
  {
    |p| <= |s| && s[..|p|] == p
  }

  lemma StartsWithConcat(p: string, t: string)
    ensures StartsWith(p + t, p) && (p + t)[|p|..] == t
  {
    assert (p + t)[..|p|] == p;
  }

  predicate InI64(n: int) { -0x8000_0000_0000_0000 <= n < 0x8000_0000_0000_0000 }

  /** A number that fits in an `i64` at the front of `s`, and what follows it. */
  function ReadId(s: string): Option<(i64, string)>
  {
    match Decimal.ReadInt(s)
    case Some((n, t)) => if InI64(n) then Some((n, t)) else None
    case None => None
  }

  lemma ReadIdOfId(n: i64, t: string)
    requires Decimal.Delimits(t)
    ensures ReadId(Id(n) + t) == Some((n, t))
  {
    Decimal.ReadIntDecimal(n, t);
  }

  /** A number that fits in an `i64` and is all of `s`. */
  function ReadLastId(s: string): Option<i64>
  {
    match ReadId(s)
    case Some((n, u)) => if u == "" then Some(n) else None
    case None => None
  }

  /** Reads a paging query `?from=F&size=S`, either part optional. */
  function ReadFromSize(q: string): Option<(Option<i64>, Option<i64>)>
  {
    if q == "" then Some((None, None))
    else if StartsWith(q, "?from=") then ReadAfterFrom(q[6..])
    else if StartsWith(q, "?size=") then
      match ReadLastId(q[6..])
      case Some(s) => Some((None, Some(s)))
      case None => None
    else None
  }

  /** What follows `?from=`: the bound, then optionally `&size=S`. */
  function ReadAfterFrom(s: string): Option<(Option<i64>, Option<i64>)>
  {
    match ReadId(s)
    case None => None
    case Some((f, t)) =>
      if t == "" then Some((Some(f), None))
      else if StartsWith(t, "&size=") then
        match ReadLastId(t[6..])
        case Some(z) => Some((Some(f), Some(z)))
        case None => None
      else None
  }

  lemma ReadLastIdOfId(n: i64)
    ensures ReadLastId(Id(n)) == Some(n)
  {
    ReadIdOfId(n, "");
    assert Id(n) + "" == Id(n);
  }

  lemma ReadFromPrefix(q: string, p: string, t: string)
    requires q == p + t && |p| == 6
    ensures StartsWith(q, p) && q[6..] == t
  {
    StartsWithConcat(p, t);
  }

  lemma ReadFromSizeFrom(q: string)
    requires StartsWith(q, "?from=")
    ensures ReadFromSize(q) == ReadAfterFrom(q[6..])
  {
  }

  lemma ReadAfterFromBoth(f: i64, z: i64)
    ensures ReadAfterFrom(Id(f) + "&size=" + Id(z)) == Some((Some(f), Some(z)))
  {
    var rest := "&size=" + Id(z);
    assert Id(f) + "&size=" + Id(z) == Id(f) + rest;
    ReadIdOfId(f, rest);
    ReadFromPrefix(rest, "&size=", Id(z));
    ReadLastIdOfId(z);
  }

  lemma ReadBothBounds(f: i64, z: i64)
    ensures ReadFromSize(FromSize(Some(f), Some(z))) == Some((Some(f), Some(z)))
  {
    FromSizeBoth(f, z);
    var q := FromSize(Some(f), Some(z));
    var after := Id(f) + "&size=" + Id(z);
    ReadFromPrefix(q, "?from=", after);
    ReadFromSizeFrom(q);
    ReadAfterFromBoth(f, z);
  }

  lemma ReadFromBound(f: i64)
    ensures ReadFromSize(FromSize(Some(f), None)) == Some((Some(f), None))
  {
    FromSizeFromOnly(f);
    ReadFromPrefix(FromSize(Some(f), None), "?from=", Id(f));
    ReadIdOfId(f, "");
    assert Id(f) + "" == Id(f);
  }

  lemma ReadSizeBound(z: i64)
    ensures ReadFromSize(FromSize(None, Some(z))) == Some((None, Some(z)))
  {
    FromSizeSizeOnly(z);
    var q := FromSize(None, Some(z));
    ReadFromPrefix(q, "?size=", Id(z));
    ReadLastIdOfId(z);
    assert q[1] == 's';
  }

  /** The paging query reads back as the bounds that wrote it. */
  lemma ReadFromSizeOfFromSize(from: Option<i64>, size: Option<i64>)
    ensures ReadFromSize(FromSize(from, size)) == Some((from, size))
  {
    match (from, size)
    case (None, None) => FromSizeCases(from, size);
    case (Some(f), None) => ReadFromBound(f);
    case (None, Some(z)) => ReadSizeBound(z);
    case (Some(f), Some(z)) => ReadBothBounds(f, z);
  }

  /** The operation a request names, if any. */
  function ParseRequest(m: Method, path: string, body: Option<Value>): Option<Operation>
  {
    if StartsWith(path, "/sessions") then SessionsRoute(m, path[9..], body)
    else if StartsWith(path, "/batches") then BatchesRoute(m, path[8..], body)
    else None
  }

  function SessionsRoute(m: Method, rest: string, body: Option<Value>): Option<Operation>
  {
    if rest == "" && m == POST then
      if body.Some? then
        match DecodeNewSessionRequest(body.value)
        case Ok(r) => Some(CreateSession(r))
        case Err(_) => None
      else None
    else if m == GET && (rest == "" || rest[0] == '?') then
      match ReadFromSize(rest)
      case Some((f, s)) => Some(GetSessions(f, s))
      case None => None
    else if rest != "" && rest[0] == '/' then
      match ReadId(rest[1..])
      case Some((id, tail)) => SessionRoute(m, id, tail, body)
      case None => None
    else None
  }

  function SessionRoute(m: Method, id: i64, tail: string, body: Option<Value>): Option<Operation>
  {
    if tail == "" then
      if m == GET then Some(GetSession(id))
      else if m == DELETE then Some(KillSession(id))
      else None
    else if tail == "/state" then
      if m == GET then Some(GetSessionState(id)) else None
    else if tail == "/statements" then
      if m == GET then Some(GetStatements(id))
      else if m == POST && body.Some? then
        match DecodeRunStatementRequest(body.value)
        case Ok(r) => Some(RunStatement(id, r))
        case Err(_) => None
      else None
    else if StartsWith(tail, "/log") then
      if m == GET then
        match ReadFromSize(tail[4..])
        case Some((f, s)) => Some(GetSessionLog(id, f, s))
        case None => None
      else None
    else if StartsWith(tail, "/statements/") then
      match ReadId(tail[12..])
      case Some((sid, u)) =>
        if u == "" && m == GET then Some(GetStatement(id, sid))
        else if u == "/cancel" && m == POST then Some(CancelStatement(id, sid))
        else None
      case None => None
    else None
  }

  function BatchesRoute(m: Method, rest: string, body: Option<Value>): Option<Operation>
  {
    if rest == "" && m == POST then
      if body.Some? then
        match DecodeNewBatchRequest(body.value)
        case Ok(r) => Some(CreateBatch(r))
        case Err(_) => None
      else None
    else if m == GET && (rest == "" || rest[0] == '?') then
      match ReadFromSize(rest)
      case Some((f, s)) => Some(GetBatches(f, s))
      case None => None
    else if rest != "" && rest[0] == '/' then
      match ReadId(rest[1..])
      case Some((id, tail)) => BatchRoute(m, id, tail)
      case None => None
    else None
  }

  function BatchRoute(m: Method, id: i64, tail: string): Option<Operation>
  {
    if tail == "" then
      if m == GET then Some(GetBatch(id))
      else if m == DELETE then Some(KillBatch(id))
      else None
    else if tail == "/state" then
      if m == GET then Some(GetBatchState(id)) else None
    else if StartsWith(tail, "/log") then
      if m == GET then
        match ReadFromSize(tail[4..])
        case Some((f, s)) => Some(GetBatchLog(id, f, s))
        case None => None
      else None
    else None
  }

  /** A path under the batches is routed by `BatchesRoute`. */
  lemma BatchesPath(m: Method, path: string, body: Option<Value>)
    requires StartsWith(path, "/batches")
    ensures ParseRequest(m, path, body) == BatchesRoute(m, path[8..], body)
  {
    NotUnderSessions(path);
  }

  lemma NotUnderSessions(path: string)
    requires StartsWith(path, "/batches")
    ensures !StartsWith(path, "/sessions")
  {
    assert path[1] == path[..8][1] == 'b';
    if |path| >= 9 {
      assert path[..9][1] == 'b' && "/sessions"[1] == 's';
    }
  }

  /** A path under one session is routed by `SessionRoute`. */
  lemma SessionItemPath(m: Method, id: i64, tail: string, body: Option<Value>)
    requires Decimal.Delimits(tail)
    ensures ParseRequest(m, "/sessions" + "/" + Id(id) + tail, body) == SessionRoute(m, id, tail, body)
  {
    ItemPath("/sessions", id, tail);
  }

  /** A path under one batch is routed by `BatchRoute`. */
  lemma BatchItemPath(m: Method, id: i64, tail: string, body: Option<Value>)
    requires Decimal.Delimits(tail)
    ensures ParseRequest(m, "/batches" + "/" + Id(id) + tail, body) == BatchRoute(m, id, tail)
  {
    var path := "/batches" + "/" + Id(id) + tail;
    ItemPath("/batches", id, tail);
    BatchesPath(m, path, body);
  }

  /** A path under a collection: the collection, '/', an id and a tail. */
  lemma ItemPath(p: string, id: i64, tail: string)
    requires Decimal.Delimits(tail)
    ensures var path := p + "/" + Id(id) + tail;
      StartsWith(path, p) && path[|p|..] != [] && path[|p|..][0] == '/'
      && ReadId(path[|p|..][1..]) == Some((id, tail))
  {
    var path := p + "/" + Id(id) + tail;
    assert path == p + ("/" + Id(id) + tail);
    StartsWithConcat(p, "/" + Id(id) + tail);
    assert ("/" + Id(id) + tail)[1..] == Id(id) + tail;
    ReadIdOfId(id, tail);
  }

  /** The operations on the collection of sessions route back. */
  lemma SessionListRoutes(op: Operation)
    requires op.GetSessions? || op.CreateSession?
    ensures ParseRequest(MethodOf(op), Path(op), Body(op)) == Some(op)
  {
    StartsWithConcat("/sessions", if op.GetSessions? then FromSize(op.from, op.size) else "");
    if op.GetSessions? {
      Query.QueryStringEmptyIffAllAbsent([Query.Param("from", op.from), Query.Param("size", op.size)]);
      ReadFromSizeOfFromSize(op.from, op.size);
    } else {
      assert Path(op) == "/sessions" + "";
      NewSessionRequestRoundTrip(op.newSession);
    }
  }

  /** The operations on the collection of batches route back. */
  lemma BatchListRoutes(op: Operation)
    requires op.GetBatches? || op.CreateBatch?
    ensures ParseRequest(MethodOf(op), Path(op), Body(op)) == Some(op)
  {
    var rest := if op.GetBatches? then FromSize(op.from, op.size) else "";
    StartsWithConcat("/batches", rest);
    assert Path(op) == "/batches" + rest;
    BatchesPath(MethodOf(op), Path(op), Body(op));
    if op.GetBatches? {
      Query.QueryStringEmptyIffAllAbsent([Query.Param("from", op.from), Query.Param("size", op.size)]);
      ReadFromSizeOfFromSize(op.from, op.size);
    } else {
      assert Path(op) == "/batches" + "";
      NewBatchRequestRoundTrip(op.newBatch);
    }
  }

  /** The operations on one session, named by its id. */
  predicate OnSession(op: Operation)
  {
    op.GetSession? || op.GetSessionState? || op.KillSession? || op.GetSessionLog?
    || op.GetStatements? || op.RunStatement? || op.GetStatement? || op.CancelStatement?
  }

  /** What follows the id in the path of an operation on one session. */
  function SessionTail(op: Operation): string
    requires OnSession(op)
  {
    match op
    case GetSessionLog(_, from, size) => "/log" + FromSize(from, size)
    case GetSessionState(_) => "/state"
    case GetStatements(_) => "/statements"
    case RunStatement(_, _) => "/statements"
    case GetStatement(_, sid) => "/statements/" + Id(sid)
    case CancelStatement(_, sid) => "/statements/" + Id(sid) + "/cancel"
    case _ => ""
  }

  lemma SessionTailRoutes(op: Operation)
    requires OnSession(op)
    ensures SessionRoute(MethodOf(op), op.sessionId, SessionTail(op), Body(op)) == Some(op)
  {
    var tail := SessionTail(op);
    match op
    case GetSessionLog(_, from, size) =>
      StartsWithConcat("/log", FromSize(from, size));
      assert tail[1] == 'l';
      ReadFromSizeOfFromSize(from, size);
    case RunStatement(_, r) =>
      RunStatementRequestRoundTrip(r);
    case GetStatement(_, sid) =>
      StatementTailRoutes(sid, "");
      assert tail == "/statements/" + Id(sid) + "";
    case CancelStatement(_, sid) =>
      StatementTailRoutes(sid, "/cancel");
    case _ =>
  }

  lemma StatementTailRoutes(sid: i64, u: string)
    requires u == "" || u == "/cancel"
    ensures var tail := "/statements/" + Id(sid) + u;
      tail != "" && tail != "/state" && tail != "/statements" && !StartsWith(tail, "/log")
      && StartsWith(tail, "/statements/") && ReadId(tail[12..]) == Some((sid, u))
  {
    var tail := "/statements/" + Id(sid) + u;
    assert tail == "/statements/" + (Id(sid) + u);
    StartsWithConcat("/statements/", Id(sid) + u);
    ReadIdOfId(sid, u);
    assert |tail| > 12 && tail[1] == 's';
  }

  lemma SessionPathShape(op: Operation)
    requires OnSession(op)
    ensures Path(op) == "/sessions" + "/" + Id(op.sessionId) + SessionTail(op)
  {
  }

  /** The operations on one session route back. */
  lemma SessionItemRoutes(op: Operation)
    requires OnSession(op)
    ensures ParseRequest(MethodOf(op), Path(op), Body(op)) == Some(op)
  {
    var tail := SessionTail(op);
    SessionPathShape(op);
    SessionItemPath(MethodOf(op), op.sessionId, tail, Body(op));
    SessionTailRoutes(op);
  }

  /** The operations on one batch, named by its id. */
  predicate OnBatch(op: Operation)
  {
    op.GetBatch? || op.GetBatchState? || op.KillBatch? || op.GetBatchLog?
  }

  function BatchTail(op: Operation): string
    requires OnBatch(op)
  {
    match op
    case GetBatchLog(_, from, size) => "/log" + FromSize(from, size)
    case GetBatchState(_) => "/state"
    case _ => ""
  }

  lemma BatchTailRoutes(op: Operation)
    requires OnBatch(op)
    ensures BatchRoute(MethodOf(op), op.batchId, BatchTail(op)) == Some(op)
  {
    var tail := BatchTail(op);
    if op.GetBatchLog? {
      StartsWithConcat("/log", FromSize(op.from, op.size));
      assert tail[1] == 'l';
      ReadFromSizeOfFromSize(op.from, op.size);
    }
  }

  /** The operations on one batch route back. */
  lemma BatchItemRoutes(op: Operation)
    requires OnBatch(op)
    ensures ParseRequest(MethodOf(op), Path(op), Body(op)) == Some(op)
  {
    var tail := BatchTail(op);
    assert Path(op) == "/batches" + "/" + Id(op.batchId) + tail;
    BatchItemPath(MethodOf(op), op.batchId, tail, Body(op));
    BatchTailRoutes(op);
  }

  /** Every operation's request routes back to that operation: the verb,
      path and body of a request determine the operation and all its
      arguments. */
  lemma RequestRoutesBack(c: Client, op: Operation)
    ensures var r := RequestFor(c, op);
      ParseRequest(r.httpMethod, r.url[|c.url|..], r.body) == Some(op)
  {
    var r := RequestFor(c, op);
    assert r.url[|c.url|..] == Path(op);
    if op.GetSessions? || op.CreateSession? {
      SessionListRoutes(op);
    } else if op.GetBatches? || op.CreateBatch? {
      BatchListRoutes(op);
    } else if OnSession(op) {
      SessionItemRoutes(op);
    } else {
      BatchItemRoutes(op);
    }
  }

  /** Two different operations of one client never send the same request. */
  lemma RequestForInjective(c: Client, op1: Operation, op2: Operation)
    requires RequestFor(c, op1) == RequestFor(c, op2)
    ensures op1 == op2
  {
    RequestRoutesBack(c, op1);
    RequestRoutesBack(c, op2);
  }
}
