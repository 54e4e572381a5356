/** The domain types of src/client.rs and their wire form: three closed
    enumerations tagged by serde's camelCase rule, the request specs whose
    absent optional fields are left out of the JSON body, and the response
    records, each read from (and, as the derives allow, written to) a JSON
    object. */
module LivyTypes {
  import opened Wrappers
  import opened Wire
  import Naming

  // Enumerations

  datatype SessionState = NotStarted | Starting | Idle | Busy | ShuttingDown | Error | Dead | Success

  datatype SessionKind = Spark | Pyspark | Pyspark3 | Sparkr

  datatype StatementState = Waiting | Running | Available | Error | Cancelling | Cancelled

  /** The Rust name of each variant, which the rename rule turns into its tag. */
  function SessionStateName(s: SessionState): string
  {
    match s
    case NotStarted => "NotStarted"
    case Starting => "Starting"
    case Idle => "Idle"
    case Busy => "Busy"
    case ShuttingDown => "ShuttingDown"
    case Error => "Error"
    case Dead => "Dead"
    case Success => "Success"
  }

  function SessionKindName(k: SessionKind): string
  {
    match k
    case Spark => "Spark"
    case Pyspark => "Pyspark"
    case Pyspark3 => "Pyspark3"
    case Sparkr => "Sparkr"
  }

  function StatementStateName(s: StatementState): string
  {
    match s
    case Waiting => "Waiting"
    case Running => "Running"
    case Available => "Available"
    case Error => "Error"
    case Cancelling => "Cancelling"
    case Cancelled => "Cancelled"
  }

  /** The wire tag of a session state. */
  function SessionStateTag(s: SessionState): string
  {
    match s
    case NotStarted => "notStarted"
    case Starting => "starting"
    case Idle => "idle"
    case Busy => "busy"
    case ShuttingDown => "shuttingDown"
    case Error => "error"
    case Dead => "dead"
    case Success => "success"
  }

  function SessionKindTag(k: SessionKind): string
  {
    match k
    case Spark => "spark"
    case Pyspark => "pyspark"
    case Pyspark3 => "pyspark3"
    case Sparkr => "sparkr"
  }

  function StatementStateTag(s: StatementState): string
  {
    match s
    case Waiting => "waiting"
    case Running => "running"
    case Available => "available"
    case Error => "error"
    case Cancelling => "cancelling"
    case Cancelled => "cancelled"
  }

  lemma SessionStateTagSpelledFirst(s: SessionState)
    requires s.NotStarted? || s.Starting? || s.Idle? || s.Busy?
    ensures SessionStateTag(s) == Naming.CamelVariant(SessionStateName(s))
  {
  }

  lemma SessionStateTagSpelledLast(s: SessionState)
    requires s.ShuttingDown? || s.Error? || s.Dead? || s.Success?
    ensures SessionStateTag(s) == Naming.CamelVariant(SessionStateName(s))
  {
  }

  /** Each tag is serde's camelCase of the Rust variant name. */
  lemma SessionStateTagIsCamelCase(s: SessionState)
    ensures SessionStateTag(s) == Naming.CamelVariant(SessionStateName(s))
  {
    if s.NotStarted? || s.Starting? || s.Idle? || s.Busy? {
      SessionStateTagSpelledFirst(s);
    } else {
      SessionStateTagSpelledLast(s);
    }
  }

  lemma SessionKindTagIsCamelCase(k: SessionKind)
    ensures SessionKindTag(k) == Naming.CamelVariant(SessionKindName(k))
  {
  }

  lemma StatementStateTagSpelledFirst(s: StatementState)
    requires s.Waiting? || s.Running? || s.Available?
    ensures StatementStateTag(s) == Naming.CamelVariant(StatementStateName(s))
  {
  }

  lemma StatementStateTagSpelledLast(s: StatementState)
    requires s.Error? || s.Cancelling? || s.Cancelled?
    ensures StatementStateTag(s) == Naming.CamelVariant(StatementStateName(s))
  {
  }

  lemma StatementStateTagIsCamelCase(s: StatementState)
    ensures StatementStateTag(s) == Naming.CamelVariant(StatementStateName(s))
  {
    if s.Waiting? || s.Running? || s.Available? {
      StatementStateTagSpelledFirst(s);
    } else {
      StatementStateTagSpelledLast(s);
    }
  }

  /** The variant whose tag is `t`; no other string names a variant. */
  function ParseSessionState(t: string): (r: Option<SessionState>)
    ensures r.Some? ==> SessionStateTag(r.value) == t
  {
    if t == "notStarted" then Some(NotStarted)
    else if t == "starting" then Some(Starting)
    else if t == "idle" then Some(Idle)
    else if t == "busy" then Some(Busy)
    else if t == "shuttingDown" then Some(ShuttingDown)
    else if t == "error" then Some(SessionState.Error)
    else if t == "dead" then Some(Dead)
    else if t == "success" then Some(Success)
    else None
  }

  function ParseSessionKind(t: string): (r: Option<SessionKind>)
    ensures r.Some? ==> SessionKindTag(r.value) == t
  {
    if t == "spark" then Some(Spark)
    else if t == "pyspark" then Some(Pyspark)
    else if t == "pyspark3" then Some(Pyspark3)
    else if t == "sparkr" then Some(Sparkr)
    else None
  }

  function ParseStatementState(t: string): (r: Option<StatementState>)
    ensures r.Some? ==> StatementStateTag(r.value) == t
  {
    if t == "waiting" then Some(Waiting)
    else if t == "running" then Some(Running)
    else if t == "available" then Some(Available)
    else if t == "error" then Some(StatementState.Error)
    else if t == "cancelling" then Some(Cancelling)
    else if t == "cancelled" then Some(Cancelled)
    else None
  }

  lemma SessionStateTagRoundTrip(s: SessionState)
    ensures ParseSessionState(SessionStateTag(s)) == Some(s)
  {
  }

  lemma SessionKindTagRoundTrip(k: SessionKind)
    ensures ParseSessionKind(SessionKindTag(k)) == Some(k)
  {
  }

  lemma StatementStateTagRoundTrip(s: StatementState)
    ensures ParseStatementState(StatementStateTag(s)) == Some(s)
  {
  }

  /** Distinct variants carry distinct tags. */
  lemma TagsDistinct()
    ensures forall a, b: SessionState :: a != b ==> SessionStateTag(a) != SessionStateTag(b)
    ensures forall a, b: SessionKind :: a != b ==> SessionKindTag(a) != SessionKindTag(b)
    ensures forall a, b: StatementState :: a != b ==> StatementStateTag(a) != StatementStateTag(b)
  {
    forall a: SessionState { SessionStateTagRoundTrip(a); }
    forall a: SessionKind { SessionKindTagRoundTrip(a); }
    forall a: StatementState { StatementStateTagRoundTrip(a); }
  }

  function EncodeSessionState(s: SessionState): Value { Str(SessionStateTag(s)) }
  function EncodeSessionKind(k: SessionKind): Value { Str(SessionKindTag(k)) }
  function EncodeStatementState(s: StatementState): Value { Str(StatementStateTag(s)) }

  /** A unit variant is read from its tag string; anything else is an error
      (serde's one-key object form of a unit variant is not modelled). */
  function DecodeSessionState(v: Value): (r: Result<SessionState, string>)
    ensures r.Ok? ==> v == EncodeSessionState(r.value)
  {
    if v.Str? && ParseSessionState(v.s).Some? then Ok(ParseSessionState(v.s).value)
    else Err("unknown variant, expected a session state")
  }

  function DecodeSessionKind(v: Value): (r: Result<SessionKind, string>)
    ensures r.Ok? ==> v == EncodeSessionKind(r.value)
  {
    if v.Str? && ParseSessionKind(v.s).Some? then Ok(ParseSessionKind(v.s).value)
    else Err("unknown variant, expected a session kind")
  }

  function DecodeStatementState(v: Value): (r: Result<StatementState, string>)
    ensures r.Ok? ==> v == EncodeStatementState(r.value)
  {
    if v.Str? && ParseStatementState(v.s).Some? then Ok(ParseStatementState(v.s).value)
    else Err("unknown variant, expected a statement state")
  }

  /** Every variant reads back from its own encoding. */
  lemma EnumRoundTrips(a: SessionState, k: SessionKind, b: StatementState)
    ensures DecodeSessionState(EncodeSessionState(a)) == Ok(a)
    ensures DecodeSessionKind(EncodeSessionKind(k)) == Ok(k)
    ensures DecodeStatementState(EncodeStatementState(b)) == Ok(b)
  {
    SessionStateTagRoundTrip(a);
    SessionKindTagRoundTrip(k);
    StatementStateTagRoundTrip(b);
  }

  // Request specs (sent as the body of a POST)

  datatype NewSessionRequest = NewSessionRequest(
    kind: SessionKind,
    proxyUser: Option<string>,
    jars: Option<seq<string>>,
    pyFiles: Option<seq<string>>,
    files: Option<seq<string>>,
    driverMemory: Option<string>,
    driverCores: Option<i64>,
    executorMemory: Option<string>,
    executorCores: Option<i64>,
    numExecutors: Option<i64>,
    archives: Option<seq<string>>,
    queue: Option<string>,
    name: Option<string>,
    conf: Option<map<string, string>>,
    heartbeatTimeoutInSecond: Option<i64>)

  datatype RunStatementRequest = RunStatementRequest(code: string)

  datatype NewBatchRequest = NewBatchRequest(
    file: string,
    proxyUser: Option<string>,
    className: Option<string>,
    args: Option<seq<string>>,
    jars: Option<seq<string>>,
    pyFiles: Option<seq<string>>,
    files: Option<seq<string>>,
    driverMemory: Option<string>,
    driverCores: Option<i64>,
    executorMemory: Option<string>,
    executorCores: Option<i64>,
    numExecutors: Option<i64>,
    archives: Option<seq<string>>,
    queue: Option<string>,
    name: Option<string>,
    conf: Option<map<string, string>>)

  /** The fields of the two request specs, `NewSessionRequest` and
      `NewBatchRequest`, which share most of them. */
  datatype SpecField =
    | Kind | File | ProxyUser | ClassName | Args | Jars | PyFiles | Files
    | DriverMemory | DriverCores | ExecutorMemory | ExecutorCores | NumExecutors
    | Archives | Queue | Name | Conf | HeartbeatTimeoutInSecond

  /** The words of each field's Rust name. */
  function SpecFieldWords(f: SpecField): (ws: seq<string>)
    ensures ws != [] && Naming.AllWords(ws)
  {
    match f
    case Kind => ["kind"]
    case File => ["file"]
    case ProxyUser => ["proxy", "user"]
    case ClassName => ["class", "name"]
    case Args => ["args"]
    case Jars => ["jars"]
    case PyFiles => ["py", "files"]
    case Files => ["files"]
    case DriverMemory => ["driver", "memory"]
    case DriverCores => ["driver", "cores"]
    case ExecutorMemory => ["executor", "memory"]
    case ExecutorCores => ["executor", "cores"]
    case NumExecutors => ["num", "executors"]
    case Archives => ["archives"]
    case Queue => ["queue"]
    case Name => ["name"]
    case Conf => ["conf"]
    case HeartbeatTimeoutInSecond => ["heartbeat", "timeout", "in", "second"]
  }

  /** The Rust name of each field, e.g. `proxy_user`. */
  function SpecFieldName(f: SpecField): string
  {
    Naming.SnakeJoin(SpecFieldWords(f))
  }

  /** The wire key of each field. */
  function SpecKey(f: SpecField): string
  {
    match f
    case Kind => "kind"
    case File => "file"
    case ProxyUser => "proxyUser"
    case ClassName => "className"
    case Args => "args"
    case Jars => "jars"
    case PyFiles => "pyFiles"
    case Files => "files"
    case DriverMemory => "driverMemory"
    case DriverCores => "driverCores"
    case ExecutorMemory => "executorMemory"
    case ExecutorCores => "executorCores"
    case NumExecutors => "numExecutors"
    case Archives => "archives"
    case Queue => "queue"
    case Name => "name"
    case Conf => "conf"
    case HeartbeatTimeoutInSecond => "heartbeatTimeoutInSecond"
  }

  /** The field a key names, if any: the inverse of `SpecKey`. */
  function SpecFieldOfKey(k: string): (r: Option<SpecField>)
    ensures r.Some? ==> SpecKey(r.value) == k
  {
    if k == "kind" then Some(Kind)
    else if k == "file" then Some(File)
    else if k == "proxyUser" then Some(ProxyUser)
    else if k == "className" then Some(ClassName)
    else if k == "args" then Some(Args)
    else if k == "jars" then Some(Jars)
    else if k == "pyFiles" then Some(PyFiles)
    else if k == "files" then Some(Files)
    else if k == "driverMemory" then Some(DriverMemory)
    else if k == "driverCores" then Some(DriverCores)
    else if k == "executorMemory" then Some(ExecutorMemory)
    else if k == "executorCores" then Some(ExecutorCores)
    else if k == "numExecutors" then Some(NumExecutors)
    else if k == "archives" then Some(Archives)
    else if k == "queue" then Some(Queue)
    else if k == "name" then Some(Name)
    else if k == "conf" then Some(Conf)
    else if k == "heartbeatTimeoutInSecond" then Some(HeartbeatTimeoutInSecond)
    else None
  }

  lemma SpecFieldOfKeyInverse(f: SpecField)
    ensures SpecFieldOfKey(SpecKey(f)) == Some(f)
  {
  }

  /** Distinct fields have distinct keys. */
  lemma SpecKeyInjective(f: SpecField, g: SpecField)
    ensures SpecKey(f) == SpecKey(g) <==> f == g
  {
    SpecFieldOfKeyInverse(f);
    SpecFieldOfKeyInverse(g);
  }
  lemma SpecKeySpelledPart0(f: SpecField)
    requires f.Kind? || f.File? || f.ProxyUser? || f.ClassName?
    ensures SpecKey(f) == Naming.CamelJoin(SpecFieldWords(f))
  {
    if f.Kind? { assert SpecKey(Kind) == Naming.CamelJoin(["kind"]); }
    else if f.File? { assert SpecKey(File) == Naming.CamelJoin(["file"]); }
    else if f.ProxyUser? { assert SpecKey(ProxyUser) == Naming.CamelJoin(["proxy", "user"]); }
    else if f.ClassName? { assert SpecKey(ClassName) == Naming.CamelJoin(["class", "name"]); }
  }

  lemma SpecKeySpelledPart1(f: SpecField)
    requires f.Args? || f.Jars? || f.PyFiles? || f.Files?
    ensures SpecKey(f) == Naming.CamelJoin(SpecFieldWords(f))
  {
    if f.Args? { assert SpecKey(Args) == Naming.CamelJoin(["args"]); }
    else if f.Jars? { assert SpecKey(Jars) == Naming.CamelJoin(["jars"]); }
    else if f.PyFiles? { assert SpecKey(PyFiles) == Naming.CamelJoin(["py", "files"]); }
    else if f.Files? { assert SpecKey(Files) == Naming.CamelJoin(["files"]); }
  }

  lemma SpecKeySpelledPart2(f: SpecField)
    requires f.DriverMemory? || f.DriverCores? || f.ExecutorMemory? || f.ExecutorCores?
    ensures SpecKey(f) == Naming.CamelJoin(SpecFieldWords(f))
  {
    if f.DriverMemory? { assert SpecKey(DriverMemory) == Naming.CamelJoin(["driver", "memory"]); }
    else if f.DriverCores? { assert SpecKey(DriverCores) == Naming.CamelJoin(["driver", "cores"]); }
    else if f.ExecutorMemory? { assert SpecKey(ExecutorMemory) == Naming.CamelJoin(["executor", "memory"]); }
    else if f.ExecutorCores? { assert SpecKey(ExecutorCores) == Naming.CamelJoin(["executor", "cores"]); }
  }

  lemma SpecKeySpelledPart3(f: SpecField)
    requires f.NumExecutors? || f.Archives? || f.Queue? || f.Name?
    ensures SpecKey(f) == Naming.CamelJoin(SpecFieldWords(f))
  {
    if f.NumExecutors? { assert SpecKey(NumExecutors) == Naming.CamelJoin(["num", "executors"]); }
    else if f.Archives? { assert SpecKey(Archives) == Naming.CamelJoin(["archives"]); }
    else if f.Queue? { assert SpecKey(Queue) == Naming.CamelJoin(["queue"]); }
    else if f.Name? { assert SpecKey(Name) == Naming.CamelJoin(["name"]); }
  }

  lemma SpecKeySpelledPart4(f: SpecField)
    requires f.Conf? || f.HeartbeatTimeoutInSecond?
    ensures SpecKey(f) == Naming.CamelJoin(SpecFieldWords(f))
  {
    if f.Conf? { assert SpecKey(Conf) == Naming.CamelJoin(["conf"]); }
    else if f.HeartbeatTimeoutInSecond? { assert SpecKey(HeartbeatTimeoutInSecond) == Naming.CamelJoin(["heartbeat", "timeout", "in", "second"]); }
  }

  /** Each key is the field's words joined in camelCase. */
  lemma SpecKeySpelled(f: SpecField) ensures SpecKey(f) == Naming.CamelJoin(SpecFieldWords(f))
  {
    if f.Kind? || f.File? || f.ProxyUser? || f.ClassName? { SpecKeySpelledPart0(f); }
    else if f.Args? || f.Jars? || f.PyFiles? || f.Files? { SpecKeySpelledPart1(f); }
    else if f.DriverMemory? || f.DriverCores? || f.ExecutorMemory? || f.ExecutorCores? { SpecKeySpelledPart2(f); }
    else if f.NumExecutors? || f.Archives? || f.Queue? || f.Name? { SpecKeySpelledPart3(f); }
    else { SpecKeySpelledPart4(f); }
  }

  /** Each key is serde's camelCase of the field's Rust name, as both specs
      are marked `rename_all = "camelCase"`. */
  lemma SpecKeyIsCamelCase(f: SpecField)
    ensures SpecKey(f) == Naming.CamelField(SpecFieldName(f))
  {
    SpecKeySpelled(f);
    Naming.CamelOfSnake(SpecFieldWords(f));
  }

  /** No two fields share a key. */
  lemma SpecKeysInjective()
    ensures forall f, g :: SpecKey(f) == SpecKey(g) ==> f == g
  {
    forall f, g | SpecKey(f) == SpecKey(g) ensures f == g {
      SpecKeyInjective(f, g);
    }
  }

  /** The object serde writes for the fields `fs` of a struct, in declaration
      order, where `w(f)` is the JSON of field `f` or `None` when it is skipped. */
  function FieldsObject(fs: seq<SpecField>, w: SpecField -> Option<Value>): (m: Object)
    ensures forall f :: SpecKey(f) in m <==> f in fs && w(f).Some?
    ensures forall f :: f in fs && w(f).Some? ==> m[SpecKey(f)] == w(f).value
    ensures forall k :: k in m ==> exists f :: SpecKey(f) == k && f in fs && w(f).Some?
  {
    if fs == [] then map[]
    else
      var m := FieldsObject(fs[..|fs| - 1], w);
      var f := fs[|fs| - 1];
      assert forall g :: g in fs <==> g in fs[..|fs| - 1] || g == f;
      SpecKeysInjective();
      match w(f)
      case None => m
      case Some(x) => m[SpecKey(f) := x]
  }

  // The JSON body of a `NewSessionRequest`

  /** The fields that make up a `NewSessionRequest`, in declaration order. */
  const SessionFields: seq<SpecField> := [Kind, ProxyUser, Jars, PyFiles, Files, DriverMemory, DriverCores, ExecutorMemory, ExecutorCores, NumExecutors, Archives, Queue, Name, Conf, HeartbeatTimeoutInSecond]

  /** The JSON a `NewSessionRequest` writes for field `f`: `None` when the field is absent
      (serde skips it) or not a field of this spec. */
  function SessionFieldValue(r: NewSessionRequest, f: SpecField): (w: Option<Value>)
    ensures w.Some? ==> f in SessionFields
  {
    match f
    case Kind => Some(EncodeSessionKind(r.kind))
    case ProxyUser => Written(r.proxyUser, OfString)
    case Jars => Written(r.jars, OfStrings)
    case PyFiles => Written(r.pyFiles, OfStrings)
    case Files => Written(r.files, OfStrings)
    case DriverMemory => Written(r.driverMemory, OfString)
    case DriverCores => Written(r.driverCores, OfI64)
    case ExecutorMemory => Written(r.executorMemory, OfString)
    case ExecutorCores => Written(r.executorCores, OfI64)
    case NumExecutors => Written(r.numExecutors, OfI64)
    case Archives => Written(r.archives, OfStrings)
    case Queue => Written(r.queue, OfString)
    case Name => Written(r.name, OfString)
    case Conf => Written(r.conf, OfStringMap)
    case HeartbeatTimeoutInSecond => Written(r.heartbeatTimeoutInSecond, OfI64)
    case File | ClassName | Args => None
  }

  /** serde's Serialize for `NewSessionRequest`: an object keyed by the camelCase field
      names holding exactly the fields that are present. */
  function EncodeNewSessionRequest(r: NewSessionRequest): (v: Value)
    ensures v.Obj?
    ensures forall f :: SpecKey(f) in v.fields <==> SessionFieldValue(r, f).Some?
    ensures forall f :: SessionFieldValue(r, f).Some? ==> v.fields[SpecKey(f)] == SessionFieldValue(r, f).value
    ensures forall k :: k in v.fields ==> exists f :: SpecKey(f) == k && SessionFieldValue(r, f).Some?
  {
    Obj(FieldsObject(SessionFields, f => SessionFieldValue(r, f)))
  }

  /** serde's Deserialize for `NewSessionRequest`: `kind` is required, every other
      field may be missing or null, and unknown keys are ignored. */
  function DecodeNewSessionRequest(v: Value): (r: Result<NewSessionRequest, string>)
    ensures !v.Obj? ==> r.Err?
    ensures v.Obj? && SpecKey(Kind) !in v.fields ==> r.Err?
  {
    if !v.Obj? then Err("invalid type: expected struct NewSessionRequest")
    else
      var o := v.fields;
      var kind :- Required(o, SpecKey(Kind), DecodeSessionKind);
      var proxyUser :- Optional(o, SpecKey(ProxyUser), AsString);
      var jars :- Optional(o, SpecKey(Jars), AsStrings);
      var pyFiles :- Optional(o, SpecKey(PyFiles), AsStrings);
      var files :- Optional(o, SpecKey(Files), AsStrings);
      var driverMemory :- Optional(o, SpecKey(DriverMemory), AsString);
      var driverCores :- Optional(o, SpecKey(DriverCores), AsI64);
      var executorMemory :- Optional(o, SpecKey(ExecutorMemory), AsString);
      var executorCores :- Optional(o, SpecKey(ExecutorCores), AsI64);
      var numExecutors :- Optional(o, SpecKey(NumExecutors), AsI64);
      var archives :- Optional(o, SpecKey(Archives), AsStrings);
      var queue :- Optional(o, SpecKey(Queue), AsString);
      var name :- Optional(o, SpecKey(Name), AsString);
      var conf :- Optional(o, SpecKey(Conf), AsStringMap);
      var heartbeatTimeoutInSecond :- Optional(o, SpecKey(HeartbeatTimeoutInSecond), AsI64);
      Ok(NewSessionRequest(kind, proxyUser, jars, pyFiles, files, driverMemory, driverCores, executorMemory, executorCores, numExecutors, archives, queue, name, conf, heartbeatTimeoutInSecond))
  }

  lemma NewSessionRequestPart0ReadsBack(r: NewSessionRequest, o: Object)
    requires forall f :: SpecKey(f) in o <==> SessionFieldValue(r, f).Some?
    requires forall f :: SessionFieldValue(r, f).Some? ==> o[SpecKey(f)] == SessionFieldValue(r, f).value
    ensures Optional(o, SpecKey(ProxyUser), AsString) == Ok(r.proxyUser)
    ensures Optional(o, SpecKey(Jars), AsStrings) == Ok(r.jars)
    ensures Optional(o, SpecKey(PyFiles), AsStrings) == Ok(r.pyFiles)
    ensures Optional(o, SpecKey(Files), AsStrings) == Ok(r.files)
    ensures Optional(o, SpecKey(DriverMemory), AsString) == Ok(r.driverMemory)
  {
    WrittenRoundTrip(o, SpecKey(ProxyUser), r.proxyUser, OfString, AsString);
    if r.jars.Some? { StringsRoundTrip(r.jars.value); }
    WrittenRoundTrip(o, SpecKey(Jars), r.jars, OfStrings, AsStrings);
    if r.pyFiles.Some? { StringsRoundTrip(r.pyFiles.value); }
    WrittenRoundTrip(o, SpecKey(PyFiles), r.pyFiles, OfStrings, AsStrings);
    if r.files.Some? { StringsRoundTrip(r.files.value); }
    WrittenRoundTrip(o, SpecKey(Files), r.files, OfStrings, AsStrings);
    WrittenRoundTrip(o, SpecKey(DriverMemory), r.driverMemory, OfString, AsString);
  }

  lemma NewSessionRequestPart1ReadsBack(r: NewSessionRequest, o: Object)
    requires forall f :: SpecKey(f) in o <==> SessionFieldValue(r, f).Some?
    requires forall f :: SessionFieldValue(r, f).Some? ==> o[SpecKey(f)] == SessionFieldValue(r, f).value
    ensures Optional(o, SpecKey(DriverCores), AsI64) == Ok(r.driverCores)
    ensures Optional(o, SpecKey(ExecutorMemory), AsString) == Ok(r.executorMemory)
    ensures Optional(o, SpecKey(ExecutorCores), AsI64) == Ok(r.executorCores)
    ensures Optional(o, SpecKey(NumExecutors), AsI64) == Ok(r.numExecutors)
    ensures Optional(o, SpecKey(Archives), AsStrings) == Ok(r.archives)
  {
    WrittenRoundTrip(o, SpecKey(DriverCores), r.driverCores, OfI64, AsI64);
    WrittenRoundTrip(o, SpecKey(ExecutorMemory), r.executorMemory, OfString, AsString);
    WrittenRoundTrip(o, SpecKey(ExecutorCores), r.executorCores, OfI64, AsI64);
    WrittenRoundTrip(o, SpecKey(NumExecutors), r.numExecutors, OfI64, AsI64);
    if r.archives.Some? { StringsRoundTrip(r.archives.value); }
    WrittenRoundTrip(o, SpecKey(Archives), r.archives, OfStrings, AsStrings);
  }

  lemma NewSessionRequestPart2ReadsBack(r: NewSessionRequest, o: Object)
    requires forall f :: SpecKey(f) in o <==> SessionFieldValue(r, f).Some?
    requires forall f :: SessionFieldValue(r, f).Some? ==> o[SpecKey(f)] == SessionFieldValue(r, f).value
    ensures Optional(o, SpecKey(Queue), AsString) == Ok(r.queue)
    ensures Optional(o, SpecKey(Name), AsString) == Ok(r.name)
    ensures Optional(o, SpecKey(Conf), AsStringMap) == Ok(r.conf)
    ensures Optional(o, SpecKey(HeartbeatTimeoutInSecond), AsI64) == Ok(r.heartbeatTimeoutInSecond)
  {
    WrittenRoundTrip(o, SpecKey(Queue), r.queue, OfString, AsString);
    WrittenRoundTrip(o, SpecKey(Name), r.name, OfString, AsString);
    if r.conf.Some? { StringMapRoundTrip(r.conf.value); }
    WrittenRoundTrip(o, SpecKey(Conf), r.conf, OfStringMap, AsStringMap);
    WrittenRoundTrip(o, SpecKey(HeartbeatTimeoutInSecond), r.heartbeatTimeoutInSecond, OfI64, AsI64);
  }

  /** A `NewSessionRequest` reads back from the body it is sent as. */
  lemma NewSessionRequestRoundTrip(r: NewSessionRequest)
    ensures DecodeNewSessionRequest(EncodeNewSessionRequest(r)) == Ok(r)
  {
    EnumRoundTrips(Idle, r.kind, Waiting);
    NewSessionRequestPart0ReadsBack(r, EncodeNewSessionRequest(r).fields);
    NewSessionRequestPart1ReadsBack(r, EncodeNewSessionRequest(r).fields);
    NewSessionRequestPart2ReadsBack(r, EncodeNewSessionRequest(r).fields);
  }

  // The JSON body of a `NewBatchRequest`

  /** The fields that make up a `NewBatchRequest`, in declaration order. */
  const BatchFields: seq<SpecField> := [File, ProxyUser, ClassName, Args, Jars, PyFiles, Files, DriverMemory, DriverCores, ExecutorMemory, ExecutorCores, NumExecutors, Archives, Queue, Name, Conf]

  /** The JSON a `NewBatchRequest` writes for field `f`: `None` when the field is absent
      (serde skips it) or not a field of this spec. */
  function BatchFieldValue(r: NewBatchRequest, f: SpecField): (w: Option<Value>)
    ensures w.Some? ==> f in BatchFields
  {
    match f
    case File => Some(OfString(r.file))
    case ProxyUser => Written(r.proxyUser, OfString)
    case ClassName => Written(r.className, OfString)
    case Args => Written(r.args, OfStrings)
    case Jars => Written(r.jars, OfStrings)
    case PyFiles => Written(r.pyFiles, OfStrings)
    case Files => Written(r.files, OfStrings)
    case DriverMemory => Written(r.driverMemory, OfString)
    case DriverCores => Written(r.driverCores, OfI64)
    case ExecutorMemory => Written(r.executorMemory, OfString)
    case ExecutorCores => Written(r.executorCores, OfI64)
    case NumExecutors => Written(r.numExecutors, OfI64)
    case Archives => Written(r.archives, OfStrings)
    case Queue => Written(r.queue, OfString)
    case Name => Written(r.name, OfString)
    case Conf => Written(r.conf, OfStringMap)
    case Kind | HeartbeatTimeoutInSecond => None
  }

  /** serde's Serialize for `NewBatchRequest`: an object keyed by the camelCase field
      names holding exactly the fields that are present. */
  function EncodeNewBatchRequest(r: NewBatchRequest): (v: Value)
    ensures v.Obj?
    ensures forall f :: SpecKey(f) in v.fields <==> BatchFieldValue(r, f).Some?
    ensures forall f :: BatchFieldValue(r, f).Some? ==> v.fields[SpecKey(f)] == BatchFieldValue(r, f).value
    ensures forall k :: k in v.fields ==> exists f :: SpecKey(f) == k && BatchFieldValue(r, f).Some?
  {
    Obj(FieldsObject(BatchFields, f => BatchFieldValue(r, f)))
  }

  /** serde's Deserialize for `NewBatchRequest`: `file` is required, every other
      field may be missing or null, and unknown keys are ignored. */
  function DecodeNewBatchRequest(v: Value): (r: Result<NewBatchRequest, string>)
    ensures !v.Obj? ==> r.Err?
    ensures v.Obj? && SpecKey(File) !in v.fields ==> r.Err?
  {
    if !v.Obj? then Err("invalid type: expected struct NewBatchRequest")
    else
      var o := v.fields;
      var file :- Required(o, SpecKey(File), AsString);
      var proxyUser :- Optional(o, SpecKey(ProxyUser), AsString);
      var className :- Optional(o, SpecKey(ClassName), AsString);
      var args :- Optional(o, SpecKey(Args), AsStrings);
      var jars :- Optional(o, SpecKey(Jars), AsStrings);
      var pyFiles :- Optional(o, SpecKey(PyFiles), AsStrings);
      var files :- Optional(o, SpecKey(Files), AsStrings);
      var driverMemory :- Optional(o, SpecKey(DriverMemory), AsString);
      var driverCores :- Optional(o, SpecKey(DriverCores), AsI64);
      var executorMemory :- Optional(o, SpecKey(ExecutorMemory), AsString);
      var executorCores :- Optional(o, SpecKey(ExecutorCores), AsI64);
      var numExecutors :- Optional(o, SpecKey(NumExecutors), AsI64);
      var archives :- Optional(o, SpecKey(Archives), AsStrings);
      var queue :- Optional(o, SpecKey(Queue), AsString);
      var name :- Optional(o, SpecKey(Name), AsString);
      var conf :- Optional(o, SpecKey(Conf), AsStringMap);
      Ok(NewBatchRequest(file, proxyUser, className, args, jars, pyFiles, files, driverMemory, driverCores, executorMemory, executorCores, numExecutors, archives, queue, name, conf))
  }

  lemma NewBatchRequestPart0ReadsBack(r: NewBatchRequest, o: Object)
    requires forall f :: SpecKey(f) in o <==> BatchFieldValue(r, f).Some?
    requires forall f :: BatchFieldValue(r, f).Some? ==> o[SpecKey(f)] == BatchFieldValue(r, f).value
    ensures Optional(o, SpecKey(ProxyUser), AsString) == Ok(r.proxyUser)
    ensures Optional(o, SpecKey(ClassName), AsString) == Ok(r.className)
    ensures Optional(o, SpecKey(Args), AsStrings) == Ok(r.args)
    ensures Optional(o, SpecKey(Jars), AsStrings) == Ok(r.jars)
    ensures Optional(o, SpecKey(PyFiles), AsStrings) == Ok(r.pyFiles)
  {
    WrittenRoundTrip(o, SpecKey(ProxyUser), r.proxyUser, OfString, AsString);
    WrittenRoundTrip(o, SpecKey(ClassName), r.className, OfString, AsString);
    if r.args.Some? { StringsRoundTrip(r.args.value); }
    WrittenRoundTrip(o, SpecKey(Args), r.args, OfStrings, AsStrings);
    if r.jars.Some? { StringsRoundTrip(r.jars.value); }
    WrittenRoundTrip(o, SpecKey(Jars), r.jars, OfStrings, AsStrings);
    if r.pyFiles.Some? { StringsRoundTrip(r.pyFiles.value); }
    WrittenRoundTrip(o, SpecKey(PyFiles), r.pyFiles, OfStrings, AsStrings);
  }

  lemma NewBatchRequestPart1ReadsBack(r: NewBatchRequest, o: Object)
    requires forall f :: SpecKey(f) in o <==> BatchFieldValue(r, f).Some?
    requires forall f :: BatchFieldValue(r, f).Some? ==> o[SpecKey(f)] == BatchFieldValue(r, f).value
    ensures Optional(o, SpecKey(Files), AsStrings) == Ok(r.files)
    ensures Optional(o, SpecKey(DriverMemory), AsString) == Ok(r.driverMemory)
    ensures Optional(o, SpecKey(DriverCores), AsI64) == Ok(r.driverCores)
    ensures Optional(o, SpecKey(ExecutorMemory), AsString) == Ok(r.executorMemory)
    ensures Optional(o, SpecKey(ExecutorCores), AsI64) == Ok(r.executorCores)
  {
    if r.files.Some? { StringsRoundTrip(r.files.value); }
    WrittenRoundTrip(o, SpecKey(Files), r.files, OfStrings, AsStrings);
    WrittenRoundTrip(o, SpecKey(DriverMemory), r.driverMemory, OfString, AsString);
    WrittenRoundTrip(o, SpecKey(DriverCores), r.driverCores, OfI64, AsI64);
    WrittenRoundTrip(o, SpecKey(ExecutorMemory), r.executorMemory, OfString, AsString);
    WrittenRoundTrip(o, SpecKey(ExecutorCores), r.executorCores, OfI64, AsI64);
  }

  lemma NewBatchRequestPart2ReadsBack(r: NewBatchRequest, o: Object)
    requires forall f :: SpecKey(f) in o <==> BatchFieldValue(r, f).Some?
    requires forall f :: BatchFieldValue(r, f).Some? ==> o[SpecKey(f)] == BatchFieldValue(r, f).value
    ensures Optional(o, SpecKey(NumExecutors), AsI64) == Ok(r.numExecutors)
    ensures Optional(o, SpecKey(Archives), AsStrings) == Ok(r.archives)
    ensures Optional(o, SpecKey(Queue), AsString) == Ok(r.queue)
    ensures Optional(o, SpecKey(Name), AsString) == Ok(r.name)
    ensures Optional(o, SpecKey(Conf), AsStringMap) == Ok(r.conf)
  {
    WrittenRoundTrip(o, SpecKey(NumExecutors), r.numExecutors, OfI64, AsI64);
    if r.archives.Some? { StringsRoundTrip(r.archives.value); }
    WrittenRoundTrip(o, SpecKey(Archives), r.archives, OfStrings, AsStrings);
    WrittenRoundTrip(o, SpecKey(Queue), r.queue, OfString, AsString);
    WrittenRoundTrip(o, SpecKey(Name), r.name, OfString, AsString);
    if r.conf.Some? { StringMapRoundTrip(r.conf.value); }
    WrittenRoundTrip(o, SpecKey(Conf), r.conf, OfStringMap, AsStringMap);
  }

  /** A `NewBatchRequest` reads back from the body it is sent as. */
  lemma NewBatchRequestRoundTrip(r: NewBatchRequest)
    ensures DecodeNewBatchRequest(EncodeNewBatchRequest(r)) == Ok(r)
  {
    NewBatchRequestPart0ReadsBack(r, EncodeNewBatchRequest(r).fields);
    NewBatchRequestPart1ReadsBack(r, EncodeNewBatchRequest(r).fields);
    NewBatchRequestPart2ReadsBack(r, EncodeNewBatchRequest(r).fields);
  }

  /** What the encoders promise about the object they build: it holds the key
      of a field exactly when the field is written, and then its JSON. */
  predicate Describes(o: Object, w: SpecField -> Option<Value>)
  {
    && (forall f :: SpecKey(f) in o <==> w(f).Some?)
    && (forall f :: w(f).Some? ==> o[SpecKey(f)] == w(f).value)
    && (forall k :: k in o ==> exists f :: SpecKey(f) == k && w(f).Some?)
  }

  /** An object that describes a single written field holds that key alone. */
  lemma DescribesOne(o: Object, w: SpecField -> Option<Value>, f: SpecField)
    requires Describes(o, w)
    requires w(f).Some? && forall g :: g != f ==> w(g).None?
    ensures o == map[SpecKey(f) := w(f).value]
  {
    forall k | k in o ensures k == SpecKey(f) {
      var g :| SpecKey(g) == k && w(g).Some?;
    }
  }

  /** The smallest session spec: only its kind. */
  function MinimalSessionRequest(k: SessionKind): NewSessionRequest
  {
    NewSessionRequest(k, None, None, None, None, None, None, None, None, None, None, None, None, None, None)
  }

  /** The smallest batch spec: only its file. */
  function MinimalBatchRequest(file: string): NewBatchRequest
  {
    NewBatchRequest(file, None, None, None, None, None, None, None, None, None, None, None, None, None, None, None)
  }

  lemma MinimalSessionRequestWritesKind(k: SessionKind)
    ensures SessionFieldValue(MinimalSessionRequest(k), Kind) == Some(Str(SessionKindTag(k)))
    ensures forall g :: g != Kind ==> SessionFieldValue(MinimalSessionRequest(k), g).None?
  {
  }

  lemma MinimalBatchRequestWritesFile(file: string)
    ensures BatchFieldValue(MinimalBatchRequest(file), File) == Some(Str(file))
    ensures forall g :: g != File ==> BatchFieldValue(MinimalBatchRequest(file), g).None?
  {
  }

  /** The smallest session spec is sent as `{"kind": tag}`. */
  lemma MinimalSessionRequestBody(k: SessionKind)
    ensures EncodeNewSessionRequest(MinimalSessionRequest(k)) == Obj(map["kind" := Str(SessionKindTag(k))])
  {
    var r := MinimalSessionRequest(k);
    MinimalSessionRequestWritesKind(k);
    DescribesOne(EncodeNewSessionRequest(r).fields, f => SessionFieldValue(r, f), Kind);
  }

  /** The smallest batch spec is sent as `{"file": file}`. */
  lemma MinimalBatchRequestBody(file: string)
    ensures EncodeNewBatchRequest(MinimalBatchRequest(file)) == Obj(map["file" := Str(file)])
  {
    var r := MinimalBatchRequest(file);
    MinimalBatchRequestWritesFile(file);
    DescribesOne(EncodeNewBatchRequest(r).fields, f => BatchFieldValue(r, f), File);
  }

  /** A session spec never carries the batch-only keys, and a batch spec
      never carries `kind` or `heartbeatTimeoutInSecond`. */
  lemma SpecsKeepToTheirFields(s: NewSessionRequest, b: NewBatchRequest)
    ensures "file" !in EncodeNewSessionRequest(s).fields
    ensures "className" !in EncodeNewSessionRequest(s).fields
    ensures "args" !in EncodeNewSessionRequest(s).fields
    ensures "kind" !in EncodeNewBatchRequest(b).fields
    ensures "heartbeatTimeoutInSecond" !in EncodeNewBatchRequest(b).fields
  {
    SessionSpecLacksBatchKeys(s, EncodeNewSessionRequest(s).fields);
    BatchSpecLacksSessionKeys(b, EncodeNewBatchRequest(b).fields);
  }

  lemma SessionSpecLacksBatchKeys(s: NewSessionRequest, o: Object)
    requires forall f :: SpecKey(f) in o <==> SessionFieldValue(s, f).Some?
    ensures "file" !in o && "className" !in o && "args" !in o
  {
    assert SpecKey(File) == "file" && SpecKey(ClassName) == "className" && SpecKey(Args) == "args";
  }

  lemma BatchSpecLacksSessionKeys(b: NewBatchRequest, o: Object)
    requires forall f :: SpecKey(f) in o <==> BatchFieldValue(b, f).Some?
    ensures "kind" !in o && "heartbeatTimeoutInSecond" !in o
  {
    assert SpecKey(Kind) == "kind" && SpecKey(HeartbeatTimeoutInSecond) == "heartbeatTimeoutInSecond";
  }

  // The JSON body of a `RunStatementRequest`

  function EncodeRunStatementRequest(r: RunStatementRequest): (v: Value)
    ensures v.Obj? && v.fields.Keys == {"code"} && v.fields["code"] == Str(r.code)
  {
    Obj(map["code" := Str(r.code)])
  }

  /** `code` is required and must be a string. */
  function DecodeRunStatementRequest(v: Value): (r: Result<RunStatementRequest, string>)
    ensures r.Ok? <==> v.Obj? && "code" in v.fields && v.fields["code"].Str?
    ensures r.Ok? ==> r.value.code == v.fields["code"].s
  {
    if !v.Obj? then Err("invalid type: expected struct RunStatementRequest")
    else
      var code :- Required(v.fields, "code", AsString);
      Ok(RunStatementRequest(code))
  }

  lemma RunStatementRequestRoundTrip(r: RunStatementRequest)
    ensures DecodeRunStatementRequest(EncodeRunStatementRequest(r)) == Ok(r)
  {
  }
}
