/** Values shared by every part of the TeamCity model: optional values (C# null),
    results standing for thrown exceptions, already-parsed HTTP replies, and the
    trace of observable effects (log entries, requests, file and storage operations). */
module Common {

  /** A C# reference that may be null. */
  datatype Option<+T> = None | Some(value: T) {
    function GetOr(default: T): T {
      match this
      case Some(v) => v
      case None => default
    }
  }

  /** The exceptions the modelled code throws or lets escape. */
  datatype Fault =
    | ArgumentNull(param: string)        // ArgumentNullException
    | Argument                           // ArgumentException (Enum.Parse of an unknown name)
    | InvalidOperation                   // InvalidOperationException
    | NullReference                      // a missing XML attribute or element dereferenced
    | Format                             // FormatException (bool.Parse, int.Parse)
    | Overflow                           // OverflowException (int.Parse of a number outside 32 bits)
    | ExecutionFailure                   // ExecutionFailureException (no build configuration found)
    | Web(status: int)                   // WebException carrying an HTTP status code
    | Canceled                           // OperationCanceledException / cancellation by the host
    | StackOverflow                      // a recursion that does not end

  /** Either a value or the exception that was thrown instead. */
  datatype Result<+T> = Ok(value: T) | Err(fault: Fault) {
    predicate IsFailure() { Err? }
    function PropagateFailure<U>(): Result<U>
      requires Err?
    {
      Err(fault)
    }
    function Extract(): T
      requires Ok?
    {
      value
    }
  }

  /** An HTTP exchange whose body has already been parsed (the XML plumbing is not modelled). */
  datatype Reply<+T> = Received(body: T) | HttpFailure(status: int)

  const NotFound: int := 404

  /** What awaiting a reply does: a failed request surfaces as a WebException. */
  function Await<T>(r: Reply<T>): (res: Result<T>)
    ensures res.Ok? <==> r.Received?
    ensures r.Received? ==> res.value == r.body
    ensures r.HttpFailure? ==> res.fault == Web(r.status)
  {
    match r
    case Received(b) => Ok(b)
    case HttpFailure(s) => Err(Web(s))
  }

  /** The host's cancellation token (or timeout), sampled after each poll: an index past
      the end means not cancelled. */
  predicate Cancelled(cancel: seq<bool>, k: nat) {
    k < |cancel| && cancel[k]
  }

  /** The host's execution context; only whether it names an application is examined. */
  datatype BuildMasterContext = BuildMasterContext(applicationId: Option<int>)

  /** Only the level of a log entry is modelled, not its wording. */
  datatype LogLevel = LogDebug | LogInformation | LogWarning | LogError

  /** The body of the buildQueue POST: `<build branchName=".."><buildType id=".."/></build>`. */
  datatype QueueRequestBody = QueueRequestBody(branchName: string, buildTypeId: string)

  /** Observable effects, in the order they happen. */
  datatype Effect =
    | Log(level: LogLevel)
    | Get(url: string)                                   // DownloadString relative to the API base URL
    | Post(url: string, body: QueueRequestBody)          // UploadString of the buildQueue document
    | DownloadFile(url: string)                          // DownloadFile into the temporary file
    | CreateTempFile
    | DeleteTempFile
    | StoreArtifact(artifactName: string, overwrite: bool)       // Artifact.CreateArtifactAsync
    | WriteFile(directory: Option<string>, name: Option<string>)
    | ExtractZip(directory: Option<string>, name: Option<string>, target: Option<string>, overwrite: bool)
    | SetVariable(variable: string, value: Option<string>)

  /** A step's result and the effects it made on the way. */
  datatype Traced<T> = Traced(result: Result<T>, effects: seq<Effect>)

  /** Appending in two steps or in one gives the same sequence (of effects, characters or
      strings). */
  lemma AppendAssoc<T>(t: seq<T>, a: seq<T>, b: seq<T>)
    ensures (t + a) + b == t + (a + b)
  {
  }

  /** A stretch of trace made only of status requests and log entries other than warnings. */
  predicate RequestsAndNotes(t: seq<Effect>) {
    forall x :: x in t ==> x.Get? || (x.Log? && x.level != LogWarning)
  }

  /** Number of occurrences of `e` in the trace `t`. */
  function Count(t: seq<Effect>, e: Effect): nat
  {
    if t == [] then 0 else (if t[0] == e then 1 else 0) + Count(t[1..], e)
  }

  /** Number of status requests (any `Get`) in a trace. */
  function GetCount(t: seq<Effect>): nat
  {
    if t == [] then 0 else (if t[0].Get? then 1 else 0) + GetCount(t[1..])
  }

  lemma {:induction false} CountAppend(a: seq<Effect>, b: seq<Effect>, e: Effect)
    ensures Count(a + b, e) == Count(a, e) + Count(b, e)
  {
    if a == [] {
      assert a + b == b;
    } else {
      assert (a + b)[1..] == a[1..] + b;
      CountAppend(a[1..], b, e);
    }
  }

  /** An effect occurring once between two traces without it occurs once in all. */
  lemma CountOnce(a: seq<Effect>, x: Effect, b: seq<Effect>)
    requires x !in a && x !in b
    ensures Count(a + [x] + b, x) == 1
  {
    CountAppend(a + [x], b, x);
    CountAppend(a, [x], x);
    CountAbsent(a, x);
    CountAbsent(b, x);
    assert [x][1..] == [];
  }

  /** A one-effect trace holds a request exactly when that effect is one. */
  lemma GetCountSingleton(e: Effect)
    ensures GetCount([e]) == if e.Get? then 1 else 0
  {
    assert [e][1..] == [];
  }

  lemma {:induction false} GetCountAppend(a: seq<Effect>, b: seq<Effect>)
    ensures GetCount(a + b) == GetCount(a) + GetCount(b)
  {
    if a == [] {
      assert a + b == b;
    } else {
      assert (a + b)[1..] == a[1..] + b;
      GetCountAppend(a[1..], b);
    }
  }

  /** A trace of log entries holds no requests. */
  lemma {:induction false} NoRequestsInLogs(t: seq<Effect>)
    requires forall i :: 0 <= i < |t| ==> t[i].Log?
    ensures GetCount(t) == 0
  {
    if t != [] {
      NoRequestsInLogs(t[1..]);
    }
  }

  lemma {:induction false} CountAbsent(t: seq<Effect>, e: Effect)
    ensures Count(t, e) == 0 <==> e !in t
  {
    if t != [] {
      CountAbsent(t[1..], e);
      assert t == [t[0]] + t[1..];
    }
  }
}
