/**
 * The client that follows one extraction task over a websocket
 * (`useTaskWebSocket` and `buildWsUrl`).
 *
 * The hook keeps four observable fields (status, message, result, error), a
 * reconnect counter and the current socket. Its callbacks are the events of a
 * state machine:
 *   connect  - needs a token and a task id, then opens a socket;
 *   open     - resets the counter and sends `{type: 'auth', token}`;
 *   message  - merges the truthy fields of a parsed frame into the view;
 *   error    - records a transport error;
 *   close    - schedules a reconnect after 2000 * 2^attempts ms while fewer
 *              than five attempts were made and the close was not clean,
 *              and otherwise forces `failed` unless the status it sees is
 *              terminal;
 *   timer    - counts one attempt and runs connect again;
 *   teardown - the effect's cleanup: closes the current socket.
 *
 * Each event is a pure step on `Machine`; the class `TaskWebSocket` keeps the
 * same state in fields and its methods are proved to perform those steps.
 */
module TaskSocket {
  import opened Wrappers
  import opened Json
  import Text

  datatype TaskStatus = Waiting | Running | Finished | Failed

  predicate IsTerminal(s: TaskStatus)
  {
    s == Finished || s == Failed
  }

  /** What the hook returns to its caller. */
  datatype TaskView = TaskView(status: TaskStatus, message: string, result: Json, error: Option<string>)

  /** `useState('waiting')`, `useState('')`, `useState(null)`, `useState(null)`. */
  const InitialView: TaskView := TaskView(Waiting, "", JNull, None)

  const AuthRequired: string := "Authentication required"
  const TransportFailure: string := "WebSocket error"
  const ConnectionLost: string := "Connection lost"
  const MaxReconnect: nat := 5
  const ReconnectDelay: nat := 2000

  /** JavaScript truthiness of a `string | null`. */
  predicate Truthy(s: Option<string>)
  {
    s.Some? && s.value != ""
  }

  // ---------------------------------------------------------------------------
  // Frames and the merge
  // ---------------------------------------------------------------------------

  /**
   * One server frame as the JSON decoder returns it. A key that is absent
   * (or holds a falsy value) reads as `None`, `""` or `JNull`.
   */
  datatype Frame = Frame(status: Option<TaskStatus>, message: string, result: Json, error: string)

  /** The body of `onmessage`: `None` is a frame that `JSON.parse` rejected. */
  function Merge(v: TaskView, parsed: Option<Frame>): (r: TaskView)
    ensures r.status != v.status ==> parsed.Some? && parsed.value.status == Some(r.status)
    ensures r.message != v.message ==> parsed.Some? && parsed.value.message == r.message != ""
    ensures r.result != v.result ==> parsed.Some? && parsed.value.result == r.result && JsTruthy(r.result)
    ensures r.error != v.error ==> parsed.Some? && parsed.value.error != "" && r.error == Some(parsed.value.error)
    ensures parsed.Some? && parsed.value.status.Some? ==> r.status == parsed.value.status.value
    ensures parsed.Some? && parsed.value.message != "" ==> r.message == parsed.value.message
    ensures parsed.Some? && JsTruthy(parsed.value.result) ==> r.result == parsed.value.result
    ensures parsed.Some? && parsed.value.error != "" ==> r.error == Some(parsed.value.error)
  {
    match parsed
    case None => v
    case Some(f) =>
      TaskView(
        if f.status.Some? then f.status.value else v.status,
        if f.message != "" then f.message else v.message,
        if JsTruthy(f.result) then f.result else v.result,
        if f.error != "" then Some(f.error) else v.error)
  }

  /** The four observable fields, to state one fact for each. */
  datatype Field = StatusField | MessageField | ResultField | ErrorField

  /** The frame carries a truthy value for field `k`. */
  predicate Carries(parsed: Option<Frame>, k: Field)
  {
    parsed.Some? &&
    match k
    case StatusField => parsed.value.status.Some?
    case MessageField => parsed.value.message != ""
    case ResultField => JsTruthy(parsed.value.result)
    case ErrorField => parsed.value.error != ""
  }

  predicate SameField(a: TaskView, b: TaskView, k: Field)
  {
    match k
    case StatusField => a.status == b.status
    case MessageField => a.message == b.message
    case ResultField => a.result == b.result
    case ErrorField => a.error == b.error
  }

  /** Frames applied in the order they arrive. */
  function MergeAll(v: TaskView, frames: seq<Option<Frame>>): TaskView
  {
    if frames == [] then v else Merge(MergeAll(v, frames[..|frames| - 1]), frames[|frames| - 1])
  }

  /** A field that no frame carries keeps its value, whatever the other fields do. */
  lemma {:induction false} MergeAllKeepsOmitted(v: TaskView, frames: seq<Option<Frame>>, k: Field)
    requires forall i :: 0 <= i < |frames| ==> !Carries(frames[i], k)
    ensures SameField(MergeAll(v, frames), v, k)
  {
    if frames != [] {
      MergeAllKeepsOmitted(v, frames[..|frames| - 1], k);
    }
  }

  /** The last frame that carries a field decides it; earlier state is irrelevant. */
  lemma {:induction false} MergeAllLastWins(v: TaskView, frames: seq<Option<Frame>>, i: nat, k: Field)
    requires i < |frames| && Carries(frames[i], k)
    requires forall j :: i < j < |frames| ==> !Carries(frames[j], k)
    ensures SameField(MergeAll(v, frames), Merge(v, frames[i]), k)
  {
    var n := |frames| - 1;
    if i < n {
      MergeAllLastWins(v, frames[..n], i, k);
    }
  }

  /** A field, once set to a truthy value, is never reset to empty by later frames. */
  lemma {:induction false} MergeAllNeverClears(v: TaskView, frames: seq<Option<Frame>>)
    ensures v.message != "" ==> MergeAll(v, frames).message != ""
    ensures JsTruthy(v.result) ==> JsTruthy(MergeAll(v, frames).result)
    ensures v.error.Some? ==> MergeAll(v, frames).error.Some?
  {
    if frames != [] {
      MergeAllNeverClears(v, frames[..|frames| - 1]);
    }
  }

  /** A progress frame, then a result frame. */
  lemma ProgressThenResult(extracted: Json)
    ensures
      var progress := Frame(Some(Running), "Page 2/5", JNull, "");
      var done := Frame(None, "", JObj(map["extracted" := extracted, "errors" := JArr([])]), "");
      MergeAll(InitialView, [Some(progress), Some(done)])
        == TaskView(Running, "Page 2/5", JObj(map["extracted" := extracted, "errors" := JArr([])]), None)
  {
    var progress := Frame(Some(Running), "Page 2/5", JNull, "");
    var done := Frame(None, "", JObj(map["extracted" := extracted, "errors" := JArr([])]), "");
    assert [Some(progress), Some(done)][..1] == [Some(progress)];
    assert [Some(progress)][..0] == [];
    assert MergeAll(InitialView, [Some(progress)]) == TaskView(Running, "Page 2/5", JNull, None);
    assert JsTruthy(done.result);
  }

  // ---------------------------------------------------------------------------
  // The socket URL
  // ---------------------------------------------------------------------------

  /** The two build-time variables `NEXT_PUBLIC_WS_URL` and `NEXT_PUBLIC_API_URL`. */
  datatype Env = Env(wsUrl: Option<string>, apiUrl: Option<string>)

  const DefaultWsBase: string := "ws://localhost:8000"

  /** The four characters match `/http/i`. */
  predicate IsHttpWord(w: string)
  {
    |w| == 4 &&
    Text.LowerChar(w[0]) == 'h' && Text.LowerChar(w[1]) == 't' &&
    Text.LowerChar(w[2]) == 't' && Text.LowerChar(w[3]) == 'p'
  }

  /** `s.replace(/^http/i, 'ws')`. */
  function SwapHttpScheme(s: string): (r: string)
  {
    if |s| >= 4 && IsHttpWord(s[..4]) then "ws" + s[4..] else s
  }

  /** `s.replace(/\/$/, '')`. */
  function DropTrailingSlash(s: string): string
  {
    if |s| > 0 && s[|s| - 1] == '/' then s[..|s| - 1] else s
  }

  function WsBase(env: Env): string
  {
    var baseEnv :=
      if Truthy(env.wsUrl) then env.wsUrl.value
      else if Truthy(env.apiUrl) then SwapHttpScheme(env.apiUrl.value)
      else DefaultWsBase;
    DropTrailingSlash(baseEnv)
  }

  /** `buildWsUrl`: the task's endpoint under the configured base. */
  function BuildWsUrl(env: Env, taskId: string): (url: string)
    ensures |url| >= |taskId| + 4 && url[|url| - |taskId| - 4..] == "/ws/" + taskId
  {
    WsBase(env) + "/ws/" + taskId
  }

  /** With neither variable set the socket goes to the local backend. */
  lemma DefaultSocketUrl(taskId: string)
    ensures BuildWsUrl(Env(None, None), taskId) == DefaultWsBase + "/ws/" + taskId
  {
  }

  /** An `https` API base (in any letter case) becomes a `wss` socket base. */
  lemma SecureApiBaseGivesSecureSocket(scheme: string, rest: string, taskId: string)
    requires |scheme| == 4 && IsHttpWord(scheme)
    requires rest == [] || rest[|rest| - 1] != '/'
    ensures BuildWsUrl(Env(None, Some(scheme + "s" + rest)), taskId) == "wss" + rest + "/ws/" + taskId
  {
    var s := scheme + "s" + rest;
    assert s[..4] == scheme;
    assert s[4..] == "s" + rest;
    var b := "wss" + rest;
    assert SwapHttpScheme(s) == b;
    assert b[|b| - 1] != '/' by {
      if rest != [] {
        assert b[|b| - 1] == rest[|rest| - 1];
      }
    }
    assert WsBase(Env(None, Some(s))) == b;
  }

  /** `NEXT_PUBLIC_WS_URL` wins, and only one trailing slash is removed from it. */
  lemma WsBaseLosesOneSlash(u: string, api: Option<string>, taskId: string)
    ensures BuildWsUrl(Env(Some(u + "/"), api), taskId) == u + "/ws/" + taskId
  {
    assert (u + "/")[..|u|] == u;
  }

  /** An API base starting with `http` in any letter case has those four letters replaced by `ws`. */
  lemma HttpApiBaseGivesWsSocket(scheme: string, rest: string, taskId: string)
    requires |scheme| == 4 && IsHttpWord(scheme)
    requires rest == [] || rest[|rest| - 1] != '/'
    ensures BuildWsUrl(Env(None, Some(scheme + rest)), taskId) == "ws" + rest + "/ws/" + taskId
  {
    var s := scheme + rest;
    assert s[..4] == scheme;
    assert s[4..] == rest;
    var b := "ws" + rest;
    assert SwapHttpScheme(s) == b;
    assert b[|b| - 1] != '/' by {
      if rest != [] {
        assert b[|b| - 1] == rest[|rest| - 1];
      }
    }
    assert WsBase(Env(None, Some(s))) == b;
  }

  /** The same API base with one trailing slash gives the same socket URL. */
  lemma HttpApiBaseLosesOneSlash(scheme: string, rest: string, taskId: string)
    requires |scheme| == 4 && IsHttpWord(scheme)
    ensures BuildWsUrl(Env(None, Some(scheme + rest + "/")), taskId) == "ws" + rest + "/ws/" + taskId
  {
    var s := scheme + rest + "/";
    assert s[..4] == scheme;
    assert s[4..] == rest + "/";
    var b := "ws" + rest + "/";
    assert SwapHttpScheme(s) == b;
    assert b[..|b| - 1] == "ws" + rest;
    assert WsBase(Env(None, Some(s))) == "ws" + rest;
  }

  /** An API base that does not start with `http` is kept, apart from one trailing slash. */
  lemma OtherApiBaseIsKept(a: string, taskId: string)
    requires a != [] && !(|a| >= 4 && IsHttpWord(a[..4]))
    ensures BuildWsUrl(Env(None, Some(a)), taskId) == DropTrailingSlash(a) + "/ws/" + taskId
  {
  }

  /** An empty `NEXT_PUBLIC_API_URL` counts as unset. */
  lemma EmptyApiUrlIsUnset(w: Option<string>, taskId: string)
    ensures BuildWsUrl(Env(w, Some("")), taskId) == BuildWsUrl(Env(w, None), taskId)
  {
  }

  /** A socket base without a trailing slash is used as it is. */
  lemma WsBaseWithoutSlashIsKept(u: string, api: Option<string>, taskId: string)
    requires u != [] && u[|u| - 1] != '/'
    ensures BuildWsUrl(Env(Some(u), api), taskId) == u + "/ws/" + taskId
  {
  }

  /** An empty `NEXT_PUBLIC_WS_URL` counts as unset. */
  lemma EmptyWsUrlIsUnset(api: Option<string>, taskId: string)
    ensures BuildWsUrl(Env(Some(""), api), taskId) == BuildWsUrl(Env(None, api), taskId)
  {
  }

  // ---------------------------------------------------------------------------
  // The connection state machine
  // ---------------------------------------------------------------------------

  /** One `new WebSocket(url)`: a serial number, and what its handlers captured. */
  datatype Handle = Handle(id: nat, taskId: string, url: string, token: string)

  /** The only frame the client sends. */
  datatype OutFrame = AuthFrame(token: string)

  /** A `setTimeout` that will count an attempt and reconnect to `taskId`. */
  datatype Timer = Timer(delay: nat, taskId: string)

  /** Everything the hook holds. */
  datatype Machine = Machine(
    view: TaskView,
    attempts: nat,                   // reconnectAttempts.current
    conn: Option<Handle>,            // wsRef.current
    timers: seq<Timer>,              // reconnects scheduled and not yet fired
    sent: seq<(Handle, OutFrame)>,   // frames handed to ws.send
    closeRequests: seq<Handle>,      // sockets the cleanup asked to close
    created: nat)                    // sockets created so far

  const InitialMachine: Machine := Machine(InitialView, 0, None, [], [], [], 0)

  /** `2 ** n` (`Math.pow(2, n)` is exact at these sizes). */
  function Pow2(n: nat): (p: nat)
    ensures p >= 1
  {
    if n == 0 then 1 else 2 * Pow2(n - 1)
  }

  /** `reconnectDelay * Math.pow(2, attempts)`. */
  function BackoffDelay(attempts: nat): (d: nat)
    ensures d >= ReconnectDelay
  {
    ReconnectDelay * Pow2(attempts)
  }

  /** Each further attempt waits twice as long. */
  lemma BackoffDoubles(attempts: nat)
    ensures BackoffDelay(attempts + 1) == 2 * BackoffDelay(attempts)
  {
  }

  /** The delays before attempts `from + 1` to `from + n`. */
  function Backoffs(from: nat, n: nat): (ds: seq<nat>)
    ensures |ds| == n
    decreases n
  {
    if n == 0 then [] else [BackoffDelay(from)] + Backoffs(from + 1, n - 1)
  }

  /** The `k`-th delay of a run of backoffs is the delay of the attempt `from + k`. */
  lemma {:induction false} BackoffsAt(from: nat, n: nat, k: nat)
    requires k < n
    ensures Backoffs(from, n)[k] == BackoffDelay(from + k)
    decreases n
  {
    if k > 0 {
      BackoffsAt(from + 1, n - 1, k - 1);
    }
  }

  /** The whole schedule the budget allows. */
  lemma BackoffSchedule()
    ensures Backoffs(0, MaxReconnect) == [2000, 4000, 8000, 16000, 32000]
  {
    assert Pow2(1) == 2 && Pow2(2) == 4 && Pow2(3) == 8 && Pow2(4) == 16;
  }

  /** `connect`: the token check, the task id check, then a new socket. */
  function ConnectStep(env: Env, m: Machine, token: Option<string>, taskId: Option<string>): (r: Machine)
    ensures r.attempts == m.attempts && r.timers == m.timers && r.sent == m.sent
    ensures r.closeRequests == m.closeRequests
    ensures r.view.status == m.view.status && r.view.message == m.view.message && r.view.result == m.view.result
    ensures !Truthy(token) ==>
              r.conn == m.conn && r.created == m.created && r.view.error == Some(AuthRequired)
    ensures Truthy(token) && !Truthy(taskId) ==> r == m
    ensures Truthy(token) && Truthy(taskId) ==>
              r.view == m.view && r.created == m.created + 1 &&
              r.conn == Some(Handle(m.created, taskId.value, BuildWsUrl(env, taskId.value), token.value))
  {
    if !Truthy(token) then m.(view := m.view.(error := Some(AuthRequired)))
    else if !Truthy(taskId) then m
    else
      var ws := Handle(m.created, taskId.value, BuildWsUrl(env, taskId.value), token.value);
      m.(conn := Some(ws), created := m.created + 1)
  }

  /** The effect body: nothing at all without a task id, otherwise `connect`. */
  function MountStep(env: Env, m: Machine, token: Option<string>, taskId: Option<string>): (r: Machine)
    ensures !Truthy(taskId) ==> r == m
    ensures Truthy(taskId) ==> r == ConnectStep(env, m, token, taskId)
  {
    if !Truthy(taskId) then m else ConnectStep(env, m, token, taskId)
  }

  /** `onopen`: the counter restarts and one auth frame with the socket's token goes out. */
  function OpenStep(m: Machine, ws: Handle, sendOk: bool): (r: Machine)
    ensures r.attempts == 0
    ensures sendOk ==> r.sent == m.sent + [(ws, AuthFrame(ws.token))]
    ensures !sendOk ==> r.sent == m.sent
    ensures r == m.(attempts := 0, sent := r.sent)
  {
    m.(attempts := 0, sent := if sendOk then m.sent + [(ws, AuthFrame(ws.token))] else m.sent)
  }

  /** `onmessage`: only the view changes. */
  function MessageStep(m: Machine, parsed: Option<Frame>): (r: Machine)
    ensures r == m.(view := Merge(m.view, parsed))
  {
    m.(view := Merge(m.view, parsed))
  }

  /** `onerror`: the error text is set and the status is never touched. */
  function ErrorStep(m: Machine): (r: Machine)
    ensures r.view.status == m.view.status && r.view.error == Some(TransportFailure)
    ensures r == m.(view := m.view.(error := Some(TransportFailure)))
  {
    m.(view := m.view.(error := Some(TransportFailure)))
  }

  /** The close branch that schedules a reconnect. */
  predicate WillRetry(m: Machine, wasClean: bool)
  {
    m.attempts < MaxReconnect && !wasClean
  }

  /**
   * `onclose`. `snapshot` is the status the handler compares against: the
   * value captured when `connect` was last memoised, not the live one.
   */
  function CloseStep(m: Machine, ws: Handle, wasClean: bool, snapshot: TaskStatus): (r: Machine)
    ensures r.conn == None && r.attempts == m.attempts
    ensures r.sent == m.sent && r.closeRequests == m.closeRequests && r.created == m.created
    ensures WillRetry(m, wasClean) ==>
              r.view == m.view && r.timers == m.timers + [Timer(BackoffDelay(m.attempts), ws.taskId)]
    ensures !WillRetry(m, wasClean) ==> r.timers == m.timers
    ensures !WillRetry(m, wasClean) && IsTerminal(snapshot) ==> r.view == m.view
    ensures !WillRetry(m, wasClean) && !IsTerminal(snapshot) ==>
              r.view == m.view.(status := Failed, error := Some(ConnectionLost))
  {
    var m' := m.(conn := None);
    if WillRetry(m, wasClean) then
      m'.(timers := m.timers + [Timer(BackoffDelay(m.attempts), ws.taskId)])
    else if !IsTerminal(snapshot) then
      m'.(view := m.view.(status := Failed, error := Some(ConnectionLost)))
    else
      m'
  }

  /** The `setTimeout` callback of timer `i`: one more attempt, then `connect` for its task. */
  function FireStep(env: Env, m: Machine, i: nat, token: Option<string>): (r: Machine)
    requires i < |m.timers|
    ensures r.attempts == m.attempts + 1
    ensures r.timers == m.timers[..i] + m.timers[i + 1..]
    ensures r.view.status == m.view.status && r.view.message == m.view.message && r.view.result == m.view.result
    ensures r.sent == m.sent && r.closeRequests == m.closeRequests
    ensures !Truthy(token) ==> r.conn == m.conn && r.created == m.created && r.view.error == Some(AuthRequired)
    ensures Truthy(token) && m.timers[i].taskId == "" ==> r.conn == m.conn && r.created == m.created && r.view == m.view
    ensures Truthy(token) && m.timers[i].taskId != "" ==>
              r.view == m.view && r.created == m.created + 1 &&
              r.conn == Some(Handle(m.created, m.timers[i].taskId, BuildWsUrl(env, m.timers[i].taskId), token.value))
    ensures r == ConnectStep(env, m.(attempts := m.attempts + 1, timers := m.timers[..i] + m.timers[i + 1..]),
                             token, Some(m.timers[i].taskId))
  {
    var t := m.timers[i];
    ConnectStep(env, m.(attempts := m.attempts + 1, timers := m.timers[..i] + m.timers[i + 1..]), token, Some(t.taskId))
  }

  /** The effect cleanup: close the current socket, forget it; pending timers stay. */
  function TeardownStep(m: Machine): (r: Machine)
    ensures r.conn == None && r.timers == m.timers
    ensures r.closeRequests == m.closeRequests + (if m.conn.Some? then [m.conn.value] else [])
    ensures r == m.(conn := None, closeRequests := r.closeRequests)
  {
    m.(conn := None, closeRequests := m.closeRequests + if m.conn.Some? then [m.conn.value] else [])
  }

  /** Running the cleanup twice is running it once. */
  lemma TeardownIdempotent(m: Machine)
    ensures TeardownStep(TeardownStep(m)) == TeardownStep(m)
  {
  }

  /** A close that sees the live status respects a terminal one. */
  lemma CloseKeepsCurrentTerminal(m: Machine, ws: Handle, wasClean: bool)
    requires IsTerminal(m.view.status)
    ensures CloseStep(m, ws, wasClean, m.view.status).view.status == m.view.status
  {
  }

  /**
   * With the stale snapshot the close handler really sees, a clean close after
   * `finished` turns the status into `failed`.
   */
  lemma StaleSnapshotOverwritesFinished(m: Machine, ws: Handle)
    requires m.view.status == Finished
    ensures CloseStep(m, ws, true, Waiting).view.status == Failed
    ensures CloseStep(m, ws, true, Waiting).view.error == Some(ConnectionLost)
  {
  }

  // ---------------------------------------------------------------------------
  // Traces of events
  // ---------------------------------------------------------------------------

  /**
   * What can happen to the hook. `Unmount` is the cleanup of an effect run
   * that had a task id: a run without one registers no cleanup, so no
   * `Unmount` follows it.
   */
  datatype Event =
    | Mount(token: Option<string>, taskId: Option<string>)
    | Opened(socket: Handle, sendOk: bool)
    | Received(parsed: Option<Frame>)
    | TransportError
    | Closed(socket: Handle, wasClean: bool, snapshot: TaskStatus)
    | TimerFired(index: nat, token: Option<string>)
    | Unmount

  function Step(env: Env, m: Machine, e: Event): Machine
  {
    match e
    case Mount(token, taskId) => MountStep(env, m, token, taskId)
    case Opened(ws, sendOk) => OpenStep(m, ws, sendOk)
    case Received(parsed) => MessageStep(m, parsed)
    case TransportError => ErrorStep(m)
    case Closed(ws, wasClean, snapshot) => CloseStep(m, ws, wasClean, snapshot)
    case TimerFired(i, token) => if i < |m.timers| then FireStep(env, m, i, token) else m
    case Unmount => TeardownStep(m)
  }

  function Run(env: Env, m: Machine, es: seq<Event>): Machine
    decreases |es|
  {
    if es == [] then m else Run(env, Step(env, m, es[0]), es[1..])
  }

  lemma {:induction false} RunAppend(env: Env, m: Machine, a: seq<Event>, b: seq<Event>)
    ensures Run(env, m, a + b) == Run(env, Run(env, m, a), b)
    decreases |a|
  {
    if a != [] {
      assert (a + b)[0] == a[0];
      assert (a + b)[1..] == a[1..] + b;
      RunAppend(env, Step(env, m, a[0]), a[1..], b);
    } else {
      assert a + b == b;
    }
  }

  /** No event other than a frame that carries them writes the message or the result. */
  lemma {:induction false} OnlyFramesWriteMessageAndResult(env: Env, m: Machine, es: seq<Event>, k: Field)
    requires k == MessageField || k == ResultField
    requires forall i :: 0 <= i < |es| ==> !(es[i].Received? && Carries(es[i].parsed, k))
    ensures SameField(Run(env, m, es).view, m.view, k)
    decreases |es|
  {
    if es != [] {
      OnlyFramesWriteMessageAndResult(env, Step(env, m, es[0]), es[1..], k);
    }
  }

  /** Across every event, reconnects included, a known message or result never regresses to empty. */
  lemma {:induction false} RunNeverClears(env: Env, m: Machine, es: seq<Event>)
    ensures m.view.message != "" ==> Run(env, m, es).view.message != ""
    ensures JsTruthy(m.view.result) ==> JsTruthy(Run(env, m, es).view.result)
    decreases |es|
  {
    if es != [] {
      RunNeverClears(env, Step(env, m, es[0]), es[1..]);
    }
  }

  /** Retry budget: attempts already counted plus reconnects still pending. */
  predicate WithinBudget(m: Machine)
  {
    m.attempts + |m.timers| <= MaxReconnect
  }

  /** Every close in the trace happens while no reconnect is pending. */
  predicate Orderly(env: Env, m: Machine, es: seq<Event>)
    decreases |es|
  {
    es == [] || ((es[0].Closed? ==> m.timers == []) && Orderly(env, Step(env, m, es[0]), es[1..]))
  }

  lemma StepWithinBudget(env: Env, m: Machine, e: Event)
    requires WithinBudget(m)
    requires e.Closed? ==> m.timers == []
    ensures WithinBudget(Step(env, m, e))
  {
  }

  /** In an orderly trace the counter never exceeds the maximum of five. */
  lemma {:induction false} RunWithinBudget(env: Env, m: Machine, es: seq<Event>)
    requires WithinBudget(m) && Orderly(env, m, es)
    ensures WithinBudget(Run(env, m, es))
    ensures Run(env, m, es).attempts <= MaxReconnect
    decreases |es|
  {
    if es != [] {
      StepWithinBudget(env, m, es[0]);
      RunWithinBudget(env, Step(env, m, es[0]), es[1..]);
    }
  }

  /** The delays of the reconnects a trace schedules, in order. */
  function Scheduled(env: Env, m: Machine, es: seq<Event>): seq<nat>
    decreases |es|
  {
    if es == [] then []
    else
      var m' := Step(env, m, es[0]);
      (if |m'.timers| == |m.timers| + 1 then [m'.timers[|m.timers|].delay] else [])
        + Scheduled(env, m', es[1..])
  }

  /** `n` rounds of an abnormal close followed by the reconnect timer firing. */
  function Cycles(ws: Handle, snapshot: TaskStatus, token: Option<string>, n: nat): seq<Event>
  {
    if n == 0 then [] else [Closed(ws, false, snapshot), TimerFired(0, token)] + Cycles(ws, snapshot, token, n - 1)
  }

  /** One close-then-fire cycle with budget left: one more attempt and one timer of the current backoff delay. */
  lemma OneCycle(env: Env, m: Machine, ws: Handle, snapshot: TaskStatus, token: Option<string>, rest: seq<Event>)
    requires m.timers == [] && m.attempts < MaxReconnect
    ensures var m2 := FireStep(env, CloseStep(m, ws, false, snapshot), 0, token);
            m2.attempts == m.attempts + 1 && m2.timers == [] && m2.view.status == m.view.status &&
            Run(env, m, [Closed(ws, false, snapshot), TimerFired(0, token)] + rest) == Run(env, m2, rest) &&
            Scheduled(env, m, [Closed(ws, false, snapshot), TimerFired(0, token)] + rest) ==
              [BackoffDelay(m.attempts)] + Scheduled(env, m2, rest)
  {
    var cs := [Closed(ws, false, snapshot), TimerFired(0, token)] + rest;
    var m1 := CloseStep(m, ws, false, snapshot);
    assert m1.timers == [Timer(BackoffDelay(m.attempts), ws.taskId)];
    assert cs[1..] == [TimerFired(0, token)] + rest;
    assert cs[1..][1..] == rest;
  }

  /** Consecutive failed reconnects count up by one each and leave nothing pending. */
  lemma {:induction false} RetryCyclesRun(env: Env, m: Machine, ws: Handle, snapshot: TaskStatus, token: Option<string>, n: nat)
    requires m.timers == [] && m.attempts + n <= MaxReconnect
    ensures Run(env, m, Cycles(ws, snapshot, token, n)).attempts == m.attempts + n
    ensures Run(env, m, Cycles(ws, snapshot, token, n)).timers == []
    ensures Run(env, m, Cycles(ws, snapshot, token, n)).view.status == m.view.status
    decreases n
  {
    if n > 0 {
      var rest := Cycles(ws, snapshot, token, n - 1);
      var m2 := FireStep(env, CloseStep(m, ws, false, snapshot), 0, token);
      OneCycle(env, m, ws, snapshot, token, rest);
      RetryCyclesRun(env, m2, ws, snapshot, token, n - 1);
      assert Cycles(ws, snapshot, token, n) == [Closed(ws, false, snapshot), TimerFired(0, token)] + rest;
    }
  }

  /** Consecutive failed reconnects wait 2000 * 2^k ms before attempt k + 1. */
  lemma {:induction false} RetryCyclesSchedule(env: Env, m: Machine, ws: Handle, snapshot: TaskStatus, token: Option<string>, n: nat)
    requires m.timers == [] && m.attempts + n <= MaxReconnect
    ensures Scheduled(env, m, Cycles(ws, snapshot, token, n)) == Backoffs(m.attempts, n)
    decreases n
  {
    if n > 0 {
      var rest := Cycles(ws, snapshot, token, n - 1);
      var m2 := FireStep(env, CloseStep(m, ws, false, snapshot), 0, token);
      OneCycle(env, m, ws, snapshot, token, rest);
      RetryCyclesSchedule(env, m2, ws, snapshot, token, n - 1);
      assert Cycles(ws, snapshot, token, n) == [Closed(ws, false, snapshot), TimerFired(0, token)] + rest;
    }
  }

  /**
   * Five abnormal closes, each followed by a reconnect that never opens, wait
   * 2, 4, 8, 16 and 32 seconds; the sixth forces `failed` with
   * "Connection lost" and schedules nothing.
   */
  lemma BudgetExhaustion(env: Env, m: Machine, ws: Handle, snapshot: TaskStatus, token: Option<string>)
    requires m.attempts == 0 && m.timers == [] && !IsTerminal(snapshot)
    ensures Scheduled(env, m, Cycles(ws, snapshot, token, MaxReconnect)) == [2000, 4000, 8000, 16000, 32000]
    ensures var r := Run(env, m, Cycles(ws, snapshot, token, MaxReconnect) + [Closed(ws, false, snapshot)]);
            r.view.status == Failed && r.view.error == Some(ConnectionLost) && r.timers == [] && r.conn == None
  {
    var cs := Cycles(ws, snapshot, token, MaxReconnect);
    RetryCyclesRun(env, m, ws, snapshot, token, MaxReconnect);
    RetryCyclesSchedule(env, m, ws, snapshot, token, MaxReconnect);
    BackoffSchedule();
    RunAppend(env, m, cs, [Closed(ws, false, snapshot)]);
    assert [Closed(ws, false, snapshot)][1..] == [];
  }

  lemma RunCons(env: Env, m: Machine, e: Event, rest: seq<Event>)
    ensures Run(env, m, [e] + rest) == Run(env, Step(env, m, e), rest)
  {
    assert ([e] + rest)[1..] == rest;
  }

  /** The socket for task `taskId`, the `id`-th one created. */
  function SocketFor(env: Env, id: nat, taskId: string, token: string): Handle
  {
    Handle(id, taskId, BuildWsUrl(env, taskId), token)
  }

  /** The socket for task "42" drops, the hook moves to task "43", and that socket drops too. */
  function SwitchAway(env: Env, token: string): seq<Event>
  {
    [Closed(SocketFor(env, 4, "42", token), false, Waiting), Unmount, Mount(Some(token), Some("43")),
     Closed(SocketFor(env, 5, "43", token), false, Waiting)]
  }

  /** Both drops schedule a reconnect, and the cleanup between them cancels neither. */
  lemma {:induction false} SwitchAwayKeepsBothTimers(env: Env, m: Machine, token: string)
    requires token != ""
    requires m.attempts == 4 && m.timers == [] && m.created == 5
    ensures var r := Run(env, m, SwitchAway(env, token));
            r.attempts == 4 && r.created == 6 && r.timers == [Timer(32000, "42"), Timer(32000, "43")]
  {
    var t := Some(token);
    var e0, e1, e2, e3 := Closed(SocketFor(env, 4, "42", token), false, Waiting), Unmount, Mount(t, Some("43")),
      Closed(SocketFor(env, 5, "43", token), false, Waiting);
    assert SwitchAway(env, token) == [e0] + ([e1] + ([e2] + ([e3] + [])));
    assert BackoffDelay(4) == 32000 by { assert Pow2(4) == 16; }
    var m1 := Step(env, m, e0);
    var m2 := Step(env, m1, e1);
    var m3 := Step(env, m2, e2);
    var m4 := Step(env, m3, e3);
    assert m4.attempts == 4 && m4.created == 6 && m4.timers == [Timer(32000, "42"), Timer(32000, "43")];
    RunCons(env, m, e0, [e1] + ([e2] + ([e3] + [])));
    RunCons(env, m1, e1, [e2] + ([e3] + []));
    RunCons(env, m2, e2, [e3] + []);
    RunCons(env, m3, e3, []);
  }

  /**
   * Timers survive the cleanup: after the hook moved to task "43", the
   * reconnect scheduled for "42" fires and opens a socket for "42" again, and
   * when the second timer fires as well the shared counter passes five.
   */
  lemma TimerOutlivesTaskSwitch(env: Env, m: Machine, token: string)
    requires token != ""
    requires m.attempts == 4 && m.timers == [] && m.created == 5
    ensures var r := Run(env, m, SwitchAway(env, token) + [TimerFired(0, Some(token))]);
            r.conn == Some(SocketFor(env, 6, "42", token)) && r.attempts == 5
    ensures Run(env, m, SwitchAway(env, token) + [TimerFired(0, Some(token)), TimerFired(0, Some(token))]).attempts == 6
  {
    var t := Some(token);
    var a := SwitchAway(env, token);
    SwitchAwayKeepsBothTimers(env, m, token);
    var m4 := Run(env, m, a);
    var m5 := Step(env, m4, TimerFired(0, t));
    assert m5 == FireStep(env, m4, 0, t);
    var m6 := Step(env, m5, TimerFired(0, t));
    RunAppend(env, m, a, [TimerFired(0, t)]);
    RunCons(env, m4, TimerFired(0, t), []);
    RunAppend(env, m, a, [TimerFired(0, t), TimerFired(0, t)]);
    RunCons(env, m4, TimerFired(0, t), [TimerFired(0, t)]);
    RunCons(env, m5, TimerFired(0, t), []);
  }

  // ---------------------------------------------------------------------------
  // The hook as an object
  // ---------------------------------------------------------------------------

  /** `useTaskWebSocket`: React state and refs as fields, callbacks as methods. */
  class TaskWebSocket {
    const env: Env
    var status: TaskStatus
    var message: string
    var result: Json
    var error: Option<string>
    var attempts: nat
    var conn: Option<Handle>
    var timers: seq<Timer>
    var sentFrames: seq<(Handle, OutFrame)>
    var closeRequests: seq<Handle>
    var created: nat

    /** The state as one value. */
    function Model(): Machine
      reads this
    {
      Machine(TaskView(status, message, result, error), attempts, conn, timers, sentFrames, closeRequests, created)
    }

    /** The value returned to the component. */
    function View(): (v: TaskView)
      reads this
      ensures v == Model().view
    {
      TaskView(status, message, result, error)
    }

    constructor (env: Env)
      ensures this.env == env && Model() == InitialMachine
    {
      this.env := env;
      status, message, result, error := Waiting, "", JNull, None;
      attempts, conn, timers := 0, None, [];
      sentFrames, closeRequests, created := [], [], 0;
    }

    /** `connect`, with the stored token read by the caller. */
    method Connect(token: Option<string>, taskId: Option<string>)
      modifies this
      ensures Model() == ConnectStep(env, old(Model()), token, taskId)
    {
      if !Truthy(token) {
        error := Some(AuthRequired);
        return;
      }
      if !Truthy(taskId) {
        return;
      }
      var url := BuildWsUrl(env, taskId.value);
      var ws := Handle(created, taskId.value, url, token.value);
      created := created + 1;
      conn := Some(ws);
    }

    /** The effect: runs `connect` only for a task id. */
    method Mount(token: Option<string>, taskId: Option<string>)
      modifies this
      ensures Model() == MountStep(env, old(Model()), token, taskId)
    {
      if !Truthy(taskId) {
        return;
      }
      Connect(token, taskId);
    }

    /** `ws.onopen` of socket `ws`; `sendOk` is whether `ws.send` did not throw. */
    method OnOpen(ws: Handle, sendOk: bool)
      modifies this
      ensures Model() == OpenStep(old(Model()), ws, sendOk)
    {
      attempts := 0;
      if sendOk {
        sentFrames := sentFrames + [(ws, AuthFrame(ws.token))];
      }
    }

    /** `ws.onmessage` with the frame as `JSON.parse` read it. */
    method OnMessage(parsed: Option<Frame>)
      modifies this
      ensures Model() == MessageStep(old(Model()), parsed)
    {
      if parsed.None? {
        return;
      }
      var data := parsed.value;
      if data.status.Some? {
        status := data.status.value;
      }
      if data.message != "" {
        message := data.message;
      }
      if JsTruthy(data.result) {
        result := data.result;
      }
      if data.error != "" {
        error := Some(data.error);
      }
    }

    /** `ws.onerror`. */
    method OnError()
      modifies this
      ensures Model() == ErrorStep(old(Model()))
    {
      error := Some(TransportFailure);
    }

    /** `ws.onclose` of socket `ws`, comparing against `statusSnapshot`. */
    method OnClose(ws: Handle, wasClean: bool, statusSnapshot: TaskStatus)
      modifies this
      ensures Model() == CloseStep(old(Model()), ws, wasClean, statusSnapshot)
    {
      conn := None;
      if attempts < MaxReconnect && !wasClean {
        var delay := ReconnectDelay * Pow2(attempts);
        timers := timers + [Timer(delay, ws.taskId)];
      } else if statusSnapshot != Finished && statusSnapshot != Failed {
        status := Failed;
        error := Some(ConnectionLost);
      }
    }

    /** Timer `i` fires; `token` is what the store holds at that moment. */
    method TimerFires(i: nat, token: Option<string>)
      requires i < |timers|
      modifies this
      ensures Model() == FireStep(env, old(Model()), i, token)
    {
      var t := timers[i];
      timers := timers[..i] + timers[i + 1..];
      attempts := attempts + 1;
      Connect(token, Some(t.taskId));
    }

    /** The effect cleanup, registered only by an effect run that had a task id. */
    method Teardown()
      modifies this
      ensures Model() == TeardownStep(old(Model()))
    {
      if conn.Some? {
        closeRequests := closeRequests + [conn.value];
      }
      conn := None;
    }
  }
}
