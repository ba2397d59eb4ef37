/** The admission protocol as a transition system (controller/src/proxy_server.cpp,
    controller/src/proxy_session.cpp, with one worker thread).

    A step is one whole handler, or one thing the environment does: a connection, a
    request, a timer that expires, an upstream operation that completes.  Handlers
    that were already queued when a timer was cancelled or a session finished still
    run; the flag checks in them are part of the model.  Sessions are named by the
    order of their connections. */
module ProxyModel {
  import opened LimiterCore
  import opened SseObserver

  /** Armed: waiting.  Expired and Cancelled: its handler is queued, with success or
      with operation_aborted; cancelling no longer changes it. */
  datatype Timer = Unset | Armed | Expired | Cancelled

  /** The one asynchronous operation whose completion drives the session. */
  datatype Stage =
    | Reading | Idle | Replying
    | Resolving | Connecting | WritingRequest | ReadingHeader
    | WritingHeader | ReadingBody | WritingBody(last: bool)

  /** `started` is `request_start_.has_value()`.  The two counts at the end are
      history: how often the session was reported completed and failed. */
  datatype Session = Session(
    stage: Stage, queued: bool, finished: bool, counted: bool, started: bool, responseStarted: bool,
    holdsPermit: bool, queueTimer: Timer, requestTimer: Timer, observer: Observer,
    completions: nat, failures: nat)

  datatype Metrics = Metrics(total: nat, completed: nat, failed: nat, firstTokens: nat)

  datatype Task = Enqueue(id: nat) | Promote | StopServer

  /** `deque` is `queued_sessions_` and `strand` the tasks posted to the server's
      strand.  `arrivals` is history: the sessions with a Queue decision, in order. */
  datatype State = State(
    limiter: Limiter, metrics: Metrics, sessions: seq<Session>, deque: seq<nat>, strand: seq<Task>,
    stopping: bool, arrivals: seq<nat>, maxSseBuffer: nat)

  function Init(maxInflight: nat, maxQueue: nat, maxSseBuffer: nat): State {
    State(Limiter(0, 0, maxInflight, maxQueue, false), Metrics(0, 0, 0, 0), [], [], [], false, [], maxSseBuffer)
  }

  const NEW_SESSION := Session(Reading, false, false, false, false, false,
                               false, Unset, Unset, NEW_OBSERVER, 0, 0)

  // ----- what the handlers share ---------------------------------------------

  function CancelTimer(t: Timer): Timer {
    if t == Armed then Cancelled else t
  }

  function Put(st: State, id: nat, s: Session): State
    requires id < |st.sessions|
  {
    st.(sessions := st.sessions[id := s])
  }

  /** `Permit::release` on a permit that owned a slot, callback included. */
  function GiveBackSlot(st: State): State {
    var (limiter, freed) := ReleaseSlot(st.limiter);
    if freed then st.(limiter := limiter, strand := st.strand + [Promote]) else st
  }

  function EndSession(s: Session, completed: bool): Session {
    s.(finished := true, holdsPermit := false,
       queueTimer := CancelTimer(s.queueTimer), requestTimer := CancelTimer(s.requestTimer),
       completions := s.completions + (if s.counted && completed then 1 else 0),
       failures := s.failures + (if s.counted && !completed then 1 else 0))
  }

  /** `finish_request` and `fail_with_status`, which differ in the metric only. */
  function End(st: State, id: nat, completed: bool): State
    requires id < |st.sessions|
  {
    var s := st.sessions[id];
    if s.finished then st else
      var ended := Put(st, id, EndSession(s, completed)).(metrics :=
        if !s.counted then st.metrics
        else if completed then st.metrics.(completed := st.metrics.completed + 1)
        else st.metrics.(failed := st.metrics.failed + 1));
      if s.holdsPermit then GiveBackSlot(ended) else ended
  }

  /** `start_proxy_request` with a permit whose slot the limiter already counts.
      Assigning the permit would first give back a slot held before. */
  function StartProxy(st: State, id: nat): State
    requires id < |st.sessions|
  {
    var s := st.sessions[id];
    var started := Put(st, id, s.(holdsPermit := true, started := true, requestTimer := Armed, stage := Resolving));
    if s.holdsPermit then GiveBackSlot(started) else started
  }

  // ----- requests ------------------------------------------------------------

  /** BadRequest: a path or a method the proxy does not serve. */
  datatype Request = Health | BadRequest | Completion

  function HandleRequest(st: State, id: nat, request: Request): State
    requires id < |st.sessions|
  {
    var s := st.sessions[id];
    match request
    case Health => Put(st, id, s.(stage := Replying))
    case BadRequest => End(Put(st, id, s.(stage := Idle)), id, false)
    case Completion =>
      var (limiter, acquired) := TryAcquireOrQueue(st.limiter);
      var seen := Put(st, id, s.(stage := Idle, counted := true)).(
        limiter := limiter, metrics := st.metrics.(total := st.metrics.total + 1));
      match acquired.decision
      case Admit => StartProxy(seen, id)
      case Queue => seen.(strand := seen.strand + [Enqueue(id)], arrivals := seen.arrivals + [id])
      case Closed => End(seen, id, false)
      case Reject => End(seen, id, false)
  }

  // ----- tasks on the server strand ------------------------------------------

  /** The task posted by `enqueue_session`, with `start_queue_timer`. */
  function RunEnqueue(st: State, id: nat): State
    requires id < |st.sessions|
  {
    if st.stopping then st else
      Put(st, id, st.sessions[id].(queued := true, queueTimer := Armed)).(deque := st.deque + [id])
  }

  /** `try_start_from_queue` with a fresh permit; a refused permit is destroyed. */
  function TryStartFromQueue(st: State, id: nat): (State, bool)
    requires id < |st.sessions|
  {
    var s := st.sessions[id];
    if !s.queued || s.finished then (GiveBackSlot(st), false)
    else (StartProxy(Put(st, id, s.(queued := false, queueTimer := CancelTimer(s.queueTimer))), id), true)
  }

  predicate KnownIds(st: State) {
    && (forall k | 0 <= k < |st.deque| :: st.deque[k] < |st.sessions|)
    && (forall k | 0 <= k < |st.strand| && st.strand[k].Enqueue? :: st.strand[k].id < |st.sessions|)
  }

  /** One turn of the loop in `promote_queued_sessions`; false when it returns. */
  function PromoteTurn(st: State): (State, bool)
    requires st.deque != [] && st.deque[0] < |st.sessions|
  {
    var id := st.deque[0];
    var popped := st.(deque := st.deque[1..]);
    if !st.sessions[id].queued then (popped, true)
    else
      var (limiter, granted) := TryPromoteQueued(st.limiter);
      if granted then (TryStartFromQueue(popped.(limiter := limiter), id).0, true)
      else if limiter.queued == 0 then (popped, true)
      else (st, false)
  }

  function PromoteAll(st: State): (r: State)
    requires forall k | 0 <= k < |st.deque| :: st.deque[k] < |st.sessions|
    decreases |st.deque|
  {
    if st.deque == [] then st else
      var (next, more) := PromoteTurn(st);
      if more then PromoteAll(next) else next
  }

  function RunStop(st: State): State {
    st.(stopping := true, limiter := Close(st.limiter), deque := [])
  }

  function RunTask(st: State): State
    requires st.strand != [] && KnownIds(st)
  {
    var rest := st.(strand := st.strand[1..]);
    match st.strand[0]
    case Enqueue(id) => RunEnqueue(rest, id)
    case Promote => PromoteAll(rest)
    case StopServer => RunStop(rest)
  }

  // ----- timers --------------------------------------------------------------

  function QueueTimerHandler(st: State, id: nat): State
    requires id < |st.sessions|
  {
    var s := st.sessions[id];
    if s.queueTimer == Cancelled || !s.queued then Put(st, id, s.(queueTimer := Unset))
    else
      var cancelled := st.(limiter := CancelQueued(st.limiter).0);
      End(Put(cancelled, id, s.(queueTimer := Unset, queued := false)), id, false)
  }

  function RequestTimerHandler(st: State, id: nat): State
    requires id < |st.sessions|
  {
    var s := st.sessions[id];
    var run := Put(st, id, s.(requestTimer := Unset));
    if s.requestTimer == Cancelled || s.finished then run else End(run, id, false)
  }

  // ----- the upstream chain --------------------------------------------------

  /** How an operation completes.  Failed covers errors, timeouts and answers that
      are not 200; the last three belong to reading the body. */
  datatype Outcome = Succeeded | Failed | NeedBuffer | EndOfStream | Chunk(bytes: string)

  predicate Possible(stage: Stage, outcome: Outcome) {
    match stage
    case Reading => false
    case Idle => false
    case Replying => false
    case ReadingBody => outcome != Succeeded
    case _ => outcome == Succeeded || outcome == Failed
  }

  function GoOn(st: State, id: nat, stage: Stage): State
    requires id < |st.sessions|
  {
    Put(st, id, st.sessions[id].(stage := stage))
  }

  /** A chunk of the body: observed, then written downstream. */
  function HandleChunk(st: State, id: nat, bytes: string): State
    requires id < |st.sessions|
  {
    var s := st.sessions[id];
    var (observer, done) := Observe(s.observer, bytes, st.maxSseBuffer);
    var tokens := if observer.firstDataSeen && !s.observer.firstDataSeen then 1 else 0;
    var seen := st.(metrics := st.metrics.(firstTokens := st.metrics.firstTokens + tokens));
    if bytes == "" && done then End(Put(seen, id, s.(observer := observer, stage := Idle)), id, true)
    else Put(seen, id, s.(observer := observer, stage := WritingBody(done)))
  }

  function HandleUpstream(st: State, id: nat, outcome: Outcome): State
    requires id < |st.sessions| && Possible(st.sessions[id].stage, outcome)
  {
    var s := st.sessions[id];
    match outcome
    case Failed => End(GoOn(st, id, Idle), id, s.stage == WritingHeader)
    case NeedBuffer => st
    case EndOfStream => End(GoOn(st, id, Idle), id, true)
    case Chunk(bytes) => HandleChunk(st, id, bytes)
    case Succeeded =>
      match s.stage
      case Resolving => GoOn(st, id, Connecting)
      case Connecting => GoOn(st, id, WritingRequest)
      case WritingRequest => GoOn(st, id, ReadingHeader)
      case ReadingHeader => Put(st, id, s.(responseStarted := true, stage := WritingHeader))
      case WritingBody(last) => if last then End(GoOn(st, id, Idle), id, true) else GoOn(st, id, ReadingBody)
      case _ => GoOn(st, id, ReadingBody)
  }

  // ----- steps and runs ------------------------------------------------------

  datatype Step =
    | Connect
    | ReadFails(id: nat)
    | ReadSucceeds(id: nat, request: Request)
    | ReplyWritten(id: nat)
    | CallStop
    | RunStrand
    | QueueTimerExpires(id: nat)
    | QueueTimerRuns(id: nat)
    | RequestTimerExpires(id: nat)
    | RequestTimerRuns(id: nat)
    | UpstreamCompletes(id: nat, outcome: Outcome)

  predicate HandlerQueued(t: Timer) {
    t == Expired || t == Cancelled
  }

  predicate Enabled(st: State, step: Step) {
    match step
    case Connect => true
    case CallStop => true
    case RunStrand => st.strand != [] && KnownIds(st)
    case ReadFails(id) => id < |st.sessions| && st.sessions[id].stage == Reading
    case ReadSucceeds(id, _) => id < |st.sessions| && st.sessions[id].stage == Reading
    case ReplyWritten(id) => id < |st.sessions| && st.sessions[id].stage == Replying
    case QueueTimerExpires(id) => id < |st.sessions| && st.sessions[id].queueTimer == Armed
    case QueueTimerRuns(id) => id < |st.sessions| && HandlerQueued(st.sessions[id].queueTimer)
    case RequestTimerExpires(id) => id < |st.sessions| && st.sessions[id].requestTimer == Armed
    case RequestTimerRuns(id) => id < |st.sessions| && HandlerQueued(st.sessions[id].requestTimer)
    case UpstreamCompletes(id, outcome) => id < |st.sessions| && Possible(st.sessions[id].stage, outcome)
  }

  function Apply(st: State, step: Step): State
    requires Enabled(st, step)
  {
    match step
    case Connect => st.(sessions := st.sessions + [NEW_SESSION])
    case ReadFails(id) => Put(st, id, st.sessions[id].(stage := Idle, finished := true))
    case ReadSucceeds(id, request) => HandleRequest(st, id, request)
    case ReplyWritten(id) => Put(st, id, st.sessions[id].(stage := Idle, finished := true))
    case CallStop => st.(strand := st.strand + [StopServer])
    case RunStrand => RunTask(st)
    case QueueTimerExpires(id) => Put(st, id, st.sessions[id].(queueTimer := Expired))
    case QueueTimerRuns(id) => QueueTimerHandler(st, id)
    case RequestTimerExpires(id) => Put(st, id, st.sessions[id].(requestTimer := Expired))
    case RequestTimerRuns(id) => RequestTimerHandler(st, id)
    case UpstreamCompletes(id, outcome) => HandleUpstream(st, id, outcome)
  }

  predicate Legal(st: State, steps: seq<Step>)
    decreases |steps|
  {
    steps == [] || (Enabled(st, steps[0]) && Legal(Apply(st, steps[0]), steps[1..]))
  }

  function Run(st: State, steps: seq<Step>): State
    requires Legal(st, steps)
    decreases |steps|
  {
    if steps == [] then st else Run(Apply(st, steps[0]), steps[1..])
  }
}
