/** The mutable server and its sessions (controller/src/proxy_server.cpp,
    controller/src/proxy_session.cpp, controller/src/proxy_metrics.cpp).  Every
    method is proved to do to the objects what the corresponding function of
    `ProxyModel` does to a state that represents them. */
module ProxyObjects {
  import opened LimiterCore
  import opened LimiterObjects
  import opened SseObserver
  import Model = ProxyModel

  class ProxyMetrics {
    var totalRequests: nat
    var completedRequests: nat
    var failedRequests: nat
    var firstTokenEvents: nat

    constructor ()
      ensures View() == Model.Metrics(0, 0, 0, 0)
    {
      totalRequests, completedRequests, failedRequests, firstTokenEvents := 0, 0, 0, 0;
    }

    function View(): Model.Metrics
      reads this
    {
      Model.Metrics(totalRequests, completedRequests, failedRequests, firstTokenEvents)
    }
  }

  datatype PostedTask = Enqueue(session: ProxySession) | Promote | StopServer

  /** `permit_` is a permit without a slot until one is moved into it. */
  class ProxySession {
    const server: ProxyServer
    const permit: Permit
    ghost const id: nat
    var stage: Model.Stage
    var queued: bool
    var finished: bool
    var requestCounted: bool
    var requestStarted: bool
    var responseStarted: bool
    var queueTimer: Model.Timer
    var requestTimer: Model.Timer
    var observer: Observer
    ghost var completions: nat
    ghost var failures: nat

    ghost function View(): Model.Session
      reads this, permit
    {
      Model.Session(stage, queued, finished, requestCounted, requestStarted, responseStarted,
                    permit.ownsSlot, queueTimer, requestTimer, observer, completions, failures)
    }

    constructor (server: ProxyServer, ghost id: nat)
      ensures this.server == server && this.id == id && View() == Model.NEW_SESSION
      ensures fresh(permit) && permit.state == server.limiter
    {
      this.server, this.id := server, id;
      permit := new Permit(server.limiter, false);
      stage := Model.Reading;
      queued, finished, requestCounted, requestStarted, responseStarted := false, false, false, false, false;
      queueTimer, requestTimer := Model.Unset, Model.Unset;
      observer := NEW_OBSERVER;
      completions, failures := 0, 0;
    }

    /** This session is the one called `id` in a state its server represents. */
    ghost predicate Serves(st: Model.State)
      reads server, server.limiter, server.metrics, server.all, set s | s in server.all :: s.permit
    {
      server.Represents(st) && id < |server.all| && server.all[id] == this
    }

    /** `permit_.reset()`. */
    method ResetPermit(ghost st: Model.State)
      requires Serves(st)
      modifies permit`ownsSlot, server`strand, server.limiter`currentInflight, server.limiter`callbacks
      ensures Serves(Released(st, id))
    {
      var notified := permit.Release();
      if notified {
        server.strand := server.strand + [Promote];
      }
    }

    method CancelTimers()
      modifies this`queueTimer, this`requestTimer
      ensures queueTimer == Model.CancelTimer(old(queueTimer))
      ensures requestTimer == Model.CancelTimer(old(requestTimer))
    {
      requestTimer := Model.CancelTimer(requestTimer);
      queueTimer := Model.CancelTimer(queueTimer);
    }

    method RecordOutcome(completed: bool)
      modifies this`completions, this`failures, server.metrics
      ensures server.metrics.View() == OutcomeRecorded(old(server.metrics.View()), requestCounted, completed)
      ensures completions == old(completions) + (if requestCounted && completed then 1 else 0)
      ensures failures == old(failures) + (if requestCounted && !completed then 1 else 0)
    {
      if requestCounted {
        if completed {
          server.metrics.completedRequests := server.metrics.completedRequests + 1;
          completions := completions + 1;
        } else {
          server.metrics.failedRequests := server.metrics.failedRequests + 1;
          failures := failures + 1;
        }
      }
    }

    /** Everything in `finish_request` and `fail_with_status` before the permit. */
    method CloseRecord(completed: bool, ghost st: Model.State)
      requires Serves(st) && !finished
      modifies this, server.metrics
      ensures Serves(Ended(st, id, completed))
    {
      hide OutcomeRecorded;
      finished := true;
      CancelTimers();
      RecordOutcome(completed);
      assert View() == Ended(st, id, completed).sessions[id];
      PutMatches(server, server.limiter, server.all, id, st.sessions, View());
    }

    /** `finish_request` and `fail_with_status`, up to the response. */
    method EndRequest(completed: bool, ghost st: Model.State)
      requires Serves(st)
      modifies this, permit`ownsSlot, server`strand, server.limiter, server.metrics
      ensures Serves(Model.End(st, id, completed))
    {
      EndInTwo(st, id, completed);
      assert st.sessions[id] == View();
      hide Model.End, Released, Ended;
      if finished {
        return;
      }
      CloseRecord(completed, st);
      ResetPermit(Ended(st, id, completed));
    }

    /** A permit that no session keeps, owning a slot or not. */
    ghost predicate Loose(p: Permit)
      reads p, server
    {
      p.state == server.limiter && forall i | 0 <= i < |server.all| :: server.all[i].permit != p
    }

    /** `permit_ = std::move(permit)`. */
    method TakePermit(p: Permit, ghost st: Model.State)
      requires Serves(st) && Loose(p) && p.ownsSlot
      modifies permit, p`ownsSlot, server`strand, server.limiter`currentInflight, server.limiter`callbacks
      ensures Serves(Taken(st, id))
    {
      var notified := permit.MoveAssign(p);
      if notified {
        server.strand := server.strand + [Promote];
      }
    }

    /** Arms the request timer and starts the upstream chain. */
    method StartChain(ghost st: Model.State)
      requires Serves(st)
      modifies this`requestStarted, this`requestTimer, this`stage
      ensures Serves(Chained(st, id))
    {
      requestStarted := true;
      requestTimer := Model.Armed;
      stage := Model.Resolving;
      PutMatches(server, server.limiter, server.all, id, st.sessions, View());
    }

    method StartProxyRequest(p: Permit, ghost st: Model.State)
      requires Serves(st) && Loose(p) && p.ownsSlot
      modifies this, permit, p`ownsSlot, server`strand, server.limiter`currentInflight, server.limiter`callbacks
      ensures Serves(Model.StartProxy(st, id))
    {
      StartInTwo(st, id);
      hide Model.StartProxy, Taken, Chained;
      TakePermit(p, st);
      StartChain(Taken(st, id));
    }

    method StartQueueTimer(ghost st: Model.State)
      requires Serves(st)
      modifies this`queued, this`queueTimer
      ensures Serves(Model.Put(st, id, st.sessions[id].(queued := true, queueTimer := Model.Armed)))
    {
      queued := true;
      queueTimer := Model.Armed;
      PutMatches(server, server.limiter, server.all, id, st.sessions, View());
    }

    method LeaveQueue(ghost st: Model.State)
      requires Serves(st)
      modifies this`queued, this`queueTimer
      ensures Serves(Left(st, id))
    {
      queued := false;
      queueTimer := Model.CancelTimer(queueTimer);
      PutMatches(server, server.limiter, server.all, id, st.sessions, View());
    }

    /** A refused permit goes out of scope: its destructor gives the slot back. */
    method DestroyPermit(p: Permit, ghost st: Model.State)
      requires Serves(st) && Loose(p) && p.ownsSlot
      modifies p`ownsSlot, server`strand, server.limiter`currentInflight, server.limiter`callbacks
      ensures Serves(Model.GiveBackSlot(st))
    {
      var notified := p.Release();
      if notified {
        server.strand := server.strand + [Promote];
      }
    }

    method TryStartFromQueue(p: Permit, ghost st: Model.State) returns (started: bool)
      requires Serves(st) && Loose(p) && p.ownsSlot
      modifies this, permit, p`ownsSlot, server`strand, server.limiter`currentInflight, server.limiter`callbacks
      ensures Serves(Model.TryStartFromQueue(st, id).0) && started == Model.TryStartFromQueue(st, id).1
    {
      assert st.sessions[id] == View();
      hide Model.StartProxy, Model.GiveBackSlot;
      if !queued || finished {
        DestroyPermit(p, st);
        return false;
      }
      LeaveQueue(st);
      StartProxyRequest(p, Left(st, id));
      started := true;
    }

    // ----- requests ----------------------------------------------------------

    method SetStage(next: Model.Stage, ghost st: Model.State)
      requires Serves(st)
      modifies this`stage
      ensures Serves(Model.GoOn(st, id, next))
    {
      stage := next;
      PutMatches(server, server.limiter, server.all, id, st.sessions, View());
    }

    /** A request to the completion endpoint is counted before it is decided. */
    method CountRequest(ghost st: Model.State)
      requires Serves(st)
      modifies this`stage, this`requestCounted, server.metrics`totalRequests
      ensures Serves(CountedIn(st, id))
    {
      server.metrics.totalRequests := server.metrics.totalRequests + 1;
      requestCounted := true;
      stage := Model.Idle;
      PutMatches(server, server.limiter, server.all, id, st.sessions, View());
    }

    method Acquire(ghost st: Model.State) returns (decision: Decision, permit: Permit)
      requires Serves(st)
      modifies server.limiter`currentInflight, server.limiter`queuedRequests
      ensures fresh(permit) && Loose(permit)
      ensures Serves(st.(limiter := TryAcquireOrQueue(st.limiter).0))
      ensures decision == TryAcquireOrQueue(st.limiter).1.decision
      ensures permit.ownsSlot == TryAcquireOrQueue(st.limiter).1.granted
    {
      var position;
      decision, permit, position := server.limiter.TryAcquireOrQueue();
    }

    /** `enqueue_session`: the task is posted, nothing else happens yet. */
    method PostEnqueue(ghost st: Model.State)
      requires Serves(st)
      modifies server`strand, server`arrivals
      ensures Serves(st.(strand := st.strand + [Model.Enqueue(id)], arrivals := st.arrivals + [id]))
    {
      server.strand := server.strand + [Enqueue(this)];
      server.arrivals := server.arrivals + [id];
    }

    method DecideRequest(ghost st: Model.State)
      requires Serves(st)
      modifies this, permit, server`strand, server`arrivals, server.limiter, server.metrics
      ensures Serves(Decided(st, id))
    {
      hide Model.StartProxy, Model.End, TryAcquireOrQueue, ProxyServer.Represents;
      var decision, granted := Acquire(st);
      ghost var acquired := st.(limiter := TryAcquireOrQueue(st.limiter).0);
      AdmitGrants(st.limiter);
      match decision
      case Admit => StartProxyRequest(granted, acquired);
      case Queue => PostEnqueue(acquired);
      case Closed => EndRequest(false, acquired);
      case Reject => EndRequest(false, acquired);
    }

    method HandleRequest(request: Model.Request, ghost st: Model.State)
      requires Serves(st)
      modifies this, permit, server`strand, server`arrivals, server.limiter, server.metrics
      ensures Serves(Model.HandleRequest(st, id, request))
    {
      RequestInTwo(st, id);
      hide Model.End, Decided, CountedIn, ProxyServer.Represents;
      match request
      case Health => SetStage(Model.Replying, st);
      case BadRequest =>
        SetStage(Model.Idle, st);
        EndRequest(false, Model.GoOn(st, id, Model.Idle));
      case Completion =>
        CountRequest(st);
        DecideRequest(CountedIn(st, id));
    }

    /** The handlers of a failed read and of a written health reply do the same: they
        only mark the session. */
    method OnConnectionOver(ghost st: Model.State)
      requires Serves(st)
      modifies this`stage, this`finished
      ensures Serves(Model.Put(st, id, st.sessions[id].(stage := Model.Idle, finished := true)))
    {
      stage := Model.Idle;
      finished := true;
      PutMatches(server, server.limiter, server.all, id, st.sessions, View());
    }

    // ----- timers ------------------------------------------------------------

    method ClearQueueTimer(stillQueued: bool, ghost st: Model.State)
      requires Serves(st)
      modifies this`queueTimer, this`queued
      ensures Serves(Model.Put(st, id, st.sessions[id].(queueTimer := Model.Unset, queued := stillQueued)))
    {
      queueTimer := Model.Unset;
      queued := stillQueued;
      PutMatches(server, server.limiter, server.all, id, st.sessions, View());
    }

    method CancelQueued(ghost st: Model.State)
      requires Serves(st)
      modifies server.limiter`queuedRequests
      ensures Serves(st.(limiter := LimiterCore.CancelQueued(st.limiter).0))
    {
      var cancelled := server.limiter.CancelQueued();
    }

    /** The handler of the queue timer: nothing on a cancelled wait, or when the
        session has left the queue. */
    method OnQueueTimer(ghost st: Model.State)
      requires Serves(st)
      modifies this, permit, server`strand, server.limiter, server.metrics
      ensures Serves(Model.QueueTimerHandler(st, id))
    {
      assert st.sessions[id] == View();
      hide Model.End, ProxyServer.Represents;
      if queueTimer == Model.Cancelled || !queued {
        ClearQueueTimer(queued, st);
        return;
      }
      CancelQueued(st);
      ghost var cancelled := st.(limiter := LimiterCore.CancelQueued(st.limiter).0);
      ClearQueueTimer(false, cancelled);
      EndRequest(false, Model.Put(cancelled, id, st.sessions[id].(queueTimer := Model.Unset, queued := false)));
    }

    method ClearRequestTimer(ghost st: Model.State)
      requires Serves(st)
      modifies this`requestTimer
      ensures Serves(Model.Put(st, id, st.sessions[id].(requestTimer := Model.Unset)))
    {
      requestTimer := Model.Unset;
      PutMatches(server, server.limiter, server.all, id, st.sessions, View());
    }

    method OnRequestTimer(ghost st: Model.State)
      requires Serves(st)
      modifies this, permit, server`strand, server.limiter, server.metrics
      ensures Serves(Model.RequestTimerHandler(st, id))
    {
      assert st.sessions[id] == View();
      hide Model.End, ProxyServer.Represents;
      var cancelled := requestTimer == Model.Cancelled;
      ClearRequestTimer(st);
      if cancelled || finished {
        return;
      }
      EndRequest(false, Model.Put(st, id, st.sessions[id].(requestTimer := Model.Unset)));
    }

    // ----- the upstream chain ------------------------------------------------

    /** `observe_sse_chunk`, with `record_ttft`; StreamObserver in SseObserver is the
        loop inside. */
    method ObserveChunk(bytes: string, ghost st: Model.State) returns (done: bool)
      requires Serves(st)
      modifies this`observer, server.metrics`firstTokenEvents
      ensures Serves(Observed(st, id, bytes)) && done == Observe(st.sessions[id].observer, bytes, st.maxSseBuffer).1
    {
      hide Observe;
      assert st.sessions[id] == View();
      var seen := observer.firstDataSeen;
      var (next, last) := Observe(observer, bytes, server.maxSseBuffer);
      observer := next;
      if observer.firstDataSeen && !seen {
        server.metrics.firstTokenEvents := server.metrics.firstTokenEvents + 1;
      }
      PutMatches(server, server.limiter, server.all, id, st.sessions, View());
      return last;
    }

    method OnChunk(bytes: string, ghost st: Model.State)
      requires Serves(st)
      modifies this, permit, server`strand, server.limiter, server.metrics
      ensures Serves(Model.HandleChunk(st, id, bytes))
    {
      ChunkInTwo(st, id, bytes);
      hide Model.End, Observed, Observe, Model.GoOn, ProxyServer.Represents;
      var done := ObserveChunk(bytes, st);
      ghost var seen := Observed(st, id, bytes);
      if bytes == "" && done {
        SetStage(Model.Idle, seen);
        EndRequest(true, Model.GoOn(seen, id, Model.Idle));
      } else {
        SetStage(Model.WritingBody(done), seen);
      }
    }

    method StartResponse(ghost st: Model.State)
      requires Serves(st)
      modifies this`responseStarted, this`stage
      ensures Serves(Model.Put(st, id, st.sessions[id].(responseStarted := true, stage := Model.WritingHeader)))
    {
      responseStarted := true;
      stage := Model.WritingHeader;
      PutMatches(server, server.limiter, server.all, id, st.sessions, View());
    }

    method EndChain(completed: bool, ghost st: Model.State)
      requires Serves(st)
      modifies this, permit, server`strand, server.limiter, server.metrics
      ensures Serves(Model.End(Model.GoOn(st, id, Model.Idle), id, completed))
    {
      assert st.sessions[id] == View();
      hide Model.End, Model.GoOn, ProxyServer.Represents;
      SetStage(Model.Idle, st);
      EndRequest(completed, Model.GoOn(st, id, Model.Idle));
    }

    /** The completion handler of the operation the session waits for. */
    method OnUpstream(outcome: Model.Outcome, ghost st: Model.State)
      requires Serves(st) && Model.Possible(st.sessions[id].stage, outcome)
      modifies this, permit, server`strand, server.limiter, server.metrics
      ensures Serves(Model.HandleUpstream(st, id, outcome))
    {
      assert st.sessions[id] == View();
      hide Model.End, Model.GoOn, Model.HandleChunk, ProxyServer.Represents;
      match outcome
      case Failed => EndChain(stage == Model.WritingHeader, st);
      case NeedBuffer =>
      case EndOfStream => EndChain(true, st);
      case Chunk(bytes) => OnChunk(bytes, st);
      case Succeeded =>
        if stage == Model.Resolving {
          SetStage(Model.Connecting, st);
        } else if stage == Model.Connecting {
          SetStage(Model.WritingRequest, st);
        } else if stage == Model.WritingRequest {
          SetStage(Model.ReadingHeader, st);
        } else if stage == Model.ReadingHeader {
          StartResponse(st);
        } else if stage == Model.WritingBody(true) {
          EndChain(true, st);
        } else {
          SetStage(Model.ReadingBody, st);
        }
    }
  }

  // ----- the steps of a request and of a chunk -------------------------------

  ghost function CountedIn(st: Model.State, id: nat): Model.State
    requires id < |st.sessions|
  {
    Model.Put(st, id, st.sessions[id].(stage := Model.Idle, counted := true)).(
      metrics := st.metrics.(total := st.metrics.total + 1))
  }

  ghost function Decided(st: Model.State, id: nat): Model.State
    requires id < |st.sessions|
  {
    var (limiter, acquired) := TryAcquireOrQueue(st.limiter);
    var seen := st.(limiter := limiter);
    match acquired.decision
    case Admit => Model.StartProxy(seen, id)
    case Queue => seen.(strand := seen.strand + [Model.Enqueue(id)], arrivals := seen.arrivals + [id])
    case Closed => Model.End(seen, id, false)
    case Reject => Model.End(seen, id, false)
  }

  lemma AdmitGrants(l: Limiter)
    ensures TryAcquireOrQueue(l).1.decision == Admit <==> TryAcquireOrQueue(l).1.granted
  {}

  lemma RequestInTwo(st: Model.State, id: nat)
    requires id < |st.sessions|
    ensures Model.HandleRequest(st, id, Model.Completion) == Decided(CountedIn(st, id), id)
  {
    hide Model.StartProxy, Model.End;
  }

  ghost function Observed(st: Model.State, id: nat, bytes: string): Model.State
    requires id < |st.sessions|
  {
    var s := st.sessions[id];
    var observer := Observe(s.observer, bytes, st.maxSseBuffer).0;
    var tokens := if observer.firstDataSeen && !s.observer.firstDataSeen then 1 else 0;
    Model.Put(st, id, s.(observer := observer)).(
      metrics := st.metrics.(firstTokens := st.metrics.firstTokens + tokens))
  }

  lemma ChunkInTwo(st: Model.State, id: nat, bytes: string)
    requires id < |st.sessions|
    ensures var seen := Observed(st, id, bytes);
      var done := Observe(st.sessions[id].observer, bytes, st.maxSseBuffer).1;
      Model.HandleChunk(st, id, bytes) ==
        if bytes == "" && done then Model.End(Model.GoOn(seen, id, Model.Idle), id, true)
        else Model.GoOn(seen, id, Model.WritingBody(done))
  {
    hide Model.End, Observe;
    var s := st.sessions[id];
    var (observer, done) := Observe(s.observer, bytes, st.maxSseBuffer);
    var t := s.(observer := observer);
    assert st.sessions[id := t][id := t.(stage := Model.Idle)] == st.sessions[id := t.(stage := Model.Idle)];
    assert st.sessions[id := t][id := t.(stage := Model.WritingBody(done))]
        == st.sessions[id := t.(stage := Model.WritingBody(done))];
  }

  // ----- the steps of `StartProxy` -------------------------------------------

  ghost function Taken(st: Model.State, id: nat): Model.State
    requires id < |st.sessions|
  {
    var s := st.sessions[id];
    var taken := Model.Put(st, id, s.(holdsPermit := true));
    if s.holdsPermit then Model.GiveBackSlot(taken) else taken
  }

  ghost function Chained(st: Model.State, id: nat): Model.State
    requires id < |st.sessions|
  {
    Model.Put(st, id, st.sessions[id].(started := true, requestTimer := Model.Armed, stage := Model.Resolving))
  }

  ghost function Left(st: Model.State, id: nat): Model.State
    requires id < |st.sessions|
  {
    var s := st.sessions[id];
    Model.Put(st, id, s.(queued := false, queueTimer := Model.CancelTimer(s.queueTimer)))
  }

  lemma GivingBackCommutes(st: Model.State, id: nat, s: Model.Session)
    requires id < |st.sessions|
    ensures Model.GiveBackSlot(st).sessions == st.sessions
    ensures Model.Put(Model.GiveBackSlot(st), id, s) == Model.GiveBackSlot(Model.Put(st, id, s))
  {}

  lemma StartInTwo(st: Model.State, id: nat)
    requires id < |st.sessions|
    ensures Model.StartProxy(st, id) == Chained(Taken(st, id), id)
  {
    hide Model.GiveBackSlot;
    var s := st.sessions[id];
    var taken := Model.Put(st, id, s.(holdsPermit := true));
    var t := s.(holdsPermit := true, started := true, requestTimer := Model.Armed, stage := Model.Resolving);
    GivingBackCommutes(taken, id, t);
    assert st.sessions[id := s.(holdsPermit := true)][id := t] == st.sessions[id := t];
  }

  // ----- the halves of `End` -------------------------------------------------

  ghost function Released(st: Model.State, id: nat): Model.State
    requires id < |st.sessions|
  {
    var s := st.sessions[id];
    var reset := Model.Put(st, id, s.(holdsPermit := false));
    if s.holdsPermit then Model.GiveBackSlot(reset) else reset
  }

  ghost function OutcomeRecorded(m: Model.Metrics, counted: bool, completed: bool): Model.Metrics {
    if !counted then m
    else if completed then m.(completed := m.completed + 1)
    else m.(failed := m.failed + 1)
  }

  ghost function Ended(st: Model.State, id: nat, completed: bool): Model.State
    requires id < |st.sessions|
  {
    var s := st.sessions[id];
    Model.Put(st, id, Model.EndSession(s, completed).(holdsPermit := s.holdsPermit)).(
      metrics := OutcomeRecorded(st.metrics, s.counted, completed))
  }

  lemma EndInTwo(st: Model.State, id: nat, completed: bool)
    requires id < |st.sessions|
    ensures Model.End(st, id, completed) ==
      if st.sessions[id].finished then st else Released(Ended(st, id, completed), id)
  {
    hide Model.GiveBackSlot;
    var s := st.sessions[id];
    assert st.sessions[id := Model.EndSession(s, completed).(holdsPermit := s.holdsPermit)]
        [id := Model.EndSession(s, completed)] == st.sessions[id := Model.EndSession(s, completed)];
  }

  /** A handler wrote to one session only. */
  lemma PutMatches(server: ProxyServer, limiter: InflightLimiter, all: seq<ProxySession>, id: nat,
                   sessions: seq<Model.Session>, s: Model.Session)
    requires Separate(server, all) && id < |all| == |sessions|
    requires all[id].View() == s && all[id].permit.state == limiter
    requires forall i | 0 <= i < |all| && i != id :: all[i].View() == sessions[i] && all[i].permit.state == limiter
    ensures SessionsMatch(limiter, all, sessions[id := s])
  {}

  class ProxyServer {
    const limiter: InflightLimiter
    const metrics: ProxyMetrics
    const maxSseBuffer: nat
    var queuedSessions: seq<ProxySession>
    var strand: seq<PostedTask>
    var stopping: bool
    ghost var all: seq<ProxySession>
    ghost var arrivals: seq<nat>

    constructor (maxInflight: nat, maxQueueSize: nat, maxSseBuffer: nat)
      requires 0 < maxInflight
      ensures Represents(Model.Init(maxInflight, maxQueueSize, maxSseBuffer))
    {
      limiter := new InflightLimiter(maxInflight, maxQueueSize);
      metrics := new ProxyMetrics();
      this.maxSseBuffer := maxSseBuffer;
      queuedSessions, strand, stopping := [], [], false;
      all, arrivals := [], [];
      new;
      limiter.SetOnRelease();
    }

    /** The sessions and their permits. */
    ghost function Members(): set<object>
      reads this
    {
      (set s: ProxySession | s in all :: s as object) + (set s: ProxySession | s in all :: s.permit as object)
    }

    /** A new connection. */
    method Accept(ghost st: Model.State) returns (session: ProxySession)
      requires Represents(st)
      modifies this`all
      ensures fresh(session) && session.Serves(Model.Apply(st, Model.Connect))
    {
      session := new ProxySession(this, |all|);
      all := all + [session];
    }

    /** Posts the task that `RunStop` is. */
    method Stop(ghost st: Model.State)
      requires Represents(st)
      modifies this`strand
      ensures Represents(Model.Apply(st, Model.CallStop))
    {
      strand := strand + [StopServer];
    }

    method PopFront(ghost st: Model.State) returns (session: ProxySession)
      requires Represents(st) && queuedSessions != []
      modifies this`queuedSessions
      ensures session == old(queuedSessions)[0] && queuedSessions == old(queuedSessions)[1..]
      ensures st.deque != [] && session.id == st.deque[0] < |st.sessions|
      ensures session in all && session.server == this
      ensures session.Serves(st.(deque := st.deque[1..])) && st.sessions[session.id] == session.View()
    {
      DequeKnown(all, queuedSessions, st.deque, st);
      session := queuedSessions[0];
      queuedSessions := queuedSessions[1..];
    }

    method PushFront(session: ProxySession, ghost st: Model.State)
      requires Represents(st) && session in all
      modifies this`queuedSessions
      ensures Represents(st.(deque := [session.id] + st.deque))
    {
      queuedSessions := [session] + queuedSessions;
    }

    method TakeSlot(session: ProxySession, ghost st: Model.State) returns (permit: Permit)
      requires session.Serves(st) && session in all && session.server == this
      modifies limiter`currentInflight, limiter`queuedRequests
      ensures fresh(permit) && session.Loose(permit)
      ensures session.Serves(st.(limiter := TryPromoteQueued(st.limiter).0))
      ensures (limiter.View(), permit.ownsSlot) == TryPromoteQueued(st.limiter)
    {
      permit := limiter.TryPromoteQueued();
    }

    /** One turn of the loop below; false when it returns. */
    method PromoteNext(ghost st: Model.State) returns (more: bool)
      requires Represents(st) && queuedSessions != []
      modifies this`queuedSessions, this`strand, limiter, Members()
      ensures KnownDeque(st)
      ensures Represents(Model.PromoteTurn(st).0) && more == Model.PromoteTurn(st).1
      ensures more ==> |queuedSessions| < old(|queuedSessions|)
    {
      KnownAlways(st);
      hide Represents, TryPromoteQueued, Model.TryStartFromQueue;
      var session := PopFront(st);
      ghost var popped := st.(deque := st.deque[1..]);
      if !session.queued {
        return true;
      }
      var permit := TakeSlot(session, popped);
      if !permit.ownsSlot {
        if limiter.queuedRequests == 0 {
          return true;
        }
        RefusedKeeps(st.limiter);
        assert [st.deque[0]] + st.deque[1..] == st.deque;
        PushFront(session, popped);
        return false;
      }
      var started := session.TryStartFromQueue(permit, popped.(limiter := TryPromoteQueued(st.limiter).0));
      return true;
    }

    lemma RefusedKeeps(l: Limiter)
      ensures !TryPromoteQueued(l).1 ==> TryPromoteQueued(l).0 == l
    {}

    method PromoteQueuedSessions(ghost st: Model.State)
      requires Represents(st)
      modifies this`queuedSessions, this`strand, limiter, Members()
      ensures KnownDeque(st)
      ensures Represents(Model.PromoteAll(st))
    {
      ghost var now := st;
      var more := true;
      KnownAlways(st);
      while more && queuedSessions != []
        invariant Represents(now) && KnownDeque(now)
        invariant Model.PromoteAll(st) == if more then Model.PromoteAll(now) else now
        decreases more, |queuedSessions|
      {
        hide Represents, Model.PromoteTurn;
        more := PromoteNext(now);
        now := Model.PromoteTurn(now).0;
        KnownAlways(now);
      }
    }

    /** The task posted by `enqueue_session`; a stopping server drops the session. */
    method RunEnqueue(session: ProxySession, ghost st: Model.State)
      requires session.Serves(st) && session.server == this
      modifies this`queuedSessions, session`queued, session`queueTimer
      ensures Represents(Model.RunEnqueue(st, session.id))
    {
      if stopping {
        return;
      }
      queuedSessions := queuedSessions + [session];
      session.StartQueueTimer(st.(deque := st.deque + [session.id]));
    }

    /** The task posted by `stop`; the sockets it closes are not part of this model. */
    method RunStop(ghost st: Model.State)
      requires Represents(st)
      modifies this`stopping, this`queuedSessions, limiter`closed, limiter`queuedRequests
      ensures Represents(Model.RunStop(st))
    {
      stopping := true;
      limiter.Close();
      while queuedSessions != []
        invariant |queuedSessions| <= |st.deque|
        invariant Represents(st.(stopping := true, limiter := LimiterCore.Close(st.limiter),
                                 deque := st.deque[|st.deque| - |queuedSessions|..]))
      {
        queuedSessions := queuedSessions[1..];
      }
    }

    /** Runs the oldest task on the strand. */
    method RunTask(ghost st: Model.State)
      requires Represents(st) && strand != []
      modifies this, limiter, Members()
      ensures st.strand != [] && Model.KnownIds(st) && Represents(Model.RunTask(st))
    {
      TasksKnown(st);
      hide Model.PromoteAll, Model.RunEnqueue, Model.RunStop;
      var task := strand[0];
      strand := strand[1..];
      ghost var rest := st.(strand := st.strand[1..]);
      match task
      case Enqueue(session) => RunEnqueue(session, rest);
      case Promote => PromoteQueuedSessions(rest);
      case StopServer => RunStop(rest);
    }

    lemma TasksKnown(st: Model.State)
      requires Represents(st)
      ensures Model.KnownIds(st)
    {
      KnownAlways(st);
      forall k | 0 <= k < |st.strand| && st.strand[k].Enqueue?
        ensures st.strand[k].id < |st.sessions|
      {
        assert st.strand[k] == TaskView(strand[k]);
      }
    }

    lemma KnownAlways(st: Model.State)
      requires Represents(st)
      ensures KnownDeque(st) && (st.deque == [] <==> queuedSessions == [])
    {
      DequeKnown(all, queuedSessions, st.deque, st);
    }

    /** The objects are in the state `st`. */
    ghost predicate Represents(st: Model.State)
      reads this, limiter, metrics, all, set s | s in all :: s.permit
    {
      && limiter.onRelease
      && st.limiter == limiter.View() && st.metrics == metrics.View() && st.stopping == stopping
      && st.maxSseBuffer == maxSseBuffer && st.arrivals == arrivals
      && Separate(this, all)
      && SessionsMatch(limiter, all, st.sessions)
      && QueueMatches(all, queuedSessions, st.deque)
      && StrandMatches(all, strand, st.strand)
    }
  }

  predicate KnownDeque(st: Model.State) {
    forall k | 0 <= k < |st.deque| :: st.deque[k] < |st.sessions|
  }

  lemma DequeKnown(all: seq<ProxySession>, queue: seq<ProxySession>, deque: seq<nat>, st: Model.State)
    requires QueueMatches(all, queue, deque) && |st.sessions| == |all| && st.deque == deque
    requires forall i | 0 <= i < |all| :: all[i].id == i
    ensures KnownDeque(st)
    ensures queue != [] ==> queue[0].id < |all| && all[queue[0].id] == queue[0] && deque[0] == queue[0].id
  {}

  /** Every session knows its server and its place, and no two share a permit. */
  ghost predicate Separate(server: ProxyServer, all: seq<ProxySession>) {
    && (forall i | 0 <= i < |all| :: all[i].id == i && all[i].server == server)
    && (forall i, j | 0 <= i < j < |all| :: all[i].permit != all[j].permit)
  }

  ghost predicate SessionsMatch(limiter: InflightLimiter, all: seq<ProxySession>, sessions: seq<Model.Session>)
    reads all, set s | s in all :: s.permit
  {
    && |sessions| == |all|
    && forall i | 0 <= i < |all| :: all[i].View() == sessions[i] && all[i].permit.state == limiter
  }

  ghost predicate QueueMatches(all: seq<ProxySession>, queue: seq<ProxySession>, deque: seq<nat>) {
    && |deque| == |queue|
    && forall k | 0 <= k < |queue| :: queue[k].id == deque[k] && queue[k] in all
  }

  ghost function TaskView(task: PostedTask): Model.Task {
    match task
    case Enqueue(session) => Model.Enqueue(session.id)
    case Promote => Model.Promote
    case StopServer => Model.StopServer
  }

  ghost predicate StrandMatches(all: seq<ProxySession>, posted: seq<PostedTask>, strand: seq<Model.Task>) {
    && |strand| == |posted|
    && forall k | 0 <= k < |posted| ::
         strand[k] == TaskView(posted[k]) && (posted[k].Enqueue? ==> posted[k].session in all)
  }
}
