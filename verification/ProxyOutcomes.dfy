/** What each step does to a session: which steps count, queue, start and end a
    request and with which outcome, and how an answered request passes through its
    upstream chain (one worker thread). */
module ProxyOutcomes {
  import opened LimiterCore
  import SseParsing
  import opened SseChunks
  import opened SseRoundTrip
  import opened SseObserver
  import opened ProxyModel
  import opened ProxyInvariant
  import opened ProxyTheorems

  // ----- the life of a session -----------------------------------------------

  predicate Counts(step: Step, id: nat) {
    step == ReadSucceeds(id, Completion)
  }

  /** The task of the Queue decision runs on a server that is not stopping. */
  predicate Joins(st: State, step: Step, id: nat)
    requires Enabled(st, step)
  {
    step.RunStrand? && st.strand[0] == Enqueue(id) && !st.stopping
  }

  /** A request that finds a free slot, or one that waits long enough when slots are
      given out. */
  predicate Starts(st: State, step: Step, id: nat)
    requires Enabled(st, step) && st.limiter.Bounded()
  {
    || (Counts(step, id) && !st.limiter.closed && st.limiter.inflight < st.limiter.maxInflight)
    || (step.RunStrand? && st.strand[0] == Promote && id in LiveOf(st.deque, st.sessions)[..Share(st)])
  }

  /** End of the upstream answer, a last chunk written (reported done by the observer
      when it was read), nothing to write on a report of done, or a client that went
      away before the header was written. */
  predicate Completes(st: State, step: Step, id: nat)
    requires id < |st.sessions|
  {
    var s := st.sessions[id];
    && step.UpstreamCompletes? && step.id == id && !s.finished
    && match step.outcome
       case EndOfStream => true
       case Chunk(bytes) => bytes == "" && Observe(s.observer, bytes, st.maxSseBuffer).1
       case Succeeded => s.stage == WritingBody(true)
       case Failed => s.stage == WritingHeader
       case NeedBuffer => false
  }

  /** A failed upstream operation, a live timeout, a refused request. */
  predicate Fails(st: State, step: Step, id: nat)
    requires id < |st.sessions|
  {
    var s := st.sessions[id];
    match step
    case UpstreamCompletes(other, outcome) =>
      other == id && !s.finished && outcome == Failed && s.stage != WritingHeader
    case RequestTimerRuns(other) => other == id && !s.finished && s.requestTimer == Expired
    case QueueTimerRuns(other) => other == id && s.queued && s.queueTimer == Expired
    case ReadSucceeds(other, request) =>
      other == id && request == Completion
      && (st.limiter.closed
          || (st.limiter.inflight >= st.limiter.maxInflight && st.limiter.queued >= st.limiter.maxQueue))
    case _ => false
  }

  /** The end of a connection that never had a request to count. */
  predicate Closes(step: Step, id: nat) {
    step == ReadFails(id) || step == ReplyWritten(id) || step == ReadSucceeds(id, BadRequest)
  }

  function One(b: bool): nat { if b then 1 else 0 }

  predicate Life(s: Session, t: Session, counts: bool, joins: bool, starts: bool,
                 completes: bool, fails: bool, closes: bool) {
    && (t.counted <==> s.counted || counts)
    && (t.queued <==> joins || (s.queued && !starts && !fails))
    && (t.started <==> s.started || starts)
    && (starts ==> t.stage == Resolving && t.requestTimer == Armed && t.observer == NEW_OBSERVER)
    && (t.finished <==> s.finished || completes || fails || closes)
    && t.completions == s.completions + One(completes)
    && t.failures == s.failures + One(fails)
  }

  /** Session `id` goes from `st` to `after` as the step says. */
  predicate Lives(st: State, step: Step, id: nat, after: State)
    requires Enabled(st, step) && st.limiter.Bounded() && id < |st.sessions|
  {
    id < |after.sessions| &&
    Life(st.sessions[id], after.sessions[id], Counts(step, id), Joins(st, step, id),
         Starts(st, step, id), Completes(st, step, id), Fails(st, step, id), Closes(step, id))
  }

  lemma EndRecord(st: State, id: nat, completed: bool)
    requires id < |st.sessions|
    ensures var s, after := st.sessions[id], End(st, id, completed);
      && after.sessions == st.sessions[id := if s.finished then s else EndSession(s, completed)]
      && after.metrics == st.metrics.(
           completed := st.metrics.completed + One(!s.finished && s.counted && completed),
           failed := st.metrics.failed + One(!s.finished && s.counted && !completed))
  {}

  /** The life of every session, step by step, from the state before the step. */
  lemma SessionLife(st: State, step: Step, id: nat)
    requires Reachable(st) && Enabled(st, step) && id < |st.sessions|
    ensures st.limiter.Bounded() && Lives(st, step, id, Apply(st, step))
  {
    ReachableInv(st);
    LiveBound(st);
    hide Lives, Reachable, Safe, RunTask, HandleUpstream, HandleRequest, QueueTimerHandler, RequestTimerHandler;
    match step
    case RunStrand => StrandLife(st, id);
    case ReadSucceeds(other, request) => RequestLife(st, other, request, id);
    case QueueTimerRuns(other) => QueueTimerLife(st, other, id);
    case RequestTimerRuns(other) => RequestTimerLife(st, other, id);
    case UpstreamCompletes(other, outcome) => UpstreamLife(st, other, outcome, id);
    case _ => PlainLife(st, step, id);
  }

  lemma PlainLife(st: State, step: Step, id: nat)
    requires Safe(st) && st.limiter.Bounded() && id < |st.sessions| && Enabled(st, step)
    requires step.Connect? || step.CallStop? || step.ReadFails? || step.ReplyWritten?
      || step.QueueTimerExpires? || step.RequestTimerExpires?
    ensures Lives(st, step, id, Apply(st, step))
  {
    if step.Connect? || step.CallStop? {
      Unmoved(st.sessions[id]);
      hide Safe, LiveOf, Share, Life;
    } else {
      OwnPlainLife(st, step);
      hide Safe, Lives, Apply;
      OthersStay(st, step, step.id, id, Apply(st, step));
    }
  }

  lemma OwnPlainLife(st: State, step: Step)
    requires Safe(st) && st.limiter.Bounded() && Enabled(st, step)
    requires step.ReadFails? || step.ReplyWritten? || step.QueueTimerExpires? || step.RequestTimerExpires?
    ensures var after := Apply(st, step);
      |after.sessions| == |st.sessions| && after.sessions == st.sessions[step.id := after.sessions[step.id]]
    ensures Lives(st, step, step.id, Apply(st, step))
  {
    var s := st.sessions[step.id];
    assert SessionOk(s);
    ClosedLife(s);
    ExpiredLife(s);
    hide Safe, LiveOf, Share, Life, SessionOk;
  }

  lemma ClosedLife(s: Session)
    requires SessionOk(s)
    ensures s.stage == Reading || s.stage == Replying ==>
      Life(s, s.(stage := Idle, finished := true), false, false, false, false, false, true)
  {}

  lemma ExpiredLife(s: Session)
    ensures Life(s, s.(queueTimer := Expired), false, false, false, false, false, false)
    ensures Life(s, s.(requestTimer := Expired), false, false, false, false, false, false)
  {}

  /** The steps that belong to one session. */
  predicate Concerns(step: Step, id: nat) {
    && !step.Connect? && !step.CallStop? && !step.RunStrand? && step.id == id
  }

  lemma OthersStay(st: State, step: Step, other: nat, id: nat, after: State)
    requires Enabled(st, step) && st.limiter.Bounded() && Concerns(step, other)
    requires other < |st.sessions| && id < |st.sessions| == |after.sessions|
    requires after.sessions == st.sessions[other := after.sessions[other]]
    requires Lives(st, step, other, after)
    ensures Lives(st, step, id, after)
  {
    Unmoved(st.sessions[id]);
    hide Life, LiveOf, Share;
  }

  lemma RequestLife(st: State, other: nat, request: Request, id: nat)
    requires Safe(st) && st.limiter.Bounded() && id < |st.sessions| && Enabled(st, ReadSucceeds(other, request))
    ensures Lives(st, ReadSucceeds(other, request), id, HandleRequest(st, other, request))
  {
    OwnRequestLife(st, other, request);
    RequestAlone(st, other, request);
    hide Safe, Lives, HandleRequest;
    OthersStay(st, ReadSucceeds(other, request), other, id, HandleRequest(st, other, request));
  }

  lemma RequestAlone(st: State, id: nat, request: Request)
    requires id < |st.sessions|
    ensures var after := HandleRequest(st, id, request);
      |after.sessions| == |st.sessions| && after.sessions == st.sessions[id := after.sessions[id]]
  {}

  lemma OwnRequestLife(st: State, id: nat, request: Request)
    requires Safe(st) && st.limiter.Bounded() && Enabled(st, ReadSucceeds(id, request))
    ensures Lives(st, ReadSucceeds(id, request), id, HandleRequest(st, id, request))
  {
    assert SessionOk(st.sessions[id]);
    hide Safe, LiveOf, Share, End;
    match request
    case Health =>
    case BadRequest => EndRecord(Put(st, id, st.sessions[id].(stage := Idle)), id, false);
    case Completion => CompletionLife(st, id);
  }

  lemma CompletionLife(st: State, id: nat)
    requires st.limiter.Bounded() && Enabled(st, ReadSucceeds(id, Completion)) && SessionOk(st.sessions[id])
    ensures Lives(st, ReadSucceeds(id, Completion), id, HandleRequest(st, id, Completion))
  {
    hide LiveOf, Share;
    if st.limiter.closed || !(st.limiter.HasFreeSlot() || st.limiter.queued < st.limiter.maxQueue) {
      var s := st.sessions[id].(stage := Idle, counted := true);
      EndRecord(Put(st, id, s).(metrics := st.metrics.(total := st.metrics.total + 1)), id, false);
      hide End, StartProxy;
    } else {
      hide End;
    }
  }

  lemma QueueTimerLife(st: State, other: nat, id: nat)
    requires Safe(st) && st.limiter.Bounded() && id < |st.sessions| && Enabled(st, QueueTimerRuns(other))
    ensures Lives(st, QueueTimerRuns(other), id, QueueTimerHandler(st, other))
  {
    OwnQueueTimerLife(st, other);
    hide Safe, Lives, QueueTimerHandler;
    OthersStay(st, QueueTimerRuns(other), other, id, QueueTimerHandler(st, other));
  }

  lemma OwnQueueTimerLife(st: State, id: nat)
    requires Safe(st) && st.limiter.Bounded() && Enabled(st, QueueTimerRuns(id))
    ensures var after := QueueTimerHandler(st, id);
      |after.sessions| == |st.sessions| && after.sessions == st.sessions[id := after.sessions[id]]
    ensures Lives(st, QueueTimerRuns(id), id, QueueTimerHandler(st, id))
  {
    var s := st.sessions[id];
    assert SessionOk(s);
    var out := st.(limiter := CancelQueued(st.limiter).0);
    EndRecord(Put(out, id, s.(queueTimer := Unset, queued := false)), id, false);
    hide Safe, LiveOf, Share, End;
  }

  lemma RequestTimerLife(st: State, other: nat, id: nat)
    requires Safe(st) && st.limiter.Bounded() && id < |st.sessions| && Enabled(st, RequestTimerRuns(other))
    ensures Lives(st, RequestTimerRuns(other), id, RequestTimerHandler(st, other))
  {
    OwnRequestTimerLife(st, other);
    hide Safe, Lives, RequestTimerHandler;
    OthersStay(st, RequestTimerRuns(other), other, id, RequestTimerHandler(st, other));
  }

  lemma OwnRequestTimerLife(st: State, id: nat)
    requires Safe(st) && st.limiter.Bounded() && Enabled(st, RequestTimerRuns(id))
    ensures var after := RequestTimerHandler(st, id);
      |after.sessions| == |st.sessions| && after.sessions == st.sessions[id := after.sessions[id]]
    ensures Lives(st, RequestTimerRuns(id), id, RequestTimerHandler(st, id))
  {
    var s := st.sessions[id];
    assert SessionOk(s);
    EndRecord(Put(st, id, s.(requestTimer := Unset)), id, false);
    hide Safe, LiveOf, Share, End;
  }

  lemma UpstreamLife(st: State, other: nat, outcome: Outcome, id: nat)
    requires Safe(st) && st.limiter.Bounded() && id < |st.sessions|
    requires Enabled(st, UpstreamCompletes(other, outcome))
    ensures Lives(st, UpstreamCompletes(other, outcome), id, HandleUpstream(st, other, outcome))
  {
    UpstreamRecord(st, other, outcome);
    Unmoved(st.sessions[id]);
    hide Safe, Life, HandleUpstream, LiveOf, Share;
  }

  lemma Unmoved(s: Session)
    ensures Life(s, s, false, false, false, false, false, false)
  {}

  /** `after` is `st` with session `id` moved on, ended as the flags say. */
  predicate Moved(st: State, id: nat, after: State, completes: bool, fails: bool)
    requires id < |st.sessions|
  {
    && |after.sessions| == |st.sessions|
    && after.sessions == st.sessions[id := after.sessions[id]]
    && Life(st.sessions[id], after.sessions[id], false, false, false, completes, fails, false)
  }

  lemma UpstreamRecord(st: State, id: nat, outcome: Outcome)
    requires Safe(st) && Enabled(st, UpstreamCompletes(id, outcome))
    ensures var step := UpstreamCompletes(id, outcome);
      Moved(st, id, HandleUpstream(st, id, outcome), Completes(st, step, id), Fails(st, step, id))
  {
    var s := st.sessions[id];
    UpstreamFacts(st, id);
    EndMoves(st, id, true);
    EndMoves(st, id, false);
    hide Safe, Observe, End, HandleChunk, Moved, GoOn;
    match outcome
    case Succeeded => SuccessMoves(st, id);
    case NeedBuffer => StandsStill(st, id);
    case Chunk(bytes) => ChunkMoves(st, id, bytes);
    case _ =>
  }

  lemma SuccessMoves(st: State, id: nat)
    requires Safe(st) && Enabled(st, UpstreamCompletes(id, Succeeded))
    ensures var step := UpstreamCompletes(id, Succeeded);
      Moved(st, id, HandleUpstream(st, id, Succeeded), Completes(st, step, id), false)
  {
    var s := st.sessions[id];
    UpstreamFacts(st, id);
    hide Safe;
    if s.stage == WritingBody(true) {
      EndMoves(st, id, true);
      hide End;
    } else {
      var t := HandleUpstream(st, id, Succeeded).sessions[id];
      assert HandleUpstream(st, id, Succeeded) == Put(st, id, t);
      assert t == s.(stage := t.stage, responseStarted := t.responseStarted);
    }
  }

  lemma StandsStill(st: State, id: nat)
    requires id < |st.sessions|
    ensures Moved(st, id, st, false, false)
  {
    assert st.sessions[id := st.sessions[id]] == st.sessions;
  }

  lemma UpstreamFacts(st: State, id: nat)
    requires Safe(st) && id < |st.sessions| && InUpstream(st.sessions[id].stage)
    ensures var s := st.sessions[id]; s.counted && !s.queued && (s.holdsPermit <==> !s.finished)
    ensures st.sessions[id].holdsPermit ==> st.limiter.inflight > 0
  {
    PermitIsCounted(st, id);
    assert SessionOk(st.sessions[id]);
  }

  lemma EndMoves(st: State, id: nat, completed: bool)
    requires id < |st.sessions| && st.sessions[id].counted && !st.sessions[id].queued
    ensures var unfinished := !st.sessions[id].finished;
      Moved(st, id, End(GoOn(st, id, Idle), id, completed), unfinished && completed, unfinished && !completed)
  {
    EndRecord(GoOn(st, id, Idle), id, completed);
    hide End;
  }

  lemma ChunkMoves(st: State, id: nat, bytes: string)
    requires id < |st.sessions| && st.sessions[id].counted
    ensures var s := st.sessions[id];
      var ends := !s.finished && bytes == "" && Observe(s.observer, bytes, st.maxSseBuffer).1;
      Moved(st, id, HandleChunk(st, id, bytes), ends, false)
  {
    ChunkRecord(st, id, bytes);
    hide Observe, HandleChunk;
  }

  lemma ChunkRecord(st: State, id: nat, bytes: string)
    requires id < |st.sessions|
    ensures var s, after := st.sessions[id], HandleChunk(st, id, bytes);
      var (observer, done) := Observe(s.observer, bytes, st.maxSseBuffer);
      var ends := bytes == "" && done;
      var t := s.(observer := observer, stage := if ends then Idle else WritingBody(done));
      && after.sessions == st.sessions[id := if ends && !s.finished then EndSession(t, true) else t]
      && after.metrics == st.metrics.(
           firstTokens := st.metrics.firstTokens + One(observer.firstDataSeen && !s.observer.firstDataSeen),
           completed := st.metrics.completed + One(ends && !s.finished && s.counted))
      && (!ends ==> after == st.(sessions := after.sessions, metrics := after.metrics))
  {
    hide Observe, End;
    var s := st.sessions[id];
    var (observer, done) := Observe(s.observer, bytes, st.maxSseBuffer);
    var tokens := if observer.firstDataSeen && !s.observer.firstDataSeen then 1 else 0;
    var seen := st.(metrics := st.metrics.(firstTokens := st.metrics.firstTokens + tokens));
    EndRecord(Put(seen, id, s.(observer := observer, stage := Idle)), id, true);
  }

  lemma StrandLife(st: State, id: nat)
    requires Safe(st) && st.limiter.Bounded() && id < |st.sessions| && Enabled(st, RunStrand)
    ensures Lives(st, RunStrand, id, RunTask(st))
  {
    Unmoved(st.sessions[id]);
    if st.strand[0].Enqueue? {
      EnqueueLife(st, id);
    } else if st.strand[0] == Promote {
      PromoteLife(st, id);
      hide Life, PromoteAll, Safe;
    } else {
      hide Life, Safe;
    }
  }

  lemma EnqueueLife(st: State, id: nat)
    requires Safe(st) && st.limiter.Bounded() && id < |st.sessions| && Enabled(st, RunStrand)
    requires st.strand[0].Enqueue?
    ensures Lives(st, RunStrand, id, RunTask(st))
  {
    PostedTail(st.strand);
    assert st.strand[0].id in Posted(st.strand);
    hide Safe;
  }

  lemma PromoteLife(st: State, id: nat)
    requires Safe(st) && id < |st.sessions| && Enabled(st, RunStrand) && st.strand[0] == Promote
    ensures st.limiter.Bounded() && KnownIds(st.(strand := st.strand[1..]))
    ensures var after := PromoteAll(st.(strand := st.strand[1..]));
      && id < |after.sessions|
      && Life(st.sessions[id], after.sessions[id], false, false,
              id in LiveOf(st.deque, st.sessions)[..Share(st)], false, false, false)
  {
    var rest := st.(strand := st.strand[1..]);
    RunPlain(st);
    PromoteServesOldest(rest);
    LiveIsQueued(rest.deque, rest.sessions);
    assert SessionOk(st.sessions[id]);
    Unmoved(st.sessions[id]);
    StartedLife(st.sessions[id]);
    hide Safe, PromoteAll, LiveOf, Life, Started, SessionOk;
    assert Share(rest) == Share(st);
  }

  lemma StartedLife(s: Session)
    requires SessionOk(s)
    ensures s.queued ==> Life(s, Started(s), false, false, true, false, false, false)
  {}

  // ----- the counters --------------------------------------------------------

  /** Which step raises which counter; nothing else does. */
  lemma CountersFollow(st: State, step: Step)
    requires Reachable(st) && Enabled(st, step)
    ensures var before, after, n := st.metrics, Apply(st, step).metrics, |st.sessions|;
      && after.total == before.total + One(exists id | 0 <= id < n :: Counts(step, id))
      && after.completed == before.completed + One(exists id | 0 <= id < n :: Completes(st, step, id))
      && after.failed == before.failed + One(exists id | 0 <= id < n :: Fails(st, step, id))
  {
    ReachableInv(st);
    hide Reachable, Safe, RunTask, HandleUpstream, HandleRequest, QueueTimerHandler, RequestTimerHandler;
    match step
    case RunStrand => StrandCounters(st);
    case ReadSucceeds(id, request) => RequestCounters(st, id, request);
    case QueueTimerRuns(id) => TimerCounters(st, id);
    case RequestTimerRuns(id) => TimerCounters(st, id);
    case UpstreamCompletes(id, outcome) => UpstreamCounters(st, id, outcome);
    case _ =>
  }

  predicate CountersMoved(st: State, after: State, counts: bool, completes: bool, fails: bool) {
    && after.metrics.total == st.metrics.total + One(counts)
    && after.metrics.completed == st.metrics.completed + One(completes)
    && after.metrics.failed == st.metrics.failed + One(fails)
  }

  lemma StrandCounters(st: State)
    requires Safe(st) && Enabled(st, RunStrand)
    ensures RunTask(st).metrics == st.metrics
  {
    if st.strand[0] == Promote {
      RunPlain(st);
      PromoteServesOldest(st.(strand := st.strand[1..]));
      hide Safe, PromoteAll;
    }
  }

  lemma RequestCounters(st: State, id: nat, request: Request)
    requires Safe(st) && Enabled(st, ReadSucceeds(id, request))
    ensures var step := ReadSucceeds(id, request);
      CountersMoved(st, HandleRequest(st, id, request), Counts(step, id), Completes(st, step, id), Fails(st, step, id))
  {
    assert SessionOk(st.sessions[id]);
    hide Safe;
  }

  lemma TimerCounters(st: State, id: nat)
    requires Safe(st) && id < |st.sessions|
    ensures Enabled(st, QueueTimerRuns(id)) ==>
      CountersMoved(st, QueueTimerHandler(st, id), false, false, Fails(st, QueueTimerRuns(id), id))
    ensures Enabled(st, RequestTimerRuns(id)) ==>
      CountersMoved(st, RequestTimerHandler(st, id), false, false, Fails(st, RequestTimerRuns(id), id))
  {
    assert SessionOk(st.sessions[id]);
    hide Safe;
  }

  lemma UpstreamCounters(st: State, id: nat, outcome: Outcome)
    requires Safe(st) && Enabled(st, UpstreamCompletes(id, outcome))
    ensures var step := UpstreamCompletes(id, outcome);
      CountersMoved(st, HandleUpstream(st, id, outcome), false, Completes(st, step, id), Fails(st, step, id))
  {
    UpstreamFacts(st, id);
    hide Safe, Observe, End, HandleChunk;
    EndRecord(GoOn(st, id, Idle), id, true);
    EndRecord(GoOn(st, id, Idle), id, false);
    match outcome
    case Chunk(bytes) => ChunkRecord(st, id, bytes);
    case Succeeded => SuccessCounters(st, id);
    case _ =>
  }

  lemma SuccessCounters(st: State, id: nat)
    requires Enabled(st, UpstreamCompletes(id, Succeeded)) && st.sessions[id].counted
    ensures CountersMoved(st, HandleUpstream(st, id, Succeeded), false,
                          Completes(st, UpstreamCompletes(id, Succeeded), id), false)
  {
    EndRecord(GoOn(st, id, Idle), id, true);
    hide End;
  }

  // ----- requests ------------------------------------------------------------

  /** What a request does besides its entry in the counters: a health check awaits
      its reply, a bad one is over; a completion request takes a free slot, or a place
      in the queue, or is over. */
  lemma RequestLaw(st: State, id: nat, request: Request)
    requires Reachable(st) && Enabled(st, ReadSucceeds(id, request))
    ensures var after, l := Apply(st, ReadSucceeds(id, request)), st.limiter;
      var s, t := st.sessions[id], after.sessions[id];
      match request
      case Health => !t.finished && !t.counted && t.stage == Replying && after == Put(st, id, t)
      case BadRequest => t.finished && !t.counted && t.stage == Idle && after == Put(st, id, t)
      case Completion =>
        && t.counted && after.sessions == st.sessions[id := t] && after.deque == st.deque
        && (!l.closed && l.inflight < l.maxInflight ==>
              && t.holdsPermit && t.stage == Resolving && t.requestTimer == Armed && !t.finished
              && after.limiter == l.(inflight := l.inflight + 1) && after.strand == st.strand)
        && (!l.closed && l.inflight >= l.maxInflight && l.queued < l.maxQueue ==>
              && !t.finished && !t.started && !t.queued
              && after.limiter == l.(queued := l.queued + 1)
              && after.strand == st.strand + [Enqueue(id)] && after.arrivals == st.arrivals + [id])
        && (l.closed || (l.inflight >= l.maxInflight && l.queued >= l.maxQueue) ==>
              t.finished && !t.started && after.limiter == l && after.strand == st.strand)
  {
    ReachableInv(st);
    assert SessionOk(st.sessions[id]);
    hide Reachable, Safe;
  }

  // ----- the upstream chain --------------------------------------------------

  /** The operations of the chain, in order, up to the first read of the body. */
  const CHAIN: seq<Stage> := [Resolving, Connecting, WritingRequest, ReadingHeader, WritingHeader, ReadingBody]

  function Successes(id: nat, n: nat): seq<Step> {
    if n == 0 then [] else [UpstreamCompletes(id, Succeeded)] + Successes(id, n - 1)
  }

  /** A session that was at the i-th operation, now at the j-th; the response begins
      once the header of the answer has been read. */
  function At(s: Session, i: nat, j: nat): Session
    requires i <= j <= 5
  {
    s.(stage := CHAIN[j], responseStarted := s.responseStarted || i < 4 <= j)
  }

  lemma AtAgain(s: Session, i: nat, j: nat)
    requires i < j <= 5
    ensures At(At(s, i, i + 1), i + 1, j) == At(s, i, j) && At(s, i, i + 1).stage == CHAIN[i + 1]
    ensures s.stage == CHAIN[i] ==> At(s, i, i) == s
  {}

  lemma PutTwice(st: State, id: nat, s: Session, t: Session)
    requires id < |st.sessions|
    ensures |Put(st, id, s).sessions| == |st.sessions| && Put(st, id, s).sessions[id] == s
    ensures Put(Put(st, id, s), id, t) == Put(st, id, t)
  {
    assert st.sessions[id := s][id := t] == st.sessions[id := t];
  }

  lemma ChainStep(st: State, id: nat, i: nat)
    requires id < |st.sessions| && i < 5 && st.sessions[id].stage == CHAIN[i]
    ensures Enabled(st, UpstreamCompletes(id, Succeeded))
    ensures Apply(st, UpstreamCompletes(id, Succeeded)) == Put(st, id, At(st.sessions[id], i, i + 1))
  {}

  /** n successes take a session n operations further along the chain and change
      nothing else. */
  lemma {:induction false} ChainAdvances(st: State, id: nat, i: nat, n: nat)
    requires id < |st.sessions| && i + n <= 5 && st.sessions[id].stage == CHAIN[i]
    ensures Legal(st, Successes(id, n))
    ensures Run(st, Successes(id, n)) == Put(st, id, At(st.sessions[id], i, i + n))
    decreases n
  {
    hide Enabled, Apply, Put, At, Legal, Run;
    var s := st.sessions[id];
    if n == 0 {
      ChainStays(st, id, i);
    } else {
      ChainStep(st, id, i);
      AtAgain(s, i, i + n);
      var t := At(s, i, i + 1);
      PutTwice(st, id, t, At(s, i, i + n));
      ChainAdvances(Put(st, id, t), id, i + 1, n - 1);
      RunFirst(st, UpstreamCompletes(id, Succeeded), Successes(id, n - 1));
    }
  }

  lemma ChainStays(st: State, id: nat, i: nat)
    requires id < |st.sessions| && i <= 5 && st.sessions[id].stage == CHAIN[i]
    ensures Legal(st, Successes(id, 0)) && Run(st, Successes(id, 0)) == Put(st, id, At(st.sessions[id], i, i))
  {
    assert st.sessions[id := st.sessions[id]] == st.sessions;
  }

  lemma RunFirst(st: State, step: Step, steps: seq<Step>)
    requires Enabled(st, step)
    ensures Legal(st, [step] + steps) <==> Legal(Apply(st, step), steps)
    ensures Legal(Apply(st, step), steps) ==> Run(st, [step] + steps) == Run(Apply(st, step), steps)
  {
    hide Enabled, Apply;
    assert ([step] + steps)[1..] == steps;
  }

  /** The session gives its slot back, and the promotion that follows is posted. */
  predicate Released(st: State, id: nat, after: State)
    requires id < |st.sessions|
  {
    && |after.sessions| == |st.sessions| && !after.sessions[id].holdsPermit
    && st.sessions[id].holdsPermit && st.limiter.inflight > 0
    && after.limiter == st.limiter.(inflight := st.limiter.inflight - 1)
    && after.strand == st.strand + [Promote]
  }

  predicate Kept(st: State, id: nat, after: State)
    requires id < |st.sessions|
  {
    && |after.sessions| == |st.sessions|
    && after.sessions[id].holdsPermit == st.sessions[id].holdsPermit
    && after.sessions[id].finished == st.sessions[id].finished
    && after.limiter == st.limiter && after.strand == st.strand
  }

  /** Exactly the completions that end an unfinished session touch the limiter and the
      strand: they give its slot back. */
  lemma UpstreamReleases(st: State, id: nat, outcome: Outcome)
    requires Reachable(st) && Enabled(st, UpstreamCompletes(id, outcome))
    ensures var step := UpstreamCompletes(id, outcome);
      var after := Apply(st, step);
      if Completes(st, step, id) || Fails(st, step, id) then Released(st, id, after) else Kept(st, id, after)
  {
    ReachableInv(st);
    UpstreamFacts(st, id);
    hide Reachable, Safe, Observe, End, HandleChunk, Released, Kept, GoOn, Put;
    match outcome
    case Failed => EndsChain(st, id, st.sessions[id].stage == WritingHeader);
    case EndOfStream => EndsChain(st, id, true);
    case Chunk(bytes) => ChunkLaw(st, id, bytes);
    case NeedBuffer => KeptAlone(st, id);
    case Succeeded =>
      if st.sessions[id].stage == WritingBody(true) {
        EndsChain(st, id, true);
      } else {
        SuccessKeeps(st, id);
      }
  }

  lemma KeptAlone(st: State, id: nat)
    requires id < |st.sessions|
    ensures Kept(st, id, st)
  {}

  lemma SuccessKeeps(st: State, id: nat)
    requires Enabled(st, UpstreamCompletes(id, Succeeded)) && st.sessions[id].stage != WritingBody(true)
    ensures Kept(st, id, HandleUpstream(st, id, Succeeded))
  {}

  /** Where a completion takes the session, besides the successes on the way to the
      body: a chunk goes to its observer and is written; once written, a chunk that
      was reported done is the last and any other one leads back to reading. */
  lemma UpstreamLaw(st: State, id: nat, outcome: Outcome)
    requires Enabled(st, UpstreamCompletes(id, outcome))
    ensures var s, after := st.sessions[id], Apply(st, UpstreamCompletes(id, outcome));
      id < |after.sessions| && var t := after.sessions[id];
      && (outcome == NeedBuffer ==> after == st)
      && (outcome == Failed || outcome == EndOfStream ==> t.stage == Idle)
      && (outcome == Succeeded && s.stage == WritingBody(true) ==> t.stage == Idle)
      && (outcome == Succeeded && s.stage == WritingBody(false) ==> after == Put(st, id, s.(stage := ReadingBody)))
      && (outcome.Chunk? ==>
            var (observer, done) := Observe(s.observer, outcome.bytes, st.maxSseBuffer);
            && t.observer == observer
            && t.stage == if outcome.bytes == "" && done then Idle else WritingBody(done))
  {
    EndRecord(GoOn(st, id, Idle), id, true);
    EndRecord(GoOn(st, id, Idle), id, false);
    if outcome.Chunk? {
      ChunkRecord(st, id, outcome.bytes);
    }
    hide Observe, End, HandleChunk;
  }

  lemma EndsChain(st: State, id: nat, completed: bool)
    requires id < |st.sessions|
    requires var s := st.sessions[id]; s.holdsPermit <==> !s.finished
    requires st.sessions[id].holdsPermit ==> st.limiter.inflight > 0
    ensures var after := End(GoOn(st, id, Idle), id, completed);
      && (if st.sessions[id].finished then Kept(st, id, after) else Released(st, id, after))
      && after.sessions[id].stage == Idle && after.sessions[id].observer == st.sessions[id].observer
  {
    EndReleases(GoOn(st, id, Idle), id, completed);
    hide End;
  }

  lemma ChunkLaw(st: State, id: nat, bytes: string)
    requires id < |st.sessions|
    requires var s := st.sessions[id]; s.holdsPermit <==> !s.finished
    requires st.sessions[id].holdsPermit ==> st.limiter.inflight > 0
    ensures var s, after := st.sessions[id], HandleChunk(st, id, bytes);
      var (observer, done) := Observe(s.observer, bytes, st.maxSseBuffer);
      && (if bytes == "" && done && !s.finished then Released(st, id, after) else Kept(st, id, after))
      && after.sessions[id].observer == observer
      && after.sessions[id].stage == if bytes == "" && done then Idle else WritingBody(done)
  {
    ChunkRecord(st, id, bytes);
    ChunkReleases(st, id, bytes);
    hide Observe, HandleChunk;
  }

  lemma EndReleases(st: State, id: nat, completed: bool)
    requires id < |st.sessions|
    ensures var s, after := st.sessions[id], End(st, id, completed);
      && after.sessions == st.sessions[id := if s.finished then s else EndSession(s, completed)]
      && (s.finished || !s.holdsPermit || st.limiter.inflight == 0 ==>
            after.limiter == st.limiter && after.strand == st.strand)
      && (!s.finished && s.holdsPermit && st.limiter.inflight > 0 ==>
            && after.limiter == st.limiter.(inflight := st.limiter.inflight - 1)
            && after.strand == st.strand + [Promote])
  {}

  lemma ChunkReleases(st: State, id: nat, bytes: string)
    requires id < |st.sessions|
    ensures var s, after := st.sessions[id], HandleChunk(st, id, bytes);
      bytes == "" && Observe(s.observer, bytes, st.maxSseBuffer).1 ==>
        && (s.finished || !s.holdsPermit || st.limiter.inflight == 0 ==>
              after.limiter == st.limiter && after.strand == st.strand)
        && (!s.finished && s.holdsPermit && st.limiter.inflight > 0 ==>
              && after.limiter == st.limiter.(inflight := st.limiter.inflight - 1)
              && after.strand == st.strand + [Promote])
  {
    hide Observe, End;
    var s := st.sessions[id];
    var (observer, done) := Observe(s.observer, bytes, st.maxSseBuffer);
    var tokens := if observer.firstDataSeen && !s.observer.firstDataSeen then 1 else 0;
    var seen := st.(metrics := st.metrics.(firstTokens := st.metrics.firstTokens + tokens));
    EndReleases(Put(seen, id, s.(observer := observer, stage := Idle)), id, true);
  }

  // ----- the body of an answer -----------------------------------------------

  /** Each chunk is read and then written. */
  function BodySteps(id: nat, chunks: seq<string>): seq<Step> {
    if chunks == [] then []
    else [UpstreamCompletes(id, Chunk(chunks[0])), UpstreamCompletes(id, Succeeded)] + BodySteps(id, chunks[1..])
  }

  lemma {:induction false} RunConcat(st: State, first: seq<Step>, second: seq<Step>)
    ensures Legal(st, first + second) <==> Legal(st, first) && Legal(Run(st, first), second)
    ensures Legal(st, first + second) ==> Run(st, first + second) == Run(Run(st, first), second)
    decreases |first|
  {
    hide Enabled, Apply;
    if first == [] {
      assert first + second == second;
    } else {
      assert (first + second)[0] == first[0] && (first + second)[1..] == first[1..] + second;
      if Enabled(st, first[0]) {
        RunConcat(Apply(st, first[0]), first[1..], second);
      }
    }
  }

  lemma TwoSteps(st: State, one: Step, two: Step)
    requires Enabled(st, one) && Enabled(Apply(st, one), two)
    ensures Legal(st, [one, two]) && Run(st, [one, two]) == Apply(Apply(st, one), two)
  {
    NoSteps(Apply(Apply(st, one), two));
    hide Enabled, Apply, Legal, Run;
    RunFirst(Apply(st, one), two, []);
    RunFirst(st, one, [two]);
    assert [one] + [two] == [one, two] && [two] + [] == [two];
  }

  lemma NoSteps(st: State)
    ensures Legal(st, []) && Run(st, []) == st
  {}

  /** One chunk read and written: the session is back at reading, and nothing but its
      observer and the count of first tokens has changed. */
  lemma ChunkGoesOn(st: State, id: nat, bytes: string)
    requires id < |st.sessions| && st.sessions[id].stage == ReadingBody
    requires !Observe(st.sessions[id].observer, bytes, st.maxSseBuffer).1
    requires SseObserver.Counted(st.sessions[id].observer)
    ensures var s := st.sessions[id];
      var observer := Observe(s.observer, bytes, st.maxSseBuffer).0;
      var steps := [UpstreamCompletes(id, Chunk(bytes)), UpstreamCompletes(id, Succeeded)];
      && SseObserver.Counted(observer) && observer.firstTokens >= s.observer.firstTokens
      && Legal(st, steps)
      && Run(st, steps) == Observed(st, id, observer)
  {
    var s := st.sessions[id];
    ObserveKeepsCounted(s.observer, bytes, st.maxSseBuffer);
    var observer := Observe(s.observer, bytes, st.maxSseBuffer).0;
    ChunkRead(st, id, bytes);
    hide Observe, Enabled, Apply;
    var t := s.(observer := observer, stage := WritingBody(false));
    var read := Observed(st, id, observer);
    ChunkWritten(Put(read, id, t), id);
    assert st.sessions[id := s.(observer := observer)][id := t][id := s.(observer := observer)]
      == st.sessions[id := s.(observer := observer)];
    TwoSteps(st, UpstreamCompletes(id, Chunk(bytes)), UpstreamCompletes(id, Succeeded));
  }

  lemma ChunkRead(st: State, id: nat, bytes: string)
    requires id < |st.sessions| && st.sessions[id].stage == ReadingBody
    requires !Observe(st.sessions[id].observer, bytes, st.maxSseBuffer).1
    requires SseObserver.Counted(st.sessions[id].observer)
    ensures var s, step := st.sessions[id], UpstreamCompletes(id, Chunk(bytes));
      var observer := Observe(s.observer, bytes, st.maxSseBuffer).0;
      && observer.firstTokens >= s.observer.firstTokens && Enabled(st, step)
      && Apply(st, step) == Put(Observed(st, id, observer), id, s.(observer := observer, stage := WritingBody(false)))
  {
    var s := st.sessions[id];
    ObserveKeepsCounted(s.observer, bytes, st.maxSseBuffer);
    ChunkRecord(st, id, bytes);
    hide Observe, HandleChunk;
    var observer := Observe(s.observer, bytes, st.maxSseBuffer).0;
    var t := s.(observer := observer, stage := WritingBody(false));
    assert st.sessions[id := s.(observer := observer)][id := t] == st.sessions[id := t];
  }

  lemma ChunkWritten(st: State, id: nat)
    requires id < |st.sessions| && st.sessions[id].stage == WritingBody(false)
    ensures var step := UpstreamCompletes(id, Succeeded);
      Enabled(st, step) && Apply(st, step) == Put(st, id, st.sessions[id].(stage := ReadingBody))
  {}

  /** The state with a session's observer moved on. */
  function Observed(st: State, id: nat, observer: Observer): State
    requires id < |st.sessions| && observer.firstTokens >= st.sessions[id].observer.firstTokens
  {
    Put(st, id, st.sessions[id].(observer := observer)).(metrics := st.metrics.(
      firstTokens := st.metrics.firstTokens + observer.firstTokens - st.sessions[id].observer.firstTokens))
  }

  /** While no chunk is reported done the answer goes on: every chunk is observed, and
      after the last one the session still reads, with its permit. */
  lemma {:induction false} BodyGoesOn(st: State, id: nat, chunks: seq<string>)
    requires id < |st.sessions| && st.sessions[id].stage == ReadingBody
    requires SseObserver.Counted(st.sessions[id].observer)
    requires true !in ObserveAll(st.sessions[id].observer, chunks, st.maxSseBuffer).1
    ensures var observer := ObserveAll(st.sessions[id].observer, chunks, st.maxSseBuffer).0;
      && observer.firstTokens >= st.sessions[id].observer.firstTokens
      && Legal(st, BodySteps(id, chunks))
      && Run(st, BodySteps(id, chunks)) == Observed(st, id, observer)
    decreases |chunks|
  {
    hide Observe, Enabled, Apply, Observed;
    var s, max := st.sessions[id], st.maxSseBuffer;
    ObservedAlready(st, id);
    if chunks != [] {
      var (observer, done) := Observe(s.observer, chunks[0], max);
      var (last, dones) := ObserveAll(observer, chunks[1..], max);
      assert ObserveAll(s.observer, chunks, max) == (last, [done] + dones);
      assert !done && forall d | d in dones :: d in [done] + dones;
      ChunkGoesOn(st, id, chunks[0]);
      ObservedTwice(st, id, observer, last);
      BodyGoesOn(Observed(st, id, observer), id, chunks[1..]);
      var first := [UpstreamCompletes(id, Chunk(chunks[0])), UpstreamCompletes(id, Succeeded)];
      RunConcat(st, first, BodySteps(id, chunks[1..]));
    }
  }

  lemma ObservedTwice(st: State, id: nat, one: Observer, two: Observer)
    requires id < |st.sessions| && st.sessions[id].observer.firstTokens <= one.firstTokens
    ensures var next := Observed(st, id, one);
      && |next.sessions| == |st.sessions| && next.sessions[id] == st.sessions[id].(observer := one)
      && next.maxSseBuffer == st.maxSseBuffer
      && (one.firstTokens <= two.firstTokens ==> Observed(next, id, two) == Observed(st, id, two))
  {
    var s := st.sessions[id];
    PutTwice(st, id, s.(observer := one), s.(observer := two));
  }

  lemma ObservedAlready(st: State, id: nat)
    requires id < |st.sessions|
    ensures Observed(st, id, st.sessions[id].observer) == st
  {
    assert st.sessions[id := st.sessions[id]] == st.sessions;
  }

  // ----- an answer from its start to its end ---------------------------------

  /** The request of session `id` has been answered: completed once, its slot given
      back, the promotion posted; no other session is touched. */
  predicate Answered(st: State, id: nat, after: State)
    requires id < |st.sessions|
  {
    && |after.sessions| == |st.sessions| && after.sessions == st.sessions[id := after.sessions[id]]
    && Answer(st.sessions[id], after.sessions[id])
    && st.limiter.inflight > 0
    && after.limiter == st.limiter.(inflight := st.limiter.inflight - 1)
    && after.strand == st.strand + [Promote]
    && after.metrics.total == st.metrics.total && after.metrics.failed == st.metrics.failed
    && after.metrics.completed == st.metrics.completed + 1
  }

  predicate Answer(s: Session, t: Session) {
    !s.finished && t.finished && !t.holdsPermit && t.completions == s.completions + 1 && t.failures == s.failures
  }

  /** The chunk that is reported done is still written, and then the request ends. */
  lemma LastChunk(st: State, id: nat, bytes: string)
    requires id < |st.sessions| && st.sessions[id].stage == ReadingBody
    requires var s := st.sessions[id]; !s.finished && s.holdsPermit && s.counted
    requires st.limiter.inflight > 0 && bytes != ""
    requires Observe(st.sessions[id].observer, bytes, st.maxSseBuffer).1
    ensures Legal(st, BodySteps(id, [bytes]))
    ensures Answered(st, id, Run(st, BodySteps(id, [bytes])))
  {
    var s := st.sessions[id];
    var observer := Observe(s.observer, bytes, st.maxSseBuffer).0;
    var read := UpstreamCompletes(id, Chunk(bytes));
    var written := UpstreamCompletes(id, Succeeded);
    ChunkRecord(st, id, bytes);
    hide HandleChunk, Observe;
    var t := s.(observer := observer, stage := WritingBody(true));
    var mid := Apply(st, read);
    assert mid.sessions == st.sessions[id := t];
    LastWritten(mid, id);
    assert Enabled(st, read);
    hide Enabled, Apply;
    TwoSteps(st, read, written);
    OneChunk(id, bytes);
  }

  lemma OneChunk(id: nat, bytes: string)
    ensures BodySteps(id, [bytes]) == [UpstreamCompletes(id, Chunk(bytes)), UpstreamCompletes(id, Succeeded)]
  {
    assert [bytes][1..] == [] && BodySteps(id, []) == [];
  }

  lemma LastWritten(st: State, id: nat)
    requires id < |st.sessions| && st.sessions[id].stage == WritingBody(true)
    requires var s := st.sessions[id]; !s.finished && s.holdsPermit && s.counted
    requires st.limiter.inflight > 0
    ensures Enabled(st, UpstreamCompletes(id, Succeeded))
    ensures Answered(st, id, Apply(st, UpstreamCompletes(id, Succeeded)))
  {
    EndRecord(GoOn(st, id, Idle), id, true);
    EndReleases(GoOn(st, id, Idle), id, true);
    hide End;
  }

  lemma {:induction false} BodyStepsConcat(id: nat, first: seq<string>, second: seq<string>)
    ensures BodySteps(id, first + second) == BodySteps(id, first) + BodySteps(id, second)
    decreases |first|
  {
    if first == [] {
      assert first + second == second;
    } else {
      assert (first + second)[0] == first[0] && (first + second)[1..] == first[1..] + second;
      BodyStepsConcat(id, first[1..], second);
    }
  }

  /** Chunk by chunk to the first one that is reported done. */
  lemma BodyEnds(st: State, id: nat, chunks: seq<string>, last: string)
    requires Inv(st) && id < |st.sessions| && st.sessions[id].stage == ReadingBody && !st.sessions[id].finished
    requires true !in ObserveAll(st.sessions[id].observer, chunks, st.maxSseBuffer).1
    requires Observe(ObserveAll(st.sessions[id].observer, chunks, st.maxSseBuffer).0, last, st.maxSseBuffer).1
    requires last != ""
    ensures Legal(st, BodySteps(id, chunks + [last]))
    ensures Answered(st, id, Run(st, BodySteps(id, chunks + [last])))
  {
    assert SessionOk(st.sessions[id]);
    UpstreamFacts(st, id);
    hide Inv, Observe;
    BodyGoesOn(st, id, chunks);
    var observer := ObserveAll(st.sessions[id].observer, chunks, st.maxSseBuffer).0;
    var mid := Observed(st, id, observer);
    LastChunk(mid, id, last);
    BodyStepsConcat(id, chunks, [last]);
    RunConcat(st, BodySteps(id, chunks), BodySteps(id, [last]));
    var after := Run(st, BodySteps(id, chunks + [last]));
    hide BodySteps, ObserveAll;
    assert mid.sessions[id := after.sessions[id]] == st.sessions[id := after.sessions[id]];
  }

  /** A request that has just been started, and whose upstream sends encoded payloads
      with "[DONE]" among them: under any chunking that fits the limit, the session
      connects, forwards chunk after chunk, and completes with the chunk that
      completes the first "[DONE]" event. */
  lemma AnsweredInFull(st: State, id: nat, payloads: seq<string>, chunks: seq<string>) returns (k: nat)
    requires Inv(st) && id < |st.sessions| && !st.sessions[id].finished
    requires st.sessions[id].stage == Resolving && st.sessions[id].observer == NEW_OBSERVER
    requires Flatten(chunks) == Encode(payloads) && "[DONE]" in payloads && "" !in chunks
    requires FeedAll(SseParsing.EMPTY_PARSER, chunks, st.maxSseBuffer).Parsed?
    ensures k < |chunks|
    ensures var max := st.maxSseBuffer;
      && HasDone(EventsOfBytes(Flatten(chunks[..k + 1]), max)) && !HasDone(EventsOfBytes(Flatten(chunks[..k]), max))
    ensures var steps := Successes(id, 5) + BodySteps(id, chunks[..k + 1]);
      Legal(st, steps) && Answered(st, id, Run(st, steps))
  {
    hide *;
    k := FirstDoneChunk(payloads, chunks, st.maxSseBuffer);
    assert chunks[k] in chunks;
    ReachesBody(st, id);
    var mid := Run(st, Successes(id, 5));
    BodyEnds(mid, id, chunks[..k], chunks[k]);
    assert chunks[..k] + [chunks[k]] == chunks[..k + 1];
    RunConcat(st, Successes(id, 5), BodySteps(id, chunks[..k + 1]));
    AnsweredFromStart(st, id, Run(mid, BodySteps(id, chunks[..k + 1])));
  }

  lemma ReachesBody(st: State, id: nat)
    requires Inv(st) && id < |st.sessions| && st.sessions[id].stage == Resolving
    ensures Legal(st, Successes(id, 5))
    ensures var s, mid := st.sessions[id], Run(st, Successes(id, 5));
      && mid == Put(st, id, At(s, 0, 5)) && Inv(mid)
      && |mid.sessions| == |st.sessions| && mid.maxSseBuffer == st.maxSseBuffer
      && mid.sessions[id].stage == ReadingBody
      && mid.sessions[id].finished == s.finished && mid.sessions[id].observer == s.observer
  {
    hide Inv, Run, Legal;
    ChainAdvances(st, id, 0, 5);
    RunKeepsInv(st, Successes(id, 5));
  }

  lemma AnsweredFromStart(st: State, id: nat, after: State)
    requires id < |st.sessions| && Answered(Put(st, id, At(st.sessions[id], 0, 5)), id, after)
    ensures Answered(st, id, after)
  {
    var s := At(st.sessions[id], 0, 5);
    assert st.sessions[id := s][id := after.sessions[id]] == st.sessions[id := after.sessions[id]];
  }

  lemma FirstDoneChunk(payloads: seq<string>, chunks: seq<string>, max: nat) returns (k: nat)
    requires Flatten(chunks) == Encode(payloads) && "[DONE]" in payloads
    requires FeedAll(SseParsing.EMPTY_PARSER, chunks, max).Parsed?
    ensures k < |chunks|
    ensures HasDone(EventsOfBytes(Flatten(chunks[..k + 1]), max)) && !HasDone(EventsOfBytes(Flatten(chunks[..k]), max))
    ensures true !in ObserveAll(NEW_OBSERVER, chunks[..k], max).1
    ensures Observe(ObserveAll(NEW_OBSERVER, chunks[..k], max).0, chunks[k], max).1
  {
    EncodedDoneIsReported(payloads, chunks, max);
    hide Observe, ObserveAll, FeedAll, Flatten, Encode, EventsOfBytes, HasDone;
    k := FirstTrue(ObserveAll(NEW_OBSERVER, chunks, max).1);
    DetectedInCompletingChunk(chunks, k, max);
    ReportAt(NEW_OBSERVER, chunks, k, max);
    PrefixReports(NEW_OBSERVER, chunks, k, max);
  }

  /** From a new proxy: a client connects, asks, and gets its whole answer. */
  lemma FirstAnswer(maxInflight: nat, maxQueue: nat, max: nat, payloads: seq<string>, chunks: seq<string>)
      returns (steps: seq<Step>)
    requires 0 < maxInflight
    requires Flatten(chunks) == Encode(payloads) && "[DONE]" in payloads && "" !in chunks
    requires FeedAll(SseParsing.EMPTY_PARSER, chunks, max).Parsed?
    ensures Legal(Init(maxInflight, maxQueue, max), steps)
    ensures var after := Run(Init(maxInflight, maxQueue, max), steps);
      && after.metrics.(firstTokens := 0) == Metrics(1, 1, 0, 0)
      && after.limiter == Init(maxInflight, maxQueue, max).limiter && after.strand == [Promote]
      && |after.sessions| == 1 && after.sessions[0].finished && after.sessions[0].completions == 1
  {
    hide Flatten, Encode, FeedAll;
    var start := Init(maxInflight, maxQueue, max);
    var asks := [Connect, ReadSucceeds(0, Completion)];
    TwoSteps(start, Connect, ReadSucceeds(0, Completion));
    var st := Run(start, asks);
    assert st.sessions[0] == NEW_SESSION.(counted := true, started := true, holdsPermit := true,
                                          requestTimer := Armed, stage := Resolving);
    InitInv(maxInflight, maxQueue, max);
    RunKeepsInv(start, asks);
    hide Enabled, Apply, Legal, Run, Inv;
    var k := AnsweredInFull(st, 0, payloads, chunks);
    var answers := Successes(0, 5) + BodySteps(0, chunks[..k + 1]);
    RunConcat(start, asks, answers);
    steps := asks + answers;
  }

  lemma FirstTrue(flags: seq<bool>) returns (k: nat)
    requires true in flags
    ensures k < |flags| && flags[k] && true !in flags[..k]
  {
    if flags[0] {
      k := 0;
    } else {
      assert flags == [flags[0]] + flags[1..];
      var later := FirstTrue(flags[1..]);
      k := later + 1;
      assert flags[..k] == [false] + flags[1..][..later];
    }
  }

  /** The k-th report is made by the observer that the first k chunks leave. */
  lemma {:induction false} ReportAt(o: Observer, chunks: seq<string>, k: nat, max: nat)
    requires k < |chunks|
    ensures ObserveAll(o, chunks, max).1[k] == Observe(ObserveAll(o, chunks[..k], max).0, chunks[k], max).1
    decreases k
  {
    hide Observe;
    if k > 0 {
      assert chunks[..k][0] == chunks[0] && chunks[..k][1..] == chunks[1..][..k - 1];
      ReportAt(Observe(o, chunks[0], max).0, chunks[1..], k - 1, max);
    }
  }

  // ----- stopping ------------------------------------------------------------

  /** The strand is a queue: a step takes its first task off if it runs one, and
      appends at most. */
  lemma StrandIsFifo(st: State, step: Step)
    requires Safe(st) && Enabled(st, step)
    ensures (if step == RunStrand then st.strand[1..] else st.strand) <= Apply(st, step).strand
  {
    hide HandleUpstream, HandleRequest;
    match step
    case RunStrand =>
      if st.strand[0] == Promote {
        RunPlain(st);
        PromoteServesOldest(st.(strand := st.strand[1..]));
      }
      hide Safe, PromoteAll;
    case UpstreamCompletes(id, outcome) => UpstreamAppends(st, id, outcome);
    case ReadSucceeds(id, request) => RequestAppends(st, id, request);
    case _ => hide Safe;
  }

  lemma RequestAppends(st: State, id: nat, request: Request)
    requires Enabled(st, ReadSucceeds(id, request))
    ensures st.strand <= HandleRequest(st, id, request).strand
  {}

  lemma UpstreamAppends(st: State, id: nat, outcome: Outcome)
    requires Safe(st) && Enabled(st, UpstreamCompletes(id, outcome))
    ensures st.strand <= HandleUpstream(st, id, outcome).strand
  {
    UpstreamFacts(st, id);
    EndsChain(st, id, true);
    EndsChain(st, id, false);
    if outcome.Chunk? {
      ChunkLaw(st, id, outcome.bytes);
    }
    hide Safe, Observe, End, HandleChunk, GoOn;
    if outcome == Succeeded && st.sessions[id].stage != WritingBody(true) {
      SuccessKeeps(st, id);
    }
  }

  /** Stopping starts with the task that `stop` posts and ends with nothing. */
  lemma StopStep(st: State, step: Step)
    requires Reachable(st) && Enabled(st, step)
    ensures Apply(st, step).stopping <==> st.stopping || (step == RunStrand && st.strand[0] == StopServer)
    ensures step == CallStop ==> Apply(st, step).strand == st.strand + [StopServer]
  {
    ReachableInv(st);
    hide Reachable, HandleUpstream, HandleRequest, QueueTimerHandler, RequestTimerHandler;
    match step
    case RunStrand =>
      if st.strand[0] == Promote {
        RunPlain(st);
        PromoteServesOldest(st.(strand := st.strand[1..]));
      }
      hide Safe, PromoteAll;
    case UpstreamCompletes(id, outcome) => UpstreamRuns(st, id, outcome);
    case ReadSucceeds(id, request) => RequestRuns(st, id, request);
    case QueueTimerRuns(id) => TimersRun(st, id);
    case RequestTimerRuns(id) => TimersRun(st, id);
    case _ => hide Safe;
  }

  lemma EndRuns(st: State, id: nat, completed: bool)
    requires id < |st.sessions|
    ensures End(st, id, completed).stopping == st.stopping
  {}

  lemma TimersRun(st: State, id: nat)
    requires id < |st.sessions|
    ensures QueueTimerHandler(st, id).stopping == RequestTimerHandler(st, id).stopping == st.stopping
    ensures |QueueTimerHandler(st, id).sessions| == |RequestTimerHandler(st, id).sessions| == |st.sessions|
  {}

  lemma RequestRuns(st: State, id: nat, request: Request)
    requires id < |st.sessions|
    ensures HandleRequest(st, id, request).stopping == st.stopping
  {}

  lemma UpstreamRuns(st: State, id: nat, outcome: Outcome)
    requires Enabled(st, UpstreamCompletes(id, outcome))
    ensures HandleUpstream(st, id, outcome).stopping == st.stopping
  {
    hide Observe, End;
    EndRuns(GoOn(st, id, Idle), id, true);
    EndRuns(GoOn(st, id, Idle), id, false);
    if outcome.Chunk? {
      var s := st.sessions[id];
      var (observer, done) := Observe(s.observer, outcome.bytes, st.maxSseBuffer);
      var tokens := if observer.firstDataSeen && !s.observer.firstDataSeen then 1 else 0;
      var seen := st.(metrics := st.metrics.(firstTokens := st.metrics.firstTokens + tokens));
      EndRuns(Put(seen, id, s.(observer := observer, stage := Idle)), id, true);
    }
  }

  /** How many tasks of the strand a run has executed. */
  function TasksRun(steps: seq<Step>): nat {
    if steps == [] then 0 else One(steps[0] == RunStrand) + TasksRun(steps[1..])
  }

  /** A posted Stop takes effect once the tasks before it have run, whatever else
      happens meanwhile, and for good. */
  lemma {:induction false} StopArrives(st: State, steps: seq<Step>, k: nat)
    requires Reachable(st) && Legal(st, steps)
    requires st.stopping || (k < |st.strand| && st.strand[k] == StopServer && k < TasksRun(steps))
    ensures Run(st, steps).stopping
    decreases |steps|
  {
    hide Reachable, Enabled, Apply;
    if steps != [] {
      var next := Apply(st, steps[0]);
      StopStep(st, steps[0]);
      ReachableInv(st);
      StrandIsFifo(st, steps[0]);
      ReachableStep(st, steps[0]);
      hide Inv;
      if st.stopping || steps[0] != RunStrand {
        StopArrives(next, steps[1..], k);
      } else if k > 0 {
        assert next.strand[k - 1] == st.strand[1..][k - 1];
        StopArrives(next, steps[1..], k - 1);
      } else {
        StopArrives(next, steps[1..], 0);
      }
    }
  }

  lemma ReachableStep(st: State, step: Step)
    requires Reachable(st) && Enabled(st, step)
    ensures Reachable(Apply(st, step))
  {
    var maxInflight, maxQueue, maxSseBuffer, steps :| IsRun(maxInflight, maxQueue, maxSseBuffer, steps, st);
    var start := Init(maxInflight, maxQueue, maxSseBuffer);
    hide Enabled, Apply;
    RunConcat(start, steps, [step]);
    assert [step][1..] == [] && Legal(Apply(st, step), []);
    assert Run(st, [step]) == Apply(st, step);
    assert IsRun(maxInflight, maxQueue, maxSseBuffer, steps + [step], Apply(st, step));
  }

  predicate HasStarted(st: State, id: nat) {
    id < |st.sessions| && st.sessions[id].started
  }

  /** A stopping server starts nobody any more: not one of the sessions it has, and
      none that connects later. */
  lemma {:induction false} StoppedStartsNobody(st: State, steps: seq<Step>, id: nat)
    requires Reachable(st) && st.stopping && Legal(st, steps)
    ensures HasStarted(Run(st, steps), id) ==> HasStarted(st, id)
    decreases |steps|
  {
    hide Reachable, Enabled, Apply, HasStarted;
    if steps != [] {
      StopStep(st, steps[0]);
      ReachableStep(st, steps[0]);
      NobodyStarts(st, steps[0], id);
      StoppedStartsNobody(Apply(st, steps[0]), steps[1..], id);
    }
  }

  lemma NobodyStarts(st: State, step: Step, id: nat)
    requires Reachable(st) && st.stopping && Enabled(st, step)
    ensures HasStarted(Apply(st, step), id) ==> HasStarted(st, id)
  {
    ReachableInv(st);
    if id < |st.sessions| {
      SessionLife(st, step, id);
      hide Reachable, Apply;
      assert LiveOf([], st.sessions) == [];
    } else {
      SessionsStay(st, step);
    }
  }

  /** Only a connection makes a session, and a new one has done nothing. */
  lemma SessionsStay(st: State, step: Step)
    requires Safe(st) && Enabled(st, step)
    ensures step == Connect ==> Apply(st, step).sessions == st.sessions + [NEW_SESSION]
    ensures step != Connect ==> |Apply(st, step).sessions| == |st.sessions|
  {
    hide HandleUpstream, HandleRequest, QueueTimerHandler, RequestTimerHandler, RunTask;
    match step
    case RunStrand => StrandKeepsSessions(st);
    case UpstreamCompletes(id, outcome) => UpstreamRecord(st, id, outcome); hide Safe;
    case ReadSucceeds(id, request) => RequestAlone(st, id, request); hide Safe;
    case QueueTimerRuns(id) => TimersRun(st, id); hide Safe;
    case RequestTimerRuns(id) => TimersRun(st, id); hide Safe;
    case _ => hide Safe;
  }

  lemma StrandKeepsSessions(st: State)
    requires Safe(st) && Enabled(st, RunStrand)
    ensures |RunTask(st).sessions| == |st.sessions|
  {
    if st.strand[0] == Promote {
      RunPlain(st);
      PromoteServesOldest(st.(strand := st.strand[1..]));
    }
    hide Safe, PromoteAll, LiveOf, Share;
  }
}
