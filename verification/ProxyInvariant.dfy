/** The invariant of the admission protocol and its preservation by every step. */
module ProxyInvariant {
  import opened LimiterCore
  import opened SseObserver
  import opened Tallies
  import opened ProxyModel

  // ----- weights -------------------------------------------------------------

  function HoldsPermit(s: Session): nat { if s.holdsPermit then 1 else 0 }
  function IsQueued(s: Session): nat { if s.queued then 1 else 0 }
  function IsCounted(s: Session): nat { if s.counted then 1 else 0 }
  function Completions(s: Session): nat { s.completions }
  function Failures(s: Session): nat { s.failures }
  function FirstTokens(s: Session): nat { s.observer.firstTokens }

  /** The sessions whose Enqueue task is still pending, in order. */
  function Posted(strand: seq<Task>): seq<nat> {
    if strand == [] then []
    else (if strand[0].Enqueue? then [strand[0].id] else []) + Posted(strand[1..])
  }

  /** Everyone who waits or has waited, still in line: first the deque, then the
      sessions about to join it. */
  function Line(st: State): seq<nat> {
    st.deque + Posted(st.strand)
  }

  // ----- the invariant -------------------------------------------------------

  predicate Pending(t: Timer) { t == Armed || t == Expired }

  predicate InUpstream(stage: Stage) {
    stage != Reading && stage != Idle && stage != Replying
  }

  /** Stages from which the body may still be read: never after a parse failure. */
  predicate MayRead(stage: Stage) {
    InUpstream(stage) && stage != WritingBody(true)
  }

  /** What holds of every session on its own. */
  predicate SessionOk(s: Session) {
    && (s.queued ==> s.counted && s.stage == Idle && !s.started && !s.finished && Pending(s.queueTimer))
    && (s.holdsPermit <==> s.started && !s.finished)
    && (s.holdsPermit ==> Pending(s.requestTimer))
    && (s.started ==> s.counted)
    && (s.stage == Reading ==> !s.counted && !s.finished && s.queueTimer == Unset)
    && (s.stage == Replying ==> !s.counted)
    && (s.queueTimer == Armed ==> s.queued)
    && (s.requestTimer == Armed ==> !s.finished)
    && (s.requestTimer != Unset || InUpstream(s.stage) ==> s.started)
    && s.completions + s.failures == (if s.counted && s.finished then 1 else 0)
    && Counted(s.observer)
    && (MayRead(s.stage) ==> s.observer.stream.Open?)
    && (!s.started ==> s.observer == NEW_OBSERVER)
  }

  predicate SessionsOk(st: State) {
    forall id | 0 <= id < |st.sessions| :: SessionOk(st.sessions[id])
  }

  /** The counters agree with the sessions and the strand. */
  predicate CountersOk(st: State) {
    && st.limiter.Bounded()
    && st.limiter.closed == st.stopping
    && st.limiter.inflight == Tally(st.sessions, HoldsPermit)
    && (!st.stopping ==> st.limiter.queued == Tally(st.sessions, IsQueued) + |Posted(st.strand)|)
    && st.metrics.total == Tally(st.sessions, IsCounted)
    && st.metrics.completed == Tally(st.sessions, Completions)
    && st.metrics.failed == Tally(st.sessions, Failures)
    && st.metrics.firstTokens == Tally(st.sessions, FirstTokens)
  }

  predicate Distinct(xs: seq<nat>) {
    forall i, j | 0 <= i < j < |xs| :: xs[i] != xs[j]
  }

  predicate IsSuffix(xs: seq<nat>, ys: seq<nat>) {
    |xs| <= |ys| && ys[|ys| - |xs|..] == xs
  }

  /** In the deque: queued, or already timed out. */
  predicate InDequeOk(s: Session) {
    !s.started && (s.queued || s.finished)
  }

  /** Between the Queue decision and its task. */
  predicate PostedOk(s: Session) {
    !s.started && !s.queued && !s.finished && s.stage == Idle && s.queueTimer == Unset
  }

  predicate LineOk(st: State) {
    && Distinct(st.arrivals)
    && (forall k | 0 <= k < |st.arrivals| ::
          st.arrivals[k] < |st.sessions| && st.sessions[st.arrivals[k]].counted)
    && IsSuffix(Line(st), st.arrivals)
    && (forall id | id in st.deque :: id < |st.sessions| && InDequeOk(st.sessions[id]))
    && (forall id | id in Posted(st.strand) :: id < |st.sessions| && PostedOk(st.sessions[id]))
  }

  /** While the server runs, whoever waits is in the line, and whoever left it was
      started or is finished. */
  predicate WaitingInLine(st: State) {
    && (forall id | 0 <= id < |st.sessions| && st.sessions[id].queued :: id in st.deque)
    && (forall id | id in st.arrivals ::
          id in Line(st) || (id < |st.sessions| && (st.sessions[id].started || st.sessions[id].finished)))
  }

  /** If the later of two arrivals has been started, the earlier one does not wait. */
  predicate InOrder(st: State, i: nat, j: nat)
    requires i < j < |st.arrivals|
  {
    && st.arrivals[i] < |st.sessions| && st.arrivals[j] < |st.sessions|
    && (st.sessions[st.arrivals[j]].started ==> !st.sessions[st.arrivals[i]].queued)
  }

  /** First come, first served. */
  predicate FifoOk(st: State) {
    forall i, j {:trigger InOrder(st, i, j)} {:trigger st.arrivals[i], st.arrivals[j]}
      | 0 <= i < j < |st.arrivals| :: InOrder(st, i, j)
  }

  predicate Safe(st: State) {
    && SessionsOk(st) && CountersOk(st) && LineOk(st) && FifoOk(st)
    && (if st.stopping then st.deque == [] else WaitingInLine(st))
  }

  /** A Promote task behind every pending Enqueue task. */
  predicate PromoteComing(strand: seq<Task>) {
    exists k | 0 <= k < |strand| ::
      strand[k] == Promote && forall j | k < j < |strand| :: !strand[j].Enqueue?
  }

  /** No lost wakeup, in terms of the counters. */
  predicate Awake(st: State) {
    !st.stopping && st.limiter.HasFreeSlot() && st.limiter.queued > 0 ==> PromoteComing(st.strand)
  }

  predicate Inv(st: State) {
    Safe(st) && Awake(st)
  }

  // ----- facts about the line ------------------------------------------------

  lemma {:induction false} PostedConcat(a: seq<Task>, b: seq<Task>)
    ensures Posted(a + b) == Posted(a) + Posted(b)
    decreases |a|
  {
    if a == [] {
      assert a + b == b;
    } else {
      assert (a + b)[1..] == a[1..] + b && (a + b)[0] == a[0];
      PostedConcat(a[1..], b);
      var first := if a[0].Enqueue? then [a[0].id] else [];
      assert Posted(a + b) == first + Posted(a[1..] + b);
      assert Posted(a) == first + Posted(a[1..]);
    }
  }

  lemma PostTask(strand: seq<Task>, task: Task)
    ensures Posted(strand + [task]) == Posted(strand) + if task.Enqueue? then [task.id] else []
  {
    PostedConcat(strand, [task]);
    assert [task][1..] == [];
  }

  lemma {:induction false} PostedIds(strand: seq<Task>)
    ensures forall k | 0 <= k < |strand| && strand[k].Enqueue? :: strand[k].id in Posted(strand)
    decreases |strand|
  {
    if strand != [] {
      PostedIds(strand[1..]);
      forall k | 0 <= k < |strand| && strand[k].Enqueue?
        ensures strand[k].id in Posted(strand)
      {
        if k > 0 {
          assert strand[1..][k - 1] == strand[k];
        }
      }
    }
  }

  lemma SafeKnowsIds(st: State)
    requires LineOk(st)
    ensures KnownIds(st)
  {
    PostedIds(st.strand);
    assert forall k | 0 <= k < |st.deque| :: st.deque[k] in st.deque;
  }

  /** The line has no duplicates. */
  lemma LineDistinct(st: State)
    requires LineOk(st)
    ensures Distinct(Line(st))
  {
    var off := |st.arrivals| - |Line(st)|;
    assert forall k | 0 <= k < |Line(st)| :: Line(st)[k] == st.arrivals[off + k];
  }

  // ----- one session changes -------------------------------------------------

  lemma PutTally(st: State, id: nat, s: Session, f: Session -> nat)
    requires id < |st.sessions|
    ensures Tally(Put(st, id, s).sessions, f) == Tally(st.sessions, f) - f(st.sessions[id]) + f(s)
  {
    Replace(st.sessions, id, s, f);
  }

  /** Changes that take nobody out of the line and let nobody join or overtake it. */
  predicate LineNeutral(st: State, id: nat, s: Session)
    requires id < |st.sessions|
  {
    var old_ := st.sessions[id];
    && (old_.counted ==> s.counted)
    && (s.started ==> old_.started || id !in st.arrivals)
    && (s.queued ==> old_.queued)
    && (old_.started || old_.finished ==> s.started || s.finished)
    && (id in st.deque ==> InDequeOk(s))
    && (id in Posted(st.strand) ==> PostedOk(s))
  }

  lemma PutKeepsLine(st: State, id: nat, s: Session)
    requires id < |st.sessions| && LineOk(st) && FifoOk(st) && LineNeutral(st, id, s)
    ensures LineOk(Put(st, id, s)) && FifoOk(Put(st, id, s))
    ensures WaitingInLine(st) ==> WaitingInLine(Put(st, id, s))
  {
    hide Posted, InDequeOk, PostedOk;
    var after := Put(st, id, s);
    assert Line(after) == Line(st);
    forall i, j | 0 <= i < j < |after.arrivals|
      ensures after.arrivals[i] < |after.sessions| && after.arrivals[j] < |after.sessions| &&
        (after.sessions[after.arrivals[j]].started ==> !after.sessions[after.arrivals[i]].queued)
    {
      assert st.arrivals[i] != st.arrivals[j];
    }
  }

  // ----- a step that changes one session -------------------------------------

  /** `after` differs from `st` in session `id`, and its counters followed. */
  predicate Followed(st: State, id: nat, s: Session, after: State)
    requires id < |st.sessions|
  {
    var was := st.sessions[id];
    && after.sessions == st.sessions[id := s]
    && after.deque == st.deque && after.arrivals == st.arrivals && after.stopping == st.stopping
    && Posted(after.strand) == Posted(st.strand)
    && after.limiter.Bounded() && after.limiter.closed == st.limiter.closed
    && after.limiter.inflight == st.limiter.inflight - HoldsPermit(was) + HoldsPermit(s)
    && (!st.stopping ==> after.limiter.queued == st.limiter.queued - IsQueued(was) + IsQueued(s))
    && after.metrics.total == st.metrics.total - IsCounted(was) + IsCounted(s)
    && after.metrics.completed == st.metrics.completed - Completions(was) + Completions(s)
    && after.metrics.failed == st.metrics.failed - Failures(was) + Failures(s)
    && after.metrics.firstTokens == st.metrics.firstTokens - FirstTokens(was) + FirstTokens(s)
  }

  lemma FollowedKeepsSafe(st: State, id: nat, s: Session, after: State)
    requires Safe(st) && id < |st.sessions| && SessionOk(s) && LineNeutral(st, id, s)
    requires Followed(st, id, s, after)
    ensures Safe(after)
  {
    FollowedKeepsCounters(st, id, s, after);
    hide SessionOk, LineNeutral, Limiter.Bounded;
    PutKeepsLine(st, id, s);
    SameLineOk(Put(st, id, s), after);
  }

  lemma FollowedKeepsCounters(st: State, id: nat, s: Session, after: State)
    requires CountersOk(st) && id < |st.sessions| && Followed(st, id, s, after)
    ensures CountersOk(after)
  {
    hide Tally, SessionOk;
    PutTally(st, id, s, HoldsPermit);
    PutTally(st, id, s, IsQueued);
    PutTally(st, id, s, IsCounted);
    PutTally(st, id, s, Completions);
    PutTally(st, id, s, Failures);
    PutTally(st, id, s, FirstTokens);
  }

  lemma SameLineOk(st: State, after: State)
    requires LineOk(st) && FifoOk(st)
    requires after.sessions == st.sessions && after.deque == st.deque && after.arrivals == st.arrivals
    requires Posted(after.strand) == Posted(st.strand)
    ensures LineOk(after) && FifoOk(after) && (WaitingInLine(st) ==> WaitingInLine(after))
  {}

  /** `finish_request` and `fail_with_status` on a session that is not finished. */
  lemma EndEffect(st: State, id: nat, completed: bool)
    requires id < |st.sessions| && !st.sessions[id].finished
    requires st.sessions[id].holdsPermit ==> st.limiter.inflight > 0
    ensures var s, after := st.sessions[id], End(st, id, completed);
      && after.sessions == st.sessions[id := EndSession(s, completed)]
      && after.limiter == st.limiter.(inflight := st.limiter.inflight - HoldsPermit(s))
      && after.strand == st.strand + (if s.holdsPermit then [Promote] else [])
      && Posted(after.strand) == Posted(st.strand)
  {
    PostTask(st.strand, Promote);
  }

  /** A session that holds a permit is counted by the limiter. */
  lemma PermitIsCounted(st: State, id: nat)
    requires CountersOk(st) && id < |st.sessions|
    ensures st.sessions[id].holdsPermit ==> st.limiter.inflight > 0
    ensures !st.stopping && st.sessions[id].queued ==> st.limiter.queued > 0
  {
    AtMostTally(st.sessions, id, HoldsPermit);
    AtMostTally(st.sessions, id, IsQueued);
  }

  lemma StartedIsNotInLine(st: State, id: nat)
    requires LineOk(st) && id < |st.sessions|
    ensures st.sessions[id].started ==> id !in st.deque && id !in Posted(st.strand)
    ensures !st.sessions[id].counted ==> id !in st.arrivals
    ensures id !in st.arrivals ==> id !in st.deque && id !in Posted(st.strand)
  {
    var line, off := Line(st), |st.arrivals| - |Line(st)|;
    assert forall k | 0 <= k < |line| :: line[k] == st.arrivals[off + k];
    assert forall x | x in st.deque || x in Posted(st.strand) :: x in line;
  }

  /** Ending a session whose record just became `s` in the state `mid`. */
  lemma EndKeepsSafe(st: State, id: nat, s: Session, mid: State, completed: bool)
    requires Safe(st) && id < |st.sessions| && Followed(st, id, s, mid) && !s.finished
    requires s.holdsPermit == st.sessions[id].holdsPermit
    requires SessionOk(EndSession(s, completed)) && LineNeutral(st, id, EndSession(s, completed))
    ensures Safe(End(mid, id, completed))
  {
    var ended, after := EndSession(s, completed), End(mid, id, completed);
    PermitIsCounted(st, id);
    EndEffect(mid, id, completed);
    assert mid.sessions[id := ended] == st.sessions[id := ended];
    EndFollows(st, id, s, mid, completed);
    hide Tally, SessionOk, LineNeutral, Followed, EndSession, End, Safe;
    FollowedKeepsSafe(st, id, ended, after);
  }

  lemma EndFollows(st: State, id: nat, s: Session, mid: State, completed: bool)
    requires id < |st.sessions| && Followed(st, id, s, mid) && !s.finished
    requires s.holdsPermit == st.sessions[id].holdsPermit && (s.holdsPermit ==> st.limiter.inflight > 0)
    ensures Followed(st, id, EndSession(s, completed), End(mid, id, completed))
  {
    hide Posted;
    EndEffect(mid, id, completed);
    var ended := EndSession(s, completed);
    assert mid.sessions[id := ended] == st.sessions[id := ended];
  }

  /** Nothing but flags of one session changes. */
  lemma PutKeepsSafe(st: State, id: nat, s: Session)
    requires Safe(st) && id < |st.sessions| && SessionOk(s) && LineNeutral(st, id, s)
    requires var was := st.sessions[id];
      && s.holdsPermit == was.holdsPermit && s.queued == was.queued && s.counted == was.counted
      && s.completions == was.completions && s.failures == was.failures
      && s.observer.firstTokens == was.observer.firstTokens
    ensures Safe(Put(st, id, s))
  {
    hide SessionOk, LineNeutral, LineOk, FifoOk, WaitingInLine, SessionsOk;
    FollowedKeepsSafe(st, id, s, Put(st, id, s));
  }

  // ----- the upstream chain --------------------------------------------------

  lemma EndGoesOnKeepsSafe(st: State, id: nat, completed: bool)
    requires Safe(st) && id < |st.sessions| && InUpstream(st.sessions[id].stage)
    ensures Safe(End(GoOn(st, id, Idle), id, completed))
  {
    hide Tally, LineOk, FifoOk, WaitingInLine, Posted;
    var s := st.sessions[id].(stage := Idle);
    StartedIsNotInLine(st, id);
    if s.finished {
      PutKeepsSafe(st, id, s);
    } else {
      EndKeepsSafe(st, id, s, GoOn(st, id, Idle), completed);
    }
  }

  lemma GoOnKeepsSafe(st: State, id: nat, stage: Stage)
    requires Safe(st) && id < |st.sessions| && InUpstream(st.sessions[id].stage) && InUpstream(stage)
    requires MayRead(stage) ==> st.sessions[id].observer.stream.Open?
    ensures Safe(GoOn(st, id, stage))
  {
    hide Tally, LineOk, FifoOk, WaitingInLine, Posted;
    StartedIsNotInLine(st, id);
    PutKeepsSafe(st, id, st.sessions[id].(stage := stage));
  }

  lemma ChunkKeepsSafe(st: State, id: nat, bytes: string)
    requires Safe(st) && id < |st.sessions| && st.sessions[id].stage == ReadingBody
    ensures Safe(HandleChunk(st, id, bytes))
  {
    hide Tally, LineOk, FifoOk, WaitingInLine, Posted, Observe;
    var was := st.sessions[id];
    var (observer, done) := Observe(was.observer, bytes, st.maxSseBuffer);
    ObserveKeepsCounted(was.observer, bytes, st.maxSseBuffer);
    SeenTokens(was.observer, bytes, st.maxSseBuffer);
    StartedIsNotInLine(st, id);
    var tokens := if observer.firstDataSeen && !was.observer.firstDataSeen then 1 else 0;
    var metrics := st.metrics.(firstTokens := st.metrics.firstTokens + tokens);
    if bytes == "" && done {
      var s := was.(observer := observer, stage := Idle);
      var mid := Put(st.(metrics := metrics), id, s);
      if s.finished {
        FollowedKeepsSafe(st, id, s, mid);
      } else {
        EndKeepsSafe(st, id, s, mid, true);
      }
    } else {
      var s := was.(observer := observer, stage := WritingBody(done));
      FollowedKeepsSafe(st, id, s, Put(st.(metrics := metrics), id, s));
    }
  }

  lemma SeenTokens(o: Observer, bytes: string, max: nat)
    ensures var next := Observe(o, bytes, max).0;
      next.firstTokens == o.firstTokens + (if next.firstDataSeen && !o.firstDataSeen then 1 else 0)
  {}

  lemma UpstreamKeepsSafe(st: State, id: nat, outcome: Outcome)
    requires Safe(st) && Enabled(st, UpstreamCompletes(id, outcome))
    ensures Safe(HandleUpstream(st, id, outcome))
  {
    hide CountersOk, LineOk, FifoOk, WaitingInLine, End, HandleChunk, GoOn;
    var s := st.sessions[id];
    match outcome
    case Failed => EndGoesOnKeepsSafe(st, id, s.stage == WritingHeader);
    case NeedBuffer =>
    case EndOfStream => EndGoesOnKeepsSafe(st, id, true);
    case Chunk(bytes) => ChunkKeepsSafe(st, id, bytes);
    case Succeeded =>
      match s.stage
      case Resolving => GoOnKeepsSafe(st, id, Connecting);
      case Connecting => GoOnKeepsSafe(st, id, WritingRequest);
      case WritingRequest => GoOnKeepsSafe(st, id, ReadingHeader);
      case ReadingHeader => HeaderKeepsSafe(st, id);
      case WritingBody(last) =>
        if last { EndGoesOnKeepsSafe(st, id, true); } else { GoOnKeepsSafe(st, id, ReadingBody); }
      case _ => GoOnKeepsSafe(st, id, ReadingBody);
  }

  lemma HeaderKeepsSafe(st: State, id: nat)
    requires Safe(st) && id < |st.sessions| && st.sessions[id].stage == ReadingHeader
    ensures Safe(Put(st, id, st.sessions[id].(responseStarted := true, stage := WritingHeader)))
  {
    hide Tally, LineOk, FifoOk, WaitingInLine, Posted;
    StartedIsNotInLine(st, id);
    PutKeepsSafe(st, id, st.sessions[id].(responseStarted := true, stage := WritingHeader));
  }

  // ----- timers --------------------------------------------------------------

  lemma QueueTimerKeepsSafe(st: State, id: nat)
    requires Safe(st) && Enabled(st, QueueTimerRuns(id))
    ensures Safe(QueueTimerHandler(st, id))
  {
    hide Tally, LineOk, FifoOk, WaitingInLine, Posted;
    var was := st.sessions[id];
    QueuedIsNotPosted(st, id);
    if was.queueTimer == Cancelled || !was.queued {
      PutKeepsSafe(st, id, was.(queueTimer := Unset));
    } else {
      PermitIsCounted(st, id);
      SectionsKeepBounds(st.limiter);
      var s := was.(queueTimer := Unset, queued := false);
      EndKeepsSafe(st, id, s, Put(st.(limiter := CancelQueued(st.limiter).0), id, s), false);
    }
  }

  lemma QueuedIsNotPosted(st: State, id: nat)
    requires LineOk(st) && SessionsOk(st) && id < |st.sessions|
    ensures st.sessions[id].queueTimer != Unset ==> id !in Posted(st.strand)
    ensures id in st.deque ==> InDequeOk(st.sessions[id])
    ensures id in Posted(st.strand) ==> PostedOk(st.sessions[id])
  {}

  lemma RequestTimerKeepsSafe(st: State, id: nat)
    requires Safe(st) && Enabled(st, RequestTimerRuns(id))
    ensures Safe(RequestTimerHandler(st, id))
  {
    hide Tally, LineOk, FifoOk, WaitingInLine, Posted;
    var was := st.sessions[id];
    var s := was.(requestTimer := Unset);
    StartedIsNotInLine(st, id);
    if was.finished {
      PutKeepsSafe(st, id, s);
    } else {
      EndKeepsSafe(st, id, s, Put(st, id, s), false);
    }
  }

  lemma ExpiryKeepsSafe(st: State, id: nat, s: Session)
    requires Safe(st) && id < |st.sessions|
    requires var was := st.sessions[id];
      || (was.queueTimer == Armed && s == was.(queueTimer := Expired))
      || (was.requestTimer == Armed && s == was.(requestTimer := Expired))
    ensures Safe(Put(st, id, s))
  {
    hide Tally, LineOk, FifoOk, WaitingInLine, Posted;
    QueuedIsNotPosted(st, id);
    StartedIsNotInLine(st, id);
    PutKeepsSafe(st, id, s);
  }

  // ----- connections and requests --------------------------------------------

  lemma ConnectKeepsSafe(st: State)
    requires Safe(st)
    ensures Safe(Apply(st, Connect))
  {
    ConnectKeepsCounters(st);
    ConnectKeepsLine(st);
    hide CountersOk, LineOk, FifoOk, WaitingInLine;
    var after := Apply(st, Connect);
    forall id | 0 <= id < |after.sessions|
      ensures SessionOk(after.sessions[id])
    {}
  }

  lemma ConnectKeepsCounters(st: State)
    requires CountersOk(st)
    ensures CountersOk(Apply(st, Connect))
  {
    Append(st.sessions, NEW_SESSION, HoldsPermit);
    Append(st.sessions, NEW_SESSION, IsQueued);
    Append(st.sessions, NEW_SESSION, IsCounted);
    Append(st.sessions, NEW_SESSION, Completions);
    Append(st.sessions, NEW_SESSION, Failures);
    Append(st.sessions, NEW_SESSION, FirstTokens);
    hide Tally, Posted;
  }

  lemma ConnectKeepsLine(st: State)
    requires LineOk(st) && FifoOk(st)
    ensures var after := Apply(st, Connect);
      LineOk(after) && FifoOk(after) && (WaitingInLine(st) ==> WaitingInLine(after))
  {
    hide Posted, InDequeOk, PostedOk;
    var after := Apply(st, Connect);
    assert Line(after) == Line(st);
    assert forall id | 0 <= id < |st.sessions| :: after.sessions[id] == st.sessions[id];
  }

  /** A session that was never counted finishes without a report. */
  lemma UncountedKeepsSafe(st: State, id: nat, s: Session)
    requires Safe(st) && id < |st.sessions|
    requires var was := st.sessions[id];
      && (was.stage == Reading || was.stage == Replying)
      && (s == was.(stage := Replying) || s == was.(stage := Idle, finished := true)
          || s == EndSession(was.(stage := Idle), false))
    ensures Safe(Put(st, id, s))
  {
    hide Tally, LineOk, FifoOk, WaitingInLine, Posted;
    StartedIsNotInLine(st, id);
    PutKeepsSafe(st, id, s);
  }

  /** The session as a Completion request leaves it, before the decision. */
  function Seen(s: Session): Session {
    s.(stage := Idle, counted := true)
  }

  function Started(s: Session): Session {
    s.(queued := false, queueTimer := CancelTimer(s.queueTimer),
       holdsPermit := true, started := true, requestTimer := Armed, stage := Resolving)
  }

  lemma AdmitKeepsSafe(st: State, id: nat)
    requires Safe(st) && Enabled(st, ReadSucceeds(id, Completion))
    requires TryAcquireOrQueue(st.limiter).1.decision == Admit
    ensures Safe(HandleRequest(st, id, Completion))
  {
    hide Tally, LineOk, FifoOk, WaitingInLine, Posted;
    var was := st.sessions[id];
    StartedIsNotInLine(st, id);
    assert !was.queued && was.queueTimer != Armed && !was.holdsPermit;
    var s := Started(Seen(was));
    var after := HandleRequest(st, id, Completion);
    assert after.sessions == st.sessions[id := s];
    FollowedKeepsSafe(st, id, s, after);
  }

  lemma RejectKeepsSafe(st: State, id: nat)
    requires Safe(st) && Enabled(st, ReadSucceeds(id, Completion))
    requires var d := TryAcquireOrQueue(st.limiter).1.decision; d == Reject || d == Closed
    ensures Safe(HandleRequest(st, id, Completion))
  {
    hide Tally, LineOk, FifoOk, WaitingInLine, Posted;
    var was := st.sessions[id];
    StartedIsNotInLine(st, id);
    var seen := Put(st, id, Seen(was)).(metrics := st.metrics.(total := st.metrics.total + 1));
    EndKeepsSafe(st, id, Seen(was), seen, false);
  }

  /** A session with a fresh Queue decision joins the end of the line. */
  lemma JoinKeepsSafe(st: State, id: nat)
    requires Safe(st) && id < |st.sessions| && !st.stopping && id !in st.arrivals
    requires st.sessions[id].counted && PostedOk(st.sessions[id]) && st.limiter.queued < st.limiter.maxQueue
    ensures Safe(st.(limiter := st.limiter.(queued := st.limiter.queued + 1),
                     strand := st.strand + [Enqueue(id)], arrivals := st.arrivals + [id]))
  {
    hide Tally, SessionOk;
    var after := st.(limiter := st.limiter.(queued := st.limiter.queued + 1),
                     strand := st.strand + [Enqueue(id)], arrivals := st.arrivals + [id]);
    PostTask(st.strand, Enqueue(id));
    assert Line(after) == Line(st) + [id];
    var n := |st.arrivals|;
    assert forall k | 0 <= k < n :: after.arrivals[k] == st.arrivals[k];
    assert after.arrivals[n] == id;
    JoinKeepsLine(st, id, after);
  }

  lemma JoinKeepsLine(st: State, id: nat, after: State)
    requires LineOk(st) && FifoOk(st) && WaitingInLine(st) && id < |st.sessions| && id !in st.arrivals
    requires st.sessions[id].counted && PostedOk(st.sessions[id])
    requires after.sessions == st.sessions && after.deque == st.deque && after.arrivals == st.arrivals + [id]
    requires Posted(after.strand) == Posted(st.strand) + [id]
    ensures LineOk(after) && FifoOk(after) && WaitingInLine(after)
  {
    JoinKeepsFifo(st, id, after);
    JoinLine(Line(st), st.arrivals, id);
    hide Posted, FifoOk, InDequeOk, PostedOk, Distinct, IsSuffix;
    assert Line(after) == Line(st) + [id];
  }

  lemma JoinLine(line: seq<nat>, arrivals: seq<nat>, id: nat)
    requires Distinct(arrivals) && IsSuffix(line, arrivals) && id !in arrivals
    ensures Distinct(arrivals + [id]) && IsSuffix(line + [id], arrivals + [id])
    ensures forall x | x in line :: x in line + [id]
  {
    assert (arrivals + [id])[|arrivals| - |line|..] == arrivals[|arrivals| - |line|..] + [id];
  }

  lemma ArrivalsKnown(st: State)
    requires LineOk(st)
    ensures forall k | 0 <= k < |st.arrivals| :: st.arrivals[k] < |st.sessions|
  {}

  lemma JoinKeepsFifo(st: State, id: nat, after: State)
    requires FifoOk(st) && LineOk(st) && id < |st.sessions| && !st.sessions[id].started
    requires after.sessions == st.sessions && after.arrivals == st.arrivals + [id]
    ensures FifoOk(after)
  {
    ArrivalsKnown(st);
    hide FifoOk, LineOk;
    forall i, j | 0 <= i < j < |after.arrivals|
      ensures InOrder(after, i, j)
    {
      if j < |st.arrivals| {
        FifoAt(st, i, j);
      } else {
        assert after.arrivals[i] == st.arrivals[i];
      }
    }
    FifoFrom(after);
  }

  lemma QueueKeepsSafe(st: State, id: nat)
    requires Safe(st) && Enabled(st, ReadSucceeds(id, Completion))
    requires TryAcquireOrQueue(st.limiter).1.decision == Queue
    ensures Safe(HandleRequest(st, id, Completion))
  {
    hide Safe, Tally;
    CountKeepsSafe(st, id);
    QueueFacts(st, id);
    JoinKeepsSafe(Put(st, id, Seen(st.sessions[id])).(
      metrics := st.metrics.(total := st.metrics.total + 1)), id);
  }

  lemma QueueFacts(st: State, id: nat)
    requires Safe(st) && id < |st.sessions| && st.sessions[id].stage == Reading
    ensures st.stopping == st.limiter.closed && id !in st.arrivals && PostedOk(Seen(st.sessions[id]))
  {
    StartedIsNotInLine(st, id);
    assert SessionOk(st.sessions[id]);
  }

  lemma CountKeepsSafe(st: State, id: nat)
    requires Safe(st) && id < |st.sessions| && st.sessions[id].stage == Reading
    ensures Safe(Put(st, id, Seen(st.sessions[id])).(metrics := st.metrics.(total := st.metrics.total + 1)))
  {
    hide Tally, LineOk, FifoOk, WaitingInLine, Posted;
    StartedIsNotInLine(st, id);
    var s := Seen(st.sessions[id]);
    FollowedKeepsSafe(st, id, s, Put(st, id, s).(metrics := st.metrics.(total := st.metrics.total + 1)));
  }

  lemma RequestKeepsSafe(st: State, id: nat, request: Request)
    requires Safe(st) && Enabled(st, ReadSucceeds(id, request))
    ensures Safe(HandleRequest(st, id, request))
  {
    hide LineOk, FifoOk, WaitingInLine, CountersOk, Posted;
    var was := st.sessions[id];
    match request
    case Health => UncountedKeepsSafe(st, id, was.(stage := Replying));
    case BadRequest =>
      BadRequestEffect(st, id);
      UncountedKeepsSafe(st, id, EndSession(was.(stage := Idle), false));
    case Completion =>
      match TryAcquireOrQueue(st.limiter).1.decision
      case Admit => AdmitKeepsSafe(st, id);
      case Queue => QueueKeepsSafe(st, id);
      case _ => RejectKeepsSafe(st, id);
  }

  lemma BadRequestEffect(st: State, id: nat)
    requires Safe(st) && id < |st.sessions| && st.sessions[id].stage == Reading
    ensures End(Put(st, id, st.sessions[id].(stage := Idle)), id, false)
      == Put(st, id, EndSession(st.sessions[id].(stage := Idle), false))
  {
    hide CountersOk, LineOk, FifoOk, WaitingInLine;
    var s := st.sessions[id].(stage := Idle);
    assert SessionOk(st.sessions[id]);
    assert st.sessions[id := s][id := EndSession(s, false)] == st.sessions[id := EndSession(s, false)];
  }

  // ----- tasks on the strand -------------------------------------------------

  /** The head of the line leaves it without being served. */
  lemma DropHead(st: State, after: State)
    requires LineOk(st) && FifoOk(st) && Line(st) != []
    requires after.sessions == st.sessions && after.arrivals == st.arrivals
    requires (forall id | id in after.deque :: id in st.deque)
    requires (forall id | id in Posted(after.strand) :: id in Posted(st.strand))
    requires Line(after) == Line(st)[1..]
    ensures LineOk(after) && FifoOk(after)
  {
    hide Posted;
    var line := Line(st);
    assert st.arrivals[|st.arrivals| - |line| + 1..] == line[1..];
  }

  lemma PostedTail(strand: seq<Task>)
    requires strand != []
    ensures Posted(strand) == (if strand[0].Enqueue? then [strand[0].id] else []) + Posted(strand[1..])
  {}

  lemma EnqueueKeepsSafe(st: State)
    requires Safe(st) && st.strand != [] && st.strand[0].Enqueue? && KnownIds(st)
    ensures Safe(RunTask(st))
  {
    var id, rest := st.strand[0].id, st.strand[1..];
    PostedTail(st.strand);
    var posted := Posted(st.strand);
    assert posted[1..] == Posted(rest) && posted[0] == id && id in posted;
    if st.stopping {
      DropPosted(st);
    } else {
      EnqueuedSessionOk(st, id);
      EnqueueKeepsCounters(st, id, RunTask(st));
      EnqueueKeepsLine(st, id, RunTask(st).sessions[id], RunTask(st));
    }
  }

  lemma DropPosted(st: State)
    requires Safe(st) && st.strand != [] && st.strand[0].Enqueue? && st.stopping
    ensures Safe(st.(strand := st.strand[1..]))
  {
    hide Tally, SessionOk, LineOk, FifoOk, WaitingInLine, Posted;
    var id, after := st.strand[0].id, st.(strand := st.strand[1..]);
    PostedTail(st.strand);
    assert Line(after) == Posted(after.strand);
    assert Line(st) == [id] + Line(after);
    assert Line(st)[1..] == Line(after);
    DropHead(st, after);
  }

  lemma EnqueuedSessionOk(st: State, id: nat)
    requires SessionsOk(st) && LineOk(st) && id in Posted(st.strand)
    ensures id < |st.sessions| && st.sessions[id].counted
    ensures SessionOk(st.sessions[id].(queued := true, queueTimer := Armed))
  {
    hide Posted;
    var line, off := Line(st), |st.arrivals| - |Line(st)|;
    assert id in line;
    assert forall k | 0 <= k < |line| :: line[k] == st.arrivals[off + k];
  }

  lemma EnqueueKeepsCounters(st: State, id: nat, after: State)
    requires CountersOk(st) && !st.stopping && id < |st.sessions| && !st.sessions[id].queued
    requires after == st.(sessions := st.sessions[id := st.sessions[id].(queued := true, queueTimer := Armed)],
                          deque := st.deque + [id], strand := after.strand)
    requires |Posted(after.strand)| == |Posted(st.strand)| - 1
    ensures CountersOk(after)
  {
    hide Tally, Posted;
    var s := st.sessions[id].(queued := true, queueTimer := Armed);
    PutTally(st, id, s, HoldsPermit);
    PutTally(st, id, s, IsQueued);
    PutTally(st, id, s, IsCounted);
    PutTally(st, id, s, Completions);
    PutTally(st, id, s, Failures);
    PutTally(st, id, s, FirstTokens);
  }

  lemma EnqueueKeepsLine(st: State, id: nat, s: Session, after: State)
    requires LineOk(st) && FifoOk(st) && WaitingInLine(st) && id < |st.sessions|
    requires PostedOk(st.sessions[id]) && s == st.sessions[id].(queued := true, queueTimer := Armed)
    requires after.sessions == st.sessions[id := s] && after.arrivals == st.arrivals
    requires after.deque == st.deque + [id] && Posted(st.strand) == [id] + Posted(after.strand)
    ensures LineOk(after) && FifoOk(after) && WaitingInLine(after)
  {
    hide Posted;
    var line := Line(st);
    assert Line(after) == line;
    assert line[|st.deque|] == id;
    EnqueueKeepsFifo(st, id, s, after);
    PostedApart(st, id, Posted(after.strand));
    assert forall x | x in Posted(after.strand) :: x in Posted(st.strand);
  }

  lemma PostedApart(st: State, id: nat, later: seq<nat>)
    requires LineOk(st) && Posted(st.strand) == [id] + later
    ensures id !in later
  {
    LineDistinct(st);
    var line := Line(st);
    assert line[|st.deque|] == id;
    assert forall k | 0 <= k < |later| :: later[k] == line[|st.deque| + 1 + k];
  }

  lemma EnqueueKeepsFifo(st: State, id: nat, s: Session, after: State)
    requires LineOk(st) && FifoOk(st) && id < |st.sessions| && id in Line(st)
    requires !s.started && after.sessions == st.sessions[id := s] && after.arrivals == st.arrivals
    ensures FifoOk(after)
  {
    hide LineOk, Line, FifoOk;
    forall i, j | 0 <= i < j < |after.arrivals|
      ensures InOrder(after, i, j)
    {
      FifoAt(st, i, j);
      if st.arrivals[i] == id {
        LaterInLine(st, i, j);
      }
    }
    FifoFrom(after);
  }

  lemma FifoAt(st: State, i: nat, j: nat)
    requires FifoOk(st) && i < j < |st.arrivals|
    ensures InOrder(st, i, j)
  {}

  lemma FifoFrom(st: State)
    requires forall i, j | 0 <= i < j < |st.arrivals| :: InOrder(st, i, j)
    ensures FifoOk(st)
  {}

  /** Behind someone in the line nobody has been started. */
  lemma LaterInLine(st: State, i: nat, j: nat)
    requires LineOk(st) && i < j < |st.arrivals| && st.arrivals[i] in Line(st)
    ensures st.arrivals[j] < |st.sessions| && !st.sessions[st.arrivals[j]].started
    ensures |st.arrivals| - |Line(st)| <= i
  {
    hide Posted;
    var line, off := Line(st), |st.arrivals| - |Line(st)|;
    var k :| 0 <= k < |line| && line[k] == st.arrivals[i];
    assert st.arrivals[off + k] == line[k];
    assert line[j - off] == st.arrivals[j];
    assert st.arrivals[j] in line;
  }

  lemma StopKeepsSafe(st: State)
    requires Safe(st) && st.strand != [] && st.strand[0] == StopServer && KnownIds(st)
    ensures Safe(RunTask(st))
  {
    hide LineOk, FifoOk, WaitingInLine, SessionOk, Tally;
    SectionsKeepBounds(st.limiter);
    PostedTail(st.strand);
    var after := RunStop(st.(strand := st.strand[1..]));
    assert RunTask(st) == after && Posted(after.strand) == Posted(st.strand);
    StopKeepsLine(st, after);
  }

  lemma StopKeepsLine(st: State, after: State)
    requires LineOk(st) && FifoOk(st)
    requires after.sessions == st.sessions && after.arrivals == st.arrivals
    requires after.deque == [] && Posted(after.strand) == Posted(st.strand)
    ensures LineOk(after) && FifoOk(after)
  {
    hide Posted, InDequeOk, PostedOk;
    var rest := Posted(st.strand);
    assert Line(after) == rest;
    assert IsSuffix(rest, st.arrivals) by {
      SuffixOfSuffix(st.deque, rest, st.arrivals);
    }
  }

  lemma SuffixOfSuffix(front: seq<nat>, rest: seq<nat>, whole: seq<nat>)
    requires IsSuffix(front + rest, whole)
    ensures IsSuffix(rest, whole)
  {
    var off := |whole| - |rest|;
    forall k | 0 <= k < |rest|
      ensures whole[off + k] == rest[k]
    {
      assert (front + rest)[|front| + k] == rest[k];
    }
  }

  // ----- promotion -----------------------------------------------------------

  /** A stale entry: the session has timed out and is skipped. */
  lemma SkipKeepsSafe(st: State)
    requires Safe(st) && st.deque != [] && st.deque[0] < |st.sessions| && !st.sessions[st.deque[0]].queued
    ensures Safe(st.(deque := st.deque[1..]))
  {
    hide Tally, SessionOk, Posted;
    var after := st.(deque := st.deque[1..]);
    assert InDequeOk(st.sessions[st.deque[0]]) by {
      assert st.deque[0] in st.deque;
    }
    PopHead(st, after);
  }

  /** The head of the deque is taken off; it does not wait any more. */
  lemma PopHead(st: State, after: State)
    requires LineOk(st) && FifoOk(st) && WaitingInLine(st) && st.deque != [] && st.deque[0] < |st.sessions|
    requires after == st.(deque := st.deque[1..])
    ensures LineOk(after) && FifoOk(after)
    ensures forall id | 0 <= id < |st.sessions| && st.sessions[id].queued :: id in after.deque || id == st.deque[0]
    ensures forall id | id in st.arrivals && id !in Line(after) && id != st.deque[0] ::
      id < |st.sessions| && (st.sessions[id].started || st.sessions[id].finished)
  {
    hide Posted, InDequeOk, PostedOk;
    var id := st.deque[0];
    assert st.deque == [id] + after.deque;
    assert Line(st) == [id] + Line(after);
    DropHead(st, after);
  }

  /** The head of the deque is started: everyone before it in line is gone. */
  lemma PromoteKeepsFifo(st: State, after: State)
    requires LineOk(st) && FifoOk(st) && WaitingInLine(st) && st.deque != []
    requires var id := st.deque[0];
      && id < |st.sessions|
      && after.sessions == st.sessions[id := Started(st.sessions[id])] && after.arrivals == st.arrivals
    ensures FifoOk(after)
  {
    hide Posted, Started, InDequeOk, PostedOk, FifoOk;
    var id, off := st.deque[0], |st.arrivals| - |Line(st)|;
    assert Line(st)[0] == id && st.arrivals[off] == id;
    forall i, j | 0 <= i < j < |after.arrivals|
      ensures InOrder(after, i, j)
    {
      FifoAt(st, i, j);
      assert st.arrivals[i] != st.arrivals[j];
      StartedFlags(st.sessions[id]);
      if st.arrivals[j] == id && st.sessions[st.arrivals[i]].queued {
        assert st.arrivals[i] in st.deque;
        BehindHead(st, i);
      }
    }
    FifoFrom(after);
  }

  lemma StartedFlags(s: Session)
    ensures Started(s).started && !Started(s).queued && Started(s).counted == s.counted
  {}

  lemma BehindHead(st: State, i: nat)
    requires LineOk(st) && i < |st.arrivals| && st.arrivals[i] in st.deque
    ensures |st.arrivals| - |Line(st)| <= i
  {
    var line, off := Line(st), |st.arrivals| - |Line(st)|;
    assert st.arrivals[i] in line;
    var k :| 0 <= k < |line| && line[k] == st.arrivals[i];
    assert st.arrivals[off + k] == line[k];
  }

  lemma HeadOnce(st: State)
    requires LineOk(st) && st.deque != []
    ensures st.deque[0] !in st.deque[1..] && st.deque[0] !in Posted(st.strand)
  {
    LineDistinct(st);
    hide Posted;
    var line, n := Line(st), |st.deque|;
    assert line[0] == st.deque[0];
    assert forall k | 0 < k < n :: line[k] == st.deque[k];
    assert forall k | 0 <= k < |Posted(st.strand)| :: Posted(st.strand)[k] == line[n + k];
  }

  lemma PromoteKeepsLine(st: State, after: State)
    requires LineOk(st) && FifoOk(st) && WaitingInLine(st) && st.deque != []
    requires var id := st.deque[0];
      && id < |st.sessions|
      && after.sessions == st.sessions[id := Started(st.sessions[id])] && after.arrivals == st.arrivals
    requires after.deque == st.deque[1..] && after.strand == st.strand
    ensures LineOk(after) && FifoOk(after) && WaitingInLine(after)
  {
    PromoteKeepsFifo(st, after);
    hide Posted, InDequeOk, PostedOk, FifoOk;
    var id, popped := st.deque[0], st.(deque := st.deque[1..]);
    HeadOnce(st);
    PopHead(st, popped);
    StartedFlags(st.sessions[id]);
    assert Line(after) == Line(popped);
  }

  /** While anyone is in the deque the server runs, and a queued head of the deque
      is counted, so the limiter refuses a promotion for want of a slot only. */
  lemma QueuedHeadFacts(st: State)
    requires Safe(st) && st.deque != [] && st.deque[0] < |st.sessions|
    ensures !st.stopping && !st.limiter.closed
    ensures st.sessions[st.deque[0]].queued ==> st.limiter.queued > 0
    ensures SessionOk(st.sessions[st.deque[0]])
    ensures st.sessions[st.deque[0]].queued ==> (TryPromoteQueued(st.limiter).1 <==> st.limiter.HasFreeSlot())
  {
    hide LineOk, FifoOk, WaitingInLine;
    PermitIsCounted(st, st.deque[0]);
    assert SessionOk(st.sessions[st.deque[0]]);
  }

  /** A queued session gets a slot: the head of the deque is started. */
  function HeadStarted(st: State): State
    requires st.deque != [] && st.deque[0] < |st.sessions| && st.limiter.queued > 0
  {
    st.(deque := st.deque[1..],
        sessions := st.sessions[st.deque[0] := Started(st.sessions[st.deque[0]])],
        limiter := st.limiter.(queued := st.limiter.queued - 1, inflight := st.limiter.inflight + 1))
  }

  lemma PromotedTurn(st: State)
    requires st.deque != [] && st.deque[0] < |st.sessions| && st.sessions[st.deque[0]].queued
    requires SessionOk(st.sessions[st.deque[0]])
    requires !st.limiter.closed && st.limiter.queued > 0 && st.limiter.HasFreeSlot()
    ensures PromoteTurn(st) == (HeadStarted(st), true)
  {
    hide TryStartFromQueue, Started, SessionOk;
    var id := st.deque[0];
    var limiter := TryPromoteQueued(st.limiter).0;
    QueuedIsFree(st.sessions[id]);
    StartQueued(st.(deque := st.deque[1..], limiter := limiter), id);
  }

  lemma QueuedIsFree(s: Session)
    requires SessionOk(s) && s.queued
    ensures !s.finished && !s.holdsPermit
  {}

  lemma StartQueued(st: State, id: nat)
    requires id < |st.sessions|
    requires var s := st.sessions[id]; s.queued && !s.finished && !s.holdsPermit
    ensures TryStartFromQueue(st, id) == (Put(st, id, Started(st.sessions[id])), true)
  {
    var s := st.sessions[id];
    var waiting := s.(queued := false, queueTimer := CancelTimer(s.queueTimer));
    assert st.sessions[id := waiting][id := Started(s)] == st.sessions[id := Started(s)];
  }

  lemma PromotedKeepsSafe(st: State)
    requires Safe(st) && st.deque != [] && st.deque[0] < |st.sessions|
    requires st.sessions[st.deque[0]].queued && st.limiter.HasFreeSlot()
    ensures Safe(PromoteTurn(st).0)
  {
    QueuedHeadFacts(st);
    var id := st.deque[0];
    assert SessionOk(st.sessions[id]);
    PromotedTurn(st);
    var after := HeadStarted(st);
    PromotedCounters(st, after);
    PromoteKeepsLine(st, after);
    hide LineOk, FifoOk, WaitingInLine, CountersOk, PromoteTurn;
  }

  lemma PromotedCounters(st: State, after: State)
    requires CountersOk(st) && !st.stopping && st.deque != [] && st.deque[0] < |st.sessions|
    requires st.limiter.queued > 0 && st.limiter.HasFreeSlot()
    requires var s := st.sessions[st.deque[0]]; s.queued && !s.holdsPermit
    requires after == HeadStarted(st)
    ensures CountersOk(after)
  {
    hide Tally, Posted;
    var id := st.deque[0];
    var s := Started(st.sessions[id]);
    PutTally(st, id, s, HoldsPermit);
    PutTally(st, id, s, IsQueued);
    PutTally(st, id, s, IsCounted);
    PutTally(st, id, s, Completions);
    PutTally(st, id, s, Failures);
    PutTally(st, id, s, FirstTokens);
  }

  /** One turn: a stale head is skipped, a queued one is started while slots last,
      and otherwise the loop returns with the deque as it was. */
  lemma TurnCases(st: State)
    requires Safe(st) && st.deque != [] && st.deque[0] < |st.sessions|
    ensures var (next, more) := PromoteTurn(st);
      && Safe(next)
      && next.strand == st.strand && next.stopping == st.stopping && next.arrivals == st.arrivals
      && next.limiter.maxInflight == st.limiter.maxInflight
      && (more ==> next.deque == st.deque[1..])
      && (!more <==> st.sessions[st.deque[0]].queued && !st.limiter.HasFreeSlot())
      && (!more ==> next == st)
      && next.limiter.inflight >= st.limiter.inflight
  {
    hide Safe, Started;
    QueuedHeadFacts(st);
    if !st.sessions[st.deque[0]].queued {
      SkipKeepsSafe(st);
    } else if st.limiter.HasFreeSlot() {
      PromotedKeepsSafe(st);
      PromotedTurn(st);
    }
  }

  /** The loop ends with no slot or nobody in the deque, and posts nothing. */
  lemma {:induction false} PromoteAllKeepsSafe(st: State)
    requires Safe(st)
    ensures KnownIds(st)
    ensures var after := PromoteAll(st);
      && Safe(after)
      && (after.deque == [] || !after.limiter.HasFreeSlot())
      && after.strand == st.strand && after.stopping == st.stopping && after.arrivals == st.arrivals
      && after.limiter.maxInflight == st.limiter.maxInflight
      && after.limiter.inflight >= st.limiter.inflight
    decreases |st.deque|
  {
    SafeKnowsIds(st);
    hide Safe, PromoteTurn;
    if st.deque != [] {
      TurnCases(st);
      if PromoteTurn(st).1 {
        PromoteAllKeepsSafe(PromoteTurn(st).0);
      }
    }
  }

  lemma PostPlain(st: State, task: Task)
    requires Safe(st) && !task.Enqueue?
    ensures Safe(st.(strand := st.strand + [task]))
  {
    PostTask(st.strand, task);
    assert Posted(st.strand) + [] == Posted(st.strand);
    hide Posted;
    SameLineOk(st, st.(strand := st.strand + [task]));
  }

  lemma RunPlain(st: State)
    requires Safe(st) && st.strand != [] && !st.strand[0].Enqueue?
    ensures Safe(st.(strand := st.strand[1..]))
  {
    PostedTail(st.strand);
    assert [] + Posted(st.strand[1..]) == Posted(st.strand[1..]);
    hide Posted;
    SameLineOk(st, st.(strand := st.strand[1..]));
  }

  lemma StrandKeepsSafe(st: State)
    requires Safe(st) && Enabled(st, RunStrand)
    ensures Safe(RunTask(st))
  {
    hide Safe, PromoteAll;
    match st.strand[0]
    case Enqueue(_) => EnqueueKeepsSafe(st);
    case Promote => RunPlain(st); PromoteAllKeepsSafe(st.(strand := st.strand[1..]));
    case StopServer => StopKeepsSafe(st);
  }

  // ----- every step ----------------------------------------------------------

  lemma StepKeepsSafe(st: State, step: Step)
    requires Safe(st) && Enabled(st, step)
    ensures Safe(Apply(st, step))
  {
    hide Safe, HandleUpstream, HandleRequest, QueueTimerHandler, RequestTimerHandler, PromoteAll, End;
    match step
    case Connect => ConnectKeepsSafe(st);
    case ReadFails(id) => UncountedKeepsSafe(st, id, st.sessions[id].(stage := Idle, finished := true));
    case ReadSucceeds(id, request) => RequestKeepsSafe(st, id, request);
    case ReplyWritten(id) => UncountedKeepsSafe(st, id, st.sessions[id].(stage := Idle, finished := true));
    case CallStop => PostPlain(st, StopServer);
    case RunStrand => StrandKeepsSafe(st);
    case QueueTimerExpires(id) => ExpiryKeepsSafe(st, id, st.sessions[id].(queueTimer := Expired));
    case QueueTimerRuns(id) => QueueTimerKeepsSafe(st, id);
    case RequestTimerExpires(id) => ExpiryKeepsSafe(st, id, st.sessions[id].(requestTimer := Expired));
    case RequestTimerRuns(id) => RequestTimerKeepsSafe(st, id);
    case UpstreamCompletes(id, outcome) => UpstreamKeepsSafe(st, id, outcome);
  }

  // ----- no lost wakeup ------------------------------------------------------

  /** A step that changes neither the queue nor the strand, and frees no slot. */
  predicate FreesNothing(st: State, after: State) {
    && after.strand == st.strand && after.stopping == st.stopping
    && after.limiter.maxInflight == st.limiter.maxInflight
    && after.limiter.inflight >= st.limiter.inflight && after.limiter.queued <= st.limiter.queued
  }

  /** What `End` does to limiter and strand: nothing, or one slot and one Promote. */
  lemma EndWakes(st: State, id: nat, completed: bool)
    requires id < |st.sessions|
    ensures var after := End(st, id, completed);
      || FreesNothing(st, after)
      || PromoteComing(after.strand)
  {
    var tasks := st.strand + [Promote];
    assert tasks[|st.strand|] == Promote;
  }

  lemma AwakeAfter(st: State, after: State)
    requires Awake(st) && (FreesNothing(st, after) || PromoteComing(after.strand))
    ensures Awake(after)
  {}

  lemma RequestKeepsAwake(st: State, id: nat, request: Request)
    requires Safe(st) && Awake(st) && Enabled(st, ReadSucceeds(id, request))
    ensures Awake(HandleRequest(st, id, request))
  {
    hide LineOk, FifoOk, WaitingInLine, Tally, PromoteComing, Posted;
    var s := st.sessions[id];
    assert SessionOk(s);
    match request
    case Health =>
    case BadRequest =>
      EndWakes(Put(st, id, s.(stage := Idle)), id, false);
      AwakeAfter(st, HandleRequest(st, id, request));
    case Completion =>
      var (limiter, acquired) := TryAcquireOrQueue(st.limiter);
      var seen := Put(st, id, s.(stage := Idle, counted := true)).(
        limiter := limiter, metrics := st.metrics.(total := st.metrics.total + 1));
      if acquired.decision == Reject || acquired.decision == Closed {
        EndWakes(seen, id, false);
        AwakeAfter(st, HandleRequest(st, id, request));
      }
  }

  lemma TimersKeepAwake(st: State, id: nat)
    requires Awake(st) && id < |st.sessions|
    ensures Awake(QueueTimerHandler(st, id)) && Awake(RequestTimerHandler(st, id))
  {
    hide PromoteComing;
    var s := st.sessions[id];
    EndWakes(Put(st.(limiter := CancelQueued(st.limiter).0), id, s.(queueTimer := Unset, queued := false)), id, false);
    AwakeAfter(st, QueueTimerHandler(st, id));
    EndWakes(Put(st, id, s.(requestTimer := Unset)), id, false);
    AwakeAfter(st, RequestTimerHandler(st, id));
  }

  lemma UpstreamKeepsAwake(st: State, id: nat, outcome: Outcome)
    requires Awake(st) && Enabled(st, UpstreamCompletes(id, outcome))
    ensures Awake(HandleUpstream(st, id, outcome))
  {
    hide PromoteComing, Observe, End;
    var s := st.sessions[id];
    EndWakes(GoOn(st, id, Idle), id, true);
    EndWakes(GoOn(st, id, Idle), id, false);
    if outcome.Chunk? {
      var observer := Observe(s.observer, outcome.bytes, st.maxSseBuffer).0;
      var tokens := if observer.firstDataSeen && !s.observer.firstDataSeen then 1 else 0;
      EndWakes(Put(st.(metrics := st.metrics.(firstTokens := st.metrics.firstTokens + tokens)), id,
                   s.(observer := observer, stage := Idle)), id, true);
    }
    AwakeAfter(st, HandleUpstream(st, id, outcome));
  }

  lemma PromoteComingTail(strand: seq<Task>)
    requires strand != [] && PromoteComing(strand)
    ensures strand[0] != Promote || Posted(strand[1..]) != [] ==> PromoteComing(strand[1..])
  {
    var rest := strand[1..];
    var k :| 0 <= k < |strand| && strand[k] == Promote && forall j | k < j < |strand| :: !strand[j].Enqueue?;
    assert forall j | 0 <= j < |rest| :: rest[j] == strand[j + 1];
    if k > 0 {
      assert rest[k - 1] == Promote;
    } else {
      NobodyPosted(rest);
    }
  }

  lemma {:induction false} NobodyPosted(strand: seq<Task>)
    requires forall j | 0 <= j < |strand| :: !strand[j].Enqueue?
    ensures Posted(strand) == []
    decreases |strand|
  {
    if strand != [] {
      NobodyPosted(strand[1..]);
    }
  }

  /** An empty deque and nothing posted: nobody is counted as waiting. */
  lemma NobodyWaits(st: State)
    requires Safe(st) && !st.stopping && st.deque == [] && Posted(st.strand) == []
    ensures st.limiter.queued == 0
  {
    if Tally(st.sessions, IsQueued) > 0 {
      var id := Witness(st.sessions, IsQueued);
    }
  }

  lemma StrandKeepsAwake(st: State)
    requires Safe(st) && Awake(st) && Enabled(st, RunStrand)
    ensures Awake(RunTask(st))
  {
    hide Safe, PromoteComing, Posted, PromoteAll;
    var rest := st.(strand := st.strand[1..]);
    if PromoteComing(st.strand) {
      PromoteComingTail(st.strand);
    }
    if st.strand[0] == Promote {
      RunPlain(st);
      PromoteAllKeepsSafe(rest);
      var after := PromoteAll(rest);
      if after.deque == [] && Posted(after.strand) == [] && !after.stopping {
        NobodyWaits(after);
      } else if !after.stopping && after.limiter.HasFreeSlot() && after.limiter.queued > 0 {
        StillWaiting(st);
      }
    }
  }

  /** Enqueue tasks pending behind this Promote were counted before it ran. */
  lemma StillWaiting(st: State)
    requires Safe(st) && st.strand != [] && st.strand[0] == Promote && !st.stopping && Posted(st.strand[1..]) != []
    ensures st.limiter.queued > 0
  {
    PostedTail(st.strand);
  }

  lemma StepKeepsAwake(st: State, step: Step)
    requires Safe(st) && Awake(st) && Enabled(st, step)
    ensures Awake(Apply(st, step))
  {
    hide Safe, HandleUpstream, HandleRequest, QueueTimerHandler, RequestTimerHandler, RunTask, Posted;
    match step
    case ReadSucceeds(id, request) => RequestKeepsAwake(st, id, request);
    case RunStrand => StrandKeepsAwake(st);
    case QueueTimerRuns(id) => TimersKeepAwake(st, id);
    case RequestTimerRuns(id) => TimersKeepAwake(st, id);
    case UpstreamCompletes(id, outcome) => UpstreamKeepsAwake(st, id, outcome);
    case CallStop =>
      if PromoteComing(st.strand) {
        var k :| 0 <= k < |st.strand| && st.strand[k] == Promote
          && forall j | k < j < |st.strand| :: !st.strand[j].Enqueue?;
        assert Apply(st, step).strand[k] == Promote;
      }
    case _ =>
  }

  lemma InitInv(maxInflight: nat, maxQueue: nat, maxSseBuffer: nat)
    requires 0 < maxInflight
    ensures Inv(Init(maxInflight, maxQueue, maxSseBuffer))
  {}

  lemma {:induction false} RunKeepsInv(st: State, steps: seq<Step>)
    requires Inv(st) && Legal(st, steps)
    ensures Inv(Run(st, steps))
    decreases |steps|
  {
    hide Safe, Awake, Enabled, Apply;
    if steps != [] {
      StepKeepsSafe(st, steps[0]);
      StepKeepsAwake(st, steps[0]);
      RunKeepsInv(Apply(st, steps[0]), steps[1..]);
    }
  }
}
