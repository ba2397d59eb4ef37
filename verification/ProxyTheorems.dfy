/** What every run of the admission protocol guarantees (one worker thread). */
module ProxyTheorems {
  import opened LimiterCore
  import opened SseObserver
  import opened Tallies
  import opened ProxyModel
  import opened ProxyInvariant

  /** The state after some run from the start. */
  ghost predicate Reachable(st: State) {
    exists maxInflight: nat, maxQueue: nat, maxSseBuffer: nat, steps: seq<Step> ::
      IsRun(maxInflight, maxQueue, maxSseBuffer, steps, st)
  }

  predicate IsRun(maxInflight: nat, maxQueue: nat, maxSseBuffer: nat, steps: seq<Step>, st: State) {
    && 0 < maxInflight
    && Legal(Init(maxInflight, maxQueue, maxSseBuffer), steps)
    && Run(Init(maxInflight, maxQueue, maxSseBuffer), steps) == st
  }

  lemma ReachableInv(st: State)
    requires Reachable(st)
    ensures Inv(st)
  {
    var maxInflight, maxQueue, maxSseBuffer, steps :| IsRun(maxInflight, maxQueue, maxSseBuffer, steps, st);
    InitInv(maxInflight, maxQueue, maxSseBuffer);
    RunKeepsInv(Init(maxInflight, maxQueue, maxSseBuffer), steps);
  }

  // ----- no lost wakeup ------------------------------------------------------

  /** In the deque and queued, or with an Enqueue task still posted. */
  predicate Waits(st: State, id: nat) {
    (id < |st.sessions| && st.sessions[id].queued) || Enqueue(id) in st.strand
  }

  lemma {:induction false} EnqueueIsPosted(strand: seq<Task>, id: nat)
    ensures Enqueue(id) in strand <==> id in Posted(strand)
    decreases |strand|
  {
    if strand != [] {
      EnqueueIsPosted(strand[1..], id);
      assert strand == [strand[0]] + strand[1..];
    }
  }

  lemma WaitingIsCounted(st: State, id: nat)
    requires Safe(st) && !st.stopping && Waits(st, id)
    ensures st.limiter.queued > 0
  {
    EnqueueIsPosted(st.strand, id);
    if id < |st.sessions| && st.sessions[id].queued {
      AtMostTally(st.sessions, id, IsQueued);
    }
  }

  /** While the server runs, a free slot beside a waiting session means that a
      Promote task is posted behind every Enqueue task.  So once the strand is
      drained either nobody waits or every slot is taken. */
  lemma NoLostWakeup(st: State)
    requires Reachable(st) && !st.stopping
    ensures st.limiter.HasFreeSlot() && (exists id :: Waits(st, id)) ==> PromoteComing(st.strand)
    ensures st.strand == [] ==> st.limiter.inflight == st.limiter.maxInflight || forall id :: !Waits(st, id)
  {
    ReachableInv(st);
    forall id | Waits(st, id)
      ensures st.limiter.queued > 0
    {
      WaitingIsCounted(st, id);
    }
  }

  // ----- counters and queue agree --------------------------------------------

  /** The counters agree with the records they count: permits in flight, and while
      the server runs the queued sessions plus the pending Enqueue tasks; each queued
      session stands in the deque exactly once. */
  lemma CountersAgree(st: State)
    requires Reachable(st)
    ensures st.limiter.inflight == Tally(st.sessions, HoldsPermit) <= st.limiter.maxInflight
    ensures st.limiter.queued <= st.limiter.maxQueue
    ensures !st.stopping ==> st.limiter.queued == Tally(st.sessions, IsQueued) + |Posted(st.strand)|
    ensures !st.stopping ==> forall id | 0 <= id < |st.sessions| && st.sessions[id].queued ::
      exists k :: 0 <= k < |st.deque| && st.deque[k] == id
    ensures forall j, k | 0 <= j < k < |st.deque| :: st.deque[j] != st.deque[k]
    ensures forall id | id in Posted(st.strand) :: id !in st.deque
  {
    ReachableInv(st);
    LineDistinct(st);
    var line := Line(st);
    assert forall k | 0 <= k < |st.deque| :: line[k] == st.deque[k];
    assert forall k | 0 <= k < |Posted(st.strand)| :: line[|st.deque| + k] == Posted(st.strand)[k];
  }

  /** The timeout of a session that still waits always finds it counted. */
  lemma LiveTimeoutCancels(st: State, id: nat)
    requires Reachable(st) && !st.stopping && Enabled(st, QueueTimerRuns(id))
    requires st.sessions[id].queued
    ensures CancelQueued(st.limiter).1
    ensures QueueTimerHandler(st, id).limiter == st.limiter.(queued := st.limiter.queued - 1)
    ensures QueueTimerHandler(st, id).sessions[id].finished && !QueueTimerHandler(st, id).sessions[id].queued
  {
    ReachableInv(st);
    PermitIsCounted(st, id);
    assert SessionOk(st.sessions[id]);
  }

  // ----- what promotion does -------------------------------------------------

  /** The waiting sessions of the deque, longest waiting first. */
  function LiveOf(deque: seq<nat>, sessions: seq<Session>): seq<nat> {
    if deque == [] then [] else
      (if deque[0] < |sessions| && sessions[deque[0]].queued then [deque[0]] else [])
      + LiveOf(deque[1..], sessions)
  }

  function Min(a: nat, b: nat): nat { if a < b then a else b }

  /** How many sessions the next promotion starts. */
  function Share(st: State): nat
    requires st.limiter.Bounded()
  {
    Min(st.limiter.maxInflight - st.limiter.inflight, |LiveOf(st.deque, st.sessions)|)
  }

  lemma {:induction false} LiveElsewhere(deque: seq<nat>, sessions: seq<Session>, id: nat, s: Session)
    requires id < |sessions| && id !in deque
    ensures LiveOf(deque, sessions[id := s]) == LiveOf(deque, sessions)
    decreases |deque|
  {
    if deque != [] {
      LiveElsewhere(deque[1..], sessions, id, s);
    }
  }

  /** `after` is `st` with the first n waiting sessions of the deque started on one
      slot each; the others still wait, in the same order. */
  predicate Served(st: State, after: State, n: nat) {
    var live := LiveOf(st.deque, st.sessions);
    && n <= |live|
    && after.limiter.inflight == st.limiter.inflight + n
    && after.limiter.queued + n == st.limiter.queued
    && after == st.(sessions := after.sessions, deque := after.deque, limiter := st.limiter.(
         inflight := after.limiter.inflight, queued := after.limiter.queued))
    && LiveOf(after.deque, after.sessions) == live[n..]
    && |after.sessions| == |st.sessions|
    && forall id | 0 <= id < |st.sessions| ::
         after.sessions[id] == if id in live[..n] then Started(st.sessions[id]) else st.sessions[id]
  }

  /** Declarative meaning of the promotion loop: the free slots go, one each, to the
      sessions that have waited longest.  In particular the branch for a session the
      limiter does not count and the one for a session that refuses to start are
      dead. */
  lemma {:induction false} PromoteServesOldest(st: State)
    requires Safe(st)
    ensures KnownIds(st) && st.limiter.Bounded()
    ensures Served(st, PromoteAll(st), Share(st))
    decreases |st.deque|
  {
    SafeKnowsIds(st);
    LiveBound(st);
    hide Safe, Started, PromoteTurn, HeadStarted, Served, LiveOf;
    if st.deque == [] {
      ServedNobody(st);
    } else {
      var id := st.deque[0];
      QueuedHeadFacts(st);
      TurnCases(st);
      var next := PromoteTurn(st).0;
      if !st.sessions[id].queued {
        SkipTurn(st);
        PromoteServesOldest(next);
        ServedSkip(st, PromoteAll(next), Share(next));
      } else if st.limiter.HasFreeSlot() {
        PromotedTurn(st);
        HeadOnce(st);
        PromoteServesOldest(next);
        ServedOneMore(st, PromoteAll(next), Share(next));
      } else {
        ServedNobody(st);
      }
    }
  }

  lemma LiveBound(st: State)
    requires Safe(st)
    ensures st.limiter.Bounded()
  {}

  lemma SkipTurn(st: State)
    requires st.deque != [] && st.deque[0] < |st.sessions| && !st.sessions[st.deque[0]].queued
    ensures PromoteTurn(st) == (st.(deque := st.deque[1..]), true)
  {}

  lemma ServedNobody(st: State)
    requires st.limiter.Bounded() && (st.deque == [] || !st.limiter.HasFreeSlot())
    ensures Share(st) == 0 && Served(st, st, 0)
  {
    var live := LiveOf(st.deque, st.sessions);
    assert live[..0] == [] && live[0..] == live;
  }

  lemma ServedSkip(st: State, after: State, n: nat)
    requires st.deque != [] && st.deque[0] < |st.sessions| && !st.sessions[st.deque[0]].queued
    requires Served(st.(deque := st.deque[1..]), after, n)
    ensures Served(st, after, n) && (st.limiter.Bounded() ==> Share(st) == Share(st.(deque := st.deque[1..])))
  {
    hide Started;
    var rest := LiveOf(st.deque[1..], st.sessions);
    assert LiveOf(st.deque, st.sessions) == [] + rest == rest;
  }

  lemma ServedOneMore(st: State, after: State, n: nat)
    requires st.deque != [] && st.deque[0] < |st.sessions| && st.deque[0] !in st.deque[1..]
    requires st.sessions[st.deque[0]].queued && st.limiter.queued > 0 && st.limiter.HasFreeSlot()
    requires Served(HeadStarted(st), after, n)
    ensures Served(st, after, n + 1)
    ensures st.limiter.Bounded() && HeadStarted(st).limiter.Bounded() ==> Share(st) == Share(HeadStarted(st)) + 1
  {
    var id, next := st.deque[0], HeadStarted(st);
    LiveElsewhere(st.deque[1..], st.sessions, id, Started(st.sessions[id]));
    LiveInDeque(st.deque[1..], st.sessions);
    hide Started;
    var live, rest := LiveOf(st.deque, st.sessions), LiveOf(next.deque, next.sessions);
    assert live == [id] + rest;
    hide LiveOf;
    FirstFew(id, rest, n);
    assert next.sessions[id] == Started(st.sessions[id]) && id !in rest[..n];
  }

  lemma FirstFew(id: nat, rest: seq<nat>, n: nat)
    requires n <= |rest|
    ensures ([id] + rest)[n + 1..] == rest[n..]
    ensures forall x :: x in ([id] + rest)[..n + 1] <==> x == id || x in rest[..n]
  {
    assert ([id] + rest)[..n + 1] == [id] + rest[..n];
  }

  lemma {:induction false} LiveInDeque(deque: seq<nat>, sessions: seq<Session>)
    ensures forall id | id in LiveOf(deque, sessions) :: id in deque
    decreases |deque|
  {
    if deque != [] {
      LiveInDeque(deque[1..], sessions);
    }
  }

  // ----- first come, first served --------------------------------------------

  /** Sessions are promoted in the order of their Queue decisions: once one has been
      promoted, nobody who decided to queue before it still waits; while the server
      runs that means each of them was promoted too or has timed out. */
  lemma FirstComeFirstServed(st: State, i: nat, j: nat)
    requires Reachable(st) && i < j < |st.arrivals|
    ensures st.arrivals[i] < |st.sessions| && st.arrivals[j] < |st.sessions|
    ensures st.sessions[st.arrivals[j]].started ==> !Waits(st, st.arrivals[i])
    ensures st.sessions[st.arrivals[j]].started && !st.stopping ==>
      st.sessions[st.arrivals[i]].started || st.sessions[st.arrivals[i]].finished
  {
    ReachableInv(st);
    var earlier := st.arrivals[i];
    EnqueueIsPosted(st.strand, earlier);
    if st.sessions[st.arrivals[j]].started {
      if earlier in Line(st) {
        LaterInLine(st, i, j);
      }
      assert earlier in st.arrivals;
    }
  }

  // ----- accounting ----------------------------------------------------------

  function Unfinished(s: Session): nat {
    if s.counted && !s.finished then 1 else 0
  }

  lemma {:induction false} CountedSplit(sessions: seq<Session>)
    requires forall k | 0 <= k < |sessions| :: SessionOk(sessions[k])
    ensures Tally(sessions, IsCounted)
      == Tally(sessions, Completions) + Tally(sessions, Failures) + Tally(sessions, Unfinished)
    decreases |sessions|
  {
    if sessions != [] {
      assert forall k | 0 <= k < |sessions| - 1 :: sessions[1..][k] == sessions[k + 1];
      CountedSplit(sessions[1..]);
    }
  }

  /** Every request is completed, failed, or still open; a session reports at most
      one outcome and at most one first token; a finished one holds no permit. */
  lemma Accounting(st: State)
    requires Reachable(st)
    ensures st.metrics.total == st.metrics.completed + st.metrics.failed + Tally(st.sessions, Unfinished)
    ensures st.metrics.firstTokens == Tally(st.sessions, FirstTokens)
    ensures forall id | 0 <= id < |st.sessions| ::
      var s := st.sessions[id];
      && s.completions + s.failures <= 1
      && (s.completions + s.failures == 1 <==> s.counted && s.finished)
      && s.observer.firstTokens <= 1
      && (s.finished ==> !s.holdsPermit && !s.queued)
  {
    ReachableInv(st);
    CountedSplit(st.sessions);
    forall id | 0 <= id < |st.sessions|
      ensures SessionOk(st.sessions[id])
    {}
  }

  /** A session that may still read its body has a working parser: the state a length
      error leaves behind is never fed again. */
  lemma NeverReadsPastFailure(st: State, id: nat)
    requires Reachable(st) && id < |st.sessions| && st.sessions[id].stage == ReadingBody
    ensures st.sessions[id].observer.stream.Open?
  {
    ReachableInv(st);
    assert SessionOk(st.sessions[id]);
  }

  /** Whoever waits in the queue has its queue timer pending, whoever holds a permit
      its request timer, and a started session keeps its permit until it finishes. */
  lemma NobodyWithoutTimer(st: State, id: nat)
    requires Reachable(st) && id < |st.sessions|
    ensures var s := st.sessions[id];
      && (s.queued ==> Pending(s.queueTimer))
      && (s.holdsPermit ==> Pending(s.requestTimer))
      && (s.started && !s.finished ==> s.holdsPermit)
  {
    ReachableInv(st);
    assert SessionOk(st.sessions[id]);
  }

  // ----- stale handlers ------------------------------------------------------

  /** The part of a session that reports and permits depend on. */
  predicate SameOutcome(s: Session, t: Session) {
    && t.finished == s.finished && t.counted == s.counted && t.holdsPermit == s.holdsPermit
    && t.queued == s.queued && t.completions == s.completions && t.failures == s.failures
  }

  /** Whatever runs after a session has finished, its own stale handlers included,
      changes neither its outcome nor its permit. */
  lemma FinishedStaysSilent(st: State, step: Step, id: nat)
    requires Reachable(st) && Enabled(st, step) && id < |st.sessions| && st.sessions[id].finished
    ensures id < |Apply(st, step).sessions|
    ensures SameOutcome(st.sessions[id], Apply(st, step).sessions[id])
  {
    FinishedFacts(st, id);
    hide Safe, Reachable, RunTask, HandleUpstream, HandleRequest, QueueTimerHandler, RequestTimerHandler;
    match step
    case RunStrand => StrandIsSilent(st, id);
    case ReadSucceeds(other, request) => RequestIsSilent(st, other, request, id);
    case QueueTimerRuns(other) => TimersAreSilent(st, other, id);
    case RequestTimerRuns(other) => TimersAreSilent(st, other, id);
    case UpstreamCompletes(other, outcome) => UpstreamIsSilent(st, other, outcome, id);
    case _ =>
  }

  lemma FinishedFacts(st: State, id: nat)
    requires Reachable(st) && id < |st.sessions| && st.sessions[id].finished
    ensures Inv(st) && !st.sessions[id].queued && st.sessions[id].stage != Reading
  {
    ReachableInv(st);
    assert SessionOk(st.sessions[id]);
  }

  lemma RequestIsSilent(st: State, other: nat, request: Request, id: nat)
    requires other < |st.sessions| && id < |st.sessions| && other != id
    ensures |HandleRequest(st, other, request).sessions| == |st.sessions|
    ensures HandleRequest(st, other, request).sessions[id] == st.sessions[id]
  {}

  lemma TimersAreSilent(st: State, other: nat, id: nat)
    requires other < |st.sessions| && id < |st.sessions|
    requires st.sessions[id].finished && !st.sessions[id].queued
    ensures |QueueTimerHandler(st, other).sessions| == |RequestTimerHandler(st, other).sessions| == |st.sessions|
    ensures SameOutcome(st.sessions[id], QueueTimerHandler(st, other).sessions[id])
    ensures SameOutcome(st.sessions[id], RequestTimerHandler(st, other).sessions[id])
  {
    hide End;
    var s := st.sessions[other];
    EndIsSilent(Put(st.(limiter := CancelQueued(st.limiter).0), other, s.(queueTimer := Unset, queued := false)),
                other, false, id);
    EndIsSilent(Put(st, other, s.(requestTimer := Unset)), other, false, id);
  }

  lemma UpstreamIsSilent(st: State, other: nat, outcome: Outcome, id: nat)
    requires Enabled(st, UpstreamCompletes(other, outcome)) && id < |st.sessions| && st.sessions[id].finished
    ensures |HandleUpstream(st, other, outcome).sessions| == |st.sessions|
    ensures SameOutcome(st.sessions[id], HandleUpstream(st, other, outcome).sessions[id])
  {
    assert SameOutcome(st.sessions[id], st.sessions[id]);
    hide End, HandleChunk, GoOn, SameOutcome;
    GoOnIsSilent(st, other, Idle, id);
    GoOnIsSilent(st, other, Connecting, id);
    GoOnIsSilent(st, other, WritingRequest, id);
    GoOnIsSilent(st, other, ReadingHeader, id);
    GoOnIsSilent(st, other, ReadingBody, id);
    PutIsSilent(st, other, st.sessions[other].(responseStarted := true, stage := WritingHeader), id);
    if outcome.Chunk? {
      ChunkIsSilent(st, other, outcome.bytes, id);
    }
    EndIsSilent(GoOn(st, other, Idle), other, true, id);
    EndIsSilent(GoOn(st, other, Idle), other, false, id);
  }

  lemma PutIsSilent(st: State, other: nat, s: Session, id: nat)
    requires other < |st.sessions| && id < |st.sessions| && SameOutcome(st.sessions[other], s)
    ensures |Put(st, other, s).sessions| == |st.sessions|
    ensures SameOutcome(st.sessions[id], Put(st, other, s).sessions[id])
  {}

  lemma GoOnIsSilent(st: State, other: nat, stage: Stage, id: nat)
    requires other < |st.sessions| && id < |st.sessions|
    ensures |GoOn(st, other, stage).sessions| == |st.sessions|
    ensures SameOutcome(st.sessions[id], GoOn(st, other, stage).sessions[id])
    ensures GoOn(st, other, stage).sessions[id].finished == st.sessions[id].finished
  {}

  lemma ChunkIsSilent(st: State, other: nat, bytes: string, id: nat)
    requires other < |st.sessions| && id < |st.sessions| && st.sessions[id].finished
    ensures |HandleChunk(st, other, bytes).sessions| == |st.sessions|
    ensures SameOutcome(st.sessions[id], HandleChunk(st, other, bytes).sessions[id])
  {
    hide End, Observe, Put;
    var s := st.sessions[other];
    var (observer, done) := Observe(s.observer, bytes, st.maxSseBuffer);
    var tokens := if observer.firstDataSeen && !s.observer.firstDataSeen then 1 else 0;
    var seen := st.(metrics := st.metrics.(firstTokens := st.metrics.firstTokens + tokens));
    PutIsSilent(seen, other, s.(observer := observer, stage := Idle), id);
    PutIsSilent(seen, other, s.(observer := observer, stage := WritingBody(done)), id);
    EndIsSilent(Put(seen, other, s.(observer := observer, stage := Idle)), other, true, id);
  }

  lemma EndIsSilent(st: State, other: nat, completed: bool, id: nat)
    requires other < |st.sessions| && id < |st.sessions| && st.sessions[id].finished
    ensures |End(st, other, completed).sessions| == |st.sessions|
    ensures End(st, other, completed).sessions[id] == st.sessions[id]
  {}

  lemma StrandIsSilent(st: State, id: nat)
    requires Safe(st) && Enabled(st, RunStrand) && id < |st.sessions| && st.sessions[id].finished
    ensures id < |RunTask(st).sessions| && RunTask(st).sessions[id] == st.sessions[id]
  {
    match st.strand[0]
    case Enqueue(other) =>
      PostedTail(st.strand);
      assert other in Posted(st.strand);
    case Promote =>
      var rest := st.(strand := st.strand[1..]);
      RunPlain(st);
      PromoteServesOldest(rest);
      LiveIsQueued(rest.deque, rest.sessions);
      assert SessionOk(st.sessions[id]);
      hide Safe, PromoteAll;
    case StopServer =>
  }

  lemma {:induction false} LiveIsQueued(deque: seq<nat>, sessions: seq<Session>)
    ensures forall id | id in LiveOf(deque, sessions) :: id < |sessions| && sessions[id].queued
    decreases |deque|
  {
    if deque != [] {
      LiveIsQueued(deque[1..], sessions);
    }
  }
}
