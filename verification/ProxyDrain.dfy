/** No slot and no place in the queue is held forever: a measure that every timer
    step and every strand task decreases. */
module ProxyDrain {
  import opened LimiterCore
  import opened SseObserver
  import opened Tallies
  import opened ProxyModel
  import opened ProxyInvariant
  import opened ProxyTheorems

  function TimerWeight(t: Timer): nat {
    match t
    case Armed => 2
    case Unset => 0
    case _ => 1
  }

  /** A queued session can still become one with a permit and an armed timer; a
      permit can still post one Promote task. */
  function SessionWeight(s: Session): nat {
    (if s.queued then 5 else 0) + (if s.holdsPermit then 2 else 0)
      + TimerWeight(s.queueTimer) + TimerWeight(s.requestTimer)
  }

  function TaskWeight(t: Task): nat {
    if t.Enqueue? then 8 else 1
  }

  function Measure(st: State): nat {
    Tally(st.sessions, SessionWeight) + Tally(st.strand, TaskWeight)
  }

  /** Timers expiring, their handlers, and the tasks on the strand. */
  predicate IsDrain(step: Step) {
    step.RunStrand? || step.QueueTimerExpires? || step.QueueTimerRuns?
    || step.RequestTimerExpires? || step.RequestTimerRuns?
  }

  /** Steps that bring no new work: no request is read and nobody calls `stop`. */
  predicate IsQuiet(step: Step) {
    !step.ReadSucceeds? && !step.CallStop?
  }

  // ----- single changes ------------------------------------------------------

  lemma PutWeight(st: State, id: nat, s: Session)
    requires id < |st.sessions|
    ensures Measure(Put(st, id, s)) == Measure(st) - SessionWeight(st.sessions[id]) + SessionWeight(s)
  {
    Replace(st.sessions, id, s, SessionWeight);
  }

  /** Ending a session never adds weight: what a permit posts it paid for. */
  lemma EndWeight(st: State, id: nat, completed: bool)
    requires id < |st.sessions|
    ensures Measure(End(st, id, completed)) <= Measure(st)
  {
    Replace(st.sessions, id, EndSession(st.sessions[id], completed), SessionWeight);
    Append(st.strand, Promote, TaskWeight);
  }

  lemma TurnWeight(st: State)
    requires Safe(st) && st.deque != [] && st.deque[0] < |st.sessions|
    ensures Measure(PromoteTurn(st).0) <= Measure(st)
  {
    hide LineOk, FifoOk, WaitingInLine, Tally;
    QueuedHeadFacts(st);
    TurnCases(st);
    var id := st.deque[0];
    if !st.sessions[id].queued {
      SkipTurn(st);
    } else if st.limiter.HasFreeSlot() {
      PromotedTurn(st);
      Replace(st.sessions, id, Started(st.sessions[id]), SessionWeight);
    }
  }

  lemma {:induction false} PromoteWeight(st: State)
    requires Safe(st)
    ensures KnownIds(st) && Measure(PromoteAll(st)) <= Measure(st)
    decreases |st.deque|
  {
    SafeKnowsIds(st);
    hide Safe, PromoteTurn, Measure;
    if st.deque != [] {
      TurnCases(st);
      TurnWeight(st);
      if PromoteTurn(st).1 {
        PromoteWeight(PromoteTurn(st).0);
      }
    }
  }

  // ----- every step ----------------------------------------------------------

  lemma StrandDecreases(st: State)
    requires Safe(st) && Enabled(st, RunStrand)
    ensures Measure(RunTask(st)) < Measure(st)
  {
    var rest := st.(strand := st.strand[1..]);
    assert Measure(st) == Measure(rest) + TaskWeight(st.strand[0]);
    hide Tally, LineOk, FifoOk, WaitingInLine;
    match st.strand[0]
    case Enqueue(id) =>
      Replace(st.sessions, id, st.sessions[id].(queued := true, queueTimer := Armed), SessionWeight);
    case Promote =>
      RunPlain(st);
      PromoteWeight(rest);
    case StopServer =>
  }

  lemma TimersDecrease(st: State, id: nat)
    requires id < |st.sessions|
    ensures HandlerQueued(st.sessions[id].queueTimer) ==> Measure(QueueTimerHandler(st, id)) < Measure(st)
    ensures HandlerQueued(st.sessions[id].requestTimer) ==> Measure(RequestTimerHandler(st, id)) < Measure(st)
  {
    hide Tally, End;
    var s := st.sessions[id];
    var cancelled := st.(limiter := CancelQueued(st.limiter).0);
    PutWeight(st, id, s.(queueTimer := Unset));
    PutWeight(cancelled, id, s.(queueTimer := Unset, queued := false));
    EndWeight(Put(cancelled, id, s.(queueTimer := Unset, queued := false)), id, false);
    PutWeight(st, id, s.(requestTimer := Unset));
    EndWeight(Put(st, id, s.(requestTimer := Unset)), id, false);
  }

  lemma UpstreamNoHeavier(st: State, id: nat, outcome: Outcome)
    requires Enabled(st, UpstreamCompletes(id, outcome))
    ensures Measure(HandleUpstream(st, id, outcome)) <= Measure(st)
  {
    hide Tally, End, Observe;
    var s := st.sessions[id];
    GoOnWeight(st, id, Idle);
    GoOnWeight(st, id, Connecting);
    GoOnWeight(st, id, WritingRequest);
    GoOnWeight(st, id, ReadingHeader);
    GoOnWeight(st, id, ReadingBody);
    PutWeight(st, id, s.(responseStarted := true, stage := WritingHeader));
    EndWeight(GoOn(st, id, Idle), id, true);
    EndWeight(GoOn(st, id, Idle), id, false);
    if outcome.Chunk? {
      ChunkNoHeavier(st, id, outcome.bytes);
    }
  }

  lemma GoOnWeight(st: State, id: nat, stage: Stage)
    requires id < |st.sessions|
    ensures Measure(GoOn(st, id, stage)) == Measure(st)
  {
    PutWeight(st, id, st.sessions[id].(stage := stage));
  }

  lemma ChunkNoHeavier(st: State, id: nat, bytes: string)
    requires id < |st.sessions|
    ensures Measure(HandleChunk(st, id, bytes)) <= Measure(st)
  {
    hide Measure, SessionWeight, End, Observe;
    var s := st.sessions[id];
    var (observer, done) := Observe(s.observer, bytes, st.maxSseBuffer);
    var tokens := if observer.firstDataSeen && !s.observer.firstDataSeen then 1 else 0;
    var seen := st.(metrics := st.metrics.(firstTokens := st.metrics.firstTokens + tokens));
    ObservedWeight(st, seen, id, s.(observer := observer, stage := Idle));
    ObservedWeight(st, seen, id, s.(observer := observer, stage := WritingBody(done)));
    EndWeight(Put(seen, id, s.(observer := observer, stage := Idle)), id, true);
  }

  lemma ObservedWeight(st: State, seen: State, id: nat, s: Session)
    requires id < |st.sessions| && seen == st.(metrics := seen.metrics)
    requires s == st.sessions[id].(observer := s.observer, stage := s.stage)
    ensures Measure(Put(seen, id, s)) == Measure(st)
  {
    PutWeight(st, id, s);
  }

  /** Every drain step strictly decreases the measure, and no step that brings no
      new work increases it. */
  lemma StepWeight(st: State, step: Step)
    requires Safe(st) && Enabled(st, step) && IsQuiet(step)
    ensures Measure(Apply(st, step)) + (if IsDrain(step) then 1 else 0) <= Measure(st)
  {
    hide Safe, Tally, RunTask, QueueTimerHandler, RequestTimerHandler, HandleUpstream;
    match step
    case Connect => Append(st.sessions, NEW_SESSION, SessionWeight);
    case ReadFails(id) => PutWeight(st, id, st.sessions[id].(stage := Idle, finished := true));
    case ReplyWritten(id) => PutWeight(st, id, st.sessions[id].(stage := Idle, finished := true));
    case RunStrand => StrandDecreases(st);
    case QueueTimerExpires(id) => PutWeight(st, id, st.sessions[id].(queueTimer := Expired));
    case QueueTimerRuns(id) => TimersDecrease(st, id);
    case RequestTimerExpires(id) => PutWeight(st, id, st.sessions[id].(requestTimer := Expired));
    case RequestTimerRuns(id) => TimersDecrease(st, id);
    case UpstreamCompletes(id, outcome) => UpstreamNoHeavier(st, id, outcome);
  }

  // ----- runs ----------------------------------------------------------------

  predicate Drained(st: State) {
    st.limiter.queued == 0 && st.limiter.inflight == 0
  }

  /** As long as a slot or a place in the queue is taken, a drain step is enabled: a
      task on the strand, or else, since no wakeup is lost, a slot is taken, and the
      session with the permit has its request timer pending. */
  lemma DrainGoesOn(st: State) returns (step: Step)
    requires Inv(st) && !Drained(st)
    ensures IsDrain(step) && Enabled(st, step)
  {
    SafeKnowsIds(st);
    if st.strand != [] {
      step := RunStrand;
    } else {
      var id := Witness(st.sessions, HoldsPermit);
      assert SessionOk(st.sessions[id]);
      step := if st.sessions[id].requestTimer == Armed then RequestTimerExpires(id) else RequestTimerRuns(id);
    }
  }

  function DrainSteps(steps: seq<Step>): nat {
    if steps == [] then 0 else (if IsDrain(steps[0]) then 1 else 0) + DrainSteps(steps[1..])
  }

  predicate AllQuiet(steps: seq<Step>) {
    forall k | 0 <= k < |steps| :: IsQuiet(steps[k])
  }

  /** Without new work, only so many timers can fire and tasks run: whatever else
      happens in between, the measure at the start bounds them. */
  lemma {:induction false} DrainIsBounded(st: State, steps: seq<Step>)
    requires Inv(st) && Legal(st, steps) && AllQuiet(steps)
    ensures Measure(Run(st, steps)) + DrainSteps(steps) <= Measure(st)
    decreases |steps|
  {
    hide Safe, Awake, Measure, Enabled, Apply;
    if steps != [] {
      var next := Apply(st, steps[0]);
      StepWeight(st, steps[0]);
      StepKeepsSafe(st, steps[0]);
      StepKeepsAwake(st, steps[0]);
      assert forall k | 0 <= k < |steps| - 1 :: steps[1..][k] == steps[k + 1];
      DrainIsBounded(next, steps[1..]);
    }
  }

  /** From every state with the invariant, firing timers and running the strand
      alone gives back every slot and empties the queue. */
  lemma {:induction false} DrainFrom(st: State) returns (steps: seq<Step>)
    requires Inv(st)
    ensures Legal(st, steps) && Drained(Run(st, steps)) && |steps| <= Measure(st)
    ensures forall k | 0 <= k < |steps| :: IsDrain(steps[k])
    decreases Measure(st)
  {
    hide Safe, Awake, Measure, Enabled, Apply;
    if Drained(st) {
      steps := [];
    } else {
      var step := DrainGoesOn(st);
      var next := Apply(st, step);
      StepWeight(st, step);
      StepKeepsSafe(st, step);
      StepKeepsAwake(st, step);
      var rest := DrainFrom(next);
      steps := [step] + rest;
      assert steps[1..] == rest;
    }
  }

  /** No leak: from any reachable state, draining ends, and it ends with both
      counters at zero whichever enabled drain steps are chosen, whatever upstream
      completions come in between. */
  lemma NoLeak(st: State, steps: seq<Step>)
    requires Reachable(st) && Legal(st, steps) && AllQuiet(steps)
    ensures DrainSteps(steps) <= Measure(st)
    ensures (forall step: Step :: IsDrain(step) ==> !Enabled(Run(st, steps), step)) ==> Drained(Run(st, steps))
    ensures exists more: seq<Step> :: DrainsBy(Run(st, steps), more)
  {
    ReachableInv(st);
    DrainIsBounded(st, steps);
    RunKeepsInv(st, steps);
    var last := Run(st, steps);
    var more := DrainFrom(last);
    assert DrainsBy(last, more);
    if !Drained(last) {
      var step := DrainGoesOn(last);
    }
  }

  predicate DrainsBy(st: State, steps: seq<Step>) {
    && Legal(st, steps) && Drained(Run(st, steps))
    && forall k | 0 <= k < |steps| :: IsDrain(steps[k])
  }
}
