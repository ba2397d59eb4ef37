/** Limiter and permits under arbitrary interleaving (controller/src/inflight_limiter.cpp).

    One step is what a thread does between two visits to the mutex.  `release` is
    therefore three steps: it clears `owns_slot_`, it runs its critical section,
    it calls the callback it copied there; any other thread may act in between.
    A permit is used by one thread at a time, so a permit inside an operation
    accepts no other one, and the source of a running move assignment is lent to
    that assignment. */
module PermitInterleaving {
  import opened LimiterCore
  import opened Tallies

  datatype Slot = NoSlot | Owns(id: nat)

  /** What happens to a permit once its release is over. */
  datatype After = Keep | Vanish | Adopt(source: nat)

  datatype Handle =
    | Ready(slot: Slot)
    | Locking(id: nat, after: After)
    | Notifying(after: After)
    | Lent(slot: Slot, borrower: nat)
    | Destroyed

  /** Slots are numbered as they are acquired.  The last five fields are history:
      acquired slots, freed slots, frees without a callback installed, callbacks
      that ran, and how often the zero guard was taken. */
  datatype World = World(
    limiter: Limiter, handles: seq<Handle>, hasCallback: bool,
    acquired: nat, freed: seq<nat>, silent: nat, callbacks: nat, guardTaken: nat)

  datatype Step =
    | Acquire
    | Promote
    | Cancel
    | CloseAll
    | InstallCallback
    | Move(source: nat)
    | Assign(target: nat, source: nat)
    | Release(permit: nat)
    | Destroy(permit: nat)
    | Section(permit: nat)
    | Notify(permit: nat)

  function Init(maxInflight: nat, maxQueue: nat): World {
    World(Limiter(0, 0, maxInflight, maxQueue, false), [], false, 0, [], 0, 0, 0)
  }

  // ----- steps ---------------------------------------------------------------

  predicate IsReady(w: World, p: nat) {
    p < |w.handles| && w.handles[p].Ready?
  }

  predicate Enabled(w: World, step: Step) {
    match step
    case Move(source) => IsReady(w, source)
    case Assign(target, source) => IsReady(w, target) && IsReady(w, source)
    case Release(p) => IsReady(w, p)
    case Destroy(p) => IsReady(w, p)
    case Section(p) => p < |w.handles| && w.handles[p].Locking? && AdoptsLent(w.handles, p)
    case Notify(p) => p < |w.handles| && w.handles[p].Notifying? && AdoptsLent(w.handles, p)
    case _ => true
  }

  /** A new permit from the limiter, with the next slot if one was granted. */
  function Grant(w: World, limiter: Limiter, granted: bool): World {
    if granted then
      w.(limiter := limiter, handles := w.handles + [Ready(Owns(w.acquired))], acquired := w.acquired + 1)
    else w.(limiter := limiter, handles := w.handles + [Ready(NoSlot)])
  }

  predicate Releasing(h: Handle) {
    h.Locking? || h.Notifying?
  }

  /** The assignment that waits for this release finds its source lent to it. */
  predicate AdoptsLent(handles: seq<Handle>, p: nat)
    requires p < |handles|
  {
    Releasing(handles[p]) && handles[p].after.Adopt? ==>
      handles[p].after.source < |handles| && LentTo(handles[handles[p].after.source], p)
  }

  predicate LentTo(h: Handle, borrower: nat) {
    h.Lent? && h.borrower == borrower
  }

  function Finish(handles: seq<Handle>, p: nat): seq<Handle>
    requires p < |handles| && Releasing(handles[p]) && AdoptsLent(handles, p)
  {
    match handles[p].after
    case Keep => handles[p := Ready(NoSlot)]
    case Vanish => handles[p := Destroyed]
    case Adopt(source) => handles[p := Ready(handles[source].slot)][source := Ready(NoSlot)]
  }

  /** `release` up to the mutex: nothing to do without a slot. */
  function BeginRelease(w: World, p: nat, after: After): World
    requires IsReady(w, p)
  {
    match w.handles[p].slot
    case NoSlot => w.(handles := if after == Vanish then w.handles[p := Destroyed] else w.handles)
    case Owns(id) => w.(handles := w.handles[p := Locking(id, after)])
  }

  function Apply(w: World, step: Step): World
    requires Enabled(w, step)
  {
    match step
    case Acquire =>
      var (limiter, result) := TryAcquireOrQueue(w.limiter);
      Grant(w, limiter, result.granted)
    case Promote =>
      var (limiter, granted) := TryPromoteQueued(w.limiter);
      Grant(w, limiter, granted)
    case Cancel => w.(limiter := CancelQueued(w.limiter).0)
    case CloseAll => w.(limiter := Close(w.limiter))
    case InstallCallback => w.(hasCallback := true)
    case Move(source) =>
      w.(handles := w.handles[source := Ready(NoSlot)] + [w.handles[source]])
    case Assign(target, source) =>
      if target == source then w
      else if w.handles[target].slot == NoSlot then
        w.(handles := w.handles[target := w.handles[source]][source := Ready(NoSlot)])
      else
        BeginRelease(w.(handles := w.handles[source := Lent(w.handles[source].slot, target)]),
                     target, Adopt(source))
    case Release(p) => BeginRelease(w, p, Keep)
    case Destroy(p) => BeginRelease(w, p, Vanish)
    case Section(p) =>
      var (limiter, freed) := ReleaseSlot(w.limiter);
      if !freed then w.(handles := Finish(w.handles, p), guardTaken := w.guardTaken + 1)
      else
        var v := w.(limiter := limiter, freed := w.freed + [w.handles[p].id]);
        if w.hasCallback then v.(handles := w.handles[p := Notifying(w.handles[p].after)])
        else v.(handles := Finish(w.handles, p), silent := w.silent + 1)
    case Notify(p) => w.(handles := Finish(w.handles, p), callbacks := w.callbacks + 1)
  }

  predicate Legal(w: World, steps: seq<Step>)
    decreases |steps|
  {
    steps == [] || (Enabled(w, steps[0]) && Legal(Apply(w, steps[0]), steps[1..]))
  }

  function Run(w: World, steps: seq<Step>): World
    requires Legal(w, steps)
    decreases |steps|
  {
    if steps == [] then w else Run(Apply(w, steps[0]), steps[1..])
  }

  // ----- counting permits ----------------------------------------------------

  function IsOwner(h: Handle): nat {
    if (h.Ready? || h.Lent?) && h.slot.Owns? then 1 else 0
  }

  function IsReleaser(h: Handle): nat {
    if h.Locking? then 1 else 0
  }

  function IsHolder(h: Handle): nat {
    IsOwner(h) + IsReleaser(h)
  }

  function IsCaller(h: Handle): nat {
    if h.Notifying? then 1 else 0
  }

  predicate HasSlot(h: Handle, id: nat) {
    match h
    case Ready(slot) => slot == Owns(id)
    case Lent(slot, _) => slot == Owns(id)
    case Locking(held, _) => held == id
    case _ => false
  }

  /** How many permits own the slot or are in the middle of releasing it. */
  function Holding(id: nat): Handle -> nat {
    (h: Handle) => if HasSlot(h, id) then 1 else 0
  }

  function Times(freed: seq<nat>, id: nat): nat {
    if freed == [] then 0 else (if freed[|freed| - 1] == id then 1 else 0) + Times(freed[..|freed| - 1], id)
  }

  // ----- the invariant -------------------------------------------------------

  predicate Linked(handles: seq<Handle>) {
    forall p | 0 <= p < |handles| :: AdoptsLent(handles, p)
  }

  predicate Counters(w: World) {
    && w.limiter.Bounded()
    && w.limiter.inflight == Tally(w.handles, IsHolder) == w.acquired - |w.freed|
    && w.callbacks + Tally(w.handles, IsCaller) + w.silent == |w.freed|
    && w.guardTaken == 0
  }

  /** Every acquired slot is in exactly one place, every other one in none. */
  predicate Placed(w: World, id: nat) {
    Tally(w.handles, Holding(id)) + Times(w.freed, id) == if id < w.acquired then 1 else 0
  }

  ghost predicate Conserved(w: World) {
    Linked(w.handles) && Counters(w) && forall id: nat :: Placed(w, id)
  }

  // ----- the links are kept --------------------------------------------------

  lemma RelinkOther(handles: seq<Handle>, p: nat, h: Handle)
    requires p < |handles| && Linked(handles) && !handles[p].Lent?
    requires Releasing(h) && h.after.Adopt? ==>
      Releasing(handles[p]) && handles[p].after == h.after && handles[p].after.source != p
    ensures Linked(handles[p := h])
  {
    hide LentTo;
    var done := handles[p := h];
    forall q | 0 <= q < |done|
      ensures AdoptsLent(done, q)
    {
      assert AdoptsLent(handles, q) && AdoptsLent(handles, p);
      NotLentHere(handles, p, q);
    }
  }

  lemma NotLentHere(handles: seq<Handle>, p: nat, q: nat)
    requires p < |handles| && q < |handles| && Linked(handles) && !handles[p].Lent?
    ensures Releasing(handles[q]) && handles[q].after.Adopt? ==> handles[q].after.source != p
  {
    assert AdoptsLent(handles, q);
  }

  lemma RelinkFinish(handles: seq<Handle>, p: nat)
    requires p < |handles| && Releasing(handles[p]) && Linked(handles)
    ensures AdoptsLent(handles, p) && Linked(Finish(handles, p))
  {
    assert AdoptsLent(handles, p);
    match handles[p].after
    case Keep => RelinkOther(handles, p, Ready(NoSlot));
    case Vanish => RelinkOther(handles, p, Destroyed);
    case Adopt(source) =>
      var done := Finish(handles, p);
      forall q | 0 <= q < |done|
        ensures AdoptsLent(done, q)
      {
        assert AdoptsLent(handles, q);
      }
  }

  lemma RelinkAppend(handles: seq<Handle>, slot: Slot)
    requires Linked(handles)
    ensures Linked(handles + [Ready(slot)])
  {
    forall q | 0 <= q < |handles|
      ensures AdoptsLent(handles + [Ready(slot)], q)
    {
      assert AdoptsLent(handles, q);
    }
  }

  lemma RelinkAssign(handles: seq<Handle>, target: nat, source: nat, id: nat)
    requires target < |handles| && source < |handles| && target != source && Linked(handles)
    requires handles[target].Ready? && handles[source].Ready?
    ensures Linked(handles[source := Lent(handles[source].slot, target)][target := Locking(id, Adopt(source))])
  {
    var done := handles[source := Lent(handles[source].slot, target)][target := Locking(id, Adopt(source))];
    forall q | 0 <= q < |done|
      ensures AdoptsLent(done, q)
    {
      assert AdoptsLent(handles, q);
    }
  }

  lemma StepKeepsLinks(w: World, step: Step)
    requires Linked(w.handles) && Enabled(w, step)
    ensures Linked(Apply(w, step).handles)
  {
    hide Linked, AdoptsLent, Finish, TryAcquireOrQueue, TryPromoteQueued, ReleaseSlot;
    var handles := w.handles;
    match step
    case Acquire => RelinkAppend(handles, Owns(w.acquired)); RelinkAppend(handles, NoSlot);
    case Promote => RelinkAppend(handles, Owns(w.acquired)); RelinkAppend(handles, NoSlot);
    case Move(source) =>
      RelinkOther(handles, source, Ready(NoSlot));
      RelinkAppend(handles[source := Ready(NoSlot)], handles[source].slot);
    case Assign(target, source) =>
      if target != source {
        match handles[target].slot
        case NoSlot =>
          RelinkOther(handles, target, handles[source]);
          RelinkOther(handles[target := handles[source]], source, Ready(NoSlot));
        case Owns(id) => RelinkAssign(handles, target, source, id);
      }
    case Release(p) => RelinkBegin(w, p, Keep);
    case Destroy(p) => RelinkBegin(w, p, Vanish);
    case Section(p) =>
      RelinkFinish(handles, p);
      NoSelfAdoption(handles, p);
      RelinkOther(handles, p, Notifying(handles[p].after));
    case Notify(p) => RelinkFinish(handles, p);
    case _ =>
  }

  lemma NoSelfAdoption(handles: seq<Handle>, p: nat)
    requires p < |handles| && Releasing(handles[p]) && Linked(handles)
    ensures handles[p].after.Adopt? ==> handles[p].after.source != p
  {
    assert AdoptsLent(handles, p);
  }

  lemma RelinkBegin(w: World, p: nat, after: After)
    requires Linked(w.handles) && IsReady(w, p) && !after.Adopt?
    ensures Linked(BeginRelease(w, p, after).handles)
  {
    if BeginRelease(w, p, after).handles != w.handles {
      RelinkOther(w.handles, p, BeginRelease(w, p, after).handles[p]);
    }
  }

  // ----- the counts are kept -------------------------------------------------

  /** Finishing a release moves what an assignment's source holds, or nothing. */
  lemma FinishTally(handles: seq<Handle>, p: nat, f: Handle -> nat)
    requires p < |handles| && Releasing(handles[p]) && AdoptsLent(handles, p)
    requires f(Ready(NoSlot)) == f(Destroyed) == 0
    requires forall slot, borrower :: f(Lent(slot, borrower)) == f(Ready(slot))
    ensures Tally(Finish(handles, p), f) == Tally(handles, f) - f(handles[p])
  {
    match handles[p].after
    case Keep => Replace(handles, p, Ready(NoSlot), f);
    case Vanish => Replace(handles, p, Destroyed, f);
    case Adopt(source) =>
      var slot, borrower := handles[source].slot, handles[source].borrower;
      assert handles[source] == Lent(slot, borrower);
      Replace(handles, p, Ready(slot), f);
      Replace(handles[p := Ready(slot)], source, Ready(NoSlot), f);
  }

  /** How one step changes a tally that looks at slots only. */
  lemma StepTally(w: World, step: Step, f: Handle -> nat)
    requires Enabled(w, step) && step != Acquire && step != Promote && !step.Section?
    requires f(Ready(NoSlot)) == f(Destroyed) == 0
    requires forall slot, borrower :: f(Lent(slot, borrower)) == f(Ready(slot))
    requires forall id, after :: f(Locking(id, after)) == f(Ready(Owns(id)))
    ensures Tally(Apply(w, step).handles, f) ==
      Tally(w.handles, f) - if step.Notify? then f(w.handles[step.permit]) else 0
  {
    hide Tally, Finish, AdoptsLent;
    var handles := w.handles;
    match step
    case Move(source) =>
      Replace(handles, source, Ready(NoSlot), f);
      Append(handles[source := Ready(NoSlot)], handles[source], f);
    case Assign(target, source) =>
      if target != source {
        match handles[target].slot
        case NoSlot =>
          Replace(handles, target, handles[source], f);
          Replace(handles[target := handles[source]], source, Ready(NoSlot), f);
        case Owns(id) =>
          var lent := Lent(handles[source].slot, target);
          assert handles[target] == Ready(Owns(id)) && handles[source] == Ready(handles[source].slot);
          Replace(handles, source, lent, f);
          Replace(handles[source := lent], target, Locking(id, Adopt(source)), f);
      }
    case Release(p) => BeginTally(w, p, Keep, f);
    case Destroy(p) => BeginTally(w, p, Vanish, f);
    case Notify(p) => FinishTally(handles, p, f);
    case _ =>
  }

  lemma BeginTally(w: World, p: nat, after: After, f: Handle -> nat)
    requires IsReady(w, p) && f(Ready(NoSlot)) == f(Destroyed) == 0
    requires forall id, after :: f(Locking(id, after)) == f(Ready(Owns(id)))
    ensures Tally(BeginRelease(w, p, after).handles, f) == Tally(w.handles, f)
  {
    match w.handles[p].slot
    case NoSlot => Replace(w.handles, p, Destroyed, f);
    case Owns(id) =>
      assert w.handles[p] == Ready(Owns(id));
      Replace(w.handles, p, Locking(id, after), f);
  }

  lemma SectionTally(w: World, p: nat, f: Handle -> nat)
    requires Enabled(w, Section(p)) && w.limiter.inflight > 0
    requires f(Ready(NoSlot)) == f(Destroyed) == 0
    requires forall slot, borrower :: f(Lent(slot, borrower)) == f(Ready(slot))
    ensures Tally(Apply(w, Section(p)).handles, f) ==
      Tally(w.handles, f) - f(w.handles[p])
        + if w.hasCallback then f(Notifying(w.handles[p].after)) else 0
  {
    Replace(w.handles, p, Notifying(w.handles[p].after), f);
    FinishTally(w.handles, p, f);
  }

  lemma CallerTally(w: World, step: Step)
    requires Enabled(w, step) && step != Acquire && step != Promote && !step.Section?
    ensures Tally(Apply(w, step).handles, IsCaller) ==
      Tally(w.handles, IsCaller) - if step.Notify? then 1 else 0
  {
    hide Tally, AdoptsLent, Finish;
    StepTally(w, step, IsCaller);
  }

  lemma GrantKeepsCounts(w: World, step: Step, id: nat)
    requires Counters(w) && Placed(w, id) && (step == Acquire || step == Promote)
    ensures Counters(Apply(w, step)) && Placed(Apply(w, step), id)
  {
    hide Tally;
    SectionsKeepBounds(w.limiter);
    Append(w.handles, Ready(Owns(w.acquired)), IsHolder);
    Append(w.handles, Ready(Owns(w.acquired)), IsCaller);
    Append(w.handles, Ready(Owns(w.acquired)), Holding(id));
    Append(w.handles, Ready(NoSlot), IsHolder);
    Append(w.handles, Ready(NoSlot), IsCaller);
    Append(w.handles, Ready(NoSlot), Holding(id));
  }

  lemma SectionKeepsCounts(w: World, p: nat, id: nat)
    requires Counters(w) && Placed(w, id) && Enabled(w, Section(p))
    ensures Counters(Apply(w, Section(p))) && Placed(Apply(w, Section(p)), id)
  {
    hide Tally, AdoptsLent, Finish;
    AtMostTally(w.handles, p, IsHolder);
    SectionTally(w, p, IsHolder);
    SectionTally(w, p, IsCaller);
    SectionTally(w, p, Holding(id));
    var freed := w.freed + [w.handles[p].id];
    assert freed[..|freed| - 1] == w.freed;
  }

  lemma OtherKeepsCounts(w: World, step: Step, id: nat)
    requires Counters(w) && Placed(w, id) && Enabled(w, step)
    requires step != Acquire && step != Promote && !step.Section?
    ensures Counters(Apply(w, step)) && Placed(Apply(w, step), id)
  {
    hide Tally, AdoptsLent, Finish;
    SectionsKeepBounds(w.limiter);
    CallerTally(w, step);
    StepTally(w, step, IsHolder);
    StepTally(w, step, Holding(id));
  }

  lemma StepKeepsCounts(w: World, step: Step, id: nat)
    requires Counters(w) && Placed(w, id) && Enabled(w, step)
    ensures Counters(Apply(w, step)) && Placed(Apply(w, step), id)
  {
    hide Counters, Placed, Apply;
    match step
    case Acquire => GrantKeepsCounts(w, step, id);
    case Promote => GrantKeepsCounts(w, step, id);
    case Section(p) => SectionKeepsCounts(w, p, id);
    case _ => OtherKeepsCounts(w, step, id);
  }

  lemma StepConserves(w: World, step: Step)
    requires Conserved(w) && Enabled(w, step)
    ensures Conserved(Apply(w, step))
  {
    hide Linked, Counters, Placed, Apply;
    StepKeepsLinks(w, step);
    StepKeepsCounts(w, step, 0);
    forall id: nat
      ensures Placed(Apply(w, step), id)
    {
      StepKeepsCounts(w, step, id);
    }
  }

  lemma {:induction false} RunConserves(w: World, steps: seq<Step>)
    requires Conserved(w) && Legal(w, steps)
    ensures Conserved(Run(w, steps))
    ensures Run(w, steps).limiter.maxInflight == w.limiter.maxInflight
    ensures Run(w, steps).limiter.maxQueue == w.limiter.maxQueue
    decreases |steps|
  {
    hide Conserved;
    if steps != [] {
      StepConserves(w, steps[0]);
      RunConserves(Apply(w, steps[0]), steps[1..]);
    }
  }

  // ----- what every interleaving keeps ---------------------------------------

  lemma {:induction false} HoldersSplit(handles: seq<Handle>)
    ensures Tally(handles, IsHolder) == Tally(handles, IsOwner) + Tally(handles, IsReleaser)
    decreases |handles|
  {
    if handles != [] {
      HoldersSplit(handles[1..]);
    }
  }

  lemma InitConserved(maxInflight: nat, maxQueue: nat)
    requires 0 < maxInflight
    ensures Conserved(Init(maxInflight, maxQueue))
  {
    assert forall id: nat :: Placed(Init(maxInflight, maxQueue), id);
  }

  /** Slot conservation in every reachable state: the counter is the owning permits
      plus the permits in the middle of a release, both counters respect their
      limits, the zero guard was never taken, every acquired slot is either held by
      exactly one permit or was freed exactly once, and every free with a callback
      installed led to one call, made or about to be made. */
  lemma SlotConservation(maxInflight: nat, maxQueue: nat, steps: seq<Step>)
    requires 0 < maxInflight && Legal(Init(maxInflight, maxQueue), steps)
    ensures var w := Run(Init(maxInflight, maxQueue), steps);
      && w.limiter.inflight == Tally(w.handles, IsOwner) + Tally(w.handles, IsReleaser)
      && w.limiter.inflight <= maxInflight && w.limiter.queued <= maxQueue
      && w.guardTaken == 0
      && w.callbacks + Tally(w.handles, IsCaller) == |w.freed| - w.silent
    ensures forall id: nat :: Placed(Run(Init(maxInflight, maxQueue), steps), id)
  {
    var w := Init(maxInflight, maxQueue);
    InitConserved(maxInflight, maxQueue);
    RunConserves(w, steps);
    HoldersSplit(Run(w, steps).handles);
  }

  /** No leak: once every permit is destroyed the limiter is empty and every slot
      ever acquired has been freed exactly once. */
  lemma NoLeak(maxInflight: nat, maxQueue: nat, steps: seq<Step>)
    requires 0 < maxInflight && Legal(Init(maxInflight, maxQueue), steps)
    requires forall h | h in Run(Init(maxInflight, maxQueue), steps).handles :: h.Destroyed?
    ensures var w := Run(Init(maxInflight, maxQueue), steps);
      && w.limiter.inflight == 0
      && |w.freed| == w.acquired
      && forall id: nat :: Times(w.freed, id) == if id < w.acquired then 1 else 0
  {
    var w := Run(Init(maxInflight, maxQueue), steps);
    InitConserved(maxInflight, maxQueue);
    RunConserves(Init(maxInflight, maxQueue), steps);
    NothingTallied(w.handles, IsHolder);
    forall id: nat
      ensures Times(w.freed, id) == if id < w.acquired then 1 else 0
    {
      assert Placed(w, id);
      NothingTallied(w.handles, Holding(id));
    }
  }

  lemma {:induction false} NothingTallied(handles: seq<Handle>, f: Handle -> nat)
    requires f(Destroyed) == 0 && forall h | h in handles :: h.Destroyed?
    ensures Tally(handles, f) == 0
    decreases |handles|
  {
    if handles != [] {
      assert handles[0] in handles;
      NothingTallied(handles[1..], f);
    }
  }

  /** A release that has begun can always go on, and one that nobody interrupts does
      to the limiter what the single critical section does. */
  lemma WholeRelease(w: World, p: nat)
    requires Conserved(w) && IsReady(w, p) && w.handles[p].slot.Owns?
    ensures var steps := [Release(p), Section(p)] + if w.hasCallback then [Notify(p)] else [];
      && Legal(w, steps)
      && var done := Run(w, steps);
      && done.limiter == ReleaseSlot(w.limiter).0 && w.limiter.inflight > 0
      && done.handles == w.handles[p := Ready(NoSlot)]
      && done.freed == w.freed + [w.handles[p].slot.id]
      && done.callbacks == w.callbacks + if w.hasCallback then 1 else 0
  {
    var w1 := Apply(w, Release(p));
    var w2 := Apply(w1, Section(p));
    AtMostTally(w.handles, p, IsHolder);
    RunTwo(w, Release(p), Section(p), if w.hasCallback then [Notify(p)] else []);
    if w.hasCallback {
      assert Run(w2, [Notify(p)]) == Run(Apply(w2, Notify(p)), []);
    }
  }

  /** An assignment that nobody interrupts gives back the slot held so far and then
      takes over what the source holds; onto itself it does nothing. */
  lemma WholeAssign(w: World, target: nat, source: nat)
    requires Conserved(w) && IsReady(w, target) && IsReady(w, source)
    ensures target == source ==> Apply(w, Assign(target, source)) == w
    ensures target != source && w.handles[target].slot.Owns? ==>
      var steps := [Assign(target, source), Section(target)] + if w.hasCallback then [Notify(target)] else [];
      && Legal(w, steps)
      && var done := Run(w, steps);
      && done.limiter == ReleaseSlot(w.limiter).0 && w.limiter.inflight > 0
      && done.handles == w.handles[target := w.handles[source]][source := Ready(NoSlot)]
      && done.freed == w.freed + [w.handles[target].slot.id]
      && done.callbacks == w.callbacks + if w.hasCallback then 1 else 0
    ensures target != source && w.handles[target].slot == NoSlot ==>
      Apply(w, Assign(target, source)) == w.(
        handles := w.handles[target := w.handles[source]][source := Ready(NoSlot)])
  {
    if target != source && w.handles[target].slot.Owns? {
      var w1 := Apply(w, Assign(target, source));
      var w2 := Apply(w1, Section(target));
      AtMostTally(w.handles, target, IsHolder);
      RunTwo(w, Assign(target, source), Section(target), if w.hasCallback then [Notify(target)] else []);
      var end := w.handles[target := w.handles[source]][source := Ready(NoSlot)];
      if w.hasCallback {
        assert Run(w2, [Notify(target)]) == Run(Apply(w2, Notify(target)), []);
        assert Apply(w2, Notify(target)).handles == end;
      } else {
        assert w2.handles == end;
      }
    }
  }

  lemma RunTwo(w: World, one: Step, two: Step, rest: seq<Step>)
    requires Enabled(w, one) && Enabled(Apply(w, one), two)
    ensures Legal(w, [one, two] + rest) <==> Legal(Apply(Apply(w, one), two), rest)
    ensures Legal(w, [one, two] + rest) ==> Run(w, [one, two] + rest) == Run(Apply(Apply(w, one), two), rest)
  {
    hide Enabled, Apply;
    assert ([one, two] + rest)[1..] == [two] + rest && ([two] + rest)[1..] == rest;
  }
}
