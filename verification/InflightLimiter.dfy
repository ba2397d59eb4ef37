/** The in-flight limiter (controller/src/inflight_limiter.cpp): two counters and
    two limits behind one mutex.  `Limiter` is the guarded state; each function is
    the critical section of one operation.  The objects in
    `LimiterObjects` are proved against these functions. */
module LimiterCore {

  datatype Decision = Admit | Queue | Reject | Closed

  datatype Limiter = Limiter(
    inflight: nat, queued: nat, maxInflight: nat, maxQueue: nat, closed: bool)
  {
    predicate Bounded() {
      0 < maxInflight && inflight <= maxInflight && queued <= maxQueue && (closed ==> queued == 0)
    }

    predicate HasFreeSlot() {
      inflight < maxInflight
    }
  }

  /** `granted` says whether the returned permit owns a slot. */
  datatype Acquired = Acquired(decision: Decision, granted: bool, position: nat)

  function TryAcquireOrQueue(l: Limiter): (Limiter, Acquired) {
    if l.closed then (l, Acquired(Closed, false, 0))
    else if l.inflight < l.maxInflight then
      (l.(inflight := l.inflight + 1), Acquired(Admit, true, 0))
    else if l.queued < l.maxQueue then
      (l.(queued := l.queued + 1), Acquired(Queue, false, l.queued + 1))
    else (l, Acquired(Reject, false, 0))
  }

  function TryPromoteQueued(l: Limiter): (Limiter, bool) {
    if l.closed || l.queued == 0 || l.inflight >= l.maxInflight then (l, false)
    else (l.(queued := l.queued - 1, inflight := l.inflight + 1), true)
  }

  function CancelQueued(l: Limiter): (Limiter, bool) {
    if l.queued == 0 then (l, false) else (l.(queued := l.queued - 1), true)
  }

  function Close(l: Limiter): Limiter {
    l.(closed := true, queued := 0)
  }

  /** The critical section of `Permit::release`; false when the zero guard is taken. */
  function ReleaseSlot(l: Limiter): (Limiter, bool) {
    if l.inflight == 0 then (l, false) else (l.(inflight := l.inflight - 1), true)
  }

  lemma SectionsKeepBounds(l: Limiter)
    requires l.Bounded()
    ensures TryAcquireOrQueue(l).0.Bounded() && TryPromoteQueued(l).0.Bounded()
    ensures CancelQueued(l).0.Bounded() && Close(l).Bounded() && ReleaseSlot(l).0.Bounded()
  {}

  // ----- runs of acquires ----------------------------------------------------

  /** n acquires in a row, nothing released in between. */
  function AcquireAll(l: Limiter, n: nat): (r: (Limiter, seq<Acquired>))
    ensures |r.1| == n
  {
    if n == 0 then (l, []) else
      var (last, results) := AcquireAll(l, n - 1);
      var (next, acquired) := TryAcquireOrQueue(last);
      (next, results + [acquired])
  }

  function Least(a: nat, b: nat): nat { if a < b then a else b }

  /** The i-th answer of an open limiter with so many free slots and so much room in
      a queue that `queued` others already wait in. */
  function AnswerTo(i: nat, free: nat, room: nat, queued: nat): Acquired {
    if i < free then Acquired(Admit, true, 0)
    else if i < free + room then Acquired(Queue, false, queued + (i - free) + 1)
    else Acquired(Reject, false, 0)
  }

  /** From any open state: first every free slot is given out, then every place in
      the queue, numbered in order, and only then is anyone rejected. */
  lemma {:induction false} AcquireRun(l: Limiter, n: nat)
    requires l.Bounded() && !l.closed
    ensures var (last, results) := AcquireAll(l, n);
      var free, room := l.maxInflight - l.inflight, l.maxQueue - l.queued;
      && last == l.(inflight := l.inflight + Least(n, free), queued := l.queued + Least(n - Least(n, free), room))
      && forall i | 0 <= i < n :: results[i] == AnswerTo(i, free, room, l.queued)
  {
    if n > 0 {
      AcquireRun(l, n - 1);
    }
  }

  /** Of n acquires on a new limiter min(n, maxInflight) are admitted, the next
      maxQueue are queued at the positions 1, 2, ..., and the rest is rejected. */
  lemma NewLimiterAnswers(maxInflight: nat, maxQueue: nat, n: nat)
    requires 0 < maxInflight
    ensures var (last, results) := AcquireAll(Limiter(0, 0, maxInflight, maxQueue, false), n);
      && last.inflight == Least(n, maxInflight) && last.queued == Least(n - last.inflight, maxQueue)
      && forall i | 0 <= i < n ::
           && (results[i].decision == Admit <==> i < maxInflight)
           && (results[i].decision == Queue <==> maxInflight <= i < maxInflight + maxQueue)
           && (results[i].decision == Reject <==> maxInflight + maxQueue <= i)
           && (results[i].decision == Queue ==> results[i].position == i - maxInflight + 1)
  {
    AcquireRun(Limiter(0, 0, maxInflight, maxQueue, false), n);
    hide AcquireAll;
  }

  /** A closed limiter answers nothing else any more. */
  lemma {:induction false} ClosedRefusesAll(l: Limiter, n: nat)
    requires l.closed
    ensures AcquireAll(l, n).0 == l
    ensures forall i | 0 <= i < n :: AcquireAll(l, n).1[i] == Acquired(Closed, false, 0)
  {
    if n > 0 {
      ClosedRefusesAll(l, n - 1);
    }
  }
}

/** The mutable limiter and its permits. */
module LimiterObjects {
  import opened LimiterCore

  class InflightLimiter {
    var currentInflight: nat
    var queuedRequests: nat
    const maxInflight: nat
    const maxQueueSize: nat
    var closed: bool
    /** Whether a callback is installed, and how often one has run. */
    var onRelease: bool
    ghost var callbacks: nat

    function View(): Limiter
      reads this
    {
      Limiter(currentInflight, queuedRequests, maxInflight, maxQueueSize, closed)
    }

    constructor (maxInflight: nat, maxQueueSize: nat)
      requires 0 < maxInflight
      ensures View() == Limiter(0, 0, maxInflight, maxQueueSize, false)
      ensures View().Bounded() && !onRelease && callbacks == 0
    {
      this.maxInflight, this.maxQueueSize := maxInflight, maxQueueSize;
      currentInflight, queuedRequests, closed := 0, 0, false;
      onRelease, callbacks := false, 0;
    }

    method TryAcquireOrQueue() returns (decision: Decision, permit: Permit, position: nat)
      modifies this`currentInflight, this`queuedRequests
      ensures fresh(permit) && permit.state == this
      ensures (View(), Acquired(decision, permit.ownsSlot, position)) ==
        LimiterCore.TryAcquireOrQueue(old(View()))
      ensures decision == Closed <==> closed
      ensures decision == Admit <==> !closed && old(currentInflight) < maxInflight
      ensures decision == Queue <==>
        !closed && old(currentInflight) >= maxInflight && old(queuedRequests) < maxQueueSize
      ensures permit.ownsSlot <==> decision == Admit
      ensures currentInflight == old(currentInflight) + (if decision == Admit then 1 else 0)
      ensures queuedRequests == old(queuedRequests) + (if decision == Queue then 1 else 0)
      ensures position == if decision == Queue then queuedRequests else 0
    {
      if closed {
        permit := new Permit(this, false);
        return Closed, permit, 0;
      }
      if currentInflight < maxInflight {
        currentInflight := currentInflight + 1;
        permit := new Permit(this, true);
        return Admit, permit, 0;
      }
      permit := new Permit(this, false);
      if queuedRequests < maxQueueSize {
        queuedRequests := queuedRequests + 1;
        return Queue, permit, queuedRequests;
      }
      return Reject, permit, 0;
    }

    method TryPromoteQueued() returns (permit: Permit)
      modifies this`currentInflight, this`queuedRequests
      ensures fresh(permit) && permit.state == this
      ensures (View(), permit.ownsSlot) == LimiterCore.TryPromoteQueued(old(View()))
    {
      if closed || queuedRequests == 0 || currentInflight >= maxInflight {
        permit := new Permit(this, false);
        return;
      }
      queuedRequests := queuedRequests - 1;
      currentInflight := currentInflight + 1;
      permit := new Permit(this, true);
    }

    method CancelQueued() returns (cancelled: bool)
      modifies this`queuedRequests
      ensures (View(), cancelled) == LimiterCore.CancelQueued(old(View()))
    {
      if queuedRequests == 0 {
        return false;
      }
      queuedRequests := queuedRequests - 1;
      cancelled := true;
    }

    method Close()
      modifies this`closed, this`queuedRequests
      ensures View() == LimiterCore.Close(old(View()))
    {
      closed := true;
      queuedRequests := 0;
    }

    method SetOnRelease()
      modifies this`onRelease
      ensures onRelease
    {
      onRelease := true;
    }
  }

  /** Null stands for the argument error the constructor throws. */
  method MakeLimiter(maxInflight: nat, maxQueueSize: nat) returns (limiter: InflightLimiter?)
    ensures limiter == null <==> maxInflight == 0
    ensures limiter != null ==>
      fresh(limiter) && limiter.View() == Limiter(0, 0, maxInflight, maxQueueSize, false)
  {
    if maxInflight == 0 {
      return null;
    }
    limiter := new InflightLimiter(maxInflight, maxQueueSize);
  }

  /** A movable handle on at most one slot; `state` is the shared limiter state. */
  class Permit {
    var state: InflightLimiter
    var ownsSlot: bool

    constructor (state: InflightLimiter, ownsSlot: bool)
      ensures this.state == state && this.ownsSlot == ownsSlot
    {
      this.state, this.ownsSlot := state, ownsSlot;
    }

    /** The move constructor: the new permit takes over what the other one owned. */
    constructor MoveFrom(other: Permit)
      modifies other`ownsSlot
      ensures state == old(other.state) && ownsSlot == old(other.ownsSlot) && !other.ownsSlot
    {
      state, ownsSlot := other.state, other.ownsSlot;
      new;
      other.ownsSlot := false;
    }

    /** Gives the slot back if there is one; afterwards there is none, so a second
        release, or the destructor, does nothing.  The callback runs exactly when a
        slot was given back and a callback is installed. */
    method Release() returns (notified: bool)
      modifies this`ownsSlot, state`currentInflight, state`callbacks
      ensures !ownsSlot
      ensures state.View() ==
        if old(ownsSlot) then ReleaseSlot(old(state.View())).0 else old(state.View())
      ensures notified <==> old(ownsSlot && state.onRelease && state.currentInflight > 0)
      ensures state.callbacks == old(state.callbacks) + if notified then 1 else 0
    {
      if !ownsSlot {
        return false;
      }
      ownsSlot := false;
      if state.currentInflight == 0 {
        return false;
      }
      state.currentInflight := state.currentInflight - 1;
      if state.onRelease {
        state.callbacks := state.callbacks + 1;
        return true;
      }
      return false;
    }

    /** Move assignment: the slot held so far is given back first; assigning a permit
        to itself changes nothing. */
    method MoveAssign(other: Permit) returns (notified: bool)
      modifies this, other`ownsSlot, state`currentInflight, state`callbacks
      ensures this == other ==>
        ownsSlot == old(ownsSlot) && state == old(state) && !notified && state.View() == old(state.View())
      ensures this != other ==>
        && ownsSlot == old(other.ownsSlot) && state == old(other.state) && !other.ownsSlot
        && old(state).View() ==
             (if old(ownsSlot) then ReleaseSlot(old(state.View())).0 else old(state.View()))
        && (notified <==> old(ownsSlot && state.onRelease && state.currentInflight > 0))
    {
      notified := false;
      if this != other {
        notified := Release();
        state := other.state;
        ownsSlot := other.ownsSlot;
        other.ownsSlot := false;
      }
    }
  }
}
