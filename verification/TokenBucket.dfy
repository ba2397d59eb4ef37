/** The token bucket (controller/src/token_bucket.cpp) over exact reals.  The clock
    is a parameter: the time a call reads inside its critical section. */
module TokenBuckets {

  datatype Bucket = Bucket(capacity: real, rate: real, tokens: real, lastRefill: real) {
    predicate Valid() {
      0.0 < capacity && 0.0 < rate && 0.0 <= tokens <= capacity
    }
  }

  function Min(a: real, b: real): real { if b < a then b else a }

  function Refill(b: Bucket, now: real): Bucket {
    if now <= b.lastRefill then b
    else b.(tokens := Min(b.capacity, b.tokens + (now - b.lastRefill) * b.rate), lastRefill := now)
  }

  datatype Call = Consume(now: real, amount: real) | Query(now: real)

  /** Invalid stands for the argument error; such a call does not even refill. */
  datatype Answer = Granted(amount: real) | Refused | Invalid | Available(tokens: real)

  function Answered(b: Bucket, call: Call): (Bucket, Answer) {
    match call
    case Consume(now, amount) =>
      if amount <= 0.0 then (b, Invalid)
      else
        var full := Refill(b, now);
        if full.tokens < amount then (full, Refused)
        else (full.(tokens := full.tokens - amount), Granted(amount))
    case Query(now) => (Refill(b, now), Available(Refill(b, now).tokens))
  }

  function Serve(b: Bucket, calls: seq<Call>): (r: (Bucket, seq<Answer>))
    ensures |r.1| == |calls|
    decreases |calls|
  {
    if calls == [] then (b, []) else
      var (next, answer) := Answered(b, calls[0]);
      var (last, answers) := Serve(next, calls[1..]);
      (last, [answer] + answers)
  }

  function TotalGranted(answers: seq<Answer>): real {
    if answers == [] then 0.0
    else (if answers[0].Granted? then answers[0].amount else 0.0) + TotalGranted(answers[1..])
  }

  // ----- the rate bound ------------------------------------------------------

  lemma RefillBounded(b: Bucket, now: real)
    requires b.Valid()
    ensures var full := Refill(b, now);
      && full.Valid() && full.capacity == b.capacity && full.rate == b.rate
      && full.lastRefill >= b.lastRefill && full.tokens >= b.tokens
      && full.tokens <= b.tokens + b.rate * (full.lastRefill - b.lastRefill)
  {
    if now > b.lastRefill {
      var gained := (now - b.lastRefill) * b.rate;
      Product(now - b.lastRefill, b.rate);
      assert Refill(b, now).tokens == Min(b.capacity, b.tokens + gained);
    }
  }

  lemma Product(a: real, b: real)
    requires a >= 0.0 && b >= 0.0
    ensures a * b >= 0.0 && a * b == b * a
  {}

  lemma AnsweredBounded(b: Bucket, call: Call)
    requires b.Valid()
    ensures var (next, answer) := Answered(b, call);
      && next.Valid() && next.capacity == b.capacity && next.rate == b.rate
      && b.lastRefill <= next.lastRefill && (next.lastRefill == b.lastRefill || next.lastRefill == call.now)
      && next.tokens + (if answer.Granted? then answer.amount else 0.0)
           <= b.tokens + b.rate * (next.lastRefill - b.lastRefill)
  {
    RefillBounded(b, call.now);
  }

  lemma {:induction false} Budget(b: Bucket, calls: seq<Call>)
    requires b.Valid()
    ensures var (last, answers) := Serve(b, calls);
      && last.Valid() && last.capacity == b.capacity && last.rate == b.rate
      && b.lastRefill <= last.lastRefill
      && (last.lastRefill == b.lastRefill || exists k | 0 <= k < |calls| :: calls[k].now == last.lastRefill)
      && TotalGranted(answers) + last.tokens <= b.tokens + b.rate * (last.lastRefill - b.lastRefill)
    decreases |calls|
  {
    hide Answered, Refill;
    if calls != [] {
      var (next, answer) := Answered(b, calls[0]);
      AnsweredBounded(b, calls[0]);
      Budget(next, calls[1..]);
      var (last, answers) := Serve(next, calls[1..]);
      Distribute(b.rate, last.lastRefill, next.lastRefill, b.lastRefill);
      assert ([answer] + answers)[1..] == answers;
      if k :| 0 <= k < |calls| - 1 && calls[1..][k].now == last.lastRefill {
        assert calls[k + 1].now == last.lastRefill;
      }
    }
  }

  lemma Distribute(rate: real, a: real, b: real, c: real)
    ensures rate * (a - b) + rate * (b - c) == rate * (a - c)
  {}

  lemma Scale(rate: real, a: real, b: real)
    requires rate >= 0.0 && a <= b
    ensures rate * a <= rate * b
  {
    Product(b - a, rate);
    assert rate * b - rate * a == rate * (b - a);
  }

  /** In any run of calls, at any times up to `end`, from any reachable state: the
      tokens granted are at most those there at the start plus rate times elapsed
      time, and the bucket stays between empty and full. */
  lemma RateBound(b: Bucket, calls: seq<Call>, end: real)
    requires b.Valid() && b.lastRefill <= end && forall k | 0 <= k < |calls| :: calls[k].now <= end
    ensures var (last, answers) := Serve(b, calls);
      && TotalGranted(answers) <= b.tokens + b.rate * (end - b.lastRefill)
           <= b.capacity + b.rate * (end - b.lastRefill)
      && 0.0 <= last.tokens <= last.capacity == b.capacity
  {
    hide Serve, TotalGranted;
    Budget(b, calls);
    var (last, answers) := Serve(b, calls);
    StillBounded(TotalGranted(answers), last.tokens, b.tokens, b.rate,
                 last.lastRefill - b.lastRefill, end - b.lastRefill);
  }

  lemma StillBounded(granted: real, left: real, tokens: real, rate: real, used: real, elapsed: real)
    requires rate >= 0.0 && used <= elapsed && left >= 0.0 && granted + left <= tokens + rate * used
    ensures granted <= tokens + rate * elapsed
  {
    Scale(rate, used, elapsed);
  }

  // ----- the exact account ---------------------------------------------------

  function Later(a: real, b: real): real { if a < b then b else a }

  /** Invalid calls throw before they look at the clock. */
  predicate Refills(call: Call) { call.Query? || call.amount > 0.0 }

  /** The last time a run has refilled the bucket at; a clock that went back is
      ignored. */
  function Latest(from: real, calls: seq<Call>): real
    decreases |calls|
  {
    if calls == [] then from
    else Latest(if Refills(calls[0]) then Later(from, calls[0].now) else from, calls[1..])
  }

  /** What the bucket would hold at `now` if it were large enough. */
  function Uncapped(b: Bucket, now: real): real {
    b.tokens + b.rate * (Later(b.lastRefill, now) - b.lastRefill)
  }

  /** What one call finds in the bucket. */
  function Found(b: Bucket, now: real): real { Min(b.capacity, Uncapped(b, now)) }

  /** One answer, from the tokens it finds: granted exactly what was asked for if that
      much is there, and refused exactly if it is not. */
  lemma AnswerMeaning(b: Bucket, call: Call)
    requires b.Valid()
    ensures var (next, answer) := Answered(b, call);
      && (call.Query? ==> answer == Available(Found(b, call.now)))
      && (call.Consume? ==>
            && (answer == Invalid <==> call.amount <= 0.0)
            && (answer == Refused <==> call.amount > 0.0 && Found(b, call.now) < call.amount)
            && (answer == Granted(call.amount) <==> 0.0 < call.amount <= Found(b, call.now)))
      && next == (if !Refills(call) then b else b.(
           tokens := Found(b, call.now) - (if answer.Granted? then answer.amount else 0.0),
           lastRefill := Later(b.lastRefill, call.now)))
  {
    RefillFinds(b, call.now);
    hide Refill, Found;
  }

  lemma RefillFinds(b: Bucket, now: real)
    requires b.Valid()
    ensures Refill(b, now) == b.(tokens := Found(b, now), lastRefill := Later(b.lastRefill, now))
  {
    if now <= b.lastRefill {
      assert b.rate * (b.lastRefill - b.lastRefill) == 0.0;
    } else {
      Commute(b.rate, now - b.lastRefill);
    }
  }

  lemma Commute(a: real, b: real)
    ensures a * b == b * a
  {}

  lemma {:induction false} AnswerAt(b: Bucket, calls: seq<Call>, k: nat)
    requires k < |calls|
    ensures (Serve(b, calls[..k + 1]).0, Serve(b, calls).1[k]) == Answered(Serve(b, calls[..k]).0, calls[k])
    decreases k
  {
    hide Answered;
    assert calls[..k + 1][0] == calls[0];
    if k == 0 {
      assert calls[..1][1..] == [] && calls[..0] == [];
    } else {
      assert calls[..k][0] == calls[0] && calls[..k][1..] == calls[1..][..k - 1];
      assert calls[..k + 1][1..] == calls[1..][..k];
      AnswerAt(Answered(b, calls[0]).0, calls[1..], k - 1);
    }
  }

  /** The same for every call of a run. */
  lemma ConsumeLaw(b: Bucket, calls: seq<Call>, k: nat)
    requires b.Valid() && k < |calls| && calls[k].Consume?
    ensures var before, after := Serve(b, calls[..k]).0, Serve(b, calls[..k + 1]).0;
      var answer, found, amount := Serve(b, calls).1[k], Found(before, calls[k].now), calls[k].amount;
      && (answer == Invalid <==> amount <= 0.0) && (answer == Invalid ==> after == before)
      && (answer == Refused <==> amount > 0.0 && found < amount) && (answer == Refused ==> after.tokens == found)
      && (answer == Granted(amount) <==> 0.0 < amount <= found)
      && (answer == Granted(amount) ==> after.tokens == found - amount)
  {
    Budget(b, calls[..k]);
    AnswerAt(b, calls, k);
    AnswerMeaning(Serve(b, calls[..k]).0, calls[k]);
    hide Serve, Answered, Found;
  }

  /** What a run loses because the bucket is full. */
  function Spilled(b: Bucket, calls: seq<Call>): real
    decreases |calls|
  {
    if calls == [] then 0.0
    else
      (if Refills(calls[0]) then Later(0.0, Uncapped(b, calls[0].now) - b.capacity) else 0.0)
      + Spilled(Answered(b, calls[0]).0, calls[1..])
  }

  lemma AnswerAccount(b: Bucket, call: Call)
    requires b.Valid()
    ensures var (next, answer) := Answered(b, call);
      && next.Valid() && next.capacity == b.capacity && next.rate == b.rate
      && next.lastRefill == (if Refills(call) then Later(b.lastRefill, call.now) else b.lastRefill)
      && (if answer.Granted? then answer.amount else 0.0) + next.tokens
           + (if Refills(call) then Later(0.0, Uncapped(b, call.now) - b.capacity) else 0.0)
         == b.tokens + b.rate * (next.lastRefill - b.lastRefill)
  {
    AnswerMeaning(b, call);
    AnsweredBounded(b, call);
    hide Answered;
  }

  /** Nothing is lost and nothing comes from nowhere: tokens granted, left and spilled
      are the tokens at the start plus rate times elapsed time. */
  lemma {:induction false} Account(b: Bucket, calls: seq<Call>)
    requires b.Valid()
    ensures var (last, answers) := Serve(b, calls);
      && last.lastRefill == Latest(b.lastRefill, calls)
      && TotalGranted(answers) + last.tokens + Spilled(b, calls)
           == b.tokens + b.rate * (last.lastRefill - b.lastRefill)
      && Spilled(b, calls) >= 0.0
    decreases |calls|
  {
    hide Answered, Uncapped;
    if calls != [] {
      var (next, answer) := Answered(b, calls[0]);
      AnswerAccount(b, calls[0]);
      Account(next, calls[1..]);
      var (last, answers) := Serve(next, calls[1..]);
      Distribute(b.rate, last.lastRefill, next.lastRefill, b.lastRefill);
      assert ([answer] + answers)[1..] == answers;
    }
  }

  /** No call of the run finds the bucket fuller than its capacity. */
  predicate NeverFull(b: Bucket, calls: seq<Call>)
    decreases |calls|
  {
    calls == [] || ((Refills(calls[0]) ==> Uncapped(b, calls[0].now) <= b.capacity)
                    && NeverFull(Answered(b, calls[0]).0, calls[1..]))
  }

  /** While the cap is never reached the budget is used to the last token. */
  lemma ExactBudget(b: Bucket, calls: seq<Call>)
    requires b.Valid()
    ensures var (last, answers) := Serve(b, calls);
      (TotalGranted(answers) + last.tokens == b.tokens + b.rate * (last.lastRefill - b.lastRefill))
      <==> NeverFull(b, calls)
  {
    Account(b, calls);
    SpillsWhenFull(b, calls);
  }

  lemma {:induction false} SpillsWhenFull(b: Bucket, calls: seq<Call>)
    requires b.Valid()
    ensures Spilled(b, calls) >= 0.0 && (Spilled(b, calls) == 0.0 <==> NeverFull(b, calls))
    decreases |calls|
  {
    hide Answered, Uncapped;
    if calls != [] {
      AnsweredBounded(b, calls[0]);
      SpillsWhenFull(Answered(b, calls[0]).0, calls[1..]);
    }
  }

  /** What is in the bucket at a time not before its last refill. */
  function FilledTo(b: Bucket, time: real): real {
    Min(b.capacity, b.tokens + b.rate * (time - b.lastRefill))
  }

  lemma FillTwice(b: Bucket, mid: real, end: real)
    requires b.rate >= 0.0 && mid <= end
    ensures FilledTo(b.(tokens := FilledTo(b, mid), lastRefill := mid), end) == FilledTo(b, end)
  {
    Product(b.rate, end - mid);
    Distribute(b.rate, end, mid, b.lastRefill);
  }

  lemma FoundIsFilled(b: Bucket, now: real)
    ensures Found(b, now) == FilledTo(b, Later(b.lastRefill, now))
  {}

  /** A bucket nobody takes from fills at its rate, up to its capacity. */
  lemma {:induction false} FillLaw(b: Bucket, calls: seq<Call>)
    requires b.Valid() && forall k | 0 <= k < |calls| :: !Serve(b, calls).1[k].Granted?
    ensures Latest(b.lastRefill, calls) >= b.lastRefill
    ensures Serve(b, calls).0.lastRefill == Latest(b.lastRefill, calls)
    ensures Serve(b, calls).0.tokens == FilledTo(b, Latest(b.lastRefill, calls))
    decreases |calls|
  {
    hide Answered, Found;
    if calls == [] {
      assert b.rate * 0.0 == 0.0;
    } else {
      hide FilledTo;
      var (next, answer) := Answered(b, calls[0]);
      AnswerMeaning(b, calls[0]);
      AnsweredBounded(b, calls[0]);
      var answers := Serve(next, calls[1..]).1;
      assert forall k | 0 <= k < |answers| :: answers[k] == Serve(b, calls).1[k + 1];
      assert answer == Serve(b, calls).1[0];
      FillLaw(next, calls[1..]);
      if Refills(calls[0]) {
        FoundIsFilled(b, calls[0].now);
        FillTwice(b, next.lastRefill, Latest(b.lastRefill, calls));
      }
    }
  }

  /** In particular after a run whose last and latest call is at time t. */
  lemma {:induction false} FilledAt(b: Bucket, calls: seq<Call>, last: Call)
    requires b.Valid() && b.lastRefill <= last.now && Refills(last)
    requires forall k | 0 <= k < |calls| :: calls[k].now <= last.now
    requires forall k | 0 <= k <= |calls| :: !Serve(b, calls + [last]).1[k].Granted?
    ensures Serve(b, calls + [last]).0.tokens
      == Min(b.capacity, b.tokens + b.rate * (last.now - b.lastRefill))
  {
    hide Serve, Latest, Refills;
    FillLaw(b, calls + [last]);
    LatestIsLast(b.lastRefill, calls, last);
  }

  lemma {:induction false} LatestIsLast(from: real, calls: seq<Call>, last: Call)
    requires from <= last.now && Refills(last)
    requires forall k | 0 <= k < |calls| :: calls[k].now <= last.now
    ensures Latest(from, calls + [last]) == last.now
    decreases |calls|
  {
    if calls != [] {
      assert (calls + [last])[1..] == calls[1..] + [last];
      assert forall k | 0 <= k < |calls| - 1 :: calls[1..][k] == calls[k + 1];
      LatestIsLast(if Refills(calls[0]) then Later(from, calls[0].now) else from, calls[1..], last);
    }
  }

  // ----- calls that grant nothing leave no trace -----------------------------

  lemma RefillTwice(b: Bucket, first: real, second: real)
    requires b.Valid() && first <= second
    ensures Refill(Refill(b, first), second) == Refill(b, second)
  {
    if first > b.lastRefill {
      Distribute(b.rate, second, first, b.lastRefill);
      Product(second - first, b.rate);
      Product(first - b.lastRefill, b.rate);
    }
  }

  predicate InOrder(from: real, calls: seq<Call>) {
    forall k | 0 <= k < |calls| :: from <= calls[k].now && forall j | 0 <= j < k :: calls[j].now <= calls[k].now
  }

  /** Two buckets that no call from `now` on can tell apart. */
  ghost predicate Alike(a: Bucket, b: Bucket, now: real) {
    forall t: real | now <= t :: Refill(a, t) == Refill(b, t)
  }

  lemma AlikeAnswers(a: Bucket, b: Bucket, call: Call)
    requires Alike(a, b, call.now)
    ensures Answered(a, call).1 == Answered(b, call).1
    ensures Answered(a, call).0 == Answered(b, call).0 || Alike(Answered(a, call).0, Answered(b, call).0, call.now)
  {
    assert Refill(a, call.now) == Refill(b, call.now);
  }

  lemma {:induction false} AlikeServe(a: Bucket, b: Bucket, now: real, calls: seq<Call>)
    requires Alike(a, b, now) && InOrder(now, calls)
    ensures Serve(a, calls).1 == Serve(b, calls).1
    decreases |calls|
  {
    hide Answered, Refill;
    if calls != [] {
      var t := calls[0].now;
      assert Alike(a, b, t);
      AlikeAnswers(a, b, calls[0]);
      var x, y := Answered(a, calls[0]).0, Answered(b, calls[0]).0;
      assert Alike(x, y, t);
      assert forall k | 0 <= k < |calls| - 1 :: calls[1..][k] == calls[k + 1] && calls[0].now <= calls[k + 1].now;
      AlikeServe(x, y, t, calls[1..]);
    }
  }

  lemma {:induction false} ServeConcat(b: Bucket, first: seq<Call>, second: seq<Call>)
    ensures Serve(b, first + second).1 == Serve(b, first).1 + Serve(Serve(b, first).0, second).1
    decreases |first|
  {
    hide Answered;
    if first == [] {
      assert first + second == second;
    } else {
      assert (first + second)[1..] == first[1..] + second;
      ServeConcat(Answered(b, first[0]).0, first[1..], second);
    }
  }

  /** A query, a refused call or an invalid one, put anywhere into a run in the order
      of the clock, changes no other answer. */
  lemma FruitlessCallIsInvisible(b: Bucket, before: seq<Call>, call: Call, later: seq<Call>)
    requires b.Valid() && InOrder(call.now, later)
    requires !Answered(Serve(b, before).0, call).1.Granted?
    ensures SameBut(Serve(b, before + [call] + later).1, Serve(b, before + later).1, |before|)
  {
    hide Answered, Serve, SameBut, InOrder;
    var p, x, q := SplitAnswers(b, before, call, later);
    Slices(|before|, p, x, q);
  }

  /** The first list is the second one with an answer inserted at n. */
  predicate SameBut(more: seq<Answer>, fewer: seq<Answer>, n: nat) {
    n < |more| && n <= |fewer| && more[..n] == fewer[..n] && more[n + 1..] == fewer[n..]
  }

  lemma SplitAnswers(b: Bucket, before: seq<Call>, call: Call, later: seq<Call>)
    returns (p: seq<Answer>, x: Answer, q: seq<Answer>)
    requires b.Valid() && InOrder(call.now, later)
    requires !Answered(Serve(b, before).0, call).1.Granted?
    ensures |p| == |before|
    ensures Serve(b, before + [call] + later).1 == p + ([x] + q)
    ensures Serve(b, before + later).1 == p + q
  {
    var mid := Serve(b, before).0;
    Budget(b, before);
    LeavesAlike(mid, call);
    hide *;
    AlikeServe(mid, Answered(mid, call).0, call.now, later);
    ServeConcat(b, before, later);
    ServeConcat(b, before, [call] + later);
    ServeFirst(mid, call, later);
    Associate(before, [call], later);
    p, x, q := Serve(b, before).1, Answered(mid, call).1, Serve(mid, later).1;
  }

  lemma Associate<T>(a: seq<T>, b: seq<T>, c: seq<T>)
    ensures a + b + c == a + (b + c)
  {}

  lemma Slices(n: nat, p: seq<Answer>, x: Answer, q: seq<Answer>)
    requires |p| == n
    ensures SameBut(p + ([x] + q), p + q, n)
  {
    assert (p + ([x] + q))[n + 1..] == q == (p + q)[n..];
  }

  lemma ServeFirst(b: Bucket, call: Call, later: seq<Call>)
    ensures Serve(b, [call] + later).1 == [Answered(b, call).1] + Serve(Answered(b, call).0, later).1
  {
    assert ([call] + later)[1..] == later;
  }

  lemma LeavesAlike(b: Bucket, call: Call)
    requires b.Valid() && !Answered(b, call).1.Granted?
    ensures Alike(b, Answered(b, call).0, call.now)
  {
    forall t: real | call.now <= t
      ensures Refill(b, t) == Refill(Answered(b, call).0, t)
    {
      RefillTwice(b, call.now, t);
    }
  }
}

/** The mutable bucket. */
module TokenBucketObject {
  import opened TokenBuckets

  class TokenBucket {
    const capacity: real
    const refillRatePerSecond: real
    var tokens: real
    var lastRefill: real

    function View(): Bucket
      reads this
    {
      Bucket(capacity, refillRatePerSecond, tokens, lastRefill)
    }

    constructor (capacity: real, refillRatePerSecond: real, now: real)
      requires 0.0 < capacity && 0.0 < refillRatePerSecond
      ensures View() == Bucket(capacity, refillRatePerSecond, capacity, now) && View().Valid()
    {
      this.capacity, this.refillRatePerSecond := capacity, refillRatePerSecond;
      tokens, lastRefill := capacity, now;
    }

    method RefillUnlocked(now: real)
      modifies this
      ensures View() == Refill(old(View()), now)
    {
      if now <= lastRefill {
        return;
      }
      var elapsed := now - lastRefill;
      tokens := Min(capacity, tokens + elapsed * refillRatePerSecond);
      lastRefill := now;
    }

    method TryConsume(amount: real, now: real) returns (answer: Answer)
      modifies this
      ensures (View(), answer) == Answered(old(View()), Consume(now, amount))
    {
      if amount <= 0.0 {
        return Invalid;
      }
      RefillUnlocked(now);
      if tokens < amount {
        return Refused;
      }
      tokens := tokens - amount;
      return Granted(amount);
    }

    method AvailableTokens(now: real) returns (available: real)
      modifies this
      ensures (View(), Available(available)) == Answered(old(View()), Query(now))
    {
      RefillUnlocked(now);
      available := tokens;
    }
  }

  /** Null stands for the argument error the constructor throws. */
  method MakeBucket(capacity: real, refillRatePerSecond: real, now: real) returns (bucket: TokenBucket?)
    ensures bucket == null <==> capacity <= 0.0 || refillRatePerSecond <= 0.0
    ensures bucket != null ==>
      fresh(bucket) && bucket.View() == Bucket(capacity, refillRatePerSecond, capacity, now)
  {
    if capacity <= 0.0 || refillRatePerSecond <= 0.0 {
      return null;
    }
    bucket := new TokenBucket(capacity, refillRatePerSecond, now);
  }
}
