/** The admission policy (controller/src/admission_policy.cpp): a recommended
    in-flight limit that halves on critical overload, decrements on soft overload
    and grows back slowly.  Metrics are exact reals. */
module AdmissionControl {

  datatype Config = Config(
    minInflight: int, maxInflight: int, maxQueueSize: int,
    targetTtft: real, criticalTtft: real, maxKvCache: real, maxGpuMemory: real,
    maxWaiting: int, recoveryRatio: real, cooldownSamples: int)

  datatype Metrics = Metrics(p95Ttft: real, waiting: int, kvCache: real, gpuMemory: real, errorRate: real)

  datatype Load = Load(inflight: int, queueSize: int)

  datatype Decision = Admit | Queue | Reject

  datatype Result = Result(decision: Decision, recommended: int, overloaded: bool, critical: bool)

  datatype Option<+T> = None | Some(value: T)

  predicate IsRatio(value: real) { 0.0 <= value <= 1.0 }

  /** The configurations the constructor does not refuse. */
  predicate Accepted(c: Config) {
    && 0 < c.minInflight <= c.maxInflight && 0 <= c.maxQueueSize
    && 0.0 < c.targetTtft <= c.criticalTtft
    && IsRatio(c.maxKvCache) && IsRatio(c.maxGpuMemory)
    && 0 <= c.maxWaiting && 0.0 < c.recoveryRatio < 1.0 && 0 < c.cooldownSamples
  }

  // ----- classifying a sample ------------------------------------------------

  predicate IsSoftOverload(c: Config, m: Metrics) {
    || m.p95Ttft >= c.targetTtft || m.kvCache >= c.maxKvCache
    || m.gpuMemory >= c.maxGpuMemory || m.waiting >= c.maxWaiting
  }

  predicate IsCriticalOverload(c: Config, m: Metrics) {
    || m.p95Ttft >= c.criticalTtft || m.kvCache >= 0.98
    || m.gpuMemory >= 0.98 || m.errorRate >= 0.10
  }

  predicate IsRecovery(c: Config, m: Metrics) {
    && m.p95Ttft < c.targetTtft * c.recoveryRatio
    && m.kvCache < c.maxKvCache * c.recoveryRatio
    && m.gpuMemory < c.maxGpuMemory * c.recoveryRatio
    && m.waiting as real < c.maxWaiting as real * c.recoveryRatio
    && m.errorRate < 0.01
  }

  /** All that the recommendation depends on. */
  datatype Sample = Recovering | Steady | Soft | Critical

  function Classify(soft: bool, critical: bool, recovery: bool): Sample {
    if critical then Critical else if soft then Soft else if recovery then Recovering else Steady
  }

  function SampleOf(c: Config, m: Metrics): Sample {
    Classify(IsSoftOverload(c, m), IsCriticalOverload(c, m), IsRecovery(c, m))
  }

  // ----- the recommendation --------------------------------------------------

  datatype Control = Control(recommended: int, cooldown: int, streak: int)

  function Start(c: Config): Control { Control(c.maxInflight, 0, 0) }

  function Max(a: int, b: int): int { if a < b then b else a }
  function Min(a: int, b: int): int { if b < a then b else a }

  function Update(c: Config, s: Control, sample: Sample): Control {
    match sample
    case Critical => Control(Max(c.minInflight, s.recommended / 2), c.cooldownSamples, 0)
    case Soft => Control(Max(c.minInflight, s.recommended - 1), c.cooldownSamples, 0)
    case _ =>
      if s.cooldown > 0 then s.(cooldown := s.cooldown - 1)
      else if sample == Steady then s.(streak := 0)
      else if s.streak + 1 >= c.cooldownSamples then
        Control(Min(c.maxInflight, s.recommended + 1), s.cooldown, 0)
      else s.(streak := s.streak + 1)
  }

  /** Every state an accepted configuration can lead to.  No sum exceeds
      `maxInflight` + 1 and no difference falls below 0. */
  predicate InRange(c: Config, s: Control) {
    && c.minInflight <= s.recommended <= c.maxInflight
    && 0 <= s.cooldown <= c.cooldownSamples
    && 0 <= s.streak < c.cooldownSamples
    && (s.cooldown > 0 ==> s.streak == 0)
  }

  lemma UpdateInRange(c: Config, s: Control, sample: Sample)
    requires Accepted(c) && InRange(c, s)
    ensures InRange(c, Update(c, s, sample))
  {}

  // ----- one evaluation ------------------------------------------------------

  function Decide(c: Config, m: Metrics, load: Load, recommended: int): Decision {
    if IsCriticalOverload(c, m) || load.queueSize >= c.maxQueueSize then Reject
    else if IsSoftOverload(c, m) || load.inflight >= recommended then Queue
    else Admit
  }

  predicate ValidLoad(load: Load) { load.inflight >= 0 && load.queueSize >= 0 }

  /** A negative counter is refused before anything changes. */
  function Evaluate(c: Config, s: Control, m: Metrics, load: Load): (Control, Option<Result>) {
    if !ValidLoad(load) then (s, None)
    else
      var next := Update(c, s, SampleOf(c, m));
      (next, Some(Result(Decide(c, m, load, next.recommended), next.recommended,
                         IsSoftOverload(c, m) || IsCriticalOverload(c, m), IsCriticalOverload(c, m))))
  }

}

/** The mutable policy. */
module PolicyObject {
  import opened AdmissionControl

  class AdmissionPolicy {
    const config: Config
    var recommendedMaxInflight: int
    var cooldownRemaining: int
    var consecutiveRecoverySamples: int

    function View(): Control
      reads this
    {
      Control(recommendedMaxInflight, cooldownRemaining, consecutiveRecoverySamples)
    }

    ghost predicate Valid()
      reads this
    {
      Accepted(config) && InRange(config, View())
    }

    constructor (config: Config)
      requires Accepted(config)
      ensures Valid() && this.config == config && View() == Start(config)
    {
      this.config := config;
      recommendedMaxInflight := config.maxInflight;
      cooldownRemaining, consecutiveRecoverySamples := 0, 0;
    }

    method UpdateRecommendation(softOverload: bool, criticalOverload: bool, recovery: bool)
      requires Valid()
      modifies this
      ensures Valid()
      ensures View() == Update(config, old(View()), Classify(softOverload, criticalOverload, recovery))
    {
      if criticalOverload {
        recommendedMaxInflight := Max(config.minInflight, recommendedMaxInflight / 2);
        cooldownRemaining := config.cooldownSamples;
        consecutiveRecoverySamples := 0;
        return;
      }
      if softOverload {
        recommendedMaxInflight := Max(config.minInflight, recommendedMaxInflight - 1);
        cooldownRemaining := config.cooldownSamples;
        consecutiveRecoverySamples := 0;
        return;
      }
      if cooldownRemaining > 0 {
        cooldownRemaining := cooldownRemaining - 1;
        return;
      }
      if !recovery {
        consecutiveRecoverySamples := 0;
        return;
      }
      consecutiveRecoverySamples := consecutiveRecoverySamples + 1;
      if consecutiveRecoverySamples >= config.cooldownSamples {
        recommendedMaxInflight := Min(config.maxInflight, recommendedMaxInflight + 1);
        consecutiveRecoverySamples := 0;
      }
    }

    /** None stands for the thrown argument error. */
    method Evaluate(metrics: Metrics, load: Load) returns (result: Option<Result>)
      requires Valid()
      modifies this
      ensures Valid()
      ensures (View(), result) == AdmissionControl.Evaluate(config, old(View()), metrics, load)
    {
      if load.inflight < 0 || load.queueSize < 0 {
        return None;
      }
      var softOverload := IsSoftOverload(config, metrics);
      var criticalOverload := IsCriticalOverload(config, metrics);
      var recovery := IsRecovery(config, metrics);
      UpdateRecommendation(softOverload, criticalOverload, recovery);
      var decision := Admit;
      if criticalOverload || load.queueSize >= config.maxQueueSize {
        decision := Reject;
      } else if softOverload || load.inflight >= recommendedMaxInflight {
        decision := Queue;
      }
      return Some(Result(decision, recommendedMaxInflight, softOverload || criticalOverload, criticalOverload));
    }
  }

  /** Null stands for the argument error the constructor throws. */
  method MakePolicy(config: Config) returns (policy: AdmissionPolicy?)
    ensures policy == null <==>
      || config.minInflight <= 0 || config.maxInflight < config.minInflight || config.maxQueueSize < 0
      || config.targetTtft <= 0.0 || config.criticalTtft < config.targetTtft
      || config.maxKvCache < 0.0 || config.maxKvCache > 1.0
      || config.maxGpuMemory < 0.0 || config.maxGpuMemory > 1.0
      || config.maxWaiting < 0 || config.recoveryRatio <= 0.0 || config.recoveryRatio >= 1.0
      || config.cooldownSamples <= 0
    ensures policy != null ==>
      fresh(policy) && policy.Valid() && policy.config == config && policy.View() == Start(config)
  {
    if config.minInflight <= 0 || config.maxInflight < config.minInflight || config.maxQueueSize < 0 {
      return null;
    }
    if config.targetTtft <= 0.0 || config.criticalTtft < config.targetTtft {
      return null;
    }
    if !IsRatio(config.maxKvCache) || !IsRatio(config.maxGpuMemory) || config.maxWaiting < 0 {
      return null;
    }
    if config.recoveryRatio <= 0.0 || config.recoveryRatio >= 1.0 || config.cooldownSamples <= 0 {
      return null;
    }
    policy := new AdmissionPolicy(config);
  }
}

/** Laws about whole runs of the policy. */
module AdmissionLaws {
  import opened AdmissionControl

  function UpdateAll(c: Config, s: Control, samples: seq<Sample>): Control
    decreases |samples|
  {
    if samples == [] then s else UpdateAll(c, Update(c, s, samples[0]), samples[1..])
  }

  lemma {:induction false} UpdateAllInRange(c: Config, s: Control, samples: seq<Sample>)
    requires Accepted(c) && InRange(c, s)
    ensures InRange(c, UpdateAll(c, s, samples))
    decreases |samples|
  {
    if samples != [] {
      UpdateInRange(c, s, samples[0]);
      UpdateAllInRange(c, Update(c, s, samples[0]), samples[1..]);
    }
  }

  // ----- monotonicity over pairs of runs -------------------------------------

  function Severity(s: Sample): nat {
    match s
    case Recovering => 0
    case Steady => 1
    case Soft => 2
    case Critical => 3
  }

  /** How close a state is to its next increase: negative while cooling down. */
  function Progress(s: Control): int { s.streak - s.cooldown }

  /** The worse run may be closer to its next increase only if that increase cannot
      take it past the better one. */
  predicate NotAhead(c: Config, worse: Control, better: Control) {
    && worse.recommended <= better.recommended
    && (Progress(worse) <= Progress(better)
        || (0 <= Progress(better)
            && (worse.recommended < better.recommended || better.recommended == c.maxInflight)))
  }

  lemma UpdateMonotone(c: Config, worse: Control, better: Control, bad: Sample, good: Sample)
    requires Accepted(c) && InRange(c, worse) && InRange(c, better)
    requires NotAhead(c, worse, better) && Severity(bad) >= Severity(good)
    ensures NotAhead(c, Update(c, worse, bad), Update(c, better, good))
  {
    HalvingIsStronger(worse.recommended, better.recommended);
  }

  lemma HalvingIsStronger(a: int, b: int)
    requires 0 < a <= b
    ensures a / 2 <= b / 2 && (a / 2 <= a - 1)
  {}

  /** Pointwise worse metrics and a pointwise larger load. */
  predicate WorseMetrics(bad: Metrics, good: Metrics) {
    && bad.p95Ttft >= good.p95Ttft && bad.waiting >= good.waiting && bad.kvCache >= good.kvCache
    && bad.gpuMemory >= good.gpuMemory && bad.errorRate >= good.errorRate
  }

  predicate LargerLoad(more: Load, less: Load) {
    more.inflight >= less.inflight && more.queueSize >= less.queueSize
  }

  lemma WorseIsMoreSevere(c: Config, bad: Metrics, good: Metrics)
    requires WorseMetrics(bad, good)
    ensures IsSoftOverload(c, good) ==> IsSoftOverload(c, bad)
    ensures IsCriticalOverload(c, good) ==> IsCriticalOverload(c, bad)
    ensures Severity(SampleOf(c, bad)) >= Severity(SampleOf(c, good))
  {}

  function Rank(d: Decision): nat {
    match d
    case Admit => 0
    case Queue => 1
    case Reject => 2
  }

  datatype Input = Input(metrics: Metrics, load: Load)

  function EvaluateAll(c: Config, s: Control, inputs: seq<Input>): (r: (Control, seq<Option<Result>>))
    ensures |r.1| == |inputs|
    decreases |inputs|
  {
    if inputs == [] then (s, []) else
      var (next, result) := Evaluate(c, s, inputs[0].metrics, inputs[0].load);
      var (last, results) := EvaluateAll(c, next, inputs[1..]);
      (last, [result] + results)
  }

  predicate Dominates(bad: seq<Input>, good: seq<Input>) {
    && |bad| == |good|
    && forall k | 0 <= k < |bad| ::
         ValidLoad(good[k].load) && WorseMetrics(bad[k].metrics, good[k].metrics) && LargerLoad(bad[k].load, good[k].load)
  }

  predicate AsRestrictive(bad: Option<Result>, good: Option<Result>) {
    && bad.Some? && good.Some?
    && bad.value.recommended <= good.value.recommended
    && Rank(bad.value.decision) >= Rank(good.value.decision)
    && (good.value.overloaded ==> bad.value.overloaded) && (good.value.critical ==> bad.value.critical)
  }

  lemma EvaluateMonotone(c: Config, worse: Control, better: Control, bad: Input, good: Input)
    requires Accepted(c) && InRange(c, worse) && InRange(c, better) && NotAhead(c, worse, better)
    requires ValidLoad(good.load) && WorseMetrics(bad.metrics, good.metrics) && LargerLoad(bad.load, good.load)
    ensures var (w, badResult) := Evaluate(c, worse, bad.metrics, bad.load);
      var (b, goodResult) := Evaluate(c, better, good.metrics, good.load);
      NotAhead(c, w, b) && AsRestrictive(badResult, goodResult)
  {
    WorseIsMoreSevere(c, bad.metrics, good.metrics);
    UpdateMonotone(c, worse, better, SampleOf(c, bad.metrics), SampleOf(c, good.metrics));
    hide Update, SampleOf, IsSoftOverload, IsCriticalOverload, IsRecovery, Accepted, InRange;
  }

  /** Two policies with one configuration, the first fed worse metrics and a larger
      load throughout: after every sample it recommends no more than the second and
      decides at least as restrictively. */
  lemma {:induction false} RunsAreMonotone(c: Config, worse: Control, better: Control, bad: seq<Input>, good: seq<Input>)
    requires Accepted(c) && InRange(c, worse) && InRange(c, better) && NotAhead(c, worse, better)
    requires Dominates(bad, good)
    ensures NotAhead(c, EvaluateAll(c, worse, bad).0, EvaluateAll(c, better, good).0)
    ensures forall k | 0 <= k < |bad| ::
      AsRestrictive(EvaluateAll(c, worse, bad).1[k], EvaluateAll(c, better, good).1[k])
    decreases |bad|
  {
    hide Update, SampleOf, NotAhead, AsRestrictive;
    if bad != [] {
      EvaluateMonotone(c, worse, better, bad[0], good[0]);
      UpdateInRange(c, worse, SampleOf(c, bad[0].metrics));
      UpdateInRange(c, better, SampleOf(c, good[0].metrics));
      var w := Evaluate(c, worse, bad[0].metrics, bad[0].load).0;
      var b := Evaluate(c, better, good[0].metrics, good[0].load).0;
      assert forall k | 0 <= k < |bad| - 1 :: bad[1..][k] == bad[k + 1] && good[1..][k] == good[k + 1];
      RunsAreMonotone(c, w, b, bad[1..], good[1..]);
    }
  }

  /** In particular for two new policies. */
  lemma PolicyIsMonotone(c: Config, bad: seq<Input>, good: seq<Input>)
    requires Accepted(c) && Dominates(bad, good)
    ensures forall k | 0 <= k < |bad| ::
      AsRestrictive(EvaluateAll(c, Start(c), bad).1[k], EvaluateAll(c, Start(c), good).1[k])
  {
    RunsAreMonotone(c, Start(c), Start(c), bad, good);
  }

  // ----- what a decision means -----------------------------------------------

  /** The k-th result of a run comes from the state that the first k inputs leave. */
  lemma {:induction false} ResultAt(c: Config, s: Control, inputs: seq<Input>, k: nat)
    requires k < |inputs|
    ensures var before := EvaluateAll(c, s, inputs[..k]).0;
      (EvaluateAll(c, s, inputs[..k + 1]).0, EvaluateAll(c, s, inputs).1[k])
        == Evaluate(c, before, inputs[k].metrics, inputs[k].load)
    decreases k
  {
    hide Evaluate;
    assert inputs[..k + 1][0] == inputs[0];
    if k == 0 {
      assert inputs[..1][1..] == [] && inputs[..0] == [];
    } else {
      assert inputs[..k][0] == inputs[0] && inputs[..k][1..] == inputs[1..][..k - 1];
      assert inputs[..k + 1][1..] == inputs[1..][..k];
      ResultAt(c, Evaluate(c, s, inputs[0].metrics, inputs[0].load).0, inputs[1..], k - 1);
    }
  }

  /** Every result of a run of a new policy, from the numbers alone: an error exactly
      for negative counters; Reject exactly on a critical threshold or a full queue;
      otherwise Queue exactly on a soft threshold or with the recommendation, as it
      is after this sample, used up; otherwise Admit. */
  lemma DecisionLaw(c: Config, inputs: seq<Input>, k: nat)
    requires k < |inputs|
    ensures var result := EvaluateAll(c, Start(c), inputs).1[k];
      var recommended := EvaluateAll(c, Start(c), inputs[..k + 1]).0.recommended;
      var m, load := inputs[k].metrics, inputs[k].load;
      var critical := m.p95Ttft >= c.criticalTtft || m.kvCache >= 0.98 || m.gpuMemory >= 0.98 || m.errorRate >= 0.10;
      var soft := m.p95Ttft >= c.targetTtft || m.kvCache >= c.maxKvCache
        || m.gpuMemory >= c.maxGpuMemory || m.waiting >= c.maxWaiting;
      var full := load.queueSize >= c.maxQueueSize;
      && (result == None <==> load.inflight < 0 || load.queueSize < 0)
      && (result.Some? ==>
            && result.value.recommended == recommended
            && result.value.critical == critical && result.value.overloaded == (soft || critical)
            && (result.value.decision == Reject <==> critical || full)
            && (result.value.decision == Queue <==>
                  !critical && !full && (soft || load.inflight >= recommended))
            && (result.value.decision == Admit <==>
                  !critical && !full && !soft && load.inflight < recommended))
  {
    ResultAt(c, Start(c), inputs, k);
    hide EvaluateAll, Update, SampleOf;
  }

  /** The four kinds of sample, from the thresholds. */
  lemma SampleMeaning(c: Config, m: Metrics)
    ensures var critical := m.p95Ttft >= c.criticalTtft || m.kvCache >= 0.98 || m.gpuMemory >= 0.98 || m.errorRate >= 0.10;
      var soft := m.p95Ttft >= c.targetTtft || m.kvCache >= c.maxKvCache
        || m.gpuMemory >= c.maxGpuMemory || m.waiting >= c.maxWaiting;
      var low := m.p95Ttft < c.targetTtft * c.recoveryRatio && m.kvCache < c.maxKvCache * c.recoveryRatio
        && m.gpuMemory < c.maxGpuMemory * c.recoveryRatio
        && m.waiting as real < c.maxWaiting as real * c.recoveryRatio && m.errorRate < 0.01;
      && (SampleOf(c, m) == Critical <==> critical)
      && (SampleOf(c, m) == Soft <==> !critical && soft)
      && (SampleOf(c, m) == Recovering <==> !critical && !soft && low)
      && (SampleOf(c, m) == Steady <==> !critical && !soft && !low)
  {}

  /** The samples a policy hears: refused inputs are none. */
  function Heard(c: Config, inputs: seq<Input>): seq<Sample> {
    if inputs == [] then []
    else (if ValidLoad(inputs[0].load) then [SampleOf(c, inputs[0].metrics)] else []) + Heard(c, inputs[1..])
  }

  /** So the laws below, stated about samples, hold of whole evaluations: neither the
      load nor a refused input ever moves the recommendation. */
  lemma {:induction false} OnlySamplesCount(c: Config, s: Control, inputs: seq<Input>)
    ensures EvaluateAll(c, s, inputs).0 == UpdateAll(c, s, Heard(c, inputs))
    decreases |inputs|
  {
    hide Update, SampleOf;
    if inputs != [] {
      var sample, rest := SampleOf(c, inputs[0].metrics), Heard(c, inputs[1..]);
      OnlySamplesCount(c, Evaluate(c, s, inputs[0].metrics, inputs[0].load).0, inputs[1..]);
      if ValidLoad(inputs[0].load) {
        assert ([sample] + rest)[0] == sample && ([sample] + rest)[1..] == rest;
      } else {
        assert [] + rest == rest;
      }
    }
  }

  // ----- decay ---------------------------------------------------------------

  function Repeat(sample: Sample, n: nat): seq<Sample> {
    seq(n, _ => sample)
  }

  function Pow2(k: nat): nat
    ensures Pow2(k) > 0
  {
    if k == 0 then 1 else 2 * Pow2(k - 1)
  }

  lemma MultiplyMonotone(p: nat, a: int, b: int)
    requires a <= b
    ensures p * a <= p * b
  {}

  lemma DivideUnique(n: int, p: int, q: int, m: int)
    requires p > 0 && n == p * q + m && 0 <= m < p
    ensures n / p == q && n % p == m
  {
    var d := n / p - q;
    assert n == p * (n / p) + n % p;
    assert p * d == p * (n / p) - p * q;
    if d >= 1 {
      MultiplyMonotone(p, 1, d);
    } else if d <= -1 {
      MultiplyMonotone(p, d, -1);
    }
  }

  /** The quotient is the largest q with p * q <= n. */
  lemma DivideAtLeast(n: nat, p: nat, q: nat)
    requires p > 0
    ensures p * q <= n <==> q <= n / p
  {
    assert n == p * (n / p) + n % p;
    if q <= n / p {
      MultiplyMonotone(p, q, n / p);
    } else {
      MultiplyMonotone(p, n / p + 1, q);
    }
  }

  lemma HalveTwice(r: nat, p: nat)
    requires p > 0
    ensures (r / 2) / p == r / (2 * p)
  {
    var q := (r / 2) / p;
    var m := (r / 2) % p;
    assert r / 2 == p * q + m;
    assert r == 2 * (p * q) + (2 * m + r % 2) && 2 * (p * q) == (2 * p) * q;
    DivideUnique(r, 2 * p, q, 2 * m + r % 2);
  }

  lemma DivideMonotone(a: nat, b: nat, p: nat)
    requires p > 0 && a <= b
    ensures a / p <= b / p && a / p <= a
  {
    DivideAtLeast(a, p, a / p);
    DivideAtLeast(b, p, a / p);
    MultiplyMonotone(a / p, 1, p);
  }

  lemma HalvingStep(min: int, r: int, p: nat)
    requires 0 < min <= r && p > 0
    ensures Max(min, Max(min, r / 2) / p) == Max(min, r / (2 * p))
  {
    HalveTwice(r, p);
    if r / 2 < min {
      DivideMonotone(r / 2, min, p);
      DivideMonotone(min, min, p);
    }
  }

  /** k critical samples in a row. */
  lemma {:induction false} CriticalDecay(c: Config, s: Control, k: nat)
    requires Accepted(c) && InRange(c, s)
    ensures UpdateAll(c, s, Repeat(Critical, k)).recommended == Max(c.minInflight, s.recommended / Pow2(k))
    decreases k
  {
    if k > 0 {
      assert Repeat(Critical, k)[1..] == Repeat(Critical, k - 1);
      UpdateInRange(c, s, Critical);
      CriticalDecay(c, Update(c, s, Critical), k - 1);
      HalvingStep(c.minInflight, s.recommended, Pow2(k - 1));
    }
  }

  /** k soft samples in a row. */
  lemma {:induction false} SoftDecay(c: Config, s: Control, k: nat)
    requires Accepted(c) && InRange(c, s)
    ensures UpdateAll(c, s, Repeat(Soft, k)).recommended == Max(c.minInflight, s.recommended - k)
    decreases k
  {
    if k > 0 {
      assert Repeat(Soft, k)[1..] == Repeat(Soft, k - 1);
      SoftDecay(c, Update(c, s, Soft), k - 1);
    }
  }

  // ----- recovery ------------------------------------------------------------

  lemma {:induction false} UpdateAllSnoc(c: Config, s: Control, samples: seq<Sample>, last: Sample)
    ensures UpdateAll(c, s, samples + [last]) == Update(c, UpdateAll(c, s, samples), last)
    decreases |samples|
  {
    if samples == [] {
      assert samples + [last] == [last] && [last][1..] == [];
    } else {
      assert (samples + [last])[1..] == samples[1..] + [last];
      UpdateAllSnoc(c, Update(c, s, samples[0]), samples[1..], last);
    }
  }

  /** The state n recovery samples after an overload. */
  function Recovered(c: Config, r: int, n: nat): Control
    requires 0 < c.cooldownSamples
  {
    if n <= c.cooldownSamples then Control(r, c.cooldownSamples - n, 0)
    else
      var m := n - c.cooldownSamples;
      Control(Min(c.maxInflight, r + m / c.cooldownSamples), 0, m % c.cooldownSamples)
  }

  lemma NextQuotient(m: nat, c: nat)
    requires 0 < c
    ensures m % c + 1 == c ==> (m + 1) / c == m / c + 1 && (m + 1) % c == 0
    ensures m % c + 1 < c ==> (m + 1) / c == m / c && (m + 1) % c == m % c + 1
  {
    assert m == c * (m / c) + m % c;
    if m % c + 1 == c {
      assert m + 1 == c * (m / c + 1) + 0;
      DivideUnique(m + 1, c, m / c + 1, 0);
    } else {
      DivideUnique(m + 1, c, m / c, m % c + 1);
    }
  }

  lemma RecoveredStep(c: Config, r: int, n: nat)
    requires Accepted(c) && c.minInflight <= r <= c.maxInflight
    ensures Update(c, Recovered(c, r, n), Recovering) == Recovered(c, r, n + 1)
  {
    var p := c.cooldownSamples;
    if n == p {
      DivideUnique(1, p, if p == 1 then 1 else 0, if p == 1 then 0 else 1);
    } else if n > p {
      NextQuotient(n - p, p);
    }
  }

  /** n recovery samples after an overload: the first c only cool down, and then
      every c of them raise the recommendation by one, up to the maximum. */
  lemma {:induction false} RecoveryLaw(c: Config, r: int, n: nat)
    requires Accepted(c) && c.minInflight <= r <= c.maxInflight
    ensures UpdateAll(c, Control(r, c.cooldownSamples, 0), Repeat(Recovering, n)) == Recovered(c, r, n)
    ensures UpdateAll(c, Control(r, c.cooldownSamples, 0), Repeat(Recovering, n)).recommended ==
      Min(c.maxInflight, r + Max(0, n - c.cooldownSamples) / c.cooldownSamples)
    decreases n
  {
    RecoveredRecommends(c, r, n);
    hide Recovered, Update, Accepted;
    var s := Control(r, c.cooldownSamples, 0);
    if n == 0 {
      assert Repeat(Recovering, 0) == [];
      RecoveredStart(c, r);
    } else {
      RecoveryLaw(c, r, n - 1);
      assert Repeat(Recovering, n) == Repeat(Recovering, n - 1) + [Recovering];
      UpdateAllSnoc(c, s, Repeat(Recovering, n - 1), Recovering);
      RecoveredStep(c, r, n - 1);
    }
  }

  lemma RecoveredStart(c: Config, r: int)
    requires 0 < c.cooldownSamples
    ensures Recovered(c, r, 0) == Control(r, c.cooldownSamples, 0)
  {}

  lemma RecoveredRecommends(c: Config, r: int, n: nat)
    requires 0 < c.cooldownSamples && r <= c.maxInflight
    ensures Recovered(c, r, n).recommended ==
      Min(c.maxInflight, r + Max(0, n - c.cooldownSamples) / c.cooldownSamples)
  {
    if n <= c.cooldownSamples {
      DivideUnique(0, c.cooldownSamples, 0, 0);
    }
  }

  lemma {:induction false} UpdatesMonotone(c: Config, worse: Control, better: Control, bad: seq<Sample>, good: seq<Sample>)
    requires Accepted(c) && InRange(c, worse) && InRange(c, better) && NotAhead(c, worse, better)
    requires |bad| == |good| && forall k | 0 <= k < |bad| :: Severity(bad[k]) >= Severity(good[k])
    ensures NotAhead(c, UpdateAll(c, worse, bad), UpdateAll(c, better, good))
    decreases |bad|
  {
    hide Update, NotAhead, Severity;
    if bad != [] {
      UpdateMonotone(c, worse, better, bad[0], good[0]);
      UpdateInRange(c, worse, bad[0]);
      UpdateInRange(c, better, good[0]);
      assert forall k | 0 <= k < |bad| - 1 :: bad[1..][k] == bad[k + 1] && good[1..][k] == good[k + 1];
      UpdatesMonotone(c, Update(c, worse, bad[0]), Update(c, better, good[0]), bad[1..], good[1..]);
    }
  }

  /** Any n samples after an overload raise the recommendation to at most what n
      recovery samples raise it to, overloads among them or not. */
  lemma RecoveryIsFastest(c: Config, r: int, samples: seq<Sample>)
    requires Accepted(c) && c.minInflight <= r <= c.maxInflight
    ensures UpdateAll(c, Control(r, c.cooldownSamples, 0), samples).recommended
      <= Min(c.maxInflight, r + Max(0, |samples| - c.cooldownSamples) / c.cooldownSamples)
  {
    var s := Control(r, c.cooldownSamples, 0);
    RecoveryLaw(c, r, |samples|);
    UpdatesMonotone(c, s, s, samples, Repeat(Recovering, |samples|));
  }

  // ----- what an increase takes ----------------------------------------------

  /** A streak of n is made of the last n samples, all of them recoveries, during
      which the recommendation stood still. */
  lemma {:induction false} StreakMeaning(c: Config, s: Control, samples: seq<Sample>)
    requires Accepted(c) && InRange(c, s) && s.streak == 0
    ensures var last, n := UpdateAll(c, s, samples), |samples|;
      && InRange(c, last) && last.streak <= n
      && (forall k | n - last.streak <= k < n :: samples[k] == Recovering)
      && (forall j | n - last.streak <= j <= n :: UpdateAll(c, s, samples[..j]).recommended == last.recommended)
    decreases |samples|
  {
    var n := |samples|;
    assert samples[..n] == samples;
    if n > 0 {
      var front := samples[..n - 1];
      StreakMeaning(c, s, front);
      assert front + [samples[n - 1]] == samples;
      UpdateAllSnoc(c, s, front, samples[n - 1]);
      UpdateInRange(c, UpdateAll(c, s, front), samples[n - 1]);
      assert forall j | 0 <= j <= n - 1 :: samples[..j] == front[..j];
      hide UpdateAll;
    }
  }

  /** A sample raises the recommendation only as the last of cooldownSamples
      recoveries in a row, none of which raised it before: from the start and after
      an earlier increase alike. */
  lemma IncreaseNeedsStreak(c: Config, s: Control, samples: seq<Sample>, last: Sample)
    requires Accepted(c) && InRange(c, s) && s.streak == 0
    requires UpdateAll(c, s, samples + [last]).recommended > UpdateAll(c, s, samples).recommended
    ensures last == Recovering && c.cooldownSamples - 1 <= |samples|
    ensures forall k | |samples| - (c.cooldownSamples - 1) <= k < |samples| ::
      && samples[k] == Recovering
      && UpdateAll(c, s, samples[..k]).recommended == UpdateAll(c, s, samples).recommended
    ensures UpdateAll(c, s, samples + [last]).streak == 0
  {
    StreakMeaning(c, s, samples);
    UpdateAllSnoc(c, s, samples, last);
    hide UpdateAll;
  }

  predicate IsOverload(s: Sample) { s == Soft || s == Critical }

  /** Whatever the c samples after an overload are, short of another one, they only
      let the cooldown pass. */
  lemma {:induction false} CooldownPasses(c: Config, s: Control, samples: seq<Sample>)
    requires Accepted(c) && InRange(c, s) && |samples| <= s.cooldown
    requires forall k | 0 <= k < |samples| :: !IsOverload(samples[k])
    ensures UpdateAll(c, s, samples) == s.(cooldown := s.cooldown - |samples|)
    decreases |samples|
  {
    if samples != [] {
      assert forall k | 0 <= k < |samples| - 1 :: samples[1..][k] == samples[k + 1];
      CooldownPasses(c, Update(c, s, samples[0]), samples[1..]);
    }
  }

  /** Outside a cooldown a steady sample starts the streak anew: n recoveries after it
      raise the recommendation by n / c, however long the streak was before. */
  lemma SteadyStartsAnew(c: Config, s: Control, n: nat)
    requires Accepted(c) && InRange(c, s) && s.cooldown == 0
    ensures UpdateAll(c, s, [Steady] + Repeat(Recovering, n)).recommended
      == Min(c.maxInflight, s.recommended + n / c.cooldownSamples)
  {
    var recoveries := Repeat(Recovering, n);
    assert ([Steady] + recoveries)[0] == Steady && ([Steady] + recoveries)[1..] == recoveries;
    var cooled := Control(s.recommended, 0, 0);
    var start := Control(s.recommended, c.cooldownSamples, 0);
    var cooling := Repeat(Recovering, c.cooldownSamples);
    CooldownPasses(c, start, cooling);
    UpdateAllConcat(c, start, cooling, recoveries);
    assert cooling + recoveries == Repeat(Recovering, c.cooldownSamples + n);
    RecoveryLaw(c, s.recommended, c.cooldownSamples + n);
  }

  lemma {:induction false} UpdateAllConcat(c: Config, s: Control, first: seq<Sample>, second: seq<Sample>)
    ensures UpdateAll(c, s, first + second) == UpdateAll(c, UpdateAll(c, s, first), second)
    decreases |first|
  {
    if first == [] {
      assert first + second == second;
    } else {
      assert (first + second)[0] == first[0] && (first + second)[1..] == first[1..] + second;
      UpdateAllConcat(c, Update(c, s, first[0]), first[1..], second);
    }
  }

  /** A new policy recommends the maximum until it first hears an overload. */
  lemma {:induction false} MaximumUntilOverload(c: Config, s: Control, samples: seq<Sample>)
    requires Accepted(c) && InRange(c, s) && s.recommended == c.maxInflight
    requires forall k | 0 <= k < |samples| :: !IsOverload(samples[k])
    ensures UpdateAll(c, s, samples).recommended == c.maxInflight
    decreases |samples|
  {
    if samples != [] {
      assert forall k | 0 <= k < |samples| - 1 :: samples[1..][k] == samples[k + 1];
      UpdateInRange(c, s, samples[0]);
      MaximumUntilOverload(c, Update(c, s, samples[0]), samples[1..]);
    }
  }

  /** How many samples of a run raise the recommendation. */
  function Increases(c: Config, s: Control, samples: seq<Sample>): nat
    decreases |samples|
  {
    if samples == [] then 0 else
      var next := Update(c, s, samples[0]);
      (if next.recommended > s.recommended then 1 else 0) + Increases(c, next, samples[1..])
  }

  lemma {:induction false} IncreasesCostStreak(c: Config, s: Control, samples: seq<Sample>)
    requires Accepted(c) && InRange(c, s)
    ensures c.cooldownSamples * Increases(c, s, samples) <= s.streak + |samples|
    decreases |samples|
  {
    if samples != [] {
      var next := Update(c, s, samples[0]);
      UpdateInRange(c, s, samples[0]);
      UpdateSpendsStreak(c, s, samples[0]);
      IncreasesCostStreak(c, next, samples[1..]);
      var later := Increases(c, next, samples[1..]);
      var gained := if next.recommended > s.recommended then 1 else 0;
      assert Increases(c, s, samples) == gained + later;
      hide *;
      OneMore(c.cooldownSamples, gained, later);
    }
  }

  lemma OneMore(c: int, gained: int, later: int)
    requires 0 <= gained <= 1
    ensures c * (gained + later) == (if gained == 1 then c else 0) + c * later
  {}

  lemma UpdateSpendsStreak(c: Config, s: Control, sample: Sample)
    requires Accepted(c) && InRange(c, s)
    ensures var next := Update(c, s, sample);
      && next.streak <= s.streak + 1
      && (next.recommended > s.recommended ==> s.streak + 1 == c.cooldownSamples && next.streak == 0)
  {}

  /** In every window of n samples, from any state, at most (n + c - 1) / c of them
      raise the recommendation. */
  lemma IncreaseRate(c: Config, s: Control, samples: seq<Sample>)
    requires Accepted(c) && InRange(c, s)
    ensures Increases(c, s, samples) <= (|samples| + c.cooldownSamples - 1) / c.cooldownSamples
  {
    IncreasesCostStreak(c, s, samples);
    var k, total := Increases(c, s, samples), |samples| + c.cooldownSamples - 1;
    assert c.cooldownSamples * k <= total;
    DivideAtLeast(total, c.cooldownSamples, k);
  }
}
