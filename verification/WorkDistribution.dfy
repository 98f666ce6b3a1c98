/** How the steps of one machine are shared among its threads: first threads on the cores with
    hyperthreads, then on the other cores, then the second threads, whose weight is 0.3. */
module WorkDistribution {
  import opened Arithmetic
  import opened Counting

  const HTHREAD_WEIGHT := 0.3

  datatype CPU = CPU(id: nat)
  datatype SMTCPU = SMTCPU(id: nat, sibling: nat)
  datatype CPUTopology = CPUTopology(cpus: seq<CPU>, smtcpus: seq<SMTCPU>) {
    function ThreadCount(): nat { |cpus| + 2 * |smtcpus| }
  }

  function Left(x: nat, i: nat): nat { if x > i then x - i else 0 }

  function Share(x: NonNegative, k: nat): NonNegative
    requires k > 0
  {
    DivideNonNegative(x, k as real);
    x / k as real
  }

  /** How many threads go to hyperthreaded cores, to other cores, and to second threads. */
  datatype Spread = Spread(smtcores: nat, cores: nat, hthreads: nat)

  function Split(numThreads: nat, smt: nat, core: nat): Spread {
    if numThreads <= smt then Spread(numThreads, 0, 0)
    else if numThreads <= smt + core then Spread(smt, numThreads - smt, 0)
    else Spread(smt, core, numThreads - smt - core)
  }

  /** The `distribute` lambda. */
  method Distribute(numThreads: nat, smt: nat, core: nat) returns (s: Spread)
    ensures s == Split(numThreads, smt, core)
  {
    var left := numThreads;
    var smtcores := Min(left, smt);
    left := left - smtcores;
    var cores := Min(left, core);
    left := left - cores;
    s := Spread(smtcores, cores, left);
  }

  /** The numbers that decide about the distribution: `base` threads for each hardware thread,
      `leftover` ones besides, the hardware threads in use, and the work of a core of weight
      one. */
  datatype Plan = Plan(smt: nat, core: nat, base: nat, leftover: Spread, active: Spread, unit: NonNegative) {
    function SmtWeight(i: nat): NonNegative { 1.0 + HTHREAD_WEIGHT * One(i < active.hthreads) as real }

    function SmtWork(i: nat): NonNegative {
      TimesNonNegative(SmtWeight(i), unit);
      SmtWeight(i) * unit
    }

    function SmtThreads(i: nat): nat { 2 * base + One(i < leftover.smtcores) + One(i < leftover.hthreads) }

    function CoreThreads(i: nat): nat { base + One(i < leftover.cores) }

    /** The share of each thread before truncation, from core `i` on, up to the first core that
        gets no thread. */
    function SmtShares(i: nat): seq<NonNegative>
      decreases Left(smt, i)
    {
      if i >= smt || SmtThreads(i) == 0 then []
      else Repeat(Share(SmtWork(i), SmtThreads(i)), SmtThreads(i)) + SmtShares(i + 1)
    }

    function CoreShares(i: nat): seq<NonNegative>
      decreases Left(core, i)
    {
      if i >= core || CoreThreads(i) == 0 then []
      else Repeat(Share(unit, CoreThreads(i)), CoreThreads(i)) + CoreShares(i + 1)
    }

    function Shares(): seq<NonNegative> { SmtShares(0) + CoreShares(0) }

    /** The leftover threads do not make another round; without a full round they are the active
        ones, with one everything is active. */
    predicate Sane() {
      && leftover.smtcores <= smt && leftover.cores <= core && leftover.hthreads <= smt
      && (leftover.hthreads > 0 ==> leftover.smtcores == smt)
      && active == (if base == 0 then leftover else Spread(smt, core, smt))
    }
  }

  function TotalWeight(active: Spread): NonNegative {
    (active.smtcores + active.cores) as real + HTHREAD_WEIGHT * active.hthreads as real
  }

  function Unit(work: nat, weight: NonNegative): NonNegative {
    if weight == 0.0 then 0.0
    else
      DivideNonNegative(work as real, weight);
      work as real / weight
  }

  function Rounds(launch: nat, threads: nat): nat
    requires threads > 0
  {
    launch / threads
  }

  function Rest(launch: nat, threads: nat): nat
    requires threads > 0
  {
    launch % threads
  }

  /** The plan for `launch` threads on `smt` hyperthreaded and `core` other cores.  The IEEE
      quotient by a zero weight is never used. */
  function PlanFor(smt: nat, core: nat, work: nat, launch: nat): Plan
    requires core + 2 * smt > 0
  {
    var threads := core + 2 * smt;
    var active := Split(Min(launch, threads), smt, core);
    Plan(smt, core, Rounds(launch, threads), Split(Rest(launch, threads), smt, core), active,
         Unit(work, TotalWeight(active)))
  }

  method MakePlan(smt: nat, core: nat, work: nat, launch: nat) returns (p: Plan)
    requires core + 2 * smt > 0
    ensures p == PlanFor(smt, core, work, launch)
  {
    var threads := core + 2 * smt;
    LaunchSplits(threads, launch);
    var active := Distribute(Min(launch, threads), smt, core);
    var leftover := Distribute(launch % threads, smt, core);
    p := Plan(smt, core, launch / threads, leftover, active, Unit(work, TotalWeight(active)));
  }

  function Repeat<T>(x: T, k: nat): (r: seq<T>)
    ensures |r| == k
  {
    seq(k, _ => x)
  }

  function Total(xs: seq<NonNegative>): real {
    if xs == [] then 0.0 else xs[0] + Total(xs[1..])
  }

  lemma {:induction false} TotalConcat(xs: seq<NonNegative>, ys: seq<NonNegative>)
    ensures Total(xs + ys) == Total(xs) + Total(ys)
  {
    if xs == [] {
      assert xs + ys == ys;
    } else {
      assert (xs + ys)[1..] == xs[1..] + ys;
      TotalConcat(xs[1..], ys);
    }
  }

  /** `k` equal shares of `x` add up to `x`. */
  lemma TotalShares(x: NonNegative, k: nat)
    requires k > 0
    ensures Total(Repeat(Share(x, k), k)) == x
  {
    TotalRepeat(Share(x, k), k);
    DivideBack(x, k as real);
  }

  lemma {:induction false} TotalRepeat(x: NonNegative, k: nat)
    ensures Total(Repeat(x, k)) == k as real * x
  {
    if k > 0 {
      assert Repeat(x, k)[1..] == Repeat(x, k - 1);
      TotalRepeat(x, k - 1);
      Scale((k - 1) as real, 1.0, x);
    }
  }

  /** `k` times `u`, by repeated addition. */
  function Times(k: nat, u: real): real { if k == 0 then 0.0 else Times(k - 1, u) + u }

  lemma {:induction false} TimesIsProduct(k: nat, u: real)
    ensures Times(k, u) == k as real * u
  {
    if k > 0 {
      TimesIsProduct(k - 1, u);
      Scale((k - 1) as real, 1.0, u);
    }
  }

  lemma Peel(b: nat, k: nat)
    requires k > 0
    ensures b * k == b * (k - 1) + b
  {}

  lemma AllThreads(b: nat, smt: nat, core: nat)
    ensures 2 * b * smt + b * core == b * (core + 2 * smt)
  {}

  // ---------- how many threads, and how much work ----------

  lemma {:induction false} SmtCount(p: Plan, i: nat)
    requires p.Sane() && i <= p.smt
    ensures |p.SmtShares(i)| == 2 * p.base * (p.smt - i) + Left(p.leftover.smtcores, i) + Left(p.leftover.hthreads, i)
    decreases p.smt - i
  {
    if i < p.smt {
      Peel(2 * p.base, p.smt - i);
      if p.SmtThreads(i) != 0 {
        SmtCount(p, i + 1);
      } else {
        assert p.base == 0;
      }
    }
  }

  lemma {:induction false} CoreCount(p: Plan, i: nat)
    requires p.Sane() && i <= p.core
    ensures |p.CoreShares(i)| == p.base * (p.core - i) + Left(p.leftover.cores, i)
    decreases p.core - i
  {
    if i < p.core {
      Peel(p.base, p.core - i);
      if p.CoreThreads(i) != 0 {
        CoreCount(p, i + 1);
      } else {
        assert p.base == 0;
      }
    }
  }

  /** The work of the hyperthreaded cores from `i` on that get threads. */
  lemma {:induction false} SmtTotal(p: Plan, i: nat)
    requires p.Sane() && i <= p.smt
    ensures Total(p.SmtShares(i))
         == Times(Left(p.active.smtcores, i), p.unit) + HTHREAD_WEIGHT * Times(Left(p.active.hthreads, i), p.unit)
    decreases p.smt - i
  {
    if i < p.smt && p.SmtThreads(i) != 0 {
      SmtTotal(p, i + 1);
      SmtTotalStep(p, i);
      assert i < p.active.smtcores;
    } else {
      assert Left(p.active.smtcores, i) == 0 && Left(p.active.hthreads, i) == 0;
    }
  }

  lemma SmtTotalStep(p: Plan, i: nat)
    requires i < p.smt && p.SmtThreads(i) != 0
    ensures Total(p.SmtShares(i))
         == p.unit + HTHREAD_WEIGHT * (if i < p.active.hthreads then p.unit else 0.0) + Total(p.SmtShares(i + 1))
  {
    var x, k := p.SmtWork(i), p.SmtThreads(i);
    TotalShares(x, k);
    TotalConcat(Repeat(Share(x, k), k), p.SmtShares(i + 1));
    assert x == p.unit + HTHREAD_WEIGHT * (if i < p.active.hthreads then p.unit else 0.0);
  }

  lemma {:induction false} CoreTotal(p: Plan, i: nat)
    requires p.Sane() && i <= p.core
    ensures Total(p.CoreShares(i)) == Times(Left(p.active.cores, i), p.unit)
    decreases p.core - i
  {
    if i < p.core && p.CoreThreads(i) != 0 {
      CoreTotal(p, i + 1);
      var k := p.CoreThreads(i);
      TotalShares(p.unit, k);
      TotalConcat(Repeat(Share(p.unit, k), k), p.CoreShares(i + 1));
      assert i < p.active.cores;
    } else {
      assert Left(p.active.cores, i) == 0;
    }
  }

  lemma LaunchSplits(threads: nat, launch: nat)
    requires threads > 0
    ensures launch == (launch / threads) * threads + launch % threads && launch % threads < threads
    ensures launch / threads == 0 <==> launch < threads
  {}

  lemma PlanIsSane(smt: nat, core: nat, work: nat, launch: nat)
    requires core + 2 * smt > 0
    ensures var p := PlanFor(smt, core, work, launch);
            && p.Sane()
            && p.leftover.smtcores + p.leftover.cores + p.leftover.hthreads == launch % (core + 2 * smt)
  {
    LaunchSplits(core + 2 * smt, launch);
  }

  /** The early exits of the two loops drop nothing: there is one entry for each thread to
      launch. */
  lemma {:induction false} EveryThreadHasAShare(smt: nat, core: nat, work: nat, launch: nat)
    requires core + 2 * smt > 0
    ensures |PlanFor(smt, core, work, launch).Shares()| == launch
  {
    var p := PlanFor(smt, core, work, launch);
    PlanIsSane(smt, core, work, launch);
    SmtCount(p, 0);
    CoreCount(p, 0);
    LaunchSplits(core + 2 * smt, launch);
    AllThreads(p.base, smt, core);
  }

  /** The work of all cores that get threads, the second threads counted apart. */
  function Gathered(active: Spread, u: real): real {
    Times(active.smtcores, u) + HTHREAD_WEIGHT * Times(active.hthreads, u) + Times(active.cores, u)
  }

  lemma SharesTotal(p: Plan)
    requires p.Sane()
    ensures Total(p.Shares()) == Gathered(p.active, p.unit)
  {
    SmtTotal(p, 0);
    CoreTotal(p, 0);
    TotalConcat(p.SmtShares(0), p.CoreShares(0));
  }

  lemma ActiveWork(smt: nat, core: nat, work: nat, launch: nat)
    requires core + 2 * smt > 0 && launch > 0
    ensures var p := PlanFor(smt, core, work, launch); Gathered(p.active, p.unit) == work as real
  {
    var p := PlanFor(smt, core, work, launch);
    AllWeights(p.active, p.unit);
    PlanUnit(smt, core, work, launch);
  }

  /** Before truncation the shares add up to the work. */
  lemma {:induction false} SharesAddUp(smt: nat, core: nat, work: nat, launch: nat)
    requires core + 2 * smt > 0 && launch > 0
    ensures Total(PlanFor(smt, core, work, launch).Shares()) == work as real
  {
    PlanIsSane(smt, core, work, launch);
    SharesTotal(PlanFor(smt, core, work, launch));
    ActiveWork(smt, core, work, launch);
  }

  lemma AllWeights(active: Spread, u: real)
    ensures Gathered(active, u) == TotalWeight(active) * u
  {
    GatheredIs(active, u);
    Weigh(active.smtcores as real, active.cores as real, active.hthreads as real,
          HTHREAD_WEIGHT, u, TotalWeight(active));
  }

  lemma GatheredIs(active: Spread, u: real)
    ensures Gathered(active, u)
         == active.smtcores as real * u + HTHREAD_WEIGHT * (active.hthreads as real * u) + active.cores as real * u
  {
    TimesIsProduct(active.smtcores, u);
    TimesIsProduct(active.cores, u);
    TimesIsProduct(active.hthreads, u);
  }

  lemma PlanUnit(smt: nat, core: nat, work: nat, launch: nat)
    requires core + 2 * smt > 0 && launch > 0
    ensures var p := PlanFor(smt, core, work, launch); TotalWeight(p.active) * p.unit == work as real
  {
    var p := PlanFor(smt, core, work, launch);
    assert TotalWeight(p.active) > 0.0;
    DivideBack(work as real, TotalWeight(p.active));
  }
}
