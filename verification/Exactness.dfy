/** When splitting an integral over threads, or over machines and threads, loses nothing. */
module Exactness {
  import opened Arithmetic
  import opened Counting
  import opened Trapezoid
  import opened WorkDistribution
  import opened ThreadWork
  import opened Responses

  // ---------- whole shares, as divisibility of whole numbers ----------

  /** The total weight of the hardware threads in use, in tenths. */
  function Tenths(active: Spread): nat { 10 * (active.smtcores + active.cores) + 3 * active.hthreads }

  predicate Divides(d: nat, x: nat) { d != 0 && x % d == 0 }

  function SmtTenths(p: Plan, i: nat): nat { if i < p.active.hthreads then 13 else 10 }

  predicate SmtEven(p: Plan, work: nat, i: nat) {
    p.SmtThreads(i) > 0 ==> Divides(Product(Tenths(p.active), p.SmtThreads(i)), Product(SmtTenths(p, i), work))
  }

  predicate CoreEven(p: Plan, work: nat, i: nat) {
    p.CoreThreads(i) > 0 ==> Divides(Product(Tenths(p.active), p.CoreThreads(i)), Product(10, work))
  }

  /** The steps of every core in use split evenly among its threads. */
  predicate SplitsEvenly(topology: CPUTopology, work: nat, threads: nat)
    requires topology.ThreadCount() > 0
  {
    var p := TopologyPlan(topology, work, threads);
    && (forall i :: 0 <= i < p.smt ==> SmtEven(p, work, i))
    && (forall i :: 0 <= i < p.core ==> CoreEven(p, work, i))
  }

  predicate IsWhole(x: NonNegative) { Floored(x) as real == x }

  lemma RatioIsWhole(x: nat, d: nat, y: NonNegative)
    requires d > 0 && y == x as real / d as real
    ensures IsWhole(y) <==> Divides(d, x)
    ensures Floored(y) == x / d
  {
    var q, r := x / d, x % d;
    Euclid(x, d, q, r);
    Fraction(r as real, d as real);
    DivideAdds(d as real * q as real, r as real, d as real);
    Cancel(q as real, d as real);
    WholeAndRest(y, q, r as real / d as real);
  }

  lemma WholeAndRest(y: NonNegative, q: nat, rest: real)
    requires 0.0 <= rest < 1.0 && y == q as real + rest
    ensures IsWhole(y) <==> rest == 0.0
    ensures Floored(y) == q
  {
    SameFloor(Floored(y), q, y);
  }

  lemma SameFloor(j: nat, k: nat, y: real)
    requires j as real <= y < (j + 1) as real && k as real <= y < (k + 1) as real
    ensures j == k
  {}

  // ---------- all shares whole ----------

  lemma {:induction false} SmtWhole(p: Plan, i: nat)
    requires p.Sane() && i <= p.smt
    ensures Whole(p.SmtShares(i)) <==>
            forall c :: i <= c < p.smt && p.SmtThreads(c) > 0 ==> IsWhole(Share(p.SmtWork(c), p.SmtThreads(c)))
    decreases p.smt - i
  {
    if i < p.smt && p.SmtThreads(i) != 0 {
      SmtWhole(p, i + 1);
      WholeRepeat(Share(p.SmtWork(i), p.SmtThreads(i)), p.SmtThreads(i), p.SmtShares(i + 1));
    }
  }

  lemma {:induction false} CoreWhole(p: Plan, i: nat)
    requires p.Sane() && i <= p.core
    ensures Whole(p.CoreShares(i)) <==>
            forall c :: i <= c < p.core && p.CoreThreads(c) > 0 ==> IsWhole(Share(p.unit, p.CoreThreads(c)))
    decreases p.core - i
  {
    if i < p.core && p.CoreThreads(i) != 0 {
      CoreWhole(p, i + 1);
      WholeRepeat(Share(p.unit, p.CoreThreads(i)), p.CoreThreads(i), p.CoreShares(i + 1));
    }
  }

  lemma WholeConcat(xs: seq<NonNegative>, ys: seq<NonNegative>)
    ensures Whole(xs + ys) <==> Whole(xs) && Whole(ys)
  {
    if Whole(xs + ys) {
      forall k | 0 <= k < |xs| ensures Floored(xs[k]) as real == xs[k] { assert (xs + ys)[k] == xs[k]; }
      forall k | 0 <= k < |ys| ensures Floored(ys[k]) as real == ys[k] { assert (xs + ys)[|xs| + k] == ys[k]; }
    }
  }

  lemma WholeRepeat(x: NonNegative, k: nat, rest: seq<NonNegative>)
    requires k > 0
    ensures Whole(Repeat(x, k) + rest) <==> IsWhole(x) && Whole(rest)
  {
    WholeConcat(Repeat(x, k), rest);
    assert Whole(Repeat(x, k)) ==> Floored(Repeat(x, k)[0]) as real == Repeat(x, k)[0];
  }

  lemma ShareIsWhole(p: Plan, work: nat, weight: NonNegative, a: nat, t: nat)
    requires p.unit == Unit(work, TotalWeight(p.active)) && Tenths(p.active) > 0 && t > 0
    requires a as real == 10.0 * weight && weight * p.unit >= 0.0
    ensures Product(Tenths(p.active), t) > 0
    ensures IsWhole(Share(weight * p.unit, t)) <==> Divides(Product(Tenths(p.active), t), Product(a, work))
    ensures Floored(Share(weight * p.unit, t)) == Product(a, work) / Product(Tenths(p.active), t)
  {
    var d := Tenths(p.active);
    TenthsOfWeight(p.active);
    ShareRatio(weight, work as real, TotalWeight(p.active), t as real, a as real, d as real);
    ProductReal(d, t);
    ProductReal(a, work);
    RatioIsWhole(Product(a, work), Product(d, t), Share(weight * p.unit, t));
  }

  lemma TenthsOfWeight(active: Spread)
    ensures Tenths(active) as real == 10.0 * TotalWeight(active)
  {}

  lemma SmtShareIsWhole(p: Plan, work: nat, i: nat)
    requires p.unit == Unit(work, TotalWeight(p.active)) && Tenths(p.active) > 0 && p.SmtThreads(i) > 0
    ensures IsWhole(Share(p.SmtWork(i), p.SmtThreads(i))) <==> SmtEven(p, work, i)
    ensures Product(Tenths(p.active), p.SmtThreads(i)) > 0
    ensures Floored(Share(p.SmtWork(i), p.SmtThreads(i)))
         == Product(SmtTenths(p, i), work) / Product(Tenths(p.active), p.SmtThreads(i))
  {
    TimesNonNegative(p.SmtWeight(i), p.unit);
    ShareIsWhole(p, work, p.SmtWeight(i), SmtTenths(p, i), p.SmtThreads(i));
  }

  lemma CoreShareIsWhole(p: Plan, work: nat, i: nat)
    requires p.unit == Unit(work, TotalWeight(p.active)) && Tenths(p.active) > 0 && p.CoreThreads(i) > 0
    ensures IsWhole(Share(p.unit, p.CoreThreads(i))) <==> CoreEven(p, work, i)
    ensures Product(Tenths(p.active), p.CoreThreads(i)) > 0
    ensures Floored(Share(p.unit, p.CoreThreads(i))) == Product(10, work) / Product(Tenths(p.active), p.CoreThreads(i))
  {
    ShareIsWhole(p, work, 1.0, 10, p.CoreThreads(i));
  }

  lemma {:induction false} PlanWhole(p: Plan, work: nat)
    requires p.Sane() && p.unit == Unit(work, TotalWeight(p.active)) && Tenths(p.active) > 0
    ensures Whole(p.Shares()) <==>
            && (forall i :: 0 <= i < p.smt ==> SmtEven(p, work, i))
            && (forall i :: 0 <= i < p.core ==> CoreEven(p, work, i))
  {
    SmtWhole(p, 0);
    CoreWhole(p, 0);
    WholeConcat(p.SmtShares(0), p.CoreShares(0));
    forall i | 0 <= i < p.smt && p.SmtThreads(i) > 0
      ensures IsWhole(Share(p.SmtWork(i), p.SmtThreads(i))) <==> SmtEven(p, work, i)
    {
      SmtShareIsWhole(p, work, i);
    }
    forall i | 0 <= i < p.core && p.CoreThreads(i) > 0
      ensures IsWhole(Share(p.unit, p.CoreThreads(i))) <==> CoreEven(p, work, i)
    {
      CoreShareIsWhole(p, work, i);
    }
  }

  lemma PlanIsActive(smt: nat, core: nat, work: nat, launch: nat)
    requires core + 2 * smt > 0 && launch > 0
    ensures var p := PlanFor(smt, core, work, launch);
            p.Sane() && p.unit == Unit(work, TotalWeight(p.active)) && Tenths(p.active) > 0
  {
    PlanIsSane(smt, core, work, launch);
  }

  /** The threads do all of the work exactly when the steps of every core in use split evenly. */
  lemma {:induction false} AllStepsIffEven(topology: CPUTopology, work: nat, threads: nat)
    requires topology.ThreadCount() > 0 && threads > 0
    ensures Steps(Entries(topology, work, threads)) == work <==> SplitsEvenly(topology, work, threads)
  {
    StepsNearWork(topology, work, threads);
    PlanIsActive(|topology.smtcpus|, |topology.cpus|, work, threads);
    PlanWhole(TopologyPlan(topology, work, threads), work);
  }

  // ---------- the result of one machine ----------

  /** The integrand that shows every missing step. */
  const ONE: real -> real := (x: real) => 1.0

  lemma {:induction false} TrapOfOne(a: real, h: real, n: nat)
    ensures Trap(ONE, a, h, n) == Times(n, h)
  {
    if n > 0 {
      TrapOfOne(a, h, n - 1);
    }
  }

  lemma {:induction false} TrapOfNoWidth(f: real -> real, a: real, n: nat)
    ensures Trap(f, a, 0.0, n) == 0.0
  {
    if n > 0 {
      TrapOfNoWidth(f, a, n - 1);
    }
  }

  lemma StepWidth(d: real, n: nat)
    ensures Quotient(d, n) == 0.0 <==> d == 0.0 || n == 0
  {
    if n > 0 {
      DivideBack(d, n as real);
      AtLeastOnce(Quotient(d, n), n as real);
    }
  }

  lemma {:induction false} TimesAdd(j: nat, k: nat, u: real)
    ensures Times(j + k, u) == Times(j, u) + Times(k, u)
  {
    if k > 0 {
      TimesAdd(j, k - 1, u);
    }
  }

  lemma TimesNotZero(k: nat, u: real)
    requires k > 0 && u != 0.0
    ensures Times(k, u) != 0.0
  {
    TimesIsProduct(k, u);
    NonZeroProduct(k as real, u);
  }

  /** Steps left out show in the integral of one. */
  lemma FewerStepsShow(a: real, h: real, done: nat, n: nat)
    requires h != 0.0 && done < n
    ensures Trap(ONE, a, h, done) != Trap(ONE, a, h, n)
  {
    TrapOfOne(a, h, done);
    TrapOfOne(a, h, n);
    TimesAdd(done, n - done, h);
    TimesNotZero(n - done, h);
  }

  /** scheduleIntegrate (see `Schedule.ScheduleIntegrate`) gives the one-machine sum of every
      integrand exactly when there is nothing to compute or some thread computes and the steps
      split evenly. */
  lemma {:induction false} ScheduleExactIff(l: real, r: real, n: nat, threads: nat, topology: CPUTopology, h: real)
    requires topology.ThreadCount() > 0 && h == Quotient(r - l, n)
    ensures (forall f: real -> real :: Trap(f, l, h, Steps(Entries(topology, n, threads))) == Trap(f, l, h, n))
       <==> l == r || n == 0 || (threads > 0 && SplitsEvenly(topology, n, threads))
  {
    var done := Steps(Entries(topology, n, threads));
    StepWidth(r - l, n);
    StepsNearWork(topology, n, threads);
    OneEntryEach(topology, n, threads);
    if threads > 0 { AllStepsIffEven(topology, n, threads); } else { assert done == 0; }
    if h == 0.0 {
      forall f: real -> real ensures Trap(f, l, h, done) == Trap(f, l, h, n) {
        TrapOfNoWidth(f, l, done);
        TrapOfNoWidth(f, l, n);
      }
    } else if done < n {
      FewerStepsShow(l, h, done, n);
      assert !(forall f: real -> real :: Trap(f, l, h, done) == Trap(f, l, h, n));
    } else {
      assert done == n;
    }
  }

  /** One step for two threads of one core is lost: each gets half of it. */
  lemma {:induction false} HalfStepsAreLost(id: nat, f: real -> real, l: real, r: real)
    ensures var topology := CPUTopology([CPU(id)], []);
            && !SplitsEvenly(topology, 1, 2)
            && Trap(f, l, Quotient(r - l, 1), Steps(Entries(topology, 1, 2))) == 0.0
            && Trap(f, l, Quotient(r - l, 1), 1) == (f(r) + f(l)) / 2.0 * (r - l)
  {
    var topology := CPUTopology([CPU(id)], []);
    HalfStepsPlan(topology);
    StepsNearWork(topology, 1, 2);
    AllStepsIffEven(topology, 1, 2);
    assert Trap(f, l, r - l, 1) == Trap(f, l, r - l, 0) + Piece(f, At(l, r - l, 0), r - l);
  }

  lemma HalfStepsPlan(topology: CPUTopology)
    requires |topology.cpus| == 1 && topology.smtcpus == []
    ensures !SplitsEvenly(topology, 1, 2)
  {
    var p := TopologyPlan(topology, 1, 2);
    assert Rounds(2, 1) == 2 && Rest(2, 1) == 0;
    assert p.CoreThreads(0) == 2 && Tenths(p.active) == 10;
    assert Product(10, 2) == 20 && Product(10, 1) == 10;
    assert !CoreEven(p, 1, 0);
  }

  // ---------- the result of the client ----------

  /** Workers that answer with the result of scheduleIntegrate. */
  function Answering(f: real -> real, ws: seq<Worker>): (nat, Request) -> Reply
    requires forall i :: 0 <= i < |ws| ==> Able(ws[i])
  {
    (i: nat, p: Request) =>
      if i < |ws| then Reply(0, Trap(f, p.l, Quotient(p.r - p.l, p.n), Done(ws[i], p.n))) else Reply(-1, 0.0)
  }

  lemma AreaOfOne(l: real, h: real, given: nat, done: nat, more: nat, k: nat)
    requires done <= given && k <= more
    ensures Times(given - done, h) + Area(ONE, l, h)(given + k, given + more) == Times((given + more) - (done + k), h)
  {
    TrapOfOne(At(l, h, given + k), h, more - k);
    TimesAdd(given - done, more - k, h);
  }

  /** What the workers leave out, for the integrand one. */
  lemma {:induction false} MissingOfOne(l: real, h: real, counts: seq<nat>, done: seq<nat>, k: nat)
    requires k <= |counts| == |done| && forall i :: 0 <= i < |counts| ==> done[i] <= counts[i]
    ensures Count(done, k) <= Count(counts, k)
    ensures Missing(Area(ONE, l, h), counts, done, k) == Times(Count(counts, k) - Count(done, k), h)
  {
    if k > 0 {
      MissingOfOne(l, h, counts, done, k - 1);
      SumNext(counts, k - 1);
      SumNext(done, k - 1);
      AreaOfOne(l, h, Count(counts, k - 1), Count(done, k - 1), counts[k - 1], done[k - 1]);
    }
  }

  lemma {:induction false} MissingOfNoWidth(f: real -> real, l: real, counts: seq<nat>, done: seq<nat>, k: nat)
    requires k <= |counts| == |done|
    ensures Missing(Area(f, l, 0.0), counts, done, k) == 0.0
  {
    if k > 0 {
      MissingOfNoWidth(f, l, counts, done, k - 1);
      var i, j := Count(counts, k - 1) + done[k - 1], Count(counts, k);
      if i <= j { TrapOfNoWidth(f, At(l, 0.0, i), j - i); }
    }
  }

  lemma {:induction false} EqualCounts(counts: seq<nat>, done: seq<nat>, k: nat)
    requires k <= |counts| == |done| && forall i :: 0 <= i < |counts| ==> done[i] <= counts[i]
    ensures Count(done, k) <= Count(counts, k)
    ensures Count(done, k) == Count(counts, k) ==> forall i :: 0 <= i < k ==> done[i] == counts[i]
  {
    if k > 0 {
      EqualCounts(counts, done, k - 1);
      SumNext(counts, k - 1);
      SumNext(done, k - 1);
    }
  }

  predicate Even(w: Worker, n: nat)
    requires Able(w)
  {
    SplitsEvenly(w.topology, n, w.threads)
  }

  predicate AllEven(cs: seq<Connection>, n: nat, ws: seq<Worker>)
    requires CanSplit(cs) && |ws| == |cs| && forall i :: 0 <= i < |ws| ==> Able(ws[i])
  {
    forall i :: 0 <= i < |cs| ==> Even(ws[i], Given(cs, n, i))
  }

  lemma DoneIffEven(w: Worker, n: nat)
    requires Able(w)
    ensures Done(w, n) == n <==> Even(w, n)
  {
    AllStepsIffEven(w.topology, n, w.threads);
  }

  lemma {:induction false} AllDoneIffEven(cs: seq<Connection>, n: nat, ws: seq<Worker>)
    requires CanSplit(cs) && |ws| == |cs| && forall i :: 0 <= i < |ws| ==> Able(ws[i])
    ensures DoneBy(cs, n, ws) == Counts(cs, n) <==> AllEven(cs, n, ws)
  {
    var done, counts := DoneBy(cs, n, ws), Counts(cs, n);
    forall i | 0 <= i < |cs|
      ensures done[i] == counts[i] <==> Even(ws[i], Given(cs, n, i))
    {
      DoneIffEven(ws[i], Given(cs, n, i));
    }
    if AllEven(cs, n, ws) {
      assert done == counts;
    }
  }

  /** What the client ends up with when the workers use `ws`. */
  function ClientResult(f: real -> real, cs: seq<Connection>, q: Request, ws: seq<Worker>): real
    requires CanSplit(cs) && forall i :: 0 <= i < |ws| ==> Able(ws[i])
  {
    Ivals(Answers(Answering(f, ws), cs, q), |cs|)
  }

  lemma {:induction false} ClientSum(f: real -> real, cs: seq<Connection>, q: Request, ws: seq<Worker>, h: real)
    requires CanSplit(cs) && q.n > 0 && h == Quotient(q.r - q.l, q.n)
    requires |ws| == |cs| && forall i :: 0 <= i < |ws| ==> Able(ws[i])
    ensures ClientResult(f, cs, q, ws) + Missing(Area(f, q.l, h), Counts(cs, q.n), DoneBy(cs, q.n, ws), |cs|)
         == Trap(f, q.l, h, q.n)
  {
    ScheduledSplit(f, Answering(f, ws), cs, q, ws);
  }

  /** A sum that lacks what one machine has. */
  lemma {:induction false} MissingShows(l: real, h: real, counts: seq<nat>, done: seq<nat>)
    requires h != 0.0 && |counts| == |done| && counts != done
    requires forall i :: 0 <= i < |counts| ==> done[i] <= counts[i]
    ensures Missing(Area(ONE, l, h), counts, done, |counts|) != 0.0
  {
    MissingOfOne(l, h, counts, done, |counts|);
    EqualCounts(counts, done, |counts|);
    TimesNotZero(Count(counts, |counts|) - Count(done, |counts|), h);
  }

  lemma {:induction false} NothingLeftOut(f: real -> real, l: real, h: real, counts: seq<nat>, done: seq<nat>)
    requires |counts| == |done| && (h == 0.0 || counts == done)
    ensures Missing(Area(f, l, h), counts, done, |counts|) == 0.0
  {
    if h == 0.0 {
      MissingOfNoWidth(f, l, counts, done, |counts|);
    } else {
      AreaMeasures(f, l, h);
      NothingMissing(Area(f, l, h), UpTo(f, l, h), counts, |counts|);
    }
  }

  lemma {:induction false} EvenIsExact(f: real -> real, cs: seq<Connection>, q: Request, ws: seq<Worker>, h: real)
    requires CanSplit(cs) && q.n > 0 && h == Quotient(q.r - q.l, q.n)
    requires |ws| == |cs| && forall i :: 0 <= i < |ws| ==> Able(ws[i])
    requires h == 0.0 || AllEven(cs, q.n, ws)
    ensures ClientResult(f, cs, q, ws) == Trap(f, q.l, h, q.n)
  {
    AllDoneIffEven(cs, q.n, ws);
    ClientSum(f, cs, q, ws, h);
    NothingLeftOut(f, q.l, h, Counts(cs, q.n), DoneBy(cs, q.n, ws));
  }

  lemma {:induction false} UnevenShows(cs: seq<Connection>, q: Request, ws: seq<Worker>, h: real)
    requires CanSplit(cs) && q.n > 0 && h == Quotient(q.r - q.l, q.n)
    requires |ws| == |cs| && forall i :: 0 <= i < |ws| ==> Able(ws[i])
    requires h != 0.0 && !AllEven(cs, q.n, ws)
    ensures ClientResult(ONE, cs, q, ws) != Trap(ONE, q.l, h, q.n)
  {
    AllDoneIffEven(cs, q.n, ws);
    ClientSum(ONE, cs, q, ws, h);
    StepsDone(cs, q.n, ws);
    MissingShows(q.l, h, Counts(cs, q.n), DoneBy(cs, q.n, ws));
  }

  /** The client gives the one-machine sum of every integrand exactly when the interval is empty or
      every worker's piece splits evenly on it. */
  lemma {:induction false} ClientExactIff(cs: seq<Connection>, q: Request, ws: seq<Worker>, h: real)
    requires CanSplit(cs) && q.n > 0 && h == Quotient(q.r - q.l, q.n)
    requires |ws| == |cs| && forall i :: 0 <= i < |ws| ==> Able(ws[i])
    ensures (forall f: real -> real :: ClientResult(f, cs, q, ws) == Trap(f, q.l, h, q.n))
       <==> q.l == q.r || AllEven(cs, q.n, ws)
  {
    StepWidth(q.r - q.l, q.n);
    if h == 0.0 || AllEven(cs, q.n, ws) {
      forall f: real -> real ensures ClientResult(f, cs, q, ws) == Trap(f, q.l, h, q.n) {
        EvenIsExact(f, cs, q, ws, h);
      }
    } else {
      UnevenShows(cs, q, ws, h);
      assert !(forall f: real -> real :: ClientResult(f, cs, q, ws) == Trap(f, q.l, h, q.n));
    }
  }
}
