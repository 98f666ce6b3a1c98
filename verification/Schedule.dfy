/** scheduleIntegrate: one thread for each entry of the distribution, each on its own piece of the
    interval, and the sum of what they computed. */
module Schedule {
  import opened Counting
  import opened Trapezoid
  import opened WorkDistribution
  import opened ThreadWork

  /** Where thread `i` writes; results of different threads are far apart. */
  function Cell(i: nat): nat { 1024 * i }

  datatype Job = Job(a: real, b: real, n: nat)

  /** What thread `i` is started with: its ends come from the steps given out before it. */
  function JobAt(l: real, d: real, n: nat, dist: seq<WorkDist>, i: nat): Job
    requires i < |dist|
  {
    var a := l + Stretch(d, Steps(dist[..i]), n);
    Job(a, a + Stretch(d, dist[i].n, n), dist[i].n)
  }

  ghost predicate JobsFor(jobs: seq<Job>, l: real, d: real, n: nat, dist: seq<WorkDist>) {
    && |jobs| <= |dist|
    && forall k :: 0 <= k < |jobs| ==> jobs[k] == JobAt(l, d, n, dist, k)
  }

  function Computed(f: real -> real, job: Job): real { Trap(f, job.a, Quotient(job.b - job.a, job.n), job.n) }

  /** The loop that starts the threads. */
  method Launch(l: real, r: real, n: nat, dist: seq<WorkDist>) returns (jobs: seq<Job>)
    ensures |jobs| == |dist| && JobsFor(jobs, l, r - l, n, dist)
  {
    jobs := [];
    var currentN := 0;
    var i := 0;
    while i < |dist|
      invariant 0 <= i <= |dist| && |jobs| == i
      invariant currentN == Steps(dist[..i])
      invariant JobsFor(jobs, l, r - l, n, dist)
    {
      var threadN := dist[i].n;
      var a := l + Stretch(r - l, currentN, n);
      var b := a + Stretch(r - l, threadN, n);
      jobs := jobs + [Job(a, b, threadN)];
      StepsNext(dist, i);
      currentN := currentN + threadN;
      i := i + 1;
    }
  }

  /** The threads finish in any order; each writes only its own cell. */
  method RunThreads(f: real -> real, jobs: seq<Job>, results: array<real>)
    requires results.Length == Cell(|jobs|)
    modifies results
    ensures forall i :: 0 <= i < |jobs| ==> results[Cell(i)] == Computed(f, jobs[i])
  {
    var running := Indices(|jobs|);
    while running != {}
      invariant forall i: int :: i in running ==> 0 <= i < |jobs|
      invariant forall i :: 0 <= i < |jobs| && i !in running ==> results[Cell(i)] == Computed(f, jobs[i])
    {
      var i :| i in running;
      var s := TrapezoidIntegrate(f, jobs[i].a, jobs[i].b, jobs[i].n);
      results[Cell(i)] := s;
      running := running - {i};
    }
  }

  /** The loop that adds the results up in the order of the threads. */
  method Join(f: real -> real, l: real, d: real, n: nat, dist: seq<WorkDist>,
              ghost jobs: seq<Job>, results: array<real>)
    returns (s: real)
    requires |jobs| == |dist| && JobsFor(jobs, l, d, n, dist) && Steps(dist) <= n
    requires results.Length == Cell(|dist|)
    requires forall i :: 0 <= i < |jobs| ==> results[Cell(i)] == Computed(f, jobs[i])
    ensures s == Trap(f, l, Quotient(d, n), Steps(dist))
  {
    s := 0.0;
    var i := 0;
    while i < |dist|
      invariant 0 <= i <= |dist|
      invariant s == Trap(f, l, Quotient(d, n), Steps(dist[..i]))
    {
      StepsGrow(dist, i + 1);
      JobAddsUp(f, l, d, n, dist, i);
      assert jobs[i] == JobAt(l, d, n, dist, i);
      s := s + results[Cell(i)];
      i := i + 1;
    }
    assert dist[..i] == dist;
  }

  /** scheduleIntegrate. */
  method ScheduleIntegrate(f: real -> real, l: real, r: real, n: nat, nThreads: nat, topology: CPUTopology)
    returns (s: real)
    requires topology.ThreadCount() > 0
    ensures s == Trap(f, l, Quotient(r - l, n), Steps(Entries(topology, n, nThreads)))
  {
    var results := new real[Cell(nThreads)];
    var dist := DistributeWork(topology, n, nThreads);
    var jobs := Launch(l, r, n, dist);
    RunThreads(f, jobs, results);
    StepsNearWork(topology, n, nThreads);
    s := Join(f, l, r - l, n, dist, jobs, results);
  }

  /** Thread `i` computes exactly the trapezoids that follow those of the threads before it. */
  lemma JobAddsUp(f: real -> real, l: real, d: real, n: nat, dist: seq<WorkDist>, i: nat)
    requires i < |dist| && Steps(dist[..i + 1]) <= n
    ensures var h := Quotient(d, n);
            Trap(f, l, h, Steps(dist[..i])) + Computed(f, JobAt(l, d, n, dist, i))
            == Trap(f, l, h, Steps(dist[..i + 1]))
  {
    StepsNext(dist, i);
    var job := JobAt(l, d, n, dist, i);
    if job.n > 0 {
      PieceAddsUp(f, l, d, n, Steps(dist[..i]), job.n, job.a, job.b);
    }
  }

  /** Neighbouring pieces share an end and do not overlap. */
  lemma PiecesFollow(l: real, d: real, n: nat, dist: seq<WorkDist>, i: nat)
    requires n > 0 && i + 1 < |dist|
    ensures JobAt(l, d, n, dist, i).b == JobAt(l, d, n, dist, i + 1).a
  {
    StepsNext(dist, i);
    StretchAdds(d, Steps(dist[..i]), dist[i].n, n);
  }

  /** Missing steps are the last ones: the result of one machine is that of the whole interval
      without the trapezoids lost by rounding, and equal to it when no share was rounded. */
  lemma ScheduledPart(f: real -> real, l: real, r: real, n: nat, nThreads: nat, topology: CPUTopology)
    requires topology.ThreadCount() > 0 && nThreads > 0
    ensures var h, done := Quotient(r - l, n), Steps(Entries(topology, n, nThreads));
            && done <= n < done + nThreads
            && Trap(f, l, h, n) == Trap(f, l, h, done) + Trap(f, At(l, h, done), h, n - done)
            && (Whole(TopologyPlan(topology, n, nThreads).Shares()) ==> Trap(f, l, h, done) == Trap(f, l, h, n))
  {
    StepsNearWork(topology, n, nThreads);
    var done := Steps(Entries(topology, n, nThreads));
    TrapSplit(f, l, Quotient(r - l, n), done, n - done);
  }
}
