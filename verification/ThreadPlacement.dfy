/** Which core each thread goes to, and how many steps it gets, in whole numbers: first one thread for
    each hyperthreaded core, then one for each other core, then the second threads, and round again. */
module ThreadPlacement {
  import opened Arithmetic
  import opened Counting
  import opened WorkDistribution
  import opened ThreadWork
  import opened Exactness

  /** The distribution prefers hyperthreaded cores to other cores, and those to second threads. */
  lemma SplitPrefers(t: nat, smt: nat, core: nat)
    requires t <= core + 2 * smt
    ensures var s := Split(t, smt, core);
            && s.smtcores + s.cores + s.hthreads == t
            && s.smtcores <= smt && s.cores <= core && s.hthreads <= smt
            && (s.cores > 0 ==> s.smtcores == smt)
            && (s.hthreads > 0 ==> s.smtcores == smt && s.cores == core)
  {}

  /** Hardware threads in the order of preference: `smt` hyperthreaded cores, `core` other cores, `smt`
      second threads.  Thread `i` of a round goes to the i-th of them, so each hardware thread has one
      thread for each full round and one more if the last round reaches it. */
  lemma ThreadsOfCores(smt: nat, core: nat, work: nat, launch: nat, i: nat)
    requires core + 2 * smt > 0
    ensures var p, all := PlanFor(smt, core, work, launch), core + 2 * smt;
            var rounds, rest := launch / all, launch % all;
            && (i < smt ==> p.SmtThreads(i) == (rounds + One(i < rest)) + (rounds + One(smt + core + i < rest)))
            && (i < core ==> p.CoreThreads(i) == rounds + One(smt + i < rest))
  {
    LaunchSplits(core + 2 * smt, launch);
    SplitPrefers(launch % (core + 2 * smt), smt, core);
  }

  /** A hyperthreaded core has the weight of its second thread, three tenths, exactly when one of the
      launched threads is its second. */
  lemma SecondThreadsWeigh(smt: nat, core: nat, work: nat, launch: nat, i: nat)
    requires core + 2 * smt > 0 && i < smt
    ensures var p := PlanFor(smt, core, work, launch);
            && SmtTenths(p, i) == (if smt + core + i < launch then 13 else 10)
            && Tenths(p.active) == 10 * Min(launch, smt + core) + 3 * Min(Left(launch, smt + core), smt)
  {}

  // ---------- the entries ----------

  /** The steps of one of the threads of a core: the core's tenths of weight times the work, by all
      tenths times the core's threads, as a whole quotient. */
  function StepsOf(tenths: nat, work: nat, all: nat, threads: nat): nat
    requires all > 0 && threads > 0
  {
    ProductReal(all, threads);
    Product(tenths, work) / Product(all, threads)
  }

  /** The entry of thread `j` of hyperthreaded core `c`: its two processors, and its steps. */
  lemma SmtEntry(topology: CPUTopology, work: nat, launch: nat, c: nat, j: nat)
    requires topology.ThreadCount() > 0 && launch > 0
    requires c < |topology.smtcpus| && j < TopologyPlan(topology, work, launch).SmtThreads(c)
    ensures var p, cpu := TopologyPlan(topology, work, launch), topology.smtcpus[c];
            var entries, at := Entries(topology, work, launch), SmtBefore(p, c) + j;
            && Tenths(p.active) > 0 && at < |entries|
            && entries[at] == WorkDist(cpu.id, cpu.sibling,
                                       StepsOf(SmtTenths(p, c), work, Tenths(p.active), p.SmtThreads(c)))
  {
    PlanIsActive(|topology.smtcpus|, |topology.cpus|, work, launch);
    SmtPlacement(topology, work, launch, c, j);
    SmtShareIsWhole(TopologyPlan(topology, work, launch), work, c);
  }

  lemma CoreEntry(topology: CPUTopology, work: nat, launch: nat, c: nat, j: nat)
    requires topology.ThreadCount() > 0 && launch > 0
    requires c < |topology.cpus| && j < TopologyPlan(topology, work, launch).CoreThreads(c)
    ensures var p, cpu := TopologyPlan(topology, work, launch), topology.cpus[c];
            var entries, at := Entries(topology, work, launch), SmtBefore(p, p.smt) + CoreBefore(p, c) + j;
            && Tenths(p.active) > 0 && at < |entries|
            && entries[at] == WorkDist(cpu.id, cpu.id, StepsOf(10, work, Tenths(p.active), p.CoreThreads(c)))
  {
    PlanIsActive(|topology.smtcpus|, |topology.cpus|, work, launch);
    CorePlacement(topology, work, launch, c, j);
    CoreShareIsWhole(TopologyPlan(topology, work, launch), work, c);
  }

  // ---------- up to one thread for each core ----------

  lemma {:induction false} OneEach(topology: CPUTopology, work: nat, launch: nat, c: nat)
    requires topology.ThreadCount() > 0 && launch <= |topology.smtcpus| + |topology.cpus|
    ensures var p := TopologyPlan(topology, work, launch);
            && (c <= |topology.smtcpus| && c <= launch ==> SmtBefore(p, c) == c)
            && (c <= |topology.cpus| && |topology.smtcpus| + c <= launch ==> CoreBefore(p, c) == c)
  {
    if c > 0 {
      OneEach(topology, work, launch, c - 1);
      SmallPlan(topology, work, launch, c - 1);
    }
  }

  lemma SmallPlan(topology: CPUTopology, work: nat, launch: nat, c: nat)
    requires topology.ThreadCount() > 0 && launch <= |topology.smtcpus| + |topology.cpus|
    ensures var p := TopologyPlan(topology, work, launch);
            && (c < |topology.smtcpus| ==> p.SmtThreads(c) == One(c < launch) && SmtTenths(p, c) == 10)
            && (c < |topology.cpus| ==> p.CoreThreads(c) == One(|topology.smtcpus| + c < launch))
            && Tenths(p.active) == 10 * launch
  {
    var smt, core := |topology.smtcpus|, |topology.cpus|;
    LaunchSplits(core + 2 * smt, launch);
    if smt == 0 { WholeRounds(core, launch); }
  }

  lemma WholeRounds(core: nat, launch: nat)
    requires core > 0 && launch <= core
    ensures launch / core == One(launch == core) && launch % core == if launch == core then 0 else launch
  {
    if launch == core { LaunchSplits(core, launch); }
  }

  /** With at most one thread for each core, thread `k` goes to hyperthreaded core `k`, or, when these
      are used up, to the next other core, and each gets an equal part of the work. */
  lemma {:induction false} FirstThreads(topology: CPUTopology, work: nat, launch: nat, k: nat)
    requires topology.ThreadCount() > 0 && k < launch <= |topology.smtcpus| + |topology.cpus|
    ensures var entries, smt := Entries(topology, work, launch), |topology.smtcpus|;
            && k < |entries| && entries[k].n == work / launch
            && (if k < smt then
                  entries[k].first == topology.smtcpus[k].id && entries[k].second == topology.smtcpus[k].sibling
                else entries[k].first == entries[k].second == topology.cpus[k - smt].id)
  {
    var smt := |topology.smtcpus|;
    TenTimes(work, launch);
    if k < smt {
      SmallPlan(topology, work, launch, k);
      OneEach(topology, work, launch, k);
      SmtEntry(topology, work, launch, k, 0);
    } else {
      SmallPlan(topology, work, launch, k - smt);
      OneEach(topology, work, launch, k - smt);
      OneEach(topology, work, launch, smt);
      CoreEntry(topology, work, launch, k - smt, 0);
    }
  }

  lemma TenTimes(x: nat, d: nat)
    requires d > 0
    ensures StepsOf(10, x, 10 * d, 1) == x / d
  {
    var q, r := x / d, x % d;
    assert x == d * q + r;
    assert Product(10, x) == (10 * d) * q + 10 * r && Product(10 * d, 1) == 10 * d;
    QuotientIs(10 * x, 10 * d, q, 10 * r);
  }

  lemma QuotientIs(x: nat, d: nat, q: nat, r: nat)
    requires d > 0 && x == d * q + r && r < d
    ensures x / d == q
  {
    Euclidean(x, d);
    if x / d > q { OneMore(d, q, x / d); }
    if x / d < q { OneMore(d, x / d, q); }
  }

  lemma Euclidean(x: nat, d: nat)
    requires d > 0
    ensures d * (x / d) <= x < d * (x / d) + d
  {}

  lemma {:induction false} OneMore(d: nat, a: nat, b: nat)
    requires a < b
    ensures d * a + d <= d * b
    decreases b
  {
    Peel(d, b);
    if a < b - 1 { OneMore(d, a, b - 1); }
  }
}
