/** distributeWork: the list of (processors, whole steps) for the threads, and what rounding the
    shares down to whole steps costs. */
module ThreadWork {
  import opened Arithmetic
  import opened WorkDistribution

  /** The processors a thread may run on, and its number of steps. */
  datatype WorkDist = WorkDist(first: nat, second: nat, n: nat)

  function Floored(x: NonNegative): (k: nat)
    ensures k as real <= x < (k + 1) as real
  {
    x.Floor
  }

  /** The entries for the threads of the hyperthreaded cores from `i` on. */
  function SmtEntries(topology: CPUTopology, p: Plan, i: nat): seq<WorkDist>
    requires p.smt == |topology.smtcpus|
    decreases Left(p.smt, i)
  {
    if i >= p.smt || p.SmtThreads(i) == 0 then []
    else
      var cpu := topology.smtcpus[i];
      Repeat(WorkDist(cpu.id, cpu.sibling, Floored(Share(p.SmtWork(i), p.SmtThreads(i)))), p.SmtThreads(i))
      + SmtEntries(topology, p, i + 1)
  }

  /** The entries for the threads of the other cores from `i` on. */
  function CoreEntries(topology: CPUTopology, p: Plan, i: nat): seq<WorkDist>
    requires p.core == |topology.cpus|
    decreases Left(p.core, i)
  {
    if i >= p.core || p.CoreThreads(i) == 0 then []
    else
      var cpu := topology.cpus[i];
      Repeat(WorkDist(cpu.id, cpu.id, Floored(Share(p.unit, p.CoreThreads(i)))), p.CoreThreads(i))
      + CoreEntries(topology, p, i + 1)
  }

  /** The plan for `launch` threads sharing `work` steps. */
  function TopologyPlan(topology: CPUTopology, work: nat, launch: nat): Plan
    requires topology.ThreadCount() > 0
  {
    PlanFor(|topology.smtcpus|, |topology.cpus|, work, launch)
  }

  function Entries(topology: CPUTopology, work: nat, launch: nat): seq<WorkDist>
    requires topology.ThreadCount() > 0
  {
    var p := TopologyPlan(topology, work, launch);
    SmtEntries(topology, p, 0) + CoreEntries(topology, p, 0)
  }

  lemma RepeatMore<T>(x: T, k: nat)
    ensures Repeat(x, k + 1) == Repeat(x, k) + [x]
  {}

  /** The inner loop: `k` equal entries at the end. */
  method PushBack(dist: seq<WorkDist>, d: WorkDist, count: nat) returns (longer: seq<WorkDist>)
    ensures longer == dist + Repeat(d, count)
  {
    longer := dist;
    var k := 0;
    while k < count
      invariant 0 <= k <= count
      invariant longer == dist + Repeat(d, k)
    {
      RepeatMore(d, k);
      longer := longer + [d];
      k := k + 1;
    }
  }

  method PushSmt(topology: CPUTopology, p: Plan, before: seq<WorkDist>) returns (dist: seq<WorkDist>)
    requires p.smt == |topology.smtcpus|
    ensures dist == before + SmtEntries(topology, p, 0)
  {
    dist := before;
    var i := 0;
    while i < |topology.smtcpus|
      invariant 0 <= i <= p.smt
      invariant before + SmtEntries(topology, p, 0) == dist + SmtEntries(topology, p, i)
    {
      var localWork := p.SmtWork(i);
      var localThreads := p.SmtThreads(i);
      if localThreads == 0 {
        break;
      }
      var cpu := topology.smtcpus[i];
      var d := WorkDist(cpu.id, cpu.sibling, Floored(Share(localWork, localThreads)));
      dist := PushBack(dist, d, localThreads);
      i := i + 1;
    }
  }

  method PushCores(topology: CPUTopology, p: Plan, before: seq<WorkDist>) returns (dist: seq<WorkDist>)
    requires p.core == |topology.cpus|
    ensures dist == before + CoreEntries(topology, p, 0)
  {
    dist := before;
    var i := 0;
    while i < |topology.cpus|
      invariant 0 <= i <= p.core
      invariant before + CoreEntries(topology, p, 0) == dist + CoreEntries(topology, p, i)
    {
      var localThreads := p.CoreThreads(i);
      if localThreads == 0 {
        break;
      }
      var cpu := topology.cpus[i];
      var d := WorkDist(cpu.id, cpu.id, Floored(Share(p.unit, localThreads)));
      dist := PushBack(dist, d, localThreads);
      i := i + 1;
    }
  }

  /** distributeWork. */
  method DistributeWork(topology: CPUTopology, work: nat, launch: nat) returns (dist: seq<WorkDist>)
    requires topology.ThreadCount() > 0
    ensures |dist| == launch
    ensures dist == Entries(topology, work, launch)
  {
    var p := MakePlan(|topology.smtcpus|, |topology.cpus|, work, launch);
    dist := PushSmt(topology, p, []);
    dist := PushCores(topology, p, dist);
    OneEntryEach(topology, work, launch);
  }

  // ---------- the entries are the shares, rounded down ----------

  ghost predicate Rounded(dist: seq<WorkDist>, shares: seq<NonNegative>) {
    |dist| == |shares| && forall k :: 0 <= k < |dist| ==> dist[k].n == Floored(shares[k])
  }

  lemma {:induction false} SmtRounded(topology: CPUTopology, p: Plan, i: nat)
    requires p.smt == |topology.smtcpus|
    ensures Rounded(SmtEntries(topology, p, i), p.SmtShares(i))
    decreases Left(p.smt, i)
  {
    if i < p.smt && p.SmtThreads(i) != 0 {
      SmtRounded(topology, p, i + 1);
    }
  }

  lemma {:induction false} CoreRounded(topology: CPUTopology, p: Plan, i: nat)
    requires p.core == |topology.cpus|
    ensures Rounded(CoreEntries(topology, p, i), p.CoreShares(i))
    decreases Left(p.core, i)
  {
    if i < p.core && p.CoreThreads(i) != 0 {
      CoreRounded(topology, p, i + 1);
    }
  }

  lemma EntriesAreShares(topology: CPUTopology, work: nat, launch: nat)
    requires topology.ThreadCount() > 0
    ensures Rounded(Entries(topology, work, launch), TopologyPlan(topology, work, launch).Shares())
  {
    SmtRounded(topology, TopologyPlan(topology, work, launch), 0);
    CoreRounded(topology, TopologyPlan(topology, work, launch), 0);
  }

  lemma OneEntryEach(topology: CPUTopology, work: nat, launch: nat)
    requires topology.ThreadCount() > 0
    ensures |Entries(topology, work, launch)| == launch
  {
    EntriesAreShares(topology, work, launch);
    EveryThreadHasAShare(|topology.smtcpus|, |topology.cpus|, work, launch);
  }

  // ---------- where the threads go ----------

  /** The number of threads on the hyperthreaded cores before `i`. */
  function SmtBefore(p: Plan, i: nat): nat { if i == 0 then 0 else SmtBefore(p, i - 1) + p.SmtThreads(i - 1) }

  function CoreBefore(p: Plan, i: nat): nat { if i == 0 then 0 else CoreBefore(p, i - 1) + p.CoreThreads(i - 1) }

  /** The threads of hyperthreaded core `c` stand together, behind those of the cores before it. */
  lemma {:induction false} SmtPlace(topology: CPUTopology, p: Plan, i: nat, c: nat, j: nat)
    requires p.Sane() && p.smt == |topology.smtcpus|
    requires i <= c < p.smt && j < p.SmtThreads(c)
    ensures var entries, at := SmtEntries(topology, p, i), SmtBefore(p, c) - SmtBefore(p, i) + j;
            && j <= at < |entries|
            && entries[at] == WorkDist(topology.smtcpus[c].id, topology.smtcpus[c].sibling,
                                       Floored(Share(p.SmtWork(c), p.SmtThreads(c))))
    decreases c - i
  {
    assert p.SmtThreads(i) != 0;
    if i < c {
      SmtPlace(topology, p, i + 1, c, j);
    }
  }

  lemma {:induction false} CorePlace(topology: CPUTopology, p: Plan, i: nat, c: nat, j: nat)
    requires p.Sane() && p.core == |topology.cpus|
    requires i <= c < p.core && j < p.CoreThreads(c)
    ensures var entries, at := CoreEntries(topology, p, i), CoreBefore(p, c) - CoreBefore(p, i) + j;
            && j <= at < |entries|
            && entries[at] == WorkDist(topology.cpus[c].id, topology.cpus[c].id,
                                       Floored(Share(p.unit, p.CoreThreads(c))))
    decreases c - i
  {
    assert p.CoreThreads(i) != 0;
    if i < c {
      CorePlace(topology, p, i + 1, c, j);
    }
  }

  lemma {:induction false} SmtLength(topology: CPUTopology, p: Plan, i: nat)
    requires p.Sane() && p.smt == |topology.smtcpus| && i <= p.smt
    ensures |SmtEntries(topology, p, i)| == SmtBefore(p, p.smt) - SmtBefore(p, i)
    decreases p.smt - i
  {
    if i < p.smt {
      SmtLength(topology, p, i + 1);
    }
  }

  /** Thread `j` of hyperthreaded core `c` is one of the entries. */
  lemma {:induction false} SmtPlacement(topology: CPUTopology, work: nat, launch: nat, c: nat, j: nat)
    requires topology.ThreadCount() > 0
    requires c < |topology.smtcpus| && j < TopologyPlan(topology, work, launch).SmtThreads(c)
    ensures var entries, at := Entries(topology, work, launch), SmtBefore(TopologyPlan(topology, work, launch), c) + j;
            && at < |entries|
            && entries[at] == WorkDist(topology.smtcpus[c].id, topology.smtcpus[c].sibling,
                                       Floored(Share(TopologyPlan(topology, work, launch).SmtWork(c),
                                                     TopologyPlan(topology, work, launch).SmtThreads(c))))
  {
    PlanIsSane(|topology.smtcpus|, |topology.cpus|, work, launch);
    SmtPlace(topology, TopologyPlan(topology, work, launch), 0, c, j);
  }

  /** Thread `j` of the other core `c` is one of the entries, behind all hyperthreaded cores. */
  lemma {:induction false} CorePlacement(topology: CPUTopology, work: nat, launch: nat, c: nat, j: nat)
    requires topology.ThreadCount() > 0
    requires c < |topology.cpus| && j < TopologyPlan(topology, work, launch).CoreThreads(c)
    ensures var p, entries := TopologyPlan(topology, work, launch), Entries(topology, work, launch);
            var at := SmtBefore(p, p.smt) + CoreBefore(p, c) + j;
            && at < |entries|
            && entries[at] == WorkDist(topology.cpus[c].id, topology.cpus[c].id,
                                       Floored(Share(p.unit, p.CoreThreads(c))))
  {
    var p := TopologyPlan(topology, work, launch);
    PlanIsSane(|topology.smtcpus|, |topology.cpus|, work, launch);
    SmtLength(topology, p, 0);
    CorePlace(topology, p, 0, c, j);
  }

  /** An earlier core of one kind has as many threads as a later one, or one more. */
  lemma Balanced(topology: CPUTopology, work: nat, launch: nat, c: nat, d: nat)
    requires topology.ThreadCount() > 0 && c <= d
    ensures var p := TopologyPlan(topology, work, launch);
            && (d < p.smt ==> p.SmtThreads(d) <= p.SmtThreads(c) <= p.SmtThreads(d) + 1)
            && (d < p.core ==> p.CoreThreads(d) <= p.CoreThreads(c) <= p.CoreThreads(d) + 1)
  {
    PlanIsSane(|topology.smtcpus|, |topology.cpus|, work, launch);
  }

  // ---------- what rounding down costs ----------

  function Steps(dist: seq<WorkDist>): nat { if dist == [] then 0 else dist[0].n + Steps(dist[1..]) }

  lemma {:induction false} StepsNext(dist: seq<WorkDist>, i: nat)
    requires i < |dist|
    ensures Steps(dist[..i + 1]) == Steps(dist[..i]) + dist[i].n
  {
    if i == 0 {
      assert dist[..1][1..] == [];
    } else {
      assert dist[..i + 1][1..] == dist[1..][..i];
      assert dist[..i][1..] == dist[1..][..i - 1];
      StepsNext(dist[1..], i - 1);
    }
  }

  lemma {:induction false} StepsGrow(dist: seq<WorkDist>, i: nat)
    requires i <= |dist|
    ensures Steps(dist[..i]) <= Steps(dist)
    decreases |dist| - i
  {
    if i == |dist| {
      assert dist[..i] == dist;
    } else {
      StepsNext(dist, i);
      StepsGrow(dist, i + 1);
    }
  }

  predicate Whole(shares: seq<NonNegative>) {
    forall k :: 0 <= k < |shares| ==> Floored(shares[k]) as real == shares[k]
  }

  /** Rounding loses less than one step for each thread, and nothing only when every share is
      whole. */
  lemma {:induction false} RoundingLoss(dist: seq<WorkDist>, shares: seq<NonNegative>)
    requires Rounded(dist, shares)
    ensures Steps(dist) as real <= Total(shares)
    ensures |dist| > 0 ==> Total(shares) < (Steps(dist) + |dist|) as real
    ensures Steps(dist) as real == Total(shares) <==> Whole(shares)
  {
    if dist != [] {
      RoundingLoss(dist[1..], shares[1..]);
      assert Whole(shares) <==> Floored(shares[0]) as real == shares[0] && Whole(shares[1..]) by {
        if Whole(shares[1..]) && Floored(shares[0]) as real == shares[0] {
          forall k | 0 <= k < |shares| ensures Floored(shares[k]) as real == shares[k] {
            if k > 0 { assert shares[k] == shares[1..][k - 1]; }
          }
        }
      }
    }
  }

  /** The threads together do at most the given work, lose less than one step each, and lose
      none exactly when every share is a whole number. */
  lemma {:induction false} StepsNearWork(topology: CPUTopology, work: nat, launch: nat)
    requires topology.ThreadCount() > 0
    ensures Steps(Entries(topology, work, launch)) <= work
    ensures launch > 0 ==> work < Steps(Entries(topology, work, launch)) + launch
    ensures launch > 0 ==> (Steps(Entries(topology, work, launch)) == work
                            <==> Whole(TopologyPlan(topology, work, launch).Shares()))
  {
    var smt, core := |topology.smtcpus|, |topology.cpus|;
    EntriesAreShares(topology, work, launch);
    EveryThreadHasAShare(smt, core, work, launch);
    RoundingLoss(Entries(topology, work, launch), TopologyPlan(topology, work, launch).Shares());
    if launch > 0 {
      SharesAddUp(smt, core, work, launch);
    }
  }
}
