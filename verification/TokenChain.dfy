/** `run` of nprocesses: the parent forks children 0, 1, 2, ... that print their numbers in order
    by passing typed messages through one queue.  Every interleaving of forking and child steps,
    and every point at which fork may fail, is a run of `Step`. */
module TokenChain {
  import opened Kernel

  datatype ChildPc = Receive | Print | Send | Gone

  datatype ParentPc = Forking | Receiving | Returned

  /** `children[i]` is child `i`; `queue` holds the types of the messages, oldest first;
      `reported` says that the parent printed "Failed to fork". */
  datatype State = State(n: nat, parent: ParentPc, last: nat, reported: bool,
                         children: seq<ChildPc>, queue: seq<nat>, out: seq<nat>)

  datatype Action = ParentStep(forked: bool) | ChildStep(i: nat)

  function Start(n: nat): State { State(n, Forking, 0, false, [], [], []) }

  /** `msgrcv` with a positive type: removes the first message of that type, or waits. */
  function TakeType(queue: seq<nat>, t: nat): Option<seq<nat>> {
    if queue == [] then None
    else if queue[0] == t then Some(queue[1..])
    else
      match TakeType(queue[1..], t)
      case Some(rest) => Some([queue[0]] + rest)
      case None => None
  }

  /** The loop test and fork of iteration `last`, or the code after the loop. */
  function Parent(s: State, forked: bool): Option<State> {
    match s.parent
    case Forking =>
      if s.last < s.n && forked then
        Some(s.(children := s.children + [if s.last == 0 then Print else Receive], last := s.last + 1))
      else
        Some(s.(parent := if s.last != 0 then Receiving else Returned))
    case Receiving =>
      (match TakeType(s.queue, s.last)
       case Some(rest) => Some(s.(queue := rest, parent := Returned, reported := s.last < s.n))
       case None => None)
    case Returned => None
  }

  function Child(s: State, i: nat): Option<State>
    requires i < |s.children|
  {
    match s.children[i]
    case Receive =>
      (match TakeType(s.queue, i)
       case Some(rest) => Some(s.(queue := rest, children := s.children[i := Print]))
       case None => None)
    case Print => Some(s.(out := s.out + [i], children := s.children[i := Send]))
    case Send => Some(s.(queue := s.queue + [i + 1], children := s.children[i := Gone]))
    case Gone => None
  }

  function Step(s: State, a: Action): Option<State> {
    match a
    case ParentStep(forked) => Parent(s, forked)
    case ChildStep(i) => if i < |s.children| then Child(s, i) else None
  }

  function Run(n: nat, run: seq<Action>): Option<State>
    decreases |run|
  {
    if run == [] then Some(Start(n))
    else
      match Run(n, run[..|run| - 1])
      case None => None
      case Some(s) => Step(s, run[|run| - 1])
  }

  // ---------- the invariant: one token ----------

  /** Children below `lo` are gone, children from `hi` on wait for their message. */
  predicate Around(children: seq<ChildPc>, lo: nat, hi: nat) {
    && (forall j :: 0 <= j < |children| && j < lo ==> children[j] == Gone)
    && (forall j :: hi <= j < |children| ==> children[j] == Receive)
  }

  /** The numbers 0, ..., k-1. */
  function Numbers(k: nat): seq<nat> { seq(k, i => i) }

  /** With `k` numbers printed the token is with child `k` (about to print), with child `k-1`
      (about to send), in the queue as message `k`, or, once the parent has it, gone. */
  predicate Inv(s: State) {
    var k, m := |s.out|, |s.children|;
    && s.last == m <= s.n
    && k <= m
    && s.out == Numbers(k)
    && (s.parent.Receiving? ==> m > 0)
    && (s.reported <==> s.parent.Returned? && 0 < m < s.n)
    && if s.parent.Returned? || m == 0 then
         s.queue == [] && k == m && Around(s.children, k, k)
       else if s.queue != [] then
         k > 0 && s.queue == [k] && Around(s.children, k, k)
       else
         || (k < m && s.children[k] == Print && Around(s.children, k, k + 1))
         || (k > 0 && s.children[k - 1] == Send && Around(s.children, k - 1, k))
  }

  /** `msgrcv` takes the oldest message of the type, at `i`, and leaves the others in order; it waits
      exactly when there is none. */
  lemma {:induction false} TakesOldest(queue: seq<nat>, t: nat) returns (i: nat)
    ensures TakeType(queue, t) == None <==> t !in queue
    ensures t in queue ==>
              && i < |queue| && queue[i] == t && t !in queue[..i]
              && TakeType(queue, t) == Some(queue[..i] + queue[i + 1..])
  {
    i := 0;
    if queue != [] {
      assert queue == [queue[0]] + queue[1..];
      if queue[0] == t {
        assert queue[..0] + queue[0 + 1..] == queue[1..];
      } else {
        i := TakesOldest(queue[1..], t);
        if t in queue[1..] {
          var rest := queue[1..];
          assert queue[..i + 1] == [queue[0]] + rest[..i] && queue[i + 2..] == rest[i + 1..];
          assert [queue[0]] + (rest[..i] + rest[i + 1..]) == ([queue[0]] + rest[..i]) + rest[i + 1..];
        }
        i := i + 1;
      }
    }
  }

  lemma TakeFromOne(q: nat, t: nat)
    ensures TakeType([q], t) == if q == t then Some([]) else None
  {
    assert [q][1..] == [];
  }

  lemma ParentKeepsInv(s: State, forked: bool)
    requires Inv(s) && Parent(s, forked).Some?
    ensures Inv(Parent(s, forked).value)
  {
    TakeFromOne(|s.out|, s.last);
  }

  lemma ChildKeepsInv(s: State, i: nat)
    requires Inv(s) && i < |s.children| && Child(s, i).Some?
    ensures Inv(Child(s, i).value)
  {
    TakeFromOne(|s.out|, i);
  }

  // ---------- how much is left to do ----------

  function ChildRank(pc: ChildPc): nat {
    match pc case Receive => 3 case Print => 2 case Send => 1 case Gone => 0
  }

  function Ranks(children: seq<ChildPc>): nat {
    if children == [] then 0 else ChildRank(children[0]) + Ranks(children[1..])
  }

  function Remaining(s: State): int {
    Ranks(s.children) + match s.parent case Forking => 4 * (s.n - s.last) + 2 case Receiving => 1 case Returned => 0
  }

  lemma {:induction false} RanksAppend(children: seq<ChildPc>, pc: ChildPc)
    ensures Ranks(children + [pc]) == Ranks(children) + ChildRank(pc)
  {
    if children != [] {
      assert (children + [pc])[1..] == children[1..] + [pc];
      RanksAppend(children[1..], pc);
    }
  }

  lemma {:induction false} RanksUpdate(children: seq<ChildPc>, i: nat, pc: ChildPc)
    requires i < |children|
    ensures Ranks(children[i := pc]) == Ranks(children) - ChildRank(children[i]) + ChildRank(pc)
  {
    if i == 0 {
      assert children[0 := pc][1..] == children[1..];
    } else {
      assert children[i := pc][1..] == children[1..][i - 1 := pc];
      RanksUpdate(children[1..], i - 1, pc);
    }
  }

  lemma ParentLeavesLess(s: State, forked: bool)
    requires Inv(s) && Parent(s, forked).Some?
    ensures Remaining(Parent(s, forked).value) < Remaining(s)
  {
    RanksAppend(s.children, if s.last == 0 then Print else Receive);
  }

  lemma ChildLeavesLess(s: State, i: nat)
    requires i < |s.children| && Child(s, i).Some?
    ensures Remaining(Child(s, i).value) < Remaining(s)
  {
    match s.children[i]
    case Receive => RanksUpdate(s.children, i, Print);
    case Print => RanksUpdate(s.children, i, Send);
    case Send => RanksUpdate(s.children, i, Gone);
    case Gone =>
  }

  lemma {:induction false} StepLeavesLess(s: State, a: Action)
    requires Inv(s) && Step(s, a).Some?
    ensures Inv(Step(s, a).value) && Remaining(Step(s, a).value) < Remaining(s)
  {
    match a
    case ParentStep(forked) =>
      ParentKeepsInv(s, forked);
      ParentLeavesLess(s, forked);
    case ChildStep(i) =>
      ChildKeepsInv(s, i);
      ChildLeavesLess(s, i);
  }

  lemma {:induction false} RunKeepsInv(n: nat, run: seq<Action>)
    requires Run(n, run).Some?
    ensures var s := Run(n, run).value;
            Inv(s) && s.n == n && |run| + Remaining(s) <= 4 * n + 2
    decreases |run|
  {
    if run != [] {
      var before := run[..|run| - 1];
      RunKeepsInv(n, before);
      StepLeavesLess(Run(n, before).value, run[|run| - 1]);
    }
  }

  // ---------- what every run shows ----------

  /** The output is always 0, 1, 2, ... so far, and at most one message is ever queued. */
  lemma PrintsInOrder(n: nat, run: seq<Action>)
    requires Run(n, run).Some?
    ensures var s := Run(n, run).value;
            s.out == Numbers(|s.out|) && |s.out| <= s.last <= n && |s.queue| <= 1
  {
    RunKeepsInv(n, run);
  }

  /** When the parent returns, exactly the numbers of the forked children have been printed, the
      queue is empty again, every child is gone, and a failure is reported exactly when some but
      not all children could be forked. */
  lemma ReturnMeansAllPrinted(n: nat, run: seq<Action>)
    requires Run(n, run).Some? && Run(n, run).value.parent.Returned?
    ensures var s := Run(n, run).value;
            && s.out == Numbers(s.last)
            && s.queue == [] && (s.reported <==> 0 < s.last < n)
            && (forall i :: 0 <= i < |s.children| ==> s.children[i] == Gone)
  {
    RunKeepsInv(n, run);
  }

  /** Some fork the loop asked for failed. */
  predicate ForkFailed(n: nat, run: seq<Action>)
    decreases |run|
  {
    run != [] &&
      var before, a := run[..|run| - 1], run[|run| - 1];
      || ForkFailed(n, before)
      || (a == ParentStep(false) && Run(n, before).Some? &&
          var s := Run(n, before).value; s.parent.Forking? && s.last < n)
  }

  /** The loop asks for a fork until there are `n` children or one fails. */
  lemma {:induction false} ForksAll(n: nat, run: seq<Action>)
    requires Run(n, run).Some?
    ensures var s := Run(n, run).value;
            && s.n == n && s.last == |s.children| <= n
            && if s.parent.Forking? then !ForkFailed(n, run) else (s.last < n <==> ForkFailed(n, run))
    decreases |run|
  {
    RunKeepsInv(n, run);
    if run != [] {
      ForksAll(n, run[..|run| - 1]);
    }
  }

  /** When the parent returns and no fork has failed, 0 to n - 1 are printed and nothing is reported;
      when one has failed, fewer are, and the failure is reported if any child was forked. */
  lemma {:induction false} AllPrintedUnlessForkFails(n: nat, run: seq<Action>)
    requires Run(n, run).Some? && Run(n, run).value.parent.Returned?
    ensures var s := Run(n, run).value;
            if ForkFailed(n, run) then s.out == Numbers(s.last) && s.last < n && (s.reported <==> s.last > 0)
            else s.out == Numbers(n) && !s.reported
  {
    ForksAll(n, run);
    ReturnMeansAllPrinted(n, run);
  }

  /** Until the parent returns some process can step, and afterwards none can. */
  lemma NeverStuck(n: nat, run: seq<Action>)
    requires Run(n, run).Some?
    ensures var s := Run(n, run).value;
            (exists a :: Step(s, a).Some?) <==> !s.parent.Returned?
  {
    RunKeepsInv(n, run);
    var s := Run(n, run).value;
    var k := |s.out|;
    if s.parent.Forking? {
      assert Step(s, ParentStep(true)).Some?;
    } else if s.parent.Receiving? {
      if s.queue != [] {
        if k == s.last {
          assert Step(s, ParentStep(true)).Some?;
        } else {
          assert Step(s, ChildStep(k)).Some?;
        }
      } else if k < |s.children| && s.children[k] == Print {
        assert Step(s, ChildStep(k)).Some?;
      } else {
        assert Step(s, ChildStep(k - 1)).Some?;
      }
    }
  }

  /** Every run ends within 4n + 2 steps. */
  lemma EveryRunEnds(n: nat, run: seq<Action>)
    requires Run(n, run).Some?
    ensures |run| <= 4 * n + 2
  {
    RunKeepsInv(n, run);
  }
}
