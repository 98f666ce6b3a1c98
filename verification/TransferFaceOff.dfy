/** A run that ends with server and client waiting for each other, although no file is empty and no
    call fails. */
module TransferFaceOff {
  import opened Counting
  import opened Kernel
  import opened SemaphoreSet
  import opened Transfer
  import opened TransferInvariant
  import opened TransferDeadlock

  const P: nat := 0
  const DYING: nat := 1
  const HEIR: nat := 2

  /** The server posts one byte, a client dies with it in its hands, and the next client enters before
      the server is back at its gate. */
  function FaceOffRun(b: byte): seq<Action> {
    [SpawnServer(P, [b]), SpawnClient(DYING), SpawnClient(HEIR),
     Move(P, Fail), Move(P, Fail), Move(P, Fail), Move(P, Fail),
     Move(DYING, Fail), Move(DYING, Fail),
     Move(P, Fail), Move(P, Fail), Move(P, Count(1)), Move(P, Fail),
     Move(DYING, Fail), Exit(DYING),
     Move(HEIR, Fail), Move(HEIR, Fail), Move(P, Fail)]
  }

  /** The processes and the shared state after `i` actions. */
  function ServerAfter(b: byte, i: nat): Proc {
    var pc := if i <= 3 then SAcquire else if i == 4 then SSetFull else if i == 5 then SSetEmpty
              else if i == 6 then SSignalInit else if i <= 9 then SWaitClient else if i == 10 then SGate
              else if i == 11 then SRead else if i == 12 then SPost else if i <= 17 then SCheck else SGate;
    Server(pc, [b], if i >= 12 then 1 else 0, ZERO.(server := Undo(i >= 4), init := Undo(i >= 7)))
  }

  function DyingAfter(i: nat): Proc {
    var pc := if i <= 7 then CAcquire else if i == 8 then CWaitServer else if i <= 13 then CGate else CTest;
    Client(pc, ZERO.(client := Undo(i >= 8)))
  }

  function HeirAfter(i: nat): Proc {
    Client(if i <= 15 then CAcquire else if i == 16 then CWaitServer else CGate, ZERO.(client := Undo(i >= 16)))
  }

  function SharedAfter(b: byte, i: nat): Shared {
    var v := Vals(One(i >= 4), One((8 <= i <= 14) || i >= 16), One(i == 13), One(6 <= i <= 10), One(i >= 7));
    var h := Session(if i >= 4 then [b] else [], i >= 7, if i >= 13 then [[b]] else [],
                     if i >= 14 then [(DYING, [b])] else [], 0, [], false);
    Shared(v, if i >= 12 then 1 else 0, if i >= 12 then [b] else [], h)
  }

  function ProcsAfter(b: byte, i: nat): map<nat, Proc> {
    if i == 0 then map[]
    else if i == 1 then map[P := ServerAfter(b, i)]
    else if i == 2 then map[P := ServerAfter(b, i), DYING := DyingAfter(i)]
    else if i <= 14 then map[P := ServerAfter(b, i), DYING := DyingAfter(i), HEIR := HeirAfter(i)]
    else map[P := ServerAfter(b, i), HEIR := HeirAfter(i)]
  }

  function StateAfter(b: byte, i: nat): State { State(SharedAfter(b, i), ProcsAfter(b, i)) }

  lemma ServerStepAfter(b: byte, i: nat)
    requires 3 <= i < 7 || 9 <= i < 13 || i == 17
    ensures ServerMove(SharedAfter(b, i), ServerAfter(b, i), FaceOffRun(b)[i].io)
         == Some(Moved(SharedAfter(b, i + 1), ServerAfter(b, i + 1)))
  {
    var v, adj := SharedAfter(b, i).v, ServerAfter(b, i).adj;
    if i == 3 || i == 6 { AcquireArrays(v, adj); }
    else if i == 9 { WaitArrays(v, adj); }
    else if i == 10 { LoopGates(v, adj); }
    else if i == 12 { PostArrays(v, adj); assert [] + [SharedAfter(b, i).data] == [[b]]; }
    else if i == 11 { assert [b][0..1] == [b]; }
    else {}
  }

  lemma DyingStepAfter(b: byte, i: nat)
    requires 7 <= i < 9 || i == 13
    ensures ClientMove(SharedAfter(b, i), DyingAfter(i), DYING, Fail)
         == Some(Moved(SharedAfter(b, i + 1), DyingAfter(i + 1)))
  {
    var v, adj := SharedAfter(b, i).v, DyingAfter(i).adj;
    if i == 7 { AcquireArrays(v, adj); }
    else if i == 8 { WaitArrays(v, adj); }
    else { LoopGates(v, adj); assert [] + [(DYING, SharedAfter(b, i).data)] == [(DYING, [b])]; }
  }

  lemma HeirStepAfter(b: byte, i: nat)
    requires 15 <= i < 17
    ensures ClientMove(SharedAfter(b, i), HeirAfter(i), HEIR, Fail)
         == Some(Moved(SharedAfter(b, i + 1), HeirAfter(i + 1)))
  {
    var v, adj := SharedAfter(b, i).v, HeirAfter(i).adj;
    if i == 15 { AcquireArrays(v, adj); } else { WaitArrays(v, adj); }
  }

  lemma StepAfterArrival(b: byte, i: nat)
    requires i < 3
    ensures Step(StateAfter(b, i), FaceOffRun(b)[i]) == Some(StateAfter(b, i + 1))
  {
    var procs, procs' := ProcsAfter(b, i), ProcsAfter(b, i + 1);
    if i == 0 { assert procs[P := ServerAfter(b, 1)] == procs'; }
    else if i == 1 { assert procs[DYING := DyingAfter(2)] == procs'; }
    else { assert procs[HEIR := HeirAfter(3)] == procs'; }
  }

  /** A move of process `p` that leads to `m`. */
  lemma MoveLeadsTo(s: State, p: nat, io: Io, m: Moved, s': State)
    requires p in s.procs && ProcMove(s.sh, s.procs[p], p, io) == Some(m)
    requires s' == State(m.sh, s.procs[p := m.me])
    ensures Step(s, Move(p, io)) == Some(s')
  {}

  lemma StepAfterServer(b: byte, i: nat)
    requires 3 <= i < 7 || 9 <= i < 13 || i == 17
    ensures Step(StateAfter(b, i), FaceOffRun(b)[i]) == Some(StateAfter(b, i + 1))
  {
    ServerStepAfter(b, i);
    assert ProcsAfter(b, i)[P := ServerAfter(b, i + 1)] == ProcsAfter(b, i + 1);
    MoveLeadsTo(StateAfter(b, i), P, FaceOffRun(b)[i].io, Moved(SharedAfter(b, i + 1), ServerAfter(b, i + 1)),
                StateAfter(b, i + 1));
  }

  lemma StepAfterDying(b: byte, i: nat)
    requires 7 <= i < 9 || i == 13
    ensures Step(StateAfter(b, i), FaceOffRun(b)[i]) == Some(StateAfter(b, i + 1))
  {
    DyingStepAfter(b, i);
    assert ProcsAfter(b, i)[DYING := DyingAfter(i + 1)] == ProcsAfter(b, i + 1);
    MoveLeadsTo(StateAfter(b, i), DYING, Fail, Moved(SharedAfter(b, i + 1), DyingAfter(i + 1)), StateAfter(b, i + 1));
  }

  lemma StepAfterDeath(b: byte)
    ensures Step(StateAfter(b, 14), FaceOffRun(b)[14]) == Some(StateAfter(b, 15))
  {
    assert ProcsAfter(b, 14) - {DYING} == ProcsAfter(b, 15);
  }

  lemma StepAfterHeir(b: byte, i: nat)
    requires 15 <= i < 17
    ensures Step(StateAfter(b, i), FaceOffRun(b)[i]) == Some(StateAfter(b, i + 1))
  {
    HeirStepAfter(b, i);
    assert ProcsAfter(b, i)[HEIR := HeirAfter(i + 1)] == ProcsAfter(b, i + 1);
    MoveLeadsTo(StateAfter(b, i), HEIR, Fail, Moved(SharedAfter(b, i + 1), HeirAfter(i + 1)), StateAfter(b, i + 1));
  }

  lemma StepAfter(b: byte, i: nat)
    requires i < 18
    ensures Step(StateAfter(b, i), FaceOffRun(b)[i]) == Some(StateAfter(b, i + 1))
  {
    if i < 3 { StepAfterArrival(b, i); }
    else if i < 7 || 9 <= i < 13 || i == 17 { StepAfterServer(b, i); }
    else if i == 14 { StepAfterDeath(b); }
    else if i < 14 { StepAfterDying(b, i); }
    else { StepAfterHeir(b, i); }
  }

  lemma {:induction false} PrefixAfter(b: byte, i: nat)
    requires i <= 18
    ensures Run(Init, FaceOffRun(b)[..i]) == Some(StateAfter(b, i))
  {
    if i > 0 {
      PrefixAfter(b, i - 1);
      StepAfter(b, i - 1);
      assert FaceOffRun(b)[..i][..i - 1] == FaceOffRun(b)[..i - 1];
    }
  }

  /** The last standstill is reached, although no file is empty and no call fails. */
  lemma FaceOffHappens(b: byte)
    ensures Run(Init, FaceOffRun(b)) == Some(StateAfter(b, 18)) && FaceOff(StateAfter(b, 18), P, HEIR)
  {
    PrefixAfter(b, 18);
    assert FaceOffRun(b)[..18] == FaceOffRun(b);
  }
}
