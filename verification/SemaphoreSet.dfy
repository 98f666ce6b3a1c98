/** The kernel side of `semop`, as far as the transfer protocol relies on it: the operations of
    one array run in order, each seeing the effect of the ones before it, and take effect
    together or not at all; `SEM_UNDO` records an adjustment that process exit gives back. */
module SemaphoreSet {

  datatype SemId = SERVER | CLIENT | FULL | EMPTY | INIT

  /** One integer per semaphore of the set: semaphore values, or a process's undo adjustments. */
  datatype Vals = Vals(server: int, client: int, full: int, empty: int, init: int) {
    function Get(id: SemId): int {
      match id
      case SERVER => server
      case CLIENT => client
      case FULL => full
      case EMPTY => empty
      case INIT => init
    }

    function Set(id: SemId, x: int): Vals {
      match id
      case SERVER => this.(server := x)
      case CLIENT => this.(client := x)
      case FULL => this.(full := x)
      case EMPTY => this.(empty := x)
      case INIT => this.(init := x)
    }
  }

  const ZERO := Vals(0, 0, 0, 0, 0)

  datatype SemOp = SemOp(num: SemId, op: int, nowait: bool := false, undo: bool := false)

  /** `Block`: the caller sleeps and the array is tried again later. `Again`: EAGAIN. */
  datatype Outcome = Done(v: Vals, adj: Vals) | Block | Again

  predicate CanProceed(value: int, op: int) {
    if op == 0 then value == 0 else value + op >= 0
  }

  /** Runs the operations of `ops` from index `i` on. */
  function SemopFrom(v: Vals, adj: Vals, ops: seq<SemOp>, i: nat): Outcome
    requires i <= |ops|
    decreases |ops| - i
  {
    if i == |ops| then Done(v, adj)
    else
      var o := ops[i];
      if CanProceed(v.Get(o.num), o.op) then
        SemopFrom(v.Set(o.num, v.Get(o.num) + o.op),
                  if o.undo then adj.Set(o.num, adj.Get(o.num) - o.op) else adj,
                  ops, i + 1)
      else if o.nowait then Again else Block
  }

  function Semop(v: Vals, adj: Vals, ops: seq<SemOp>): Outcome {
    SemopFrom(v, adj, ops, 0)
  }

  /** What process exit does with one recorded adjustment; the kernel clamps at zero. */
  function Clamp(x: int): int { if x < 0 then 0 else x }

  function ApplyUndo(v: Vals, adj: Vals): Vals {
    Vals(Clamp(v.server + adj.server), Clamp(v.client + adj.client), Clamp(v.full + adj.full),
         Clamp(v.empty + adj.empty), Clamp(v.init + adj.init))
  }

  lemma GetSet(v: Vals, id: SemId, x: int, other: SemId)
    ensures v.Set(id, x).Get(other) == if other == id then x else v.Get(other)
  {}

  /** What the operations from `i` on that leave no undo record add to semaphore `id`. */
  function Lasting(ops: seq<SemOp>, i: nat, id: SemId): int
    decreases |ops| - i
  {
    if i >= |ops| then 0
    else (if ops[i].num == id && !ops[i].undo then ops[i].op else 0) + Lasting(ops, i + 1, id)
  }

  /** Whatever an array does with an undo record is kept in the record: value and record together
      change by the other operations only, and no value becomes negative. */
  lemma {:induction false} SemopConserves(v: Vals, adj: Vals, ops: seq<SemOp>, i: nat, id: SemId)
    requires i <= |ops| && SemopFrom(v, adj, ops, i).Done? && v.Get(id) >= 0
    ensures var r := SemopFrom(v, adj, ops, i);
            r.v.Get(id) + r.adj.Get(id) == v.Get(id) + adj.Get(id) + Lasting(ops, i, id) && r.v.Get(id) >= 0
    decreases |ops| - i
  {
    if i < |ops| {
      var op := ops[i];
      var v' := v.Set(op.num, v.Get(op.num) + op.op);
      var adj' := if op.undo then adj.Set(op.num, adj.Get(op.num) - op.op) else adj;
      GetSet(v, op.num, v.Get(op.num) + op.op, id);
      GetSet(adj, op.num, adj.Get(op.num) - op.op, id);
      SemopConserves(v', adj', ops, i + 1, id);
    }
  }

  /** At the exit every semaphore moves by its record, but not below zero. */
  lemma UndoAtExit(v: Vals, adj: Vals, id: SemId)
    ensures ApplyUndo(v, adj).Get(id) == if v.Get(id) + adj.Get(id) >= 0 then v.Get(id) + adj.Get(id) else 0
  {}

  /** A process that leaves after an array whose operations all have undo records leaves nothing
      behind. */
  lemma {:induction false} ExitRestores(v: Vals, ops: seq<SemOp>, id: SemId)
    requires Semop(v, ZERO, ops).Done? && v.Get(id) >= 0
    requires forall i :: 0 <= i < |ops| && ops[i].num == id ==> ops[i].undo || ops[i].op == 0
    ensures var r := Semop(v, ZERO, ops); ApplyUndo(r.v, r.adj).Get(id) == v.Get(id)
  {
    SemopConserves(v, ZERO, ops, 0, id);
    NothingLasting(ops, 0, id);
    UndoAtExit(Semop(v, ZERO, ops).v, Semop(v, ZERO, ops).adj, id);
  }

  lemma {:induction false} NothingLasting(ops: seq<SemOp>, i: nat, id: SemId)
    requires forall i :: 0 <= i < |ops| && ops[i].num == id ==> ops[i].undo || ops[i].op == 0
    ensures Lasting(ops, i, id) == 0
    decreases |ops| - i
  {
    if i < |ops| {
      NothingLasting(ops, i + 1, id);
    }
  }

  // The arrays the two programs hand to semop.

  const ACQUIRE_SERVER := [SemOp(SERVER, 0), SemOp(CLIENT, 0), SemOp(SERVER, 1, undo := true)]
  const SIGNAL_INIT := [SemOp(INIT, 1, undo := true)]
  const ACQUIRE_CLIENT := [SemOp(SERVER, -1), SemOp(SERVER, 0), SemOp(SERVER, 1),
                           SemOp(CLIENT, 0), SemOp(CLIENT, 1, undo := true)]
  const WAIT_FOR_CLIENT := [SemOp(CLIENT, -1), SemOp(CLIENT, 0), SemOp(CLIENT, 1)]
  const WAIT_FOR_SERVER := [SemOp(INIT, -1), SemOp(INIT, 0), SemOp(INIT, 1)]
  const SERVER_GATE := [SemOp(CLIENT, -1, nowait := true), SemOp(CLIENT, 0, nowait := true),
                        SemOp(CLIENT, 1), SemOp(EMPTY, -1)]
  const CLIENT_GATE := [SemOp(SERVER, -1, nowait := true), SemOp(SERVER, 0, nowait := true),
                        SemOp(SERVER, 1), SemOp(FULL, -1)]
  const POST_FULL := [SemOp(FULL, 1)]
  const POST_EMPTY := [SemOp(EMPTY, 1)]

  /** The three operations -1, 0, +1 at index `i` of any array let the rest of the array run
      exactly when the semaphore is one, and then leave every value and adjustment as it was.
      When it is not one, the array fails in the way its first two flags say. */
  lemma GateIsTestForOne(v: Vals, adj: Vals, ops: seq<SemOp>, i: nat, id: SemId, nowait: bool)
    requires i + 3 <= |ops|
    requires ops[i] == SemOp(id, -1, nowait) && ops[i + 1] == SemOp(id, 0, nowait)
    requires ops[i + 2].num == id && ops[i + 2].op == 1 && !ops[i + 2].undo
    requires v.Get(id) >= 0
    ensures SemopFrom(v, adj, ops, i)
         == if v.Get(id) == 1 then SemopFrom(v, adj, ops, i + 3) else if nowait then Again else Block
  {
    var x := v.Get(id);
    if x >= 1 {
      var v1 := v.Set(id, x - 1);
      assert SemopFrom(v, adj, ops, i) == SemopFrom(v1, adj, ops, i + 1);
      if x == 1 {
        assert SemopFrom(v1, adj, ops, i + 1) == SemopFrom(v1.Set(id, 0), adj, ops, i + 2);
        assert v1.Set(id, 0).Set(id, 1) == v;
      }
    }
  }

  predicate NonNegative(v: Vals) {
    v.server >= 0 && v.client >= 0 && v.full >= 0 && v.empty >= 0 && v.init >= 0
  }

  /** What the three arrays of acquireServer and acquireClient do. */
  lemma AcquireArrays(v: Vals, adj: Vals)
    requires NonNegative(v)
    ensures Semop(v, adj, ACQUIRE_SERVER)
         == if v.server == 0 && v.client == 0 then Done(v.(server := 1), adj.(server := adj.server - 1)) else Block
    ensures Semop(v, adj, ACQUIRE_CLIENT)
         == if v.server == 1 && v.client == 0 then Done(v.(client := 1), adj.(client := adj.client - 1)) else Block
    ensures Semop(v, adj, SIGNAL_INIT) == Done(v.(init := v.init + 1), adj.(init := adj.init - 1))
  {
    GateIsTestForOne(v, adj, ACQUIRE_CLIENT, 0, SERVER, false);
    if v.server == 0 && v.client == 0 {
      assert v.Set(SERVER, 0) == v;
      assert v.Set(CLIENT, 0) == v;
      assert SemopFrom(v, adj, ACQUIRE_SERVER, 1) == SemopFrom(v, adj, ACQUIRE_SERVER, 2);
    }
    if v.client == 0 {
      assert v.Set(CLIENT, 0) == v;
      assert SemopFrom(v, adj, ACQUIRE_CLIENT, 3) == SemopFrom(v, adj, ACQUIRE_CLIENT, 4);
    }
  }

  /** The blocking gates wait for a one; they change nothing. */
  lemma WaitArrays(v: Vals, adj: Vals)
    requires NonNegative(v)
    ensures Semop(v, adj, WAIT_FOR_CLIENT) == if v.client == 1 then Done(v, adj) else Block
    ensures Semop(v, adj, WAIT_FOR_SERVER) == if v.init == 1 then Done(v, adj) else Block
  {
    GateIsTestForOne(v, adj, WAIT_FOR_CLIENT, 0, CLIENT, false);
    GateIsTestForOne(v, adj, WAIT_FOR_SERVER, 0, INIT, false);
  }

  /** The gates of the copy loops report the peer's absence and otherwise wait for the token. */
  lemma LoopGates(v: Vals, adj: Vals)
    requires NonNegative(v)
    ensures Semop(v, adj, SERVER_GATE)
         == if v.client != 1 then Again else if v.empty == 0 then Block else Done(v.(empty := v.empty - 1), adj)
    ensures Semop(v, adj, CLIENT_GATE)
         == if v.server != 1 then Again else if v.full == 0 then Block else Done(v.(full := v.full - 1), adj)
  {
    GateIsTestForOne(v, adj, SERVER_GATE, 0, CLIENT, true);
    GateIsTestForOne(v, adj, CLIENT_GATE, 0, SERVER, true);
  }

  lemma PostArrays(v: Vals, adj: Vals)
    requires NonNegative(v)
    ensures Semop(v, adj, POST_FULL) == Done(v.(full := v.full + 1), adj)
    ensures Semop(v, adj, POST_EMPTY) == Done(v.(empty := v.empty + 1), adj)
  {}
}
