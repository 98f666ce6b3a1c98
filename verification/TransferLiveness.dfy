/** One server, one client, neither killed: when the pair cannot get stuck, that every run ends,
    and how it ends. */
module TransferLiveness {
  import opened Counting
  import opened Kernel
  import opened SemaphoreSet
  import opened Transfer
  import opened TransferInvariant
  import TransferSafety

  const S: nat := 0
  const C: nat := 1

  function Start(file: seq<byte>): State {
    State(Init.sh, map[S := Server(SAcquire, file, 0, ZERO), C := Client(CAcquire, ZERO)])
  }

  /** Writes make progress or fail; reads may do anything. */
  predicate Progress(pr: Proc, io: Io) { pr.Client? && pr.cpc.CWrite? ==> io != Count(0) }

  /** No crashes and no further processes. */
  predicate Allowed(s: State, a: Action) {
    match a
    case SpawnServer(_, _) => false
    case SpawnClient(_) => false
    case Exit(p) => p in s.procs && Returned(s.procs[p])
    case Move(p, io) => p in s.procs && Progress(s.procs[p], io)
  }

  /** The state a pair that transfers `file` is in after `run`. */
  function Pair(file: seq<byte>, run: seq<Action>): Option<State>
    decreases |run|
  {
    if run == [] then Some(Start(file))
    else
      match Pair(file, run[..|run| - 1])
      case None => None
      case Some(s) => if Allowed(s, run[|run| - 1]) then Step(s, run[|run| - 1]) else None
  }

  predicate Final(s: State) { s.procs == map[] }

  ghost predicate CanStep(s: State) { exists a :: Allowed(s, a) && Step(s, a).Some? }

  // ---------- the pair's own invariant ----------

  /** The pair without the process table. */
  datatype View = View(sh: Shared, so: Option<Proc>, co: Option<Proc>) {
    predicate Typed() { (so.Some? ==> so.value.Server?) && (co.Some? ==> co.value.Client?) }

    function Holding(): Holders {
      Holders(if so.Some? && Inside(so.value) then so else None,
              if co.Some? && Inside(co.value) then Some((C, co.value)) else None)
    }

    /** The server has not yet waited for the client. */
    predicate Early() requires Typed() {
      so.Some? && (so.value.spc.SAcquire? || Preparing(so.value.spc) || so.value.spc.SWaitClient?)
    }
  }

  function ViewOf(s: State): View {
    View(s.sh, if S in s.procs then Some(s.procs[S]) else None, if C in s.procs then Some(s.procs[C]) else None)
  }

  predicate Waiting(pc: ClientPc) { pc.CAcquire? || pc.CWaitServer? }

  predicate PairInv(w: View, file: seq<byte>) {
    && w.Typed()
    && Local(w.sh, w.Holding())
    && (w.so.Some? ==> w.so.value.file == file)
    && (w.so.Some? && w.so.value.spc.SAcquire? ==> Outside(w.so.value) && w.co.Some? && Outside(w.co.value))
    && (w.co.Some? && w.co.value.cpc.CAcquire? ==> Outside(w.co.value))
    && (w.Early() ==> w.sh.h.posted == [] && w.co.Some? && (Waiting(w.co.value.cpc) || w.co.value.cpc.CGate?))
    && (!w.Early() ==> w.sh.h.file == file && (w.co.Some? ==> !w.co.value.cpc.CAcquire?))
    && (w.co.Some? && Waiting(w.co.value.cpc) ==> w.sh.h.taken == [])
    && (w.so.Some? && w.co.Some? && !Returned(w.so.value) && !Returned(w.co.value)
        && !w.so.value.spc.SAcquire? && !Preparing(w.so.value.spc) ==>
          w.sh.v.full + w.sh.v.empty + One(Filling(w.so.value.spc)) + One(Draining(w.co.value.cpc)) == 1)
    && (file != [] && w.sh.h.posted != [] && (w.so.Some? ==> Returned(w.so.value)) && w.co.Some? ==>
          !w.co.value.cpc.CWaitServer?)
  }

  // ---------- how much is left to do ----------

  function ServerRank(pc: ServerPc, size: int): nat {
    match pc
    case SAcquire => 30
    case SSetFull => 29
    case SSetEmpty => 28
    case SSignalInit => 27
    case SWaitClient => 26
    case SGate => 25
    case SRead => 24
    case SPost => if size > 0 then 31 + size else 20
    case SCheck => if size == 0 then 10 else 26
    case SReturn(_) => 1
  }

  function ClientRank(pc: ClientPc, size: int): nat {
    match pc
    case CAcquire => 12
    case CWaitServer => 11
    case CGate => 10
    case CTest => if size > 0 then 13 + size else 13
    case CWrite(t) => if t < size then 12 + (size - t) else 12
    case CPost => 11
    case CReturn(_) => 1
  }

  /** Each unread byte pays for the round trip of a chunk; a chunk in FULL pays for its writes. */
  function Remaining(w: View, file: seq<byte>): int
    requires w.Typed()
  {
    (if w.so.Some? then 10 * (|file| - w.so.value.pos) + ServerRank(w.so.value.spc, w.sh.size) else 0)
    + (if w.co.Some? then ClientRank(w.co.value.cpc, w.sh.size) else 0)
    + (if w.sh.v.full == 1 then 4 + (if w.sh.size > 0 then w.sh.size else 0) else 0)
  }

  lemma RemainingNonNegative(w: View, file: seq<byte>)
    requires PairInv(w, file)
    ensures Remaining(w, file) >= 0
  {}

  // ---------- every step keeps the invariant and leaves less to do ----------

  predicate ServerMoves(w: View, io: Io, m: Moved, file: seq<byte>) {
    && PairInv(w, file) && w.so.Some? && Progress(w.so.value, io)
    && ServerMove(w.sh, w.so.value, io) == Some(m)
  }

  predicate ClientMoves(w: View, io: Io, m: Moved, file: seq<byte>) {
    && PairInv(w, file) && w.co.Some? && Progress(w.co.value, io)
    && ClientMove(w.sh, w.co.value, C, io) == Some(m)
  }

  predicate LeavesLess(w: View, w': View, file: seq<byte>)
    requires w.Typed()
  {
    PairInv(w', file) && Remaining(w', file) < Remaining(w, file)
  }

  lemma SetupLeavesLess(w: View, io: Io, m: Moved, file: seq<byte>)
    requires ServerMoves(w, io, m, file)
    requires w.so.value.spc.SAcquire? || Preparing(w.so.value.spc)
    ensures LeavesLess(w, w.(sh := m.sh, so := Some(m.me)), file)
  {
    ServerMoveKeeps(w.sh, w.so.value, io, w.Holding(), m);
    AcquireArrays(w.sh.v, w.so.value.adj);
  }

  lemma GateLeavesLess(w: View, io: Io, m: Moved, file: seq<byte>)
    requires ServerMoves(w, io, m, file)
    requires w.so.value.spc.SWaitClient? || w.so.value.spc.SGate?
    ensures LeavesLess(w, w.(sh := m.sh, so := Some(m.me)), file)
  {
    ServerMoveKeeps(w.sh, w.so.value, io, w.Holding(), m);
    WaitArrays(w.sh.v, w.so.value.adj);
    LoopGates(w.sh.v, w.so.value.adj);
  }

  lemma ReadLeavesLess(w: View, io: Io, m: Moved, file: seq<byte>)
    requires ServerMoves(w, io, m, file)
    requires w.so.value.spc.SRead?
    ensures LeavesLess(w, w.(sh := m.sh, so := Some(m.me)), file)
  {
    ServerMoveKeeps(w.sh, w.so.value, io, w.Holding(), m);
  }

  lemma PostLeavesLess(w: View, io: Io, m: Moved, file: seq<byte>)
    requires ServerMoves(w, io, m, file)
    requires w.so.value.spc.SPost?
    ensures LeavesLess(w, w.(sh := m.sh, so := Some(m.me)), file)
  {
    ServerMoveKeeps(w.sh, w.so.value, io, w.Holding(), m);
    PostArrays(w.sh.v, w.so.value.adj);
  }

  lemma CheckLeavesLess(w: View, io: Io, m: Moved, file: seq<byte>)
    requires ServerMoves(w, io, m, file)
    requires w.so.value.spc.SCheck?
    ensures LeavesLess(w, w.(sh := m.sh, so := Some(m.me)), file)
  {
    ServerMoveKeeps(w.sh, w.so.value, io, w.Holding(), m);
  }

  lemma EnterLeavesLess(w: View, io: Io, m: Moved, file: seq<byte>)
    requires ClientMoves(w, io, m, file)
    requires w.co.value.cpc.CAcquire? || w.co.value.cpc.CWaitServer?
    ensures LeavesLess(w, w.(sh := m.sh, co := Some(m.me)), file)
  {
    ClientMoveKeeps(w.sh, w.co.value, C, io, w.Holding(), m);
    AcquireArrays(w.sh.v, w.co.value.adj);
    WaitArrays(w.sh.v, w.co.value.adj);
  }

  lemma TakeLeavesLess(w: View, io: Io, m: Moved, file: seq<byte>)
    requires ClientMoves(w, io, m, file)
    requires w.co.value.cpc.CGate?
    ensures LeavesLess(w, w.(sh := m.sh, co := Some(m.me)), file)
  {
    ClientMoveKeeps(w.sh, w.co.value, C, io, w.Holding(), m);
    LoopGates(w.sh.v, w.co.value.adj);
  }

  lemma DrainLeavesLess(w: View, io: Io, m: Moved, file: seq<byte>)
    requires ClientMoves(w, io, m, file)
    requires w.co.value.cpc.CTest? || w.co.value.cpc.CWrite?
    ensures LeavesLess(w, w.(sh := m.sh, co := Some(m.me)), file)
  {
    ClientMoveKeeps(w.sh, w.co.value, C, io, w.Holding(), m);
  }

  lemma GiveBackLeavesLess(w: View, io: Io, m: Moved, file: seq<byte>)
    requires ClientMoves(w, io, m, file)
    requires w.co.value.cpc.CPost?
    ensures LeavesLess(w, w.(sh := m.sh, co := Some(m.me)), file)
  {
    ClientMoveKeeps(w.sh, w.co.value, C, io, w.Holding(), m);
    PostArrays(w.sh.v, w.co.value.adj);
  }

  lemma ServerExitLeavesLess(w: View, file: seq<byte>)
    requires PairInv(w, file) && w.so.Some? && Returned(w.so.value)
    ensures var w' := w.(sh := w.sh.(v := ApplyUndo(w.sh.v, w.so.value.adj)), so := None);
            LeavesLess(w, w', file)
  {
    ExitKeeps(w.sh, w.so.value, w.Holding());
  }

  lemma ClientExitLeavesLess(w: View, file: seq<byte>)
    requires PairInv(w, file) && w.co.Some? && Returned(w.co.value)
    ensures var w' := w.(sh := w.sh.(v := ApplyUndo(w.sh.v, w.co.value.adj)), co := None);
            LeavesLess(w, w', file)
  {
    ExitKeeps(w.sh, w.co.value, w.Holding());
  }

  lemma MoveLeavesLess(s: State, p: nat, io: Io, file: seq<byte>)
    requires s.procs.Keys <= {S, C} && PairInv(ViewOf(s), file)
    requires Allowed(s, Move(p, io)) && Step(s, Move(p, io)).Some?
    ensures var s' := Step(s, Move(p, io)).value;
            s'.procs.Keys <= {S, C} && LeavesLess(ViewOf(s), ViewOf(s'), file)
  {
    var w := ViewOf(s);
    var m := ProcMove(s.sh, s.procs[p], p, io).value;
    var s' := Step(s, Move(p, io)).value;
    if p == S {
      assert ViewOf(s') == w.(sh := m.sh, so := Some(m.me));
      match s.procs[S].spc
      case SAcquire | SSetFull | SSetEmpty | SSignalInit => SetupLeavesLess(w, io, m, file);
      case SWaitClient | SGate => GateLeavesLess(w, io, m, file);
      case SRead => ReadLeavesLess(w, io, m, file);
      case SPost => PostLeavesLess(w, io, m, file);
      case SCheck => CheckLeavesLess(w, io, m, file);
      case SReturn(_) =>
    } else {
      assert ViewOf(s') == w.(sh := m.sh, co := Some(m.me));
      match s.procs[C].cpc
      case CAcquire | CWaitServer => EnterLeavesLess(w, io, m, file);
      case CGate => TakeLeavesLess(w, io, m, file);
      case CTest | CWrite(_) => DrainLeavesLess(w, io, m, file);
      case CPost => GiveBackLeavesLess(w, io, m, file);
      case CReturn(_) =>
    }
  }

  lemma ExitLeavesLess(s: State, p: nat, file: seq<byte>)
    requires s.procs.Keys <= {S, C} && PairInv(ViewOf(s), file) && p in s.procs && Returned(s.procs[p])
    ensures var s' := Step(s, Exit(p)).value;
            s'.procs.Keys <= {S, C} && LeavesLess(ViewOf(s), ViewOf(s'), file)
  {
    var w, s' := ViewOf(s), Step(s, Exit(p)).value;
    if p == S {
      ServerExitLeavesLess(w, file);
      assert ViewOf(s') == w.(sh := s'.sh, so := None);
    } else {
      ClientExitLeavesLess(w, file);
      assert ViewOf(s') == w.(sh := s'.sh, co := None);
    }
  }

  lemma PairStepLeavesLess(s: State, a: Action, file: seq<byte>)
    requires s.procs.Keys <= {S, C} && PairInv(ViewOf(s), file)
    requires Allowed(s, a) && Step(s, a).Some?
    ensures var s' := Step(s, a).value;
            s'.procs.Keys <= {S, C} && LeavesLess(ViewOf(s), ViewOf(s'), file)
  {
    match a
    case Move(p, io) => MoveLeavesLess(s, p, io, file);
    case Exit(p) => ExitLeavesLess(s, p, file);
    case _ =>
  }

  // ---------- every run ends ----------

  /** The number of steps a transfer can take, whatever the interleaving and the short reads and
      writes, is linear in the size of the file. */
  lemma {:induction false} EveryRunEnds(file: seq<byte>, run: seq<Action>)
    requires Pair(file, run).Some?
    ensures var s := Pair(file, run).value;
            s.procs.Keys <= {S, C} && PairInv(ViewOf(s), file)
            && |run| + Remaining(ViewOf(s), file) <= 10 * |file| + 42
    ensures |run| <= 10 * |file| + 42
    decreases |run|
  {
    if run != [] {
      var before := run[..|run| - 1];
      EveryRunEnds(file, before);
      PairStepLeavesLess(Pair(file, before).value, run[|run| - 1], file);
    }
    RemainingNonNegative(ViewOf(Pair(file, run).value), file);
  }

  // ---------- when the pair gets stuck ----------

  /** The one place where the pair can wait for ever: waitForServer has no gate on SERVER. */
  predicate Stranded(w: View) {
    w.so == None && w.co.Some? && w.co.value.Client? && w.co.value.cpc == CWaitServer
  }

  /** An answer the server's next read can give. */
  function NextRead(me: Proc): Io
    requires me.Server?
  {
    Count(if me.pos < |me.file| then 1 else 0)
  }

  predicate ServerEnabled(w: View) requires w.Typed() {
    w.so.Some? && (Returned(w.so.value) || ServerMove(w.sh, w.so.value, NextRead(w.so.value)).Some?)
  }

  predicate ClientEnabled(w: View) requires w.Typed() {
    w.co.Some? && (Returned(w.co.value) || ClientMove(w.sh, w.co.value, C, Fail).Some?)
  }

  /** A server that cannot move waits for the client, and then the client can move. */
  lemma ServerOrClient(w: View, file: seq<byte>)
    requires PairInv(w, file) && w.so.Some? && !ServerEnabled(w)
    ensures ClientEnabled(w)
  {
    var me := w.so.value;
    match me.spc
    case SAcquire | SSignalInit => AcquireArrays(w.sh.v, me.adj);
    case SPost => PostArrays(w.sh.v, me.adj);
    case SWaitClient =>
      WaitArrays(w.sh.v, me.adj);
      BlockedServerFreesClient(w, file);
    case SGate =>
      LoopGates(w.sh.v, me.adj);
      BlockedServerFreesClient(w, file);
    case _ =>
  }

  lemma BlockedServerFreesClient(w: View, file: seq<byte>)
    requires PairInv(w, file) && w.so.Some? && (w.so.value.spc.SWaitClient? || w.so.value.spc.SGate?)
    requires if w.so.value.spc.SGate? then w.sh.v.client == 1 && w.sh.v.empty == 0 else w.sh.v.client == 0
    ensures ClientEnabled(w)
  {
    var me := w.co.value;
    match me.cpc
    case CAcquire => AcquireArrays(w.sh.v, me.adj);
    case CWaitServer => WaitArrays(w.sh.v, me.adj);
    case CGate => LoopGates(w.sh.v, me.adj);
    case CPost => PostArrays(w.sh.v, me.adj);
    case _ =>
  }

  /** Alone, the client can move everywhere but in waitForServer. */
  lemma LoneClient(w: View, file: seq<byte>)
    requires PairInv(w, file) && w.so == None && w.co.Some?
    ensures ClientEnabled(w) <==> !Stranded(w)
  {
    var me := w.co.value;
    match me.cpc
    case CWaitServer => WaitArrays(w.sh.v, me.adj);
    case CGate => LoopGates(w.sh.v, me.adj);
    case CPost => PostArrays(w.sh.v, me.adj);
    case _ =>
  }

  lemma EnabledCanStep(s: State)
    requires s.procs.Keys <= {S, C} && ViewOf(s).Typed()
    requires ServerEnabled(ViewOf(s)) || ClientEnabled(ViewOf(s))
    ensures CanStep(s)
  {
    var w := ViewOf(s);
    if ServerEnabled(w) {
      var a := if Returned(w.so.value) then Exit(S) else Move(S, NextRead(w.so.value));
      assert Allowed(s, a) && Step(s, a).Some?;
    } else {
      var a := if Returned(w.co.value) then Exit(C) else Move(C, Fail);
      assert Allowed(s, a) && Step(s, a).Some?;
    }
  }

  lemma {:induction false} OnlyStrandedIsStuck(s: State, file: seq<byte>)
    requires s.procs.Keys <= {S, C} && PairInv(ViewOf(s), file)
    ensures CanStep(s) <==> !Final(s) && !Stranded(ViewOf(s))
  {
    var w := ViewOf(s);
    assert w.so == None && w.co == None ==> s.procs == map[];
    if Final(s) {
    } else if Stranded(w) {
      WaitArrays(s.sh.v, w.co.value.adj);
    } else {
      if w.so.Some? {
        if !ServerEnabled(w) { ServerOrClient(w, file); }
      } else {
        LoneClient(w, file);
      }
      EnabledCanStep(s);
    }
  }

  // ---------- the first read decides ----------

  predicate IsFirstRead(s: State, a: Action) {
    a.Move? && a.pid == S && S in s.procs && s.procs[S].Server? && s.procs[S].spc.SRead? && s.sh.h.posted == []
  }

  /** A run in which the server's first `read`, if it gets that far, answers `first`. */
  predicate FirstReadGives(file: seq<byte>, run: seq<Action>, first: Io)
    decreases |run|
  {
    run == [] ||
      var before, a := run[..|run| - 1], run[|run| - 1];
      && FirstReadGives(file, before, first)
      && (Pair(file, before).Some? && IsFirstRead(Pair(file, before).value, a) ==> a.io == first)
  }

  /** A file has a first byte, and the first read does not fail: then no server leaves while the
      client waits for it. */
  predicate ServerStays(w: View) {
    w.Typed() && (w.co.Some? && Waiting(w.co.value.cpc) ==> w.so.Some? && !Returned(w.so.value))
  }

  lemma ServerMoveStays(w: View, io: Io, m: Moved, file: seq<byte>)
    requires ServerMoves(w, io, m, file) && ServerStays(w) && file != []
    requires w.so.value.spc.SRead? && w.sh.h.posted == [] ==> io != Fail
    ensures ServerStays(w.(sh := m.sh, so := Some(m.me)))
  {
    match w.so.value.spc
    case SAcquire | SSignalInit => AcquireArrays(w.sh.v, w.so.value.adj);
    case SWaitClient => WaitArrays(w.sh.v, w.so.value.adj);
    case SGate => LoopGates(w.sh.v, w.so.value.adj);
    case SPost => PostArrays(w.sh.v, w.so.value.adj);
    case SCheck => if w.sh.size == 0 { CheckMeansTaken(w, file); }
    case _ =>
  }

  /** A server that sees the end of a non-empty file has had a chunk taken before. */
  lemma CheckMeansTaken(w: View, file: seq<byte>)
    requires PairInv(w, file) && file != [] && w.so.Some? && w.so.value.spc.SCheck? && w.sh.size == 0
    ensures w.sh.h.taken != []
  {
    JoinedOfEmpty(w.sh.h.posted);
  }

  lemma JoinedOfEmpty(chunks: seq<seq<byte>>)
    ensures chunks == [[]] ==> Joined(chunks) == []
  {}

  lemma ClientMoveStays(w: View, io: Io, m: Moved, file: seq<byte>)
    requires ClientMoves(w, io, m, file) && ServerStays(w)
    ensures ServerStays(w.(sh := m.sh, co := Some(m.me)))
  {
    match w.co.value.cpc
    case CAcquire => AcquireArrays(w.sh.v, w.co.value.adj);
    case CGate => LoopGates(w.sh.v, w.co.value.adj);
    case CPost => PostArrays(w.sh.v, w.co.value.adj);
    case _ =>
  }

  lemma {:induction false} ServerStaysInRun(file: seq<byte>, run: seq<Action>, first: Io)
    requires Pair(file, run).Some? && FirstReadGives(file, run, first) && first != Fail && file != []
    ensures ServerStays(ViewOf(Pair(file, run).value))
    decreases |run|
  {
    EveryRunEnds(file, run);
    if run != [] {
      var before, a := run[..|run| - 1], run[|run| - 1];
      ServerStaysInRun(file, before, first);
      EveryRunEnds(file, before);
      var s := Pair(file, before).value;
      var w := ViewOf(s);
      if a.Move? {
        var m := ProcMove(s.sh, s.procs[a.pid], a.pid, a.io).value;
        if a.pid == S {
          ServerMoveStays(w, a.io, m, file);
          assert ViewOf(Step(s, a).value) == w.(sh := m.sh, so := Some(m.me));
        } else {
          ClientMoveStays(w, a.io, m, file);
          assert ViewOf(Step(s, a).value) == w.(sh := m.sh, co := Some(m.me));
        }
      }
    }
  }

  // ---------- the runs that strand the client ----------

  /** A first read that delivers nothing: the end of an empty file, or a failure. */
  predicate NoByte(file: seq<byte>, first: Io) { first == Fail || (first == Count(0) && file == []) }

  /** The program counters of a server whose first read delivers nothing. */
  function Path(first: Io): (pcs: seq<ServerPc>)
    ensures |pcs| == if first.Fail? then 8 else 10
  {
    [SAcquire, SSetFull, SSetEmpty, SSignalInit, SWaitClient, SGate, SRead]
    + if first.Fail? then [SReturn(-1)] else [SPost, SCheck, SReturn(0)]
  }

  function ServerOnPath(file: seq<byte>, first: Io, k: nat): Proc
    requires k < |Path(first)|
  {
    Server(Path(first)[k], file, 0, ZERO.(server := Undo(k >= 1), init := Undo(k >= 4)))
  }

  /** The shared state then, when `client` is the value of CLIENT. */
  function SharedOnPath(file: seq<byte>, first: Io, k: nat, client: int): Shared
    requires k < |Path(first)|
  {
    Shared(Vals(One(k >= 1), client, One(k >= 8), One(3 <= k <= 5), One(k >= 4)),
           if first.Fail? && k == 7 then -1 else 0, [],
           Session(if k == 0 then [] else file, k >= 4, if k >= 8 then [[]] else [], [], 0, [], false))
  }

  lemma PathSetup(file: seq<byte>, first: Io, k: nat)
    requires k < 4
    ensures ServerMove(SharedOnPath(file, first, k, 0), ServerOnPath(file, first, k), first)
         == Some(Moved(SharedOnPath(file, first, k + 1, 0), ServerOnPath(file, first, k + 1)))
  {
    AcquireArrays(SharedOnPath(file, first, k, 0).v, ServerOnPath(file, first, k).adj);
    if k == 0 {} else if k == 1 {} else if k == 2 {} else {}
  }

  lemma PathCopy(file: seq<byte>, first: Io, k: nat)
    requires NoByte(file, first) && 4 <= k < |Path(first)| - 1
    ensures ServerMove(SharedOnPath(file, first, k, 1), ServerOnPath(file, first, k), first)
         == Some(Moved(SharedOnPath(file, first, k + 1, 1), ServerOnPath(file, first, k + 1)))
  {
    var v, adj := SharedOnPath(file, first, k, 1).v, ServerOnPath(file, first, k).adj;
    if k == 4 { WaitArrays(v, adj); }
    else if k == 5 { LoopGates(v, adj); }
    else if k == 6 {}
    else if k == 7 { PostArrays(v, adj); assert [] + [SharedOnPath(file, first, k, 1).data] == [[]]; }
    else {}
  }

  lemma PairSnoc(file: seq<byte>, run: seq<Action>, a: Action, first: Io)
    requires Pair(file, run).Some? && Allowed(Pair(file, run).value, a) && Step(Pair(file, run).value, a).Some?
    requires FirstReadGives(file, run, first) && (a.Move? && a.pid == S ==> a.io == first)
    ensures Pair(file, run + [a]) == Step(Pair(file, run).value, a) && FirstReadGives(file, run + [a], first)
  {
    assert (run + [a])[..|run|] == run;
  }

  /** The pair, the server `k` moves along its path. */
  predicate OnPath(s: State, file: seq<byte>, first: Io, k: nat, vclient: int, client: Proc)
    requires k < |Path(first)|
  {
    && s.procs.Keys == {S, C}
    && s.sh == SharedOnPath(file, first, k, vclient)
    && s.procs[S] == ServerOnPath(file, first, k)
    && s.procs[C] == client
  }

  /** The server alone moves on from `from` to `to`; `run'` is the longer run. */
  lemma {:induction false} FollowPath(file: seq<byte>, first: Io, run: seq<Action>, from: nat, to: nat,
                                      vclient: int, client: Proc) returns (run': seq<Action>)
    requires NoByte(file, first) && from <= to < |Path(first)|
    requires if vclient == 0 then to <= 4 else vclient == 1 && 4 <= from
    requires Pair(file, run).Some? && OnPath(Pair(file, run).value, file, first, from, vclient, client)
    requires FirstReadGives(file, run, first)
    ensures Pair(file, run').Some? && OnPath(Pair(file, run').value, file, first, to, vclient, client)
    ensures FirstReadGives(file, run', first)
    decreases 10 - from
  {
    if from == to {
      run' := run;
    } else {
      if from < 4 { PathSetup(file, first, from); } else { PathCopy(file, first, from); }
      PairSnoc(file, run, Move(S, first), first);
      run' := FollowPath(file, first, run + [Move(S, first)], from + 1, to, vclient, client);
    }
  }

  /** When the first read delivers nothing, the server can leave before the client gets past
      waitForServer. */
  lemma {:induction false} StrandingRun(file: seq<byte>, first: Io) returns (run: seq<Action>)
    requires NoByte(file, first)
    ensures Pair(file, run).Some? && FirstReadGives(file, run, first)
    ensures var s := Pair(file, run).value; s.procs.Keys == {C} && Stranded(ViewOf(s))
  {
    run := ServerPrepares(file, first);
    run := FollowPath(file, first, run, 4, |Path(first)| - 1, 1, Client(CWaitServer, ZERO.(client := -1)));
    PairSnoc(file, run, Exit(S), first);
    run := run + [Exit(S)];
  }

  /** The server sets itself up and the client enters. */
  lemma {:induction false} ServerPrepares(file: seq<byte>, first: Io) returns (run: seq<Action>)
    requires NoByte(file, first)
    ensures Pair(file, run).Some? && FirstReadGives(file, run, first)
    ensures OnPath(Pair(file, run).value, file, first, 4, 1, Client(CWaitServer, ZERO.(client := -1)))
  {
    run := FollowPath(file, first, [], 0, 4, 0, Client(CAcquire, ZERO));
    AcquireArrays(SharedOnPath(file, first, 4, 0).v, ZERO);
    PairSnoc(file, run, Move(C, Fail), first);
    run := run + [Move(C, Fail)];
  }

  /** Neither process has been killed, and none of those that are left can go on. */
  ghost predicate Stuck(s: State) { !Final(s) && !CanStep(s) }

  /** The pair can get stuck exactly when the first read delivers no byte, be it the end of an empty
      file or a failure; later failures, and the race in which the client finds the server gone
      instead of the end-of-file chunk, never stop it. */
  lemma {:induction false} StuckIffFirstReadEmpty(file: seq<byte>, first: Io)
    requires first.Count? ==> ReadAnswer(file, 0, first.n)
    ensures (exists run :: Pair(file, run).Some? && FirstReadGives(file, run, first) && Stuck(Pair(file, run).value))
       <==> first == Fail || first == Count(0)
  {
    if NoByte(file, first) {
      var run := StrandingRun(file, first);
      EveryRunEnds(file, run);
      OnlyStrandedIsStuck(Pair(file, run).value, file);
    } else {
      forall run | Pair(file, run).Some? && FirstReadGives(file, run, first)
        ensures !Stuck(Pair(file, run).value)
      {
        EveryRunEnds(file, run);
        OnlyStrandedIsStuck(Pair(file, run).value, file);
        ServerStaysInRun(file, run, first);
      }
    }
  }

  // ---------- how a run without failures ends ----------

  /** No read of the server and no write of the client fails. */
  predicate Succeeds(s: State, a: Action) {
    a.Move? && a.pid in s.procs && Transfers(s.procs[a.pid]) ==> a.io != Fail
  }

  predicate Transfers(pr: Proc) { if pr.Server? then pr.spc.SRead? else pr.cpc.CWrite? }

  predicate CleanRun(file: seq<byte>, run: seq<Action>)
    decreases |run|
  {
    run == [] ||
      var before := run[..|run| - 1];
      CleanRun(file, before) && (Pair(file, before).Some? ==> Succeeds(Pair(file, before).value, run[|run| - 1]))
  }

  /** While no call fails, nobody returns before the end-of-file chunk has been posted. */
  predicate Clean(w: View) {
    && ((w.so.Some? && w.so.value.Server? ==> w.so.value.spc.SReturn?) ==> EndPosted(w.sh.h))
    && ((w.co.Some? && w.co.value.Client? ==> w.co.value.cpc.CReturn?) ==> EndPosted(w.sh.h))
  }

  lemma ServerStaysClean(w: View, io: Io, m: Moved, file: seq<byte>)
    requires ServerMoves(w, io, m, file) && Clean(w) && (w.so.value.spc.SRead? ==> io != Fail)
    ensures Clean(w.(sh := m.sh, so := Some(m.me)))
  {
    match w.so.value.spc
    case SAcquire | SSignalInit => AcquireArrays(w.sh.v, w.so.value.adj);
    case SWaitClient => WaitArrays(w.sh.v, w.so.value.adj);
    case SGate => LoopGates(w.sh.v, w.so.value.adj);
    case SPost => PostArrays(w.sh.v, w.so.value.adj);
    case _ =>
  }

  lemma ClientStaysClean(w: View, io: Io, m: Moved, file: seq<byte>)
    requires ClientMoves(w, io, m, file) && Clean(w) && (w.co.value.cpc.CWrite? ==> io != Fail)
    ensures Clean(w.(sh := m.sh, co := Some(m.me)))
  {
    match w.co.value.cpc
    case CAcquire => AcquireArrays(w.sh.v, w.co.value.adj);
    case CWaitServer => WaitArrays(w.sh.v, w.co.value.adj);
    case CGate => LoopGates(w.sh.v, w.co.value.adj);
    case CPost => PostArrays(w.sh.v, w.co.value.adj);
    case _ =>
  }

  lemma {:induction false} RunStaysClean(file: seq<byte>, run: seq<Action>)
    requires Pair(file, run).Some? && CleanRun(file, run)
    ensures Clean(ViewOf(Pair(file, run).value))
    decreases |run|
  {
    if run != [] {
      var before, a := run[..|run| - 1], run[|run| - 1];
      RunStaysClean(file, before);
      EveryRunEnds(file, before);
      var s := Pair(file, before).value;
      var w := ViewOf(s);
      if a.Move? {
        var m := ProcMove(s.sh, s.procs[a.pid], a.pid, a.io).value;
        if a.pid == S {
          ServerStaysClean(w, a.io, m, file);
          assert ViewOf(Step(s, a).value) == w.(sh := m.sh, so := Some(m.me));
        } else {
          ClientStaysClean(w, a.io, m, file);
          assert ViewOf(Step(s, a).value) == w.(sh := m.sh, co := Some(m.me));
        }
      }
    }
  }

  /** When both processes are gone and no read or write failed or was short, the file is written,
      whichever way the client learnt of the end. */
  lemma {:induction false} CleanRunsDeliver(file: seq<byte>, run: seq<Action>)
    requires Pair(file, run).Some? && CleanRun(file, run) && Final(Pair(file, run).value)
    requires !Pair(file, run).value.sh.h.short
    ensures Pair(file, run).value.sh.h.out == file
  {
    EveryRunEnds(file, run);
    RunStaysClean(file, run);
    TransferSafety.EndMeansWritten(Pair(file, run).value.sh.h);
  }
}
