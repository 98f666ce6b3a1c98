/** The signal transfer never stops before both processes are gone, and every run ends. */
module SignalLiveness {
  import opened Counting
  import opened Kernel
  import opened SignalBits
  import opened SignalTransfer
  import opened SignalInvariant

  /** Writes make progress or fail. */
  predicate Progress(st: State, a: Action) {
    a.ClientMove? && st.c.pc.CWrite? && st.c.written < st.c.Size() ==> a.io != Count(0)
  }

  predicate Final(st: State) { st.c.pc.CExit? && st.s.pc.SExit? }

  /** Some step other than a crash can happen. */
  ghost predicate CanStep(st: State) {
    exists a: Action :: !a.KillClient? && !a.KillServer? && Progress(st, a) && Step(st, a).Some?
  }

  /** An answer of the system call that is next. */
  function ServerIo(st: State): Io { Count(if st.s.pos < |st.file| then 1 else 0) }

  lemma ClientCanStep(st: State)
    requires Inv(st) && !st.c.pc.CExit?
    requires st.c.pc != CReady(Suspended) && st.c.pc != CBit(Suspended)
    ensures CanStep(st)
  {
    assert Step(st, ClientMove(Count(1))).Some?;
  }

  lemma ServerCanStep(st: State)
    requires Inv(st) && !st.s.pc.SExit?
    requires st.s.pc != SBit(Suspended) && st.s.pc != SConfirm(Suspended)
    ensures CanStep(st)
  {
    assert Step(st, ServerMove(ServerIo(st))).Some?;
  }

  /** Both cannot sleep with no signal under way. */
  lemma SleepersAreWoken(st: State)
    requires Inv(st) && BothAlive(st)
    requires st.c.pc == CReady(Suspended) || st.c.pc == CBit(Suspended)
    requires st.s.pc == SBit(Suspended) || st.s.pc == SConfirm(Suspended)
    ensures CanStep(st)
  {
    if st.s.pending {
      assert Step(st, DeliverToServer).Some?;
    } else {
      var sig := if st.c.pending.usr1 then USR1 else USR2;
      assert st.c.pending.Has(sig);
      assert Step(st, DeliverToClient(sig)).Some?;
    }
  }

  /** No reachable state is stuck before both processes are gone, crashes included. */
  lemma {:induction false} NeverStuck(file: seq<bv8>, run: seq<Action>)
    requires Run(file, run).Some?
    ensures CanStep(Run(file, run).value) <==> !Final(Run(file, run).value)
  {
    RunKeeps(file, run);
    var st := Run(file, run).value;
    if Final(st) {
    } else if st.s.pc.SExit? {
      assert Step(st, ChildDeath).Some?;
    } else if st.c.pc.CExit? {
      assert Step(st, ParentDeath).Some?;
    } else if st.c.pc != CReady(Suspended) && st.c.pc != CBit(Suspended) {
      ClientCanStep(st);
    } else if st.s.pc != SBit(Suspended) && st.s.pc != SConfirm(Suspended) {
      ServerCanStep(st);
    } else {
      SleepersAreWoken(st);
    }
  }

  // ---------- how much is left to do ----------

  function ClientRank(c: Client): nat {
    match c.pc
    case CReady(w) =>
      (match w case Block => 8 case Check => if c.ready then 5 else 7 case Suspended => 6 case Reset => 4
               case Unblock => 13)
    case CSetBit0 => 12
    case CSetBit1 => 11
    case CStartSize => 10
    case CLoop => if c.target.SizeField? then 9 else 7
    case CStartData => 8
    case CRequest => 1
    case CBit(w) =>
      (match w case Block => 5 case Check => if c.ready then 2 else 4 case Suspended => 3 case Reset => 1
               case Unblock => 10)
    case CSetWait => 3
    case CConfirm => 2
    case CWrite => 15
    case CEnd => 14
    case CExit(_) => 0
  }

  function WaitRank(w: WaitPc, ready: bool): nat {
    match w case Block => 8 case Check => if ready then 5 else 7 case Suspended => 6 case Reset => 4 case Unblock => 8
  }

  function ServerRank(s: Server): nat {
    match s.pc
    case SSetHandler => 7
    case SRead => 6
    case SReady => 5
    case SStartSize => 12
    case SLoop => if s.target.SizeField? then 11 else 9
    case SStartData => 10
    case SBit(w) => WaitRank(w, s.ready)
    case SSend => 7
    case SNext => 12
    case SConfirm(w) => WaitRank(w, s.ready)
    case SEnd => 7
    case SExit(_) => 0
  }

  /** How often the token still moves before the server has learnt that the chunk arrived: six
      times for each bit. */
  function Moves(st: State): int {
    var c, s := st.c, st.s;
    MovesLeft(Receiving(c.pc), Received(c), ChunkOf(s).Total(), s.pending, s.ready, ServerActive(s.pc), s.pc.SReady?,
              !c.pending.Empty(), c.ready)
  }

  /** The same, from where the token is: pending at the server, in its flag, with it, pending at
      the client, in its flag, or with the client. */
  function MovesLeft(receiving: bool, received: nat, total: nat, sPending: bool, sReady: bool, sActive: bool,
                     readyNext: bool, cPending: bool, cReady: bool): int {
    var all := 6 * total + 6;
    if receiving then
      var left := all - 6 * received;
      if sPending then left - 1 else if sReady then left - 2 else if sActive then left - 3
      else if cPending then left - 4 else if cReady then left + 1 else left
    else if !sPending && !sReady && !sActive then
      if cPending then all + 2 else if cReady then all + 1 else all
    else if readyNext then all + 3
    else if sPending then 5 else if sReady then 4 else 3
  }

  predicate ZeroChunkLoaded(s: Server) { !s.pc.SSetHandler? && !s.pc.SRead? && s.n == 0 }

  /** The chunk in the server's hands is still to be written by the client. */
  predicate Undelivered(st: State) {
    Receiving(st.c.pc) || st.s.pc.SReady? || !ServerHasToken(st.s)
  }

  /** Each unread byte pays for its bits; the zero-size chunk pays for its own. */
  function Remaining(st: State): int
  {
    var c, s := st.c, st.s;
    if BothAlive(st) then
      100 + 20 * Moves(st) + ClientRank(c) + ServerRank(s) + |Unwritten(c)|
      + 4000 * (|st.file| - s.pos) + (if ZeroChunkLoaded(s) then 0 else 3000)
      + (if Undelivered(st) then s.n else 0)
    else if !c.pc.CExit? then
      60 * One(!c.pending.Empty()) + 40 * One(c.ready) + ClientRank(c) + |Unwritten(c)|
    else if !s.pc.SExit? then 60 * One(s.pending) + 40 * One(s.ready) + ServerRank(s)
    else 0
  }

  lemma RemainingNonNegative(st: State)
    requires Inv(st)
    ensures Remaining(st) >= 0
    ensures BothAlive(st) ==> Remaining(st) >= 100 + ClientRank(st.c) + ServerRank(st.s) + |Unwritten(st.c)|
  {}

  // ---------- every step leaves less to do ----------

  /** A step of the server that leaves the token where it is. */
  lemma ServerMovesOn(st: State, s': Server)
    requires !st.s.pc.SExit? && !s'.pc.SExit?
    requires s'.pending == st.s.pending && s'.ready == st.s.ready && s'.n == st.s.n && s'.pos == st.s.pos
    requires ServerActive(s'.pc) == ServerActive(st.s.pc) && s'.pc.SReady? == st.s.pc.SReady?
    requires ZeroChunkLoaded(s') == ZeroChunkLoaded(st.s)
    requires ServerRank(s') < ServerRank(st.s)
    ensures Remaining(st.(s := s')) < Remaining(st)
  {
    assert Moves(st.(s := s')) == Moves(st);
  }

  /** The server clears its flag: the token is now with it. */
  lemma ServerTakesToken(st: State, s': Server)
    requires Inv(st) && (st.s.pc == SBit(Reset) || st.s.pc == SConfirm(Reset))
    requires s' == st.s.(ready := false, pc := if st.s.pc.SBit? then SBit(Unblock) else SConfirm(Unblock))
    ensures Remaining(st.(s := s')) < Remaining(st)
  {
    assert BothAlive(st) ==> Moves(st.(s := s')) == Moves(st) - 1;
  }

  /** A step of the client that leaves the token where it is. */
  lemma ClientMovesOn(st: State, c': Client)
    requires !st.c.pc.CExit? && !c'.pc.CExit?
    requires c'.pending == st.c.pending && c'.ready == st.c.ready && Unwritten(c') == Unwritten(st.c)
    requires Receiving(c'.pc) == Receiving(st.c.pc) && Received(c') == Received(st.c)
    requires ClientRank(c') < ClientRank(st.c)
    ensures Remaining(st.(c := c')) < Remaining(st)
  {
    assert Moves(st.(c := c')) == Moves(st);
  }

  /** The client clears its flag: the token is now with it. */
  lemma ClientTakesToken(st: State, c': Client)
    requires Inv(st) && st.c.pc == CBit(Reset) && c' == st.c.(ready := false, pc := CBit(Unblock))
    ensures Remaining(st.(c := c')) < Remaining(st)
  {
    assert BothAlive(st) ==> Moves(st.(c := c')) == Moves(st) - 1;
  }

  lemma ReadyWaitLeavesLess(st: State, io: Io)
    requires Inv(st) && (st.c.pc.CReady?) && ClientStep(st, io).Some?
    requires Inv(ClientStep(st, io).value)
    ensures Remaining(ClientStep(st, io).value) < Remaining(st)
  {}

  lemma BitWaitLeavesLess(st: State, io: Io)
    requires Inv(st) && st.c.pc.CBit? && ClientStep(st, io).Some?
    ensures Remaining(ClientStep(st, io).value) < Remaining(st)
  {
    BitWaitStep(st.c);
    if st.c.pc.w.Reset? {
      ClientTakesToken(st, ClientAlone(st.c).value);
    } else {
      ClientMovesOn(st, ClientAlone(st.c).value);
    }
  }

  lemma ClientLoopLeavesLess(st: State, io: Io)
    requires Inv(st) && (st.c.pc.CLoop? || st.c.pc.CStartSize? || st.c.pc.CStartData?) && ClientStep(st, io).Some?
    requires Inv(ClientStep(st, io).value)
    ensures Remaining(ClientStep(st, io).value) < Remaining(st)
  {}

  lemma ClientSetLeavesLess(st: State, io: Io)
    requires Inv(st) && (st.c.pc.CSetBit0? || st.c.pc.CSetBit1? || st.c.pc.CSetWait?) && ClientStep(st, io).Some?
    requires Inv(ClientStep(st, io).value)
    ensures Remaining(ClientStep(st, io).value) < Remaining(st)
  {
    RemainingNonNegative(st);
  }

  lemma ClientEndLeavesLess(st: State, io: Io)
    requires Inv(st) && st.c.pc.CEnd? && ClientStep(st, io).Some?
    requires Inv(ClientStep(st, io).value)
    ensures Remaining(ClientStep(st, io).value) < Remaining(st)
  {
    RemainingNonNegative(st);
  }

  lemma ClientSendLeavesLess(st: State, io: Io)
    requires Inv(st) && (st.c.pc.CRequest? || st.c.pc.CConfirm?) && ClientStep(st, io).Some?
    requires Inv(ClientStep(st, io).value)
    ensures Remaining(ClientStep(st, io).value) < Remaining(st)
  {
    RemainingNonNegative(st);
    ShortRoundTrip(if st.s.n <= USHRT_MAX then st.s.n else 0);
  }

  lemma WriteLeavesLess(st: State, io: Io)
    requires Inv(st) && st.c.pc.CWrite? && st.c.written < st.c.Size() && io.Count? && io.n > 0
    requires ClientStep(st, io).Some? && Inv(ClientStep(st, io).value)
    ensures Remaining(ClientStep(st, io).value) < Remaining(st)
  {
    var st' := ClientStep(st, io).value;
    UnwrittenShrinks(st.c, st'.c);
    assert Moves(st') == Moves(st);
  }

  lemma WriteStopLeavesLess(st: State, io: Io)
    requires Inv(st) && st.c.pc.CWrite? && (st.c.written >= st.c.Size() || io.Fail?) && ClientStep(st, io).Some?
    requires Inv(ClientStep(st, io).value)
    ensures Remaining(ClientStep(st, io).value) < Remaining(st)
  {
    RemainingNonNegative(st);
  }

  lemma UnwrittenShrinks(c: Client, c': Client)
    requires c.pc.CWrite? && c.written < c'.written <= c.Size() <= |c.data| && c' == c.(written := c'.written)
    ensures |Unwritten(c')| < |Unwritten(c)|
  {}

  lemma RequestWaitLeavesLess(st: State, io: Io)
    requires Inv(st) && (st.s.pc.SBit?) && ServerStep(st, io).Some?
    ensures Remaining(ServerStep(st, io).value) < Remaining(st)
  {
    var s' := ServerStep(st, io).value.s;
    if st.s.pc.w.Reset? { ServerTakesToken(st, s'); } else { ServerMovesOn(st, s'); }
  }

  lemma ConfirmWaitLeavesLess(st: State, io: Io)
    requires Inv(st) && (st.s.pc.SConfirm?) && ServerStep(st, io).Some?
    ensures Remaining(ServerStep(st, io).value) < Remaining(st)
  {
    var s' := ServerStep(st, io).value.s;
    if st.s.pc.w.Reset? { ServerTakesToken(st, s'); } else { ServerMovesOn(st, s'); }
  }

  lemma ServerLoopLeavesLess(st: State, io: Io)
    requires Inv(st) && (st.s.pc.SLoop?) && ServerStep(st, io).Some?
    ensures Remaining(ServerStep(st, io).value) < Remaining(st)
  {
    ServerMovesOn(st, ServerStep(st, io).value.s);
  }

  lemma ServerNextLeavesLess(st: State, io: Io)
    requires Inv(st) && (st.s.pc.SNext?) && ServerStep(st, io).Some?
    ensures Remaining(ServerStep(st, io).value) < Remaining(st)
  {
    ServerMovesOn(st, ServerStep(st, io).value.s);
  }

  lemma ServerStartLeavesLess(st: State, io: Io)
    requires Inv(st) && (st.s.pc.SStartSize? || st.s.pc.SStartData?) && ServerStep(st, io).Some?
    ensures Remaining(ServerStep(st, io).value) < Remaining(st)
  {
    ServerMovesOn(st, ServerStep(st, io).value.s);
  }

  lemma ServerEndLeavesLess(st: State, io: Io)
    requires Inv(st) && (st.s.pc.SSetHandler? || st.s.pc.SEnd?) && ServerStep(st, io).Some?
    requires Inv(ServerStep(st, io).value)
    ensures Remaining(ServerStep(st, io).value) < Remaining(st)
  {
    RemainingNonNegative(st);
  }

  lemma ReadLeavesLess(st: State, io: Io)
    requires Inv(st) && (st.s.pc.SRead?) && ServerStep(st, io).Some?
    requires Inv(ServerStep(st, io).value)
    ensures Remaining(ServerStep(st, io).value) < Remaining(st)
  {
    RemainingNonNegative(st);
  }

  lemma ServerReadyLeavesLess(st: State, io: Io)
    requires Inv(st) && st.s.pc.SReady? && ServerStep(st, io).Some?
    requires Inv(ServerStep(st, io).value)
    ensures Remaining(ServerStep(st, io).value) < Remaining(st)
  {
    RemainingNonNegative(st);
  }

  lemma ServerSendLeavesLess(st: State, io: Io)
    requires Inv(st) && st.s.pc.SSend? && ServerStep(st, io).Some?
    requires Inv(ServerStep(st, io).value)
    ensures Remaining(ServerStep(st, io).value) < Remaining(st)
  {
    RemainingNonNegative(st);
    if BothAlive(st) {
      SendsOnRequest(st);
      assert Moves(ServerStep(st, io).value) == Moves(st) - 1;
    }
  }

  /** What a bit handler does to the client, as far as the measure can see. */
  lemma DeliverBitStep(c: Client, sig: Sig)
    requires ClientSound(c) && Receiving(c.pc) && DeliverClient(c, sig).Some?
    ensures var c' := DeliverClient(c, sig).value;
            && Received(c') == Received(c) + 1 && Receiving(c'.pc) && c'.pending.Empty() && c'.ready
            && ClientRank(c') <= ClientRank(c) && Unwritten(c') == Unwritten(c)
  {}

  lemma BitTaken(st: State, c': Client)
    requires BothAlive(st) && Receiving(st.c.pc) && !st.c.pending.Empty()
    requires !st.s.pending && !st.s.ready && !ServerActive(st.s.pc)
    requires Received(c') == Received(st.c) + 1 && Receiving(c'.pc) && c'.pending.Empty() && c'.ready
    requires ClientRank(c') <= ClientRank(st.c) && Unwritten(c') == Unwritten(st.c)
    ensures Remaining(st.(c := c')) < Remaining(st)
  {
    assert Moves(st.(c := c')) == Moves(st) - 1;
  }

  lemma DeliverBitLeavesLess(st: State, sig: Sig)
    requires Inv(st) && Receiving(st.c.pc) && BothAlive(st) && Step(st, DeliverToClient(sig)).Some?
    ensures Remaining(Step(st, DeliverToClient(sig)).value) < Remaining(st)
  {
    DeliverBitStep(st.c, sig);
    BitTaken(st, DeliverClient(st.c, sig).value);
  }

  lemma DeliverReadyLeavesLess(st: State, sig: Sig)
    requires Inv(st) && !Receiving(st.c.pc) && BothAlive(st) && Step(st, DeliverToClient(sig)).Some?
    requires Inv(Step(st, DeliverToClient(sig)).value)
    ensures Remaining(Step(st, DeliverToClient(sig)).value) < Remaining(st)
  {
    RemainingNonNegative(st);
  }

  lemma DeliverAloneLeavesLess(st: State, sig: Sig)
    requires Inv(st) && st.s.pc.SExit? && Step(st, DeliverToClient(sig)).Some?
    requires Inv(Step(st, DeliverToClient(sig)).value)
    ensures Remaining(Step(st, DeliverToClient(sig)).value) < Remaining(st)
  {
    RemainingNonNegative(st);
  }

  lemma DeliverToServerLeavesLess(st: State)
    requires Inv(st) && Step(st, DeliverToServer).Some?
    requires Inv(Step(st, DeliverToServer).value)
    ensures Remaining(Step(st, DeliverToServer).value) < Remaining(st)
  {
    RemainingNonNegative(st);
  }

  lemma DeathLeavesLess(st: State, a: Action)
    requires Inv(st) && (a.ChildDeath? || a.ParentDeath? || a.KillClient? || a.KillServer?) && Step(st, a).Some?
    requires Inv(Step(st, a).value)
    ensures Remaining(Step(st, a).value) < Remaining(st)
  {
    RemainingNonNegative(st);
  }

  lemma ClientStepLeavesLess(st: State, io: Io)
    requires Inv(st) && Progress(st, ClientMove(io)) && ClientStep(st, io).Some?
    ensures Remaining(ClientStep(st, io).value) < Remaining(st)
  {
    StepKeeps(st, ClientMove(io));
    match st.c.pc
    case CReady(_) => ReadyWaitLeavesLess(st, io);
    case CBit(_) => BitWaitLeavesLess(st, io);
    case CLoop | CStartSize | CStartData => ClientLoopLeavesLess(st, io);
    case CSetBit0 | CSetBit1 | CSetWait => ClientSetLeavesLess(st, io);
    case CEnd => ClientEndLeavesLess(st, io);
    case CRequest | CConfirm => ClientSendLeavesLess(st, io);
    case CWrite =>
      if st.c.written < st.c.Size() && io.Count? { WriteLeavesLess(st, io); } else { WriteStopLeavesLess(st, io); }
    case CExit(_) =>
  }

  lemma ServerStepLeavesLess(st: State, io: Io)
    requires Inv(st) && ServerStep(st, io).Some?
    ensures Remaining(ServerStep(st, io).value) < Remaining(st)
  {
    StepKeeps(st, ServerMove(io));
    match st.s.pc
    case SBit(_) => RequestWaitLeavesLess(st, io);
    case SConfirm(_) => ConfirmWaitLeavesLess(st, io);
    case SLoop => ServerLoopLeavesLess(st, io);
    case SNext => ServerNextLeavesLess(st, io);
    case SStartSize | SStartData => ServerStartLeavesLess(st, io);
    case SSetHandler | SEnd => ServerEndLeavesLess(st, io);
    case SRead => ReadLeavesLess(st, io);
    case SReady => ServerReadyLeavesLess(st, io);
    case SSend => ServerSendLeavesLess(st, io);
    case SExit(_) =>
  }

  lemma {:induction false} StepLeavesLess(st: State, a: Action)
    requires Inv(st) && Progress(st, a) && Step(st, a).Some?
    ensures Remaining(Step(st, a).value) < Remaining(st)
  {
    StepKeeps(st, a);
    match a
    case ClientMove(io) => ClientStepLeavesLess(st, io);
    case ServerMove(io) => ServerStepLeavesLess(st, io);
    case DeliverToClient(sig) =>
      if st.s.pc.SExit? { DeliverAloneLeavesLess(st, sig); }
      else if Receiving(st.c.pc) { DeliverBitLeavesLess(st, sig); }
      else { DeliverReadyLeavesLess(st, sig); }
    case DeliverToServer => DeliverToServerLeavesLess(st);
    case _ => DeathLeavesLess(st, a);
  }

  /** Every write along the run makes progress or fails. */
  predicate Progressing(file: seq<bv8>, run: seq<Action>)
    decreases |run|
  {
    run == [] ||
      var before, a := run[..|run| - 1], run[|run| - 1];
      Progressing(file, before) && (Run(file, before).Some? ==> Progress(Run(file, before).value, a))
  }

  lemma {:induction false} RemainingBoundsRun(file: seq<bv8>, run: seq<Action>)
    requires Run(file, run).Some? && Progressing(file, run)
    ensures Inv(Run(file, run).value)
    ensures |run| + Remaining(Run(file, run).value) <= 4000 * |file| + 3175
    decreases |run|
  {
    RunKeeps(file, run);
    if run != [] {
      var before := run[..|run| - 1];
      RemainingBoundsRun(file, before);
      StepLeavesLess(Run(file, before).value, run[|run| - 1]);
    }
  }

  /** Every run ends, after a number of steps that is linear in the size of the file. */
  lemma {:induction false} EveryRunEnds(file: seq<bv8>, run: seq<Action>)
    requires Run(file, run).Some? && Progressing(file, run)
    ensures |run| <= 4000 * |file| + 3175
  {
    RemainingBoundsRun(file, run);
    RemainingNonNegative(Run(file, run).value);
  }

  // ---------- how a run without failures ends ----------

  /** No crash, and no `read` or `write` fails. */
  predicate Clean(st: State, a: Action) {
    && !a.KillClient? && !a.KillServer?
    && (a.ClientMove? && st.c.pc.CWrite? ==> a.io != Fail)
    && (a.ServerMove? && st.s.pc.SRead? ==> a.io != Fail)
  }

  predicate CleanRun(file: seq<bv8>, run: seq<Action>)
    decreases |run|
  {
    run == [] ||
      var before, a := run[..|run| - 1], run[|run| - 1];
      CleanRun(file, before) && (Run(file, before).Some? ==> Clean(Run(file, before).value, a))
  }

  /** Only the two regular exits lie on a run without failures. */
  lemma CleanExit(st: State, a: Action)
    requires Inv(st) && BothAlive(st) && Clean(st, a) && Step(st, a).Some? && !BothAlive(Step(st, a).value)
    ensures (a.ClientMove? && st.c.pc.CEnd? && st.c.Size() == 0) || (a.ServerMove? && st.s.pc.SEnd? && st.s.n == 0)
    ensures Step(st, a).value.out == st.out
  {
    match a
    case ClientMove(io) => CleanClientExit(st, io);
    case ServerMove(io) => CleanServerExit(st, io);
    case DeliverToClient(sig) => DeliveryEndsNobody(st, sig);
    case _ =>
  }

  lemma CleanClientExit(st: State, io: Io)
    requires Inv(st) && BothAlive(st) && (st.c.pc.CWrite? ==> io != Fail)
    requires ClientStep(st, io).Some? && !BothAlive(ClientStep(st, io).value)
    ensures st.c.pc.CEnd? && st.c.Size() == 0 && ClientStep(st, io).value.out == st.out
  {}

  lemma CleanServerExit(st: State, io: Io)
    requires Inv(st) && BothAlive(st) && (st.s.pc.SRead? ==> io != Fail)
    requires ServerStep(st, io).Some? && !BothAlive(ServerStep(st, io).value)
    ensures st.s.pc.SEnd? && st.s.n == 0 && ServerStep(st, io).value.out == st.out
  {}

  lemma DeliveryEndsNobody(st: State, sig: Sig)
    requires Inv(st) && BothAlive(st) && Step(st, DeliverToClient(sig)).Some?
    ensures BothAlive(Step(st, DeliverToClient(sig)).value)
  {}

  lemma RegularExitMeansDelivered(st: State)
    requires Inv(st) && BothAlive(st)
    requires (st.c.pc.CEnd? && st.c.Size() == 0) || (st.s.pc.SEnd? && st.s.n == 0)
    ensures st.out == st.file
  {
    ShortRoundTrip(0);
  }

  lemma DeliveredStays(st: State, a: Action)
    requires Inv(st) && Step(st, a).Some? && st.out == st.file
    ensures Step(st, a).value.out == st.file
  {}

  /** Without failures neither process ends before the whole file has been written; this covers
      the client that is ended by SIGCHLD after the server's regular exit. */
  lemma {:induction false} CleanRunsDeliver(file: seq<bv8>, run: seq<Action>)
    requires Run(file, run).Some? && CleanRun(file, run)
    ensures !BothAlive(Run(file, run).value) ==> Run(file, run).value.out == file
    decreases |run|
  {
    RunKeeps(file, run);
    if run != [] {
      var before := run[..|run| - 1];
      CleanRunsDeliver(file, before);
      RunKeeps(file, before);
      var st, a := Run(file, before).value, run[|run| - 1];
      if !BothAlive(st) {
        DeliveredStays(st, a);
      } else if !BothAlive(Step(st, a).value) {
        CleanExit(st, a);
        RegularExitMeansDelivered(st);
      }
    }
  }
}
