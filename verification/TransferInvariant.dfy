/** The inductive invariant of the shared-memory transfer, for any number of processes. */
module TransferInvariant {
  import opened Counting
  import opened Kernel
  import opened SemaphoreSet
  import opened Transfer

  // ---------- who is inside the block ----------

  predicate Inside(pr: Proc) { if pr.Server? then !pr.spc.SAcquire? else !pr.cpc.CAcquire? }

  /** A process that has not acquired the block yet. */
  predicate Outside(pr: Proc) {
    pr.adj == ZERO && if pr.Server? then pr.spc == SAcquire && pr.pos == 0 else pr.cpc == CAcquire
  }

  predicate Preparing(pc: ServerPc) { pc.SSetFull? || pc.SSetEmpty? || pc.SSignalInit? }

  /** Between EMPTY-1 and FULL+1. */
  predicate Filling(pc: ServerPc) { pc.SRead? || pc.SPost? }

  /** Between FULL-1 and EMPTY+1. */
  predicate Draining(pc: ClientPc) { pc.CTest? || pc.CWrite? || pc.CPost? }

  /** An entry of an undo record: the process gives one back when it exits. */
  function Undo(b: bool): int { if b then -1 else 0 }

  /** The server, and the numbered client, inside the block. */
  datatype Holders = Holders(s: Option<Proc>, c: Option<(nat, Proc)>) {
    predicate Typed() {
      && (s.Some? ==> s.value.Server? && Inside(s.value))
      && (c.Some? ==> c.value.1.Client? && Inside(c.value.1))
    }
  }

  // ---------- semaphores, undo records and the token ----------

  predicate Control(v: Vals, hs: Holders) {
    && hs.Typed()
    && v.server == One(hs.s.Some?)
    && v.client == One(hs.c.Some?)
    && v.init == One(hs.s.Some? && !Preparing(hs.s.value.spc))
    && (hs.s.Some? ==> hs.s.value.adj == ZERO.(server := -1, init := if Preparing(hs.s.value.spc) then 0 else -1))
    && (hs.c.Some? ==> hs.c.value.1.adj == ZERO.(client := -1))
    // FULL, EMPTY, a filling server and a draining client share one token
    && v.full >= 0 && v.empty >= 0
    && v.full + v.empty
       + One(hs.s.Some? && Filling(hs.s.value.spc)) + One(hs.c.Some? && Draining(hs.c.value.1.cpc)) <= 1
    && (hs.s.Some? && Preparing(hs.s.value.spc) ==>
          && (hs.c.Some? ==> hs.c.value.1.cpc == CWaitServer)
          && (hs.s.value.spc != SSetFull ==> v.full == 0)
          && (hs.s.value.spc == SSignalInit ==> v.empty == 1))
  }

  // ---------- what was posted, taken, given back and written ----------

  predicate EndPosted(h: Session) { h.posted != [] && h.posted[|h.posted| - 1] == [] }

  /** Facts about the session alone; they outlive both processes. */
  predicate Ledger(h: Session) {
    && h.acked <= |h.taken| <= |h.posted|
    && |h.taken| <= h.acked + 1
    && (forall i :: 0 <= i < |h.taken| ==> h.taken[i].1 == h.posted[i])
    && (forall i :: 0 <= i < |h.posted| - 1 ==> h.posted[i] != [])
    && Joined(h.posted) <= h.file
    && (EndPosted(h) ==> Joined(h.posted) == h.file && h.acked == |h.posted| - 1)
    && (!h.short ==>
          || h.out == Joined(h.posted[..h.acked])
          || (|h.taken| == h.acked + 1 && h.out == Joined(h.posted[..h.acked + 1])))
  }

  /** Where the chunk in the buffer stands. */
  predicate InFlight(sh: Shared, hs: Holders)
    requires hs.Typed()
  {
    var h := sh.h;
    && (hs.s.Some? ==> (h.ready <==> !Preparing(hs.s.value.spc)))
    && (!h.ready ==> h.posted == [] && h.out == [] && !h.short && (hs.c.Some? ==> hs.c.value.1.cpc == CWaitServer))
    && (h.ready && sh.v.full == 1 ==> |h.posted| == |h.taken| + 1 && |h.taken| == h.acked)
    && (h.ready && sh.v.full == 1 ==> sh.data == h.posted[|h.posted| - 1] && sh.size == |sh.data|)
    && (h.ready && sh.v.full == 0 ==> |h.posted| == |h.taken|)
    && (h.ready && (sh.v.empty == 1 || (hs.s.Some? && Filling(hs.s.value.spc))) ==> |h.posted| == h.acked)
  }

  /** What the server inside the block knows. */
  predicate ServerKnows(sh: Shared, me: Proc)
    requires me.Server?
  {
    var h := sh.h;
    && me.file == h.file
    && me.pos <= |h.file|
    && Joined(h.posted) + (if me.spc.SPost? then sh.data else []) == h.file[..me.pos]
    && (me.spc.SPost? ==> sh.size == |sh.data| && (sh.data == [] ==> me.pos == |h.file|))
    && (me.spc.SCheck? ==> h.posted != [] && sh.size == |h.posted[|h.posted| - 1]|)
    && (EndPosted(h) ==> me.spc.SCheck? || me.spc == SReturn(0))
    && (me.spc == SReturn(0) ==> EndPosted(h))
  }

  /** What client `p` inside the block knows. */
  predicate ClientKnows(sh: Shared, p: nat, pc: ClientPc) {
    var h := sh.h;
    && (Draining(pc) ==>
          && |h.posted| == |h.taken| == h.acked + 1
          && h.taken[h.acked] == (p, sh.data)
          && sh.size == |sh.data|
          && (!pc.CTest? ==> sh.data != [])
          && (!h.short ==> h.out == Joined(h.posted[..if pc.CPost? then h.acked + 1 else h.acked])))
    && (pc.CWrite? ==> pc.total < sh.size && (!h.short ==> pc.total == 0))
    && (pc == CReturn(0) ==> EndPosted(h))
  }

  predicate Content(sh: Shared, hs: Holders)
    requires hs.Typed()
  {
    && Ledger(sh.h)
    && InFlight(sh, hs)
    && (hs.s.Some? ==> ServerKnows(sh, hs.s.value))
    && (hs.c.Some? ==> ClientKnows(sh, hs.c.value.0, hs.c.value.1.cpc))
  }

  predicate Local(sh: Shared, hs: Holders) { Control(sh.v, hs) && Content(sh, hs) }

  /** `sp` and `cp` name the only processes inside the block. */
  predicate Inv(s: State, sp: Option<nat>, cp: Option<nat>) {
    && (sp.Some? ==> sp.value in s.procs)
    && (cp.Some? ==> cp.value in s.procs)
    && (forall p :: p in s.procs && Some(p) != sp && Some(p) != cp ==> Outside(s.procs[p]))
    && Local(s.sh, At(s, sp, cp))
  }

  function At(s: State, sp: Option<nat>, cp: Option<nat>): Holders
    requires sp.Some? ==> sp.value in s.procs
    requires cp.Some? ==> cp.value in s.procs
  {
    Holders(if sp.Some? then Some(s.procs[sp.value]) else None,
            if cp.Some? then Some((cp.value, s.procs[cp.value])) else None)
  }

  // ---------- one process moves: the part that is shared ----------

  lemma JoinedSnoc(cs: seq<seq<byte>>, c: seq<byte>)
    ensures Joined(cs + [c]) == Joined(cs) + c
  {
    assert (cs + [c])[..|cs|] == cs;
  }

  predicate ServerStep(sh: Shared, me: Proc, io: Io, hs: Holders, m: Moved) {
    me.Server? && Local(sh, hs) && (Outside(me) || hs.s == Some(me)) && ServerMove(sh, me, io) == Some(m)
  }

  predicate ClientStep(sh: Shared, me: Proc, p: nat, io: Io, hs: Holders, m: Moved) {
    me.Client? && Local(sh, hs) && (Outside(me) || hs.c == Some((p, me))) && ClientMove(sh, me, p, io) == Some(m)
  }

  /** The server enters only when nobody holds SERVER or CLIENT. */
  lemma ServerEnters(sh: Shared, me: Proc, io: Io, hs: Holders, m: Moved)
    requires ServerStep(sh, me, io, hs, m)
    requires me.spc.SAcquire?
    ensures hs.s == None && hs.c == None
    ensures Local(m.sh, hs.(s := Some(m.me)))
  {
    AcquireArrays(sh.v, me.adj);
  }

  lemma ResetKeeps(sh: Shared, me: Proc, io: Io, hs: Holders, m: Moved)
    requires ServerStep(sh, me, io, hs, m)
    requires me.spc.SSetFull? || me.spc.SSetEmpty?
    ensures Local(m.sh, hs.(s := Some(m.me)))
  {
  }

  lemma SignalInitKeeps(sh: Shared, me: Proc, io: Io, hs: Holders, m: Moved)
    requires ServerStep(sh, me, io, hs, m)
    requires me.spc.SSignalInit?
    ensures Local(m.sh, hs.(s := Some(m.me)))
  {
    AcquireArrays(sh.v, me.adj);
  }

  lemma WaitClientKeeps(sh: Shared, me: Proc, io: Io, hs: Holders, m: Moved)
    requires ServerStep(sh, me, io, hs, m)
    requires me.spc.SWaitClient?
    ensures Local(m.sh, hs.(s := Some(m.me)))
  {
    WaitArrays(sh.v, me.adj);
  }

  lemma ServerGateKeeps(sh: Shared, me: Proc, io: Io, hs: Holders, m: Moved)
    requires ServerStep(sh, me, io, hs, m)
    requires me.spc.SGate?
    ensures Local(m.sh, hs.(s := Some(m.me)))
  {
    LoopGates(sh.v, me.adj);
  }

  lemma ReadKeeps(sh: Shared, me: Proc, io: Io, hs: Holders, m: Moved)
    requires ServerStep(sh, me, io, hs, m)
    requires me.spc.SRead?
    ensures Local(m.sh, hs.(s := Some(m.me)))
  {
    if io.Count? {
      assert me.file[..m.me.pos] == me.file[..me.pos] + m.sh.data;
    }
  }

  lemma PostedLedger(sh: Shared, me: Proc)
    requires me.Server? && me.spc.SPost? && ServerKnows(sh, me) && Ledger(sh.h) && |sh.h.posted| == sh.h.acked
    ensures Ledger(sh.h.(posted := sh.h.posted + [sh.data]))
    ensures Joined(sh.h.posted + [sh.data]) == sh.h.file[..me.pos]
  {
    var h := sh.h;
    JoinedSnoc(h.posted, sh.data);
    assert (h.posted + [sh.data])[..h.acked] == h.posted[..h.acked];
  }

  lemma PostFullKeeps(sh: Shared, me: Proc, io: Io, hs: Holders, m: Moved)
    requires ServerStep(sh, me, io, hs, m)
    requires me.spc.SPost?
    ensures Local(m.sh, hs.(s := Some(m.me)))
  {
    PostArrays(sh.v, me.adj);
    PostedLedger(sh, me);
  }

  lemma CheckKeeps(sh: Shared, me: Proc, io: Io, hs: Holders, m: Moved)
    requires ServerStep(sh, me, io, hs, m)
    requires me.spc.SCheck?
    ensures Local(m.sh, hs.(s := Some(m.me)))
  {
  }

  lemma ClientEnters(sh: Shared, me: Proc, p: nat, io: Io, hs: Holders, m: Moved)
    requires ClientStep(sh, me, p, io, hs, m)
    requires me.cpc.CAcquire?
    ensures hs.c == None
    ensures Local(m.sh, hs.(c := Some((p, m.me))))
  {
    AcquireArrays(sh.v, me.adj);
  }

  lemma WaitServerKeeps(sh: Shared, me: Proc, p: nat, io: Io, hs: Holders, m: Moved)
    requires ClientStep(sh, me, p, io, hs, m)
    requires me.cpc.CWaitServer?
    ensures Local(m.sh, hs.(c := Some((p, m.me))))
  {
    WaitArrays(sh.v, me.adj);
  }

  lemma ClientGateKeeps(sh: Shared, me: Proc, p: nat, io: Io, hs: Holders, m: Moved)
    requires ClientStep(sh, me, p, io, hs, m)
    requires me.cpc.CGate?
    ensures Local(m.sh, hs.(c := Some((p, m.me))))
  {
    LoopGates(sh.v, me.adj);
  }

  lemma TestKeeps(sh: Shared, me: Proc, p: nat, io: Io, hs: Holders, m: Moved)
    requires ClientStep(sh, me, p, io, hs, m)
    requires me.cpc.CTest?
    ensures Local(m.sh, hs.(c := Some((p, m.me))))
  {
  }

  lemma WriteKeeps(sh: Shared, me: Proc, p: nat, io: Io, hs: Holders, m: Moved)
    requires ClientStep(sh, me, p, io, hs, m)
    requires me.cpc.CWrite?
    ensures Local(m.sh, hs.(c := Some((p, m.me))))
  {
    var h := sh.h;
    JoinedSnoc(h.posted[..h.acked], h.posted[h.acked]);
    assert h.posted[..h.acked + 1] == h.posted[..h.acked] + [h.posted[h.acked]];
  }

  lemma PostEmptyKeeps(sh: Shared, me: Proc, p: nat, io: Io, hs: Holders, m: Moved)
    requires ClientStep(sh, me, p, io, hs, m)
    requires me.cpc.CPost?
    ensures Local(m.sh, hs.(c := Some((p, m.me))))
  {
    PostArrays(sh.v, me.adj);
  }

  lemma {:induction false} ServerMoveKeeps(sh: Shared, me: Proc, io: Io, hs: Holders, m: Moved)
    requires ServerStep(sh, me, io, hs, m)
    ensures Local(m.sh, hs.(s := Some(m.me)))
    ensures Outside(me) ==> hs.s == None && hs.c == None
  {
    match me.spc
    case SAcquire => ServerEnters(sh, me, io, hs, m);
    case SSetFull | SSetEmpty => ResetKeeps(sh, me, io, hs, m);
    case SSignalInit => SignalInitKeeps(sh, me, io, hs, m);
    case SWaitClient => WaitClientKeeps(sh, me, io, hs, m);
    case SGate => ServerGateKeeps(sh, me, io, hs, m);
    case SRead => ReadKeeps(sh, me, io, hs, m);
    case SPost => PostFullKeeps(sh, me, io, hs, m);
    case SCheck => CheckKeeps(sh, me, io, hs, m);
    case SReturn(_) =>
  }

  lemma {:induction false} ClientMoveKeeps(sh: Shared, me: Proc, p: nat, io: Io, hs: Holders, m: Moved)
    requires ClientStep(sh, me, p, io, hs, m)
    ensures Local(m.sh, hs.(c := Some((p, m.me))))
    ensures Outside(me) ==> hs.c == None
  {
    match me.cpc
    case CAcquire => ClientEnters(sh, me, p, io, hs, m);
    case CWaitServer => WaitServerKeeps(sh, me, p, io, hs, m);
    case CGate => ClientGateKeeps(sh, me, p, io, hs, m);
    case CTest => TestKeeps(sh, me, p, io, hs, m);
    case CWrite(_) => WriteKeeps(sh, me, p, io, hs, m);
    case CPost => PostEmptyKeeps(sh, me, p, io, hs, m);
    case CReturn(_) =>
  }

  /** A process that leaves gives back what it holds, and nothing else changes. */
  lemma ExitKeeps(sh: Shared, me: Proc, hs: Holders)
    requires Local(sh, hs)
    requires Outside(me) || hs.s == Some(me) || (hs.c.Some? && hs.c.value.1 == me)
    ensures var sh' := sh.(v := ApplyUndo(sh.v, me.adj));
            && (Outside(me) ==> sh' == sh)
            && (hs.s == Some(me) ==> Local(sh', hs.(s := None)))
            && (hs.c.Some? && hs.c.value.1 == me ==> Local(sh', hs.(c := None)))
  {}

  // ---------- steps and runs ----------

  /** Who is inside the block after action `a` led to `s`. */
  function NextServer(s: State, a: Action, sp: Option<nat>): Option<nat> {
    if a.Exit? && sp == Some(a.pid) then None
    else if a.Move? && a.pid in s.procs && s.procs[a.pid].Server? then Some(a.pid)
    else sp
  }

  function NextClient(s: State, a: Action, cp: Option<nat>): Option<nat> {
    if a.Exit? && cp == Some(a.pid) then None
    else if a.Move? && a.pid in s.procs && s.procs[a.pid].Client? then Some(a.pid)
    else cp
  }

  lemma ServerMoveKeepsInv(s: State, p: nat, io: Io, sp: Option<nat>, cp: Option<nat>, m: Moved)
    requires Inv(s, sp, cp) && p in s.procs && s.procs[p].Server? && ServerMove(s.sh, s.procs[p], io) == Some(m)
    ensures Inv(State(m.sh, s.procs[p := m.me]), Some(p), cp)
  {
    var hs, s' := At(s, sp, cp), State(m.sh, s.procs[p := m.me]);
    ServerMoveKeeps(s.sh, s.procs[p], io, hs, m);
    assert At(s', Some(p), cp) == hs.(s := Some(m.me));
  }

  lemma ClientMoveKeepsInv(s: State, p: nat, io: Io, sp: Option<nat>, cp: Option<nat>, m: Moved)
    requires Inv(s, sp, cp) && p in s.procs && s.procs[p].Client? && ClientMove(s.sh, s.procs[p], p, io) == Some(m)
    ensures Inv(State(m.sh, s.procs[p := m.me]), sp, Some(p))
  {
    var hs, s' := At(s, sp, cp), State(m.sh, s.procs[p := m.me]);
    ClientMoveKeeps(s.sh, s.procs[p], p, io, hs, m);
    assert At(s', sp, Some(p)) == hs.(c := Some((p, m.me)));
  }

  lemma MoveStaysTyped(sh: Shared, me: Proc, p: nat, io: Io, m: Moved)
    requires ProcMove(sh, me, p, io) == Some(m)
    ensures m.me.Server? == me.Server?
  {}

  lemma MoveKeepsInv(s: State, p: nat, io: Io, sp: Option<nat>, cp: Option<nat>)
    requires Inv(s, sp, cp) && Step(s, Move(p, io)).Some?
    ensures var s' := Step(s, Move(p, io)).value;
            Inv(s', NextServer(s', Move(p, io), sp), NextClient(s', Move(p, io), cp))
  {
    var m := ProcMove(s.sh, s.procs[p], p, io).value;
    MoveStaysTyped(s.sh, s.procs[p], p, io, m);
    if s.procs[p].Server? {
      ServerMoveKeepsInv(s, p, io, sp, cp, m);
    } else {
      ClientMoveKeepsInv(s, p, io, sp, cp, m);
    }
  }

  lemma HoldersDiffer(s: State, sp: Option<nat>, cp: Option<nat>)
    requires Inv(s, sp, cp)
    ensures sp.Some? ==> sp != cp
  {}

  lemma ExitHolders(s: State, p: nat, sp: Option<nat>, cp: Option<nat>)
    requires p in s.procs && (sp.Some? ==> sp.value in s.procs) && (cp.Some? ==> cp.value in s.procs)
    ensures var hs, sp', cp' := At(s, sp, cp), if sp == Some(p) then None else sp, if cp == Some(p) then None else cp;
            var s' := Step(s, Exit(p)).value;
            && (sp'.Some? ==> sp'.value in s'.procs) && (cp'.Some? ==> cp'.value in s'.procs)
            && At(s', sp', cp') == Holders(if sp' == None then None else hs.s, if cp' == None then None else hs.c)
            && s'.sh == s.sh.(v := ApplyUndo(s.sh.v, s.procs[p].adj))
            && forall q :: q in s'.procs ==> q != p && q in s.procs && s'.procs[q] == s.procs[q]
  {}

  lemma ExitKeepsInv(s: State, p: nat, sp: Option<nat>, cp: Option<nat>)
    requires Inv(s, sp, cp) && p in s.procs
    ensures var s' := Step(s, Exit(p)).value;
            Inv(s', NextServer(s', Exit(p), sp), NextClient(s', Exit(p), cp))
  {
    ExitKeeps(s.sh, s.procs[p], At(s, sp, cp));
    ExitHolders(s, p, sp, cp);
    HoldersDiffer(s, sp, cp);
  }

  lemma {:induction false} StepKeepsInv(s: State, a: Action, sp: Option<nat>, cp: Option<nat>)
    requires Inv(s, sp, cp) && Step(s, a).Some?
    ensures var s' := Step(s, a).value;
            Inv(s', NextServer(s', a, sp), NextClient(s', a, cp))
  {
    match a
    case SpawnServer(_, _) | SpawnClient(_) =>
      assert At(Step(s, a).value, sp, cp) == At(s, sp, cp);
    case Exit(p) => ExitKeepsInv(s, p, sp, cp);
    case Move(p, io) => MoveKeepsInv(s, p, io, sp, cp);
  }

  /** Every state a run reaches from the zeroed semaphore set satisfies the invariant. */
  lemma {:induction false} RunKeepsInv(run: seq<Action>) returns (sp: Option<nat>, cp: Option<nat>)
    requires Run(Init, run).Some?
    ensures Inv(Run(Init, run).value, sp, cp)
  {
    if run == [] {
      sp, cp := None, None;
    } else {
      var before := run[..|run| - 1];
      sp, cp := RunKeepsInv(before);
      var s := Run(Init, before).value;
      var a := run[|run| - 1];
      StepKeepsInv(s, a, sp, cp);
      var s' := Step(s, a).value;
      sp, cp := NextServer(s', a, sp), NextClient(s', a, cp);
    }
  }
}
