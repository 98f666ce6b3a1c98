/** When the shared-memory transfer stands still, with any number of processes that stop anywhere,
    and which of the standstills no newcomer can end. */
module TransferDeadlock {
  import opened Counting
  import opened Kernel
  import opened SemaphoreSet
  import opened Transfer
  import opened TransferInvariant

  /** Every process there is waits in a call that does not return. */
  ghost predicate Still(s: State) {
    forall p :: p in s.procs ==> Waits(s, p)
  }

  ghost predicate Waits(s: State, p: nat)
    requires p in s.procs
  {
    !Returned(s.procs[p]) && forall io :: ProcMove(s.sh, s.procs[p], p, io) == None
  }

  // ---------- the four standstills ----------

  /** Only clients that have not entered. */
  predicate NoServer(s: State) { forall q :: q in s.procs ==> s.procs[q].Client? && s.procs[q].cpc.CAcquire? }

  /** Server `p` waits for its first client, and there is none. */
  predicate NoClient(s: State, p: nat) {
    && p in s.procs && s.procs[p].Server? && s.procs[p].spc.SWaitClient?
    && forall q :: q in s.procs && q != p ==> s.procs[q].Server? && s.procs[q].spc.SAcquire?
  }

  /** Client `c` waits in waitForServer, and no server has entered the block. */
  predicate Abandoned(s: State, c: nat) {
    && c in s.procs && s.procs[c].Client? && s.procs[c].cpc.CWaitServer?
    && forall q :: q in s.procs && s.procs[q].Server? ==> s.procs[q].spc.SAcquire?
  }

  /** Server `p` waits for EMPTY and client `c` for FULL, and nobody has the token. */
  predicate FaceOff(s: State, p: nat, c: nat) {
    && p in s.procs && s.procs[p].Server? && s.procs[p].spc.SGate?
    && c in s.procs && s.procs[c].Client? && s.procs[c].cpc.CGate?
    && s.sh.v.full == 0 && s.sh.v.empty == 0
  }

  // ---------- who can move ----------

  lemma OutsideWaits(s: State, q: nat)
    requires q in s.procs && Outside(s.procs[q]) && NonNegative(s.sh.v)
    ensures Waits(s, q) <==>
            if s.procs[q].Server? then s.sh.v.server != 0 || s.sh.v.client != 0
            else s.sh.v.server != 1 || s.sh.v.client != 0
  {
    AcquireArrays(s.sh.v, ZERO);
    assert ProcMove(s.sh, s.procs[q], q, Fail) == None ==> forall io :: ProcMove(s.sh, s.procs[q], q, io) == None;
  }

  lemma ServerWaits(s: State, p: nat, cp: Option<nat>)
    requires Inv(s, Some(p), cp)
    ensures Waits(s, p) <==>
            match s.procs[p].spc
            case SWaitClient => cp == None
            case SGate => cp.Some? && s.sh.v.empty == 0
            case _ => false
  {
    var v, adj := s.sh.v, s.procs[p].adj;
    AcquireArrays(v, adj);
    WaitArrays(v, adj);
    LoopGates(v, adj);
    PostArrays(v, adj);
    assert ProcMove(s.sh, s.procs[p], p, Fail) == None ==> forall io :: ProcMove(s.sh, s.procs[p], p, io) == None;
  }

  lemma ClientWaits(s: State, sp: Option<nat>, c: nat)
    requires Inv(s, sp, Some(c))
    ensures Waits(s, c) <==>
            match s.procs[c].cpc
            case CWaitServer => sp == None || Preparing(s.procs[sp.value].spc)
            case CGate => sp.Some? && s.sh.v.full == 0
            case _ => false
  {
    var v, adj := s.sh.v, s.procs[c].adj;
    AcquireArrays(v, adj);
    WaitArrays(v, adj);
    LoopGates(v, adj);
    PostArrays(v, adj);
    assert ProcMove(s.sh, s.procs[c], c, Fail) == None ==> forall io :: ProcMove(s.sh, s.procs[c], c, io) == None;
  }

  lemma AllOutsideWait(s: State, sp: Option<nat>, cp: Option<nat>)
    requires Inv(s, sp, cp)
    ensures forall q :: q in s.procs && Some(q) != sp && Some(q) != cp ==>
              (Waits(s, q) <==> cp.Some? || (if s.procs[q].Server? then sp.Some? else sp == None))
  {
    forall q | q in s.procs && Some(q) != sp && Some(q) != cp
      ensures Waits(s, q) <==> cp.Some? || (if s.procs[q].Server? then sp.Some? else sp == None)
    {
      OutsideWaits(s, q);
    }
  }

  ghost predicate Standstill(s: State) {
    NoServer(s) || (exists p :: NoClient(s, p)) || (exists c :: Abandoned(s, c)) || (exists p, c :: FaceOff(s, p, c))
  }

  lemma {:induction false} StillMeans(s: State, sp: Option<nat>, cp: Option<nat>)
    requires Inv(s, sp, cp) && Still(s)
    ensures Standstill(s)
  {
    AllOutsideWait(s, sp, cp);
    if sp.Some? { ServerWaits(s, sp.value, cp); }
    if cp.Some? { ClientWaits(s, sp, cp.value); }
    if sp.Some? && cp.Some? {
      assert FaceOff(s, sp.value, cp.value);
    } else if sp.Some? {
      assert NoClient(s, sp.value);
    } else if cp.Some? {
      assert Abandoned(s, cp.value);
    } else {
      assert NoServer(s);
    }
  }

  lemma {:induction false} StandstillIsStill(s: State, sp: Option<nat>, cp: Option<nat>)
    requires Inv(s, sp, cp) && Standstill(s)
    ensures Still(s)
  {
    AllOutsideWait(s, sp, cp);
    if sp.Some? { ServerWaits(s, sp.value, cp); }
    if cp.Some? { ClientWaits(s, sp, cp.value); }
    if p: nat, c: nat :| FaceOff(s, p, c) {
      assert sp == Some(p) && cp == Some(c);
    } else if c: nat :| Abandoned(s, c) {
      assert sp == None && cp == Some(c);
    } else if p: nat :| NoClient(s, p) {
      assert sp == Some(p) && cp == None;
    } else {
      assert sp == None && cp == None;
    }
  }

  /** In every reachable state: no process can take a step of its own exactly in the four
      standstills. */
  lemma {:induction false} StillIffStandstill(run: seq<Action>, s: State)
    requires Run(Init, run) == Some(s)
    ensures Still(s) <==> Standstill(s)
  {
    var sp, cp := RunKeepsInv(run);
    if Still(s) { StillMeans(s, sp, cp); }
    if Standstill(s) { StandstillIsStill(s, sp, cp); }
  }

  // ---------- standstills that newcomers end ----------

  /** A server that comes to the first standstill, and a client that comes to the second, can go
      on. */
  lemma {:induction false} NewcomersHelp(run: seq<Action>, s: State, a: Action, s': State)
    requires Run(Init, run) == Some(s) && Step(s, a) == Some(s')
    requires (NoServer(s) && a.SpawnServer?) || ((exists p :: NoClient(s, p)) && a.SpawnClient?)
    ensures !Still(s')
  {
    var sp, cp := RunKeepsInv(run);
    StepKeepsInv(s, a, sp, cp);
    AllOutsideWait(s', sp, cp);
    assert cp == None;
    assert !Waits(s', a.pid);
  }

  // ---------- standstills that last ----------

  lemma {:induction false} AbandonedStays(s: State, c: nat, a: Action)
    requires Inv(s, None, Some(c)) && Abandoned(s, c) && Step(s, a).Some? && a != Exit(c)
    ensures Inv(Step(s, a).value, None, Some(c)) && Abandoned(Step(s, a).value, c)
    ensures Step(s, a).value.sh.h == s.sh.h
  {
    StepKeepsInv(s, a, None, Some(c));
    if a.Move? {
      AllOutsideWait(s, None, Some(c));
      ClientWaits(s, None, c);
      assert false;
    }
  }

  /** A client left behind in waitForServer holds CLIENT: until it is killed nobody can ever enter
      again, whoever comes and goes. */
  lemma {:induction false} AbandonedForever(run: seq<Action>, s: State, c: nat, more: seq<Action>, s': State)
    requires Run(Init, run) == Some(s) && Abandoned(s, c)
    requires Run(s, more) == Some(s') && Exit(c) !in more
    ensures Abandoned(s', c) && Still(s') && s'.sh.h == s.sh.h
  {
    var sp, cp := RunKeepsInv(run);
    assert sp == None && cp == Some(c);
    AbandonedRun(s, c, more, s');
    StandstillIsStill(s', None, Some(c));
  }

  lemma {:induction false} AbandonedRun(s: State, c: nat, more: seq<Action>, s': State)
    requires Inv(s, None, Some(c)) && Abandoned(s, c) && Run(s, more) == Some(s') && Exit(c) !in more
    ensures Inv(s', None, Some(c)) && Abandoned(s', c) && s'.sh.h == s.sh.h
    decreases |more|
  {
    if more != [] {
      var before, a := more[..|more| - 1], more[|more| - 1];
      assert Run(s, before).Some? && Exit(c) !in before && a in more;
      AbandonedRun(s, c, before, Run(s, before).value);
      AbandonedStays(Run(s, before).value, c, a);
    }
  }

  /** Server `p` is past its set-up, and the token is neither in FULL or EMPTY nor with a process. */
  predicate TokenLost(s: State, p: nat) {
    && p in s.procs && s.procs[p].Server? && Inside(s.procs[p])
    && !Preparing(s.procs[p].spc) && !Filling(s.procs[p].spc)
    && s.sh.v.full == 0 && s.sh.v.empty == 0
    && forall q :: q in s.procs && s.procs[q].Client? ==> !Draining(s.procs[q].cpc)
  }

  lemma {:induction false} LostServerMove(s: State, p: nat, cp: Option<nat>, io: Io)
    requires Inv(s, Some(p), cp) && TokenLost(s, p) && Step(s, Move(p, io)).Some?
    ensures TokenLost(Step(s, Move(p, io)).value, p) && Step(s, Move(p, io)).value.sh.h == s.sh.h
  {
    InsideServerMove(s.sh, s.procs[p], io, ProcMove(s.sh, s.procs[p], p, io).value);
  }

  lemma InsideServerMove(sh: Shared, me: Proc, io: Io, m: Moved)
    requires NonNegative(sh.v) && sh.v.empty == 0
    requires me.Server? && Inside(me) && !Preparing(me.spc) && !Filling(me.spc) && ServerMove(sh, me, io) == Some(m)
    ensures m.sh == sh && m.me.Server? && Inside(m.me) && !Preparing(m.me.spc) && !Filling(m.me.spc)
  {
    WaitArrays(sh.v, me.adj);
    LoopGates(sh.v, me.adj);
  }

  lemma {:induction false} LostClientMove(s: State, p: nat, cp: Option<nat>, q: nat, io: Io)
    requires Inv(s, Some(p), cp) && TokenLost(s, p) && q != p && Step(s, Move(q, io)).Some?
    ensures TokenLost(Step(s, Move(q, io)).value, p) && Step(s, Move(q, io)).value.sh.h == s.sh.h
  {
    var m := ProcMove(s.sh, s.procs[q], q, io).value;
    if cp == Some(q) {
      InsideClientMove(s.sh, s.procs[q], q, io, m);
    } else {
      AcquireArrays(s.sh.v, s.procs[q].adj);
    }
  }

  lemma InsideClientMove(sh: Shared, me: Proc, q: nat, io: Io, m: Moved)
    requires NonNegative(sh.v) && sh.v.full == 0 && sh.v.init <= 1
    requires me.Client? && Inside(me) && !Draining(me.cpc) && ClientMove(sh, me, q, io) == Some(m)
    ensures m.sh == sh && m.me.Client? && !Draining(m.me.cpc)
  {
    WaitArrays(sh.v, me.adj);
    LoopGates(sh.v, me.adj);
  }

  lemma {:induction false} LostStays(s: State, p: nat, cp: Option<nat>, a: Action)
    requires Inv(s, Some(p), cp) && TokenLost(s, p) && Step(s, a).Some? && a != Exit(p)
    ensures TokenLost(Step(s, a).value, p) && Step(s, a).value.sh.h == s.sh.h
    ensures NextServer(Step(s, a).value, a, Some(p)) == Some(p)
  {
    match a
    case Move(q, io) => if q == p { LostServerMove(s, p, cp, io); } else { LostClientMove(s, p, cp, q, io); }
    case _ =>
  }

  lemma {:induction false} LostRun(s: State, p: nat, cp: Option<nat>, more: seq<Action>, s': State)
    returns (cp': Option<nat>)
    requires Inv(s, Some(p), cp) && TokenLost(s, p) && Run(s, more) == Some(s') && Exit(p) !in more
    ensures Inv(s', Some(p), cp') && TokenLost(s', p) && s'.sh.h == s.sh.h
    decreases |more|
  {
    if more == [] {
      cp' := cp;
    } else {
      var before, a := more[..|more| - 1], more[|more| - 1];
      assert Run(s, before).Some? && Exit(p) !in before && a in more;
      var st := Run(s, before).value;
      cp' := LostRun(s, p, cp, before, st);
      LostStays(st, p, cp', a);
      StepKeepsInv(st, a, Some(p), cp');
      cp' := NextClient(s', a, cp');
    }
  }

  /** Once the token is lost nothing is posted, taken, given back or written any more until the
      server ends, whatever clients come, go or die; and as soon as a client has reached its gate
      and the server its own, both wait. */
  lemma {:induction false} LostForever(run: seq<Action>, s: State, p: nat, more: seq<Action>, s': State)
    requires Run(Init, run) == Some(s) && TokenLost(s, p)
    requires Run(s, more) == Some(s') && Exit(p) !in more
    ensures TokenLost(s', p) && s'.sh.h == s.sh.h
    ensures forall c :: c in s'.procs && s'.procs[c].Client? && s'.procs[c].cpc.CGate? && s'.procs[p].spc.SGate? ==>
              Still(s')
  {
    var sp, cp := RunKeepsInv(run);
    assert sp == Some(p);
    cp := LostRun(s, p, cp, more, s');
    forall c | c in s'.procs && s'.procs[c].Client? && s'.procs[c].cpc.CGate? && s'.procs[p].spc.SGate?
      ensures Still(s')
    {
      assert FaceOff(s', p, c);
      StandstillIsStill(s', Some(p), cp);
    }
  }

  /** In the last standstill the token is lost. */
  lemma {:induction false} FaceOffIsLost(run: seq<Action>, s: State, p: nat, c: nat)
    requires Run(Init, run) == Some(s) && FaceOff(s, p, c)
    ensures TokenLost(s, p)
  {
    var sp, cp := RunKeepsInv(run);
    assert cp == Some(c);
  }

  // ---------- how the token gets lost ----------

  /** A process ends, or is about to, with the token in its hands: a client that dies, sees the end
      of the file or fails to write between FULL-1 and EMPTY+1, or a server that fails to read. */
  predicate DropsToken(s: State, a: Action) {
    match a
    case Exit(q) => q in s.procs && s.procs[q].Client? && Draining(s.procs[q].cpc)
    case Move(q, io) => q in s.procs && GivesUp(s.sh, s.procs[q], io)
    case _ => false
  }

  predicate GivesUp(sh: Shared, pr: Proc, io: Io) {
    if pr.Server? then pr.spc.SRead? && io == Fail
    else (pr.cpc.CTest? && sh.size <= 0) || (pr.cpc.CWrite? && io == Fail)
  }

  /** The tokens in FULL and EMPTY and with a process. */
  function Tokens(v: Vals, pr: Proc): int {
    v.full + v.empty + One(if pr.Server? then Filling(pr.spc) else Draining(pr.cpc))
  }

  lemma ServerTokens(sh: Shared, me: Proc, io: Io, m: Moved)
    requires NonNegative(sh.v) && me.Server? && Inside(me) && !Preparing(me.spc) && ServerMove(sh, me, io) == Some(m)
    ensures m.me.Server? && Inside(m.me) && !Preparing(m.me.spc)
    ensures Tokens(m.sh.v, m.me) == Tokens(sh.v, me) - One(GivesUp(sh, me, io))
  {
    WaitArrays(sh.v, me.adj);
    LoopGates(sh.v, me.adj);
    PostArrays(sh.v, me.adj);
  }

  lemma ClientTokens(sh: Shared, me: Proc, q: nat, io: Io, m: Moved)
    requires NonNegative(sh.v) && me.Client? && ClientMove(sh, me, q, io) == Some(m)
    ensures m.me.Client? && Tokens(m.sh.v, m.me) == Tokens(sh.v, me) - One(GivesUp(sh, me, io))
  {
    AcquireArrays(sh.v, me.adj);
    WaitArrays(sh.v, me.adj);
    LoopGates(sh.v, me.adj);
    PostArrays(sh.v, me.adj);
  }

  /** For a server `p` past its set-up, and the client `cp` inside the block if there is one. */
  function AllTokens(s: State, p: nat, cp: Option<nat>): int
    requires p in s.procs && (cp.Some? ==> cp.value in s.procs)
  {
    Tokens(s.sh.v, s.procs[p]) + if cp.Some? then Tokens(s.sh.v.(full := 0, empty := 0), s.procs[cp.value]) else 0
  }

  lemma LostMeansNone(s: State, p: nat, cp: Option<nat>)
    requires Inv(s, Some(p), cp) && !Preparing(s.procs[p].spc)
    ensures 0 <= AllTokens(s, p, cp) <= 1
    ensures TokenLost(s, p) <==> AllTokens(s, p, cp) == 0
  {}

  lemma MoveTokens(s: State, p: nat, cp: Option<nat>, q: nat, io: Io)
    requires Inv(s, Some(p), cp) && !Preparing(s.procs[p].spc) && Step(s, Move(q, io)).Some?
    ensures var s' := Step(s, Move(q, io)).value;
            var cp' := NextClient(s', Move(q, io), cp);
            && p in s'.procs && s'.procs[p].Server? && !Preparing(s'.procs[p].spc)
            && (cp'.Some? ==> cp'.value in s'.procs)
            && AllTokens(s', p, cp') == AllTokens(s, p, cp) - One(DropsToken(s, Move(q, io)))
  {
    var m := ProcMove(s.sh, s.procs[q], q, io).value;
    if s.procs[q].Server? {
      if q != p { AcquireArrays(s.sh.v, s.procs[q].adj); }
      ServerTokens(s.sh, s.procs[q], io, m);
    } else {
      if Some(q) != cp { AcquireArrays(s.sh.v, s.procs[q].adj); }
      ClientTokens(s.sh, s.procs[q], q, io, m);
    }
  }

  lemma ExitTokens(s: State, p: nat, cp: Option<nat>, q: nat)
    requires Inv(s, Some(p), cp) && !Preparing(s.procs[p].spc) && q in s.procs && q != p
    ensures var s' := Step(s, Exit(q)).value;
            var cp' := NextClient(s', Exit(q), cp);
            && p in s'.procs && s'.procs[p] == s.procs[p] && (cp'.Some? ==> cp'.value in s'.procs)
            && AllTokens(s', p, cp') == AllTokens(s, p, cp) - One(DropsToken(s, Exit(q)))
  {}

  lemma LostByMove(s: State, p: nat, cp: Option<nat>, q: nat, io: Io)
    requires Inv(s, Some(p), cp) && !Preparing(s.procs[p].spc) && Step(s, Move(q, io)).Some?
    ensures TokenLost(Step(s, Move(q, io)).value, p) <==> TokenLost(s, p) || DropsToken(s, Move(q, io))
  {
    StepKeepsInv(s, Move(q, io), Some(p), cp);
    LostMeansNone(s, p, cp);
    MoveTokens(s, p, cp, q, io);
    LostMeansNone(Step(s, Move(q, io)).value, p, NextClient(Step(s, Move(q, io)).value, Move(q, io), cp));
  }

  lemma LostByExit(s: State, p: nat, cp: Option<nat>, q: nat)
    requires Inv(s, Some(p), cp) && !Preparing(s.procs[p].spc) && q in s.procs && q != p
    ensures TokenLost(Step(s, Exit(q)).value, p) <==> TokenLost(s, p) || DropsToken(s, Exit(q))
  {
    StepKeepsInv(s, Exit(q), Some(p), cp);
    LostMeansNone(s, p, cp);
    ExitTokens(s, p, cp, q);
    LostMeansNone(Step(s, Exit(q)).value, p, NextClient(Step(s, Exit(q)).value, Exit(q), cp));
  }

  lemma NewcomerTakesNothing(s: State, p: nat, a: Action)
    requires p in s.procs && Step(s, a).Some? && (a.SpawnServer? || a.SpawnClient?)
    ensures TokenLost(Step(s, a).value, p) <==> TokenLost(s, p)
  {
    var s' := Step(s, a).value;
    assert forall q :: q in s.procs ==> q in s'.procs && s'.procs[q] == s.procs[q];
  }

  /** The token is lost exactly by a process that drops it; for as long as server `p` is past its
      set-up, nothing brings it back. */
  lemma {:induction false} LostIffDropped(run: seq<Action>, s: State, p: nat, a: Action, s': State)
    requires Run(Init, run) == Some(s) && Step(s, a) == Some(s') && a != Exit(p)
    requires p in s.procs && s.procs[p].Server? && Inside(s.procs[p]) && !Preparing(s.procs[p].spc)
    ensures TokenLost(s', p) <==> TokenLost(s, p) || DropsToken(s, a)
  {
    var sp, cp := RunKeepsInv(run);
    assert sp == Some(p);
    match a
    case Move(q, io) => LostByMove(s, p, cp, q, io);
    case Exit(q) => LostByExit(s, p, cp, q);
    case _ => NewcomerTakesNothing(s, p, a);
  }
}
