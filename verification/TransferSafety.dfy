/** What holds in every state the shared-memory transfer can reach from a zeroed semaphore set,
    with any number of servers and clients, any answers of `read` and `write`, and processes
    that stop anywhere. */
module TransferSafety {
  import opened Counting
  import opened Kernel
  import opened SemaphoreSet
  import opened Transfer
  import opened TransferInvariant

  /** Live processes whose exit will give back one on `id`. */
  function UndoHolders(s: State, id: SemId): set<nat> {
    set p | p in s.procs && s.procs[p].adj.Get(id) == -1
  }

  function FillingServers(s: State): set<nat> {
    set p | p in s.procs && s.procs[p].Server? && Filling(s.procs[p].spc)
  }

  function DrainingClients(s: State): set<nat> {
    set p | p in s.procs && s.procs[p].Client? && Draining(s.procs[p].cpc)
  }

  /** A set that holds exactly the named element, or nothing. */
  lemma SizeOfOption(ps: set<nat>, o: Option<nat>)
    requires ps == if o.Some? then {o.value} else {}
    ensures |ps| == One(o.Some?)
  {}

  function Keep(o: Option<nat>, b: bool): Option<nat> { if b then o else None }

  /** FULL, EMPTY, servers between EMPTY-1 and FULL+1 and clients between FULL-1 and EMPTY+1
      share at most one token, across crashes and across a new server's SETVAL. */
  lemma {:induction false} OneToken(run: seq<Action>)
    requires Run(Init, run).Some?
    ensures var s := Run(Init, run).value;
            && s.sh.v.full >= 0 && s.sh.v.empty >= 0
            && s.sh.v.full + s.sh.v.empty + |FillingServers(s)| + |DrainingClients(s)| <= 1
  {
    var s := Run(Init, run).value;
    var sp, cp := RunKeepsInv(run);
    SizeOfOption(FillingServers(s), Keep(sp, sp.Some? && Filling(s.procs[sp.value].spc)));
    SizeOfOption(DrainingClients(s), Keep(cp, cp.Some? && Draining(s.procs[cp.value].cpc)));
  }

  /** The buffer is never written while it is read: no client is between taking a chunk and giving
      it back while a server is between taking EMPTY and posting FULL. */
  lemma {:induction false} NoReadDuringWrite(run: seq<Action>, p: nat, q: nat)
    requires Run(Init, run).Some?
    requires var s := Run(Init, run).value;
             && p in s.procs && s.procs[p].Server? && Filling(s.procs[p].spc)
             && q in s.procs && s.procs[q].Client?
    ensures !Draining(Run(Init, run).value.procs[q].cpc)
  {
    var sp, cp := RunKeepsInv(run);
  }

  /** SERVER, CLIENT and INIT count the live processes holding an undo on them; each is at most
      one; INIT implies SERVER; no process ever holds an undo on FULL or EMPTY. */
  lemma {:induction false} UndoRecordsCount(run: seq<Action>)
    requires Run(Init, run).Some?
    ensures var s := Run(Init, run).value;
            && s.sh.v.server == |UndoHolders(s, SERVER)| <= 1
            && s.sh.v.client == |UndoHolders(s, CLIENT)| <= 1
            && s.sh.v.init == |UndoHolders(s, INIT)| <= 1
            && (s.sh.v.init == 1 ==> s.sh.v.server == 1)
            && (forall p :: p in s.procs ==> s.procs[p].adj.full == 0 && s.procs[p].adj.empty == 0)
  {
    var s := Run(Init, run).value;
    var sp, cp := RunKeepsInv(run);
    ServerHolders(s, sp, cp);
    ClientHolders(s, sp, cp);
    SizeOfOption(UndoHolders(s, SERVER), sp);
    SizeOfOption(UndoHolders(s, CLIENT), cp);
    SizeOfOption(UndoHolders(s, INIT), Keep(sp, sp.Some? && !Preparing(s.procs[sp.value].spc)));
  }

  function Only(o: Option<nat>): set<nat> { if o.Some? then {o.value} else {} }

  lemma ServerHolders(s: State, sp: Option<nat>, cp: Option<nat>)
    requires Inv(s, sp, cp)
    ensures UndoHolders(s, SERVER) == Only(sp)
    ensures UndoHolders(s, INIT) == Only(Keep(sp, sp.Some? && !Preparing(s.procs[sp.value].spc)))
  {}

  lemma ClientHolders(s: State, sp: Option<nat>, cp: Option<nat>)
    requires Inv(s, sp, cp)
    ensures UndoHolders(s, CLIENT) == Only(cp)
  {}

  /** FULL and EMPTY are set outright only while no live client is past waitForServer. */
  lemma {:induction false} ResetOnlyBeforeClients(run: seq<Action>, p: nat, q: nat)
    requires Run(Init, run).Some?
    requires var s := Run(Init, run).value;
             && p in s.procs && s.procs[p].Server? && (s.procs[p].spc.SSetFull? || s.procs[p].spc.SSetEmpty?)
             && q in s.procs && s.procs[q].Client?
    ensures var pc := Run(Init, run).value.procs[q].cpc;
            pc.CAcquire? || pc.CWaitServer?
  {
    var sp, cp := RunKeepsInv(run);
  }

  /** At most one server and one client are past their acquire call. */
  lemma {:induction false} BlockHoldsOnePair(run: seq<Action>, p: nat, q: nat)
    requires Run(Init, run).Some?
    requires var s := Run(Init, run).value;
             && p in s.procs && q in s.procs && Inside(s.procs[p]) && Inside(s.procs[q])
             && s.procs[p].Server? == s.procs[q].Server?
    ensures p == q
  {
    var sp, cp := RunKeepsInv(run);
  }

  /** Within a session the i-th announcement is consumed once and with the i-th chunk in the
      buffer, although clients may die and be replaced; at most the last one consumed has not
      been given back; together the chunks are the part of the file that was read. */
  lemma {:induction false} ChunksTakenOnceInOrder(run: seq<Action>)
    requires Run(Init, run).Some?
    ensures var h := Run(Init, run).value.sh.h;
            && |h.taken| <= |h.posted|
            && (forall i :: 0 <= i < |h.taken| ==> h.taken[i].1 == h.posted[i])
            && h.acked <= |h.taken| <= h.acked + 1
            && Joined(h.posted) <= h.file
  {
    var sp, cp := RunKeepsInv(run);
  }

  /** A write that takes a part of the chunk that is neither nothing nor all. */
  predicate PartialWrite(s: State, a: Action) {
    && a.Move? && a.pid in s.procs && s.procs[a.pid].Client? && s.procs[a.pid].cpc.CWrite?
    && a.io.Count? && 0 < a.io.n < s.sh.size
  }

  predicate WholeWrites(run: seq<Action>)
    decreases |run|
  {
    run == [] ||
      var before, a := run[..|run| - 1], run[|run| - 1];
      WholeWrites(before) && (Run(Init, before).Some? ==> !PartialWrite(Run(Init, before).value, a))
  }

  lemma OnlyPartialWritesAreShort(s: State, a: Action)
    requires Step(s, a).Some?
    ensures Step(s, a).value.sh.h.short ==> s.sh.h.short || PartialWrite(s, a)
    ensures PartialWrite(s, a) ==> Step(s, a).value.sh.h.short
  {}

  /** `short` says no more than that some write was partial. */
  lemma {:induction false} WholeWritesAreNotShort(run: seq<Action>)
    requires Run(Init, run).Some? && WholeWrites(run)
    ensures !Run(Init, run).value.sh.h.short
    decreases |run|
  {
    if run != [] {
      var before := run[..|run| - 1];
      WholeWritesAreNotShort(before);
      OnlyPartialWritesAreShort(Run(Init, before).value, run[|run| - 1]);
    }
  }

  /** With whole writes, every chunk taken but the last is written exactly once, the last one at
      most once, and nothing else is: so the output is a prefix of the file at every moment. */
  lemma {:induction false} OutputIsPrefix(run: seq<Action>)
    requires Run(Init, run).Some?
    requires !Run(Init, run).value.sh.h.short
    ensures var h := Run(Init, run).value.sh.h;
            && h.acked <= |h.taken| <= |h.posted|
            && (h.out == Joined(h.posted[..h.acked]) || h.out == Joined(h.posted[..|h.taken|]))
            && h.out <= h.file
  {
    var sp, cp := RunKeepsInv(run);
    var h := Run(Init, run).value.sh.h;
    JoinedPrefix(h.posted, h.acked);
    JoinedPrefix(h.posted, |h.taken|);
  }

  lemma {:induction false} JoinedPrefix(cs: seq<seq<byte>>, k: nat)
    requires k <= |cs|
    ensures Joined(cs[..k]) <= Joined(cs)
    decreases |cs|
  {
    if k < |cs| {
      var init := cs[..|cs| - 1];
      assert init[..k] == cs[..k];
      JoinedPrefix(init, k);
    } else {
      assert cs[..k] == cs;
    }
  }

  /** A server that returns 0 has seen every byte of its file written (with whole writes). */
  lemma {:induction false} ServerSuccessMeansWritten(run: seq<Action>, p: nat)
    requires Run(Init, run).Some?
    requires var s := Run(Init, run).value;
             !s.sh.h.short && p in s.procs && s.procs[p].Server? && s.procs[p].spc == SReturn(0)
    ensures var s := Run(Init, run).value;
            s.sh.h.out == s.procs[p].file
  {
    var sp, cp := RunKeepsInv(run);
    EndMeansWritten(Run(Init, run).value.sh.h);
  }

  /** A client that returns 0 leaves the whole file behind it, though it may have written only
      the end of it. */
  lemma {:induction false} ClientSuccessMeansWritten(run: seq<Action>, p: nat)
    requires Run(Init, run).Some?
    requires var s := Run(Init, run).value;
             !s.sh.h.short && p in s.procs && s.procs[p].Client? && s.procs[p].cpc == CReturn(0)
    ensures var h := Run(Init, run).value.sh.h;
            h.out == h.file
  {
    var sp, cp := RunKeepsInv(run);
    EndMeansWritten(Run(Init, run).value.sh.h);
  }

  lemma EndMeansWritten(h: Session)
    requires Ledger(h) && EndPosted(h) && !h.short
    ensures h.out == h.file
  {
    assert h.posted[..|h.posted|] == h.posted;
  }
}
