/** How the programs of the shared-memory transfer end, and what a client writes of the chunk it
    took, short writes and failures included. */
module TransferReturns {
  import opened Kernel
  import opened SemaphoreSet
  import opened Transfer
  import HeadWrites

  // ---------- return codes ----------

  /** A client ends exactly when it finds the server gone, finds the zero-size chunk, or fails to
      write; only the zero-size chunk counts as success. */
  lemma ClientReturns(sh: Shared, me: Proc, q: nat, io: Io, m: Moved)
    requires NonNegative(sh.v) && me.Client? && ClientMove(sh, me, q, io) == Some(m)
    ensures m.me.Client?
    ensures m.me.cpc.CReturn? <==>
              || (me.cpc.CGate? && sh.v.server != 1)
              || (me.cpc.CTest? && sh.size <= 0)
              || (me.cpc.CWrite? && io == Fail)
    ensures m.me.cpc.CReturn? ==> m.me.cpc.code == if me.cpc.CTest? then 0 else -1
  {
    AcquireArrays(sh.v, me.adj);
    WaitArrays(sh.v, me.adj);
    LoopGates(sh.v, me.adj);
    PostArrays(sh.v, me.adj);
  }

  /** A server ends exactly when it finds the client gone, fails to read, or has posted the
      zero-size chunk; only the last counts as success. */
  lemma ServerReturns(sh: Shared, me: Proc, io: Io, m: Moved)
    requires NonNegative(sh.v) && me.Server? && ServerMove(sh, me, io) == Some(m)
    ensures m.me.Server?
    ensures m.me.spc.SReturn? <==>
              || (me.spc.SGate? && sh.v.client != 1)
              || (me.spc.SRead? && io == Fail)
              || (me.spc.SCheck? && sh.size == 0)
    ensures m.me.spc.SReturn? ==> m.me.spc.code == if me.spc.SCheck? then 0 else -1
  {
    AcquireArrays(sh.v, me.adj);
    WaitArrays(sh.v, me.adj);
    LoopGates(sh.v, me.adj);
    PostArrays(sh.v, me.adj);
  }

  /** `read` may deliver any part of what is left of the file, up to the size of the buffer, and
      nothing exactly at the end; the buffer then holds the next bytes. */
  lemma ServerReads(sh: Shared, me: Proc, n: nat)
    requires me.Server? && me.spc.SRead? && me.pos <= |me.file|
    ensures ServerMove(sh, me, Count(n)).Some? <==>
              if me.pos == |me.file| then n == 0 else 0 < n <= 4096 && me.pos + n <= |me.file|
    ensures ServerMove(sh, me, Count(n)).Some? ==>
              var m := ServerMove(sh, me, Count(n)).value;
              && m.sh.size == n && m.sh.data == me.file[me.pos..me.pos + n]
              && m.me.pos == me.pos + n && m.me.spc == SPost
  {}

  // ---------- the writes of one chunk ----------

  /** The client's moves while it stands in the write loop, one for each answer; once it has left
      the loop the rest of the answers is not used.  `None`: an answer the kernel cannot give. */
  function WriteMoves(sh: Shared, me: Proc, q: nat, answers: seq<Io>): Option<Moved>
    requires me.Client?
    decreases |answers|
  {
    if !me.cpc.CWrite? || answers == [] then Some(Moved(sh, me))
    else
      match ClientMove(sh, me, q, answers[0])
      case Some(m) => if m.me.Client? then WriteMoves(m.sh, m.me, q, answers[1..]) else None
      case None => None
  }

  /** Some answer the loop uses takes a part of the chunk that is neither nothing nor all. */
  predicate PartWritten(n: nat, total: nat, answers: seq<Io>)
    decreases |answers|
  {
    && total < n && answers != [] && answers[0].Count?
    && (0 < answers[0].n < n || PartWritten(n, total + answers[0].n, answers[1..]))
  }

  /** What the kernel's answers add to the output is what the head-first write loop emits, and the
      client gives the chunk back exactly when that loop completes. */
  lemma {:induction false} ChunkWrites(sh: Shared, me: Proc, q: nat, answers: seq<Io>)
    requires me.Client? && me.cpc.CWrite? && me.cpc.total < sh.size == |sh.data|
    requires HeadWrites.Answers(|sh.data|, answers)
    ensures WriteMoves(sh, me, q, answers).Some?
    ensures var m, total := WriteMoves(sh, me, q, answers).value, me.cpc.total;
            && m.sh.h.out == sh.h.out + HeadWrites.Emitted(sh.data, total, answers)
            && m.sh == sh.(h := sh.h.(out := m.sh.h.out, short := m.sh.h.short))
            && (m.sh.h.short <==> sh.h.short || PartWritten(|sh.data|, total, answers))
            && m.me.Client? && m.me.adj == me.adj
            && (m.me.cpc == CPost <==> HeadWrites.Completes(|sh.data|, total, answers))
            && (m.me.cpc.CPost? || m.me.cpc.CWrite? || m.me.cpc == CReturn(-1))
            && (m.me.cpc.CWrite? ==> Fail !in answers)
    decreases |answers|
  {
    if answers != [] {
      var m := ClientMove(sh, me, q, answers[0]).value;
      if m.me.cpc.CWrite? {
        ChunkWrites(m.sh, m.me, q, answers[1..]);
      } else if answers[0].Count? {
        assert me.cpc.total + answers[0].n >= |sh.data|;
      }
    }
  }
}
