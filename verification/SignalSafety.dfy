/** What holds in every state the signal transfer can reach, on any file, under any schedule, any
    short reads and writes, and any crash of either process. */
module SignalSafety {
  import opened Kernel
  import opened SignalBits
  import opened SignalTransfer
  import opened SignalInvariant

  /** The output is always a prefix of the file, although the receive buffer is reused and
      overwritten bit by bit; it is the whole file once the client handles the zero-size chunk. */
  lemma {:induction false} OutputIsPrefix(file: seq<bv8>, run: seq<Action>, st: State)
    requires Run(file, run) == Some(st)
    ensures st.out <= file
    ensures (st.c.pc.CWrite? || st.c.pc.CEnd?) && st.c.Size() == 0 ==> st.out == file
    ensures st.c.pc == CExit(0) ==> st.out == file
  {
    RunKeeps(file, run);
  }

  /** No signal is sent while the same signal, or any other, is pending at its target, so the
      kernel never merges two of them. */
  lemma {:induction false} NoSignalCoalesces(file: seq<bv8>, run: seq<Action>)
    requires Run(file, run).Some? && BothAlive(Run(file, run).value)
    ensures var st := Run(file, run).value;
            && (st.s.pc.SReady? || st.s.pc.SSend? ==> st.c.pending.Empty() && !st.c.ready)
            && (st.c.pc.CRequest? || st.c.pc.CConfirm? ==> !st.s.pending && !st.s.ready)
  {
    RunKeeps(file, run);
  }

  /** Whatever is delivered runs the handler it is meant for: "ready" runs `recieveWaitHandler`;
      a data signal runs a bit handler, for the bit it carries, while `active_bit` stands at the
      place the server sent it from; a request or confirmation runs `sendWaitHandler`. */
  lemma {:induction false} HandlersFitSignals(file: seq<bv8>, run: seq<Action>, sig: Sig)
    requires Run(file, run).Some? && BothAlive(Run(file, run).value)
    ensures var st := Run(file, run).value;
            st.c.pending.Has(sig) ==>
              match st.wire
              case NoMsg => false
              case Ready => sig == USR1 && st.c.usr1.WaitHandler?
              case Bit(i, b) =>
                && RunsBitHandler(st.c, sig)
                && sig == (if b then USR2 else USR1)
                && Received(st.c) == i < ChunkOf(st.s).Total() && st.s.n <= |st.s.data|
                && b == ChunkOf(st.s).BitOf(i)
    ensures var st := Run(file, run).value;
            st.s.pending ==> st.s.handler
  {
    RunKeeps(file, run);
  }

  /** A signal that is due is always delivered inside the target of the bit handlers, also when
      the server has died meanwhile; SIGUSR2 never finds its default action. */
  lemma {:induction false} HandlersStayInBounds(file: seq<bv8>, run: seq<Action>, sig: Sig)
    requires Run(file, run).Some?
    requires var c := Run(file, run).value.c;
             !c.pc.CExit? && c.pending.Has(sig) && !ClientMask(c).Has(sig)
    ensures var st := Run(file, run).value;
            Step(st, DeliverToClient(sig)).Some? && !Step(st, DeliverToClient(sig)).value.c.pc.CExit?
  {
    RunKeeps(file, run);
  }

  /** When the client confirms a chunk, its buffer holds exactly the server's bytes of it. */
  lemma {:induction false} ConfirmedChunkIsExact(file: seq<bv8>, run: seq<Action>)
    requires Run(file, run).Some? && BothAlive(Run(file, run).value) && Run(file, run).value.c.pc.CConfirm?
    ensures var st := Run(file, run).value;
            && st.c.Size() == st.s.n <= USHRT_MAX
            && |st.c.data| == USHRT_MAX && st.base <= st.s.pos <= |file|
            && st.c.data[..st.c.Size()] == file[st.base..st.s.pos]
  {
    RunKeeps(file, run);
    var st := Run(file, run).value;
    ShortRoundTrip(st.s.n);
    SameBitsSameBytes(st.c.data, st.s.data, st.s.n);
  }

  /** The client ends by its own step exactly when it finds the server gone, fails to write, or has
      written the zero-size chunk; only the last exits with 0. */
  lemma ClientExits(st: State, io: Io)
    requires ClientStep(st, io).Some?
    ensures var c := ClientStep(st, io).value.c;
            && (c.pc.CExit? <==>
                  || ((st.c.pc.CRequest? || st.c.pc.CConfirm?) && st.s.pc.SExit?)
                  || (st.c.pc.CWrite? && st.c.written < st.c.Size() && io == Fail)
                  || (st.c.pc.CEnd? && st.c.Size() == 0))
            && (c.pc.CExit? ==> c.pc.code == if st.c.pc.CEnd? then 0 else -1)
  {}

  /** The server likewise: when it finds the client gone, fails to read, or has had the zero-size
      chunk confirmed. */
  lemma ServerExits(st: State, io: Io)
    requires ServerStep(st, io).Some?
    ensures var s := ServerStep(st, io).value.s;
            && (s.pc.SExit? <==>
                  || ((st.s.pc.SReady? || st.s.pc.SSend?) && st.c.pc.CExit?)
                  || (st.s.pc.SRead? && io == Fail)
                  || (st.s.pc.SEnd? && st.s.n == 0))
            && (s.pc.SExit? ==> s.pc.code == if st.s.pc.SEnd? then 0 else -1)
  {
    match st.s.pc
    case SRead => ReadExits(st, io);
    case SSend => SendExits(st, io);
    case _ =>
  }

  lemma ReadExits(st: State, io: Io)
    requires st.s.pc.SRead? && ServerRead(st, io).Some?
    ensures ServerRead(st, io).value.s.pc == if io == Fail then SExit(-1) else SReady
  {}

  lemma SendExits(st: State, io: Io)
    requires st.s.pc.SSend? && ServerStep(st, io).Some?
    ensures ServerStep(st, io).value.s.pc == if st.c.pc.CExit? then SExit(-1) else SNext
  {}

  /** `read` may deliver any part of what is left of the file, up to the size of the buffer, and
      nothing exactly at the end; the rest of the buffer keeps its bytes. */
  lemma ServerReads(st: State, n: nat)
    requires st.s.pc.SRead? && |st.s.data| == USHRT_MAX && st.s.pos <= |st.file|
    ensures ServerStep(st, Count(n)).Some? <==>
              if st.s.pos == |st.file| then n == 0 else 0 < n <= 65535 && st.s.pos + n <= |st.file|
    ensures ServerStep(st, Count(n)).Some? ==>
              var s := ServerStep(st, Count(n)).value.s;
              && s.n == n && s.pos == st.s.pos + n && s.pc == SReady
              && s.data == st.file[st.s.pos..st.s.pos + n] + st.s.data[n..]
  {}

  /** Nobody is ended by the other's step, or by anything else with code 0. */
  lemma OtherExits(st: State, a: Action)
    requires Step(st, a).Some?
    ensures var st' := Step(st, a).value;
            && (st'.c.pc != st.c.pc && st'.c.pc == CExit(0) ==> a.ClientMove?)
            && (st'.s.pc != st.s.pc && st'.s.pc == SExit(0) ==> a.ServerMove?)
            && (a.ServerMove? ==> st'.c.pc == st.c.pc)
            && (a.ClientMove? ==> st'.s.pc == st.s.pc)
  {}
}
