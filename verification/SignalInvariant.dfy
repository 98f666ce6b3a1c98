/** The inductive invariant of the signal transfer.  One token travels between the two processes:
    the right to send the next signal. */
module SignalInvariant {
  import opened Counting
  import opened Kernel
  import opened SignalBits
  import opened SignalTransfer

  // ---------- the client by itself ----------

  /** The client has consumed a signal and will send the next one. */
  predicate ClientActive(pc: ClientPc) {
    || pc == CReady(Unblock) || pc.CSetBit0? || pc.CSetBit1? || pc.CStartSize? || pc.CStartData? || pc.CLoop?
    || pc.CRequest? || pc == CBit(Unblock) || pc.CSetWait? || pc.CConfirm?
  }

  /** The client is receiving the bits of a chunk. */
  predicate Receiving(pc: ClientPc) {
    pc.CStartData? || pc.CLoop? || pc.CRequest? || pc.CBit? || pc.CSetWait? || pc.CConfirm?
  }

  predicate ClientMasks(c: Client) {
    if c.pc.CReady? && !c.pc.w.Block? then c.blocked == ONLY1 && c.saved == NONE
    else if c.pc.CBit? && !c.pc.w.Block? then c.blocked == BOTH && c.saved == NONE
    else c.blocked == NONE
  }

  /** Dispositions fit the place: bit handlers while bits can arrive, the wait handler elsewhere. */
  predicate ClientHandlers(c: Client) {
    && (c.pc.CStartSize? || c.pc.CLoop? || c.pc.CStartData? || c.pc.CRequest? || c.pc.CBit? || c.pc.CSetWait? ==>
          c.usr1.Bit0Handler? && c.usr2.Bit1Handler?)
    && (c.pc.CSetBit1? ==> c.usr1.Bit0Handler?)
    && (c.pc.CReady? || c.pc.CSetBit0? || c.pc.CConfirm? || c.pc.CWrite? || c.pc.CEnd? ==>
          c.usr1.WaitHandler? && !c.pending.usr2)
  }

  predicate ClientPlace(c: Client) {
    && (Receiving(c.pc) ==> c.bit <= c.Bits())
    && (c.pc.CRequest? || (c.pc.CBit? && !c.pc.w.Unblock? && !c.ready) ==> c.bit < c.Bits())
    && (c.pc.CStartData? ==> c.target.SizeField? && c.bit == USHRT_WIDTH)
    && (c.pc.CSetWait? || c.pc.CConfirm? ==> c.target.Data? && c.bit == BitCount(c.Size()))
  }

  predicate ClientSound(c: Client) {
    && ClientMasks(c)
    && ClientHandlers(c)
    && ClientPlace(c)
    && !(c.pending.usr1 && c.pending.usr2)
    && One(ClientActive(c.pc)) + One(c.ready) + One(!c.pending.Empty()) <= 1
    && (c.pc == CReady(Reset) || c.pc == CBit(Reset) ==> c.ready)
    && (c.pc == CReady(Suspended) || c.pc == CBit(Suspended) ==> !c.ready)
  }

  /** What the client still has to write of the chunk it holds. */
  function Unwritten(c: Client): seq<bv8> {
    if c.pc.CWrite? && c.written <= c.Size() <= |c.data| then c.data[c.written..c.Size()] else []
  }

  /** The output, and what will follow it, are a prefix of the file; the whole of it once the
      zero-size chunk is there. */
  predicate OutputSound(file: seq<bv8>, out: seq<bv8>, c: Client) {
    && (c.pc.CWrite? ==> c.written <= c.Size())
    && out + Unwritten(c) <= file
    && ((c.pc.CWrite? || c.pc.CEnd?) && c.Size() == 0 ==> out == file)
    && (c.pc == CExit(0) ==> out == file)
  }

  // ---------- the server by itself ----------

  predicate ServerActive(pc: ServerPc) {
    || pc.SSetHandler? || pc.SRead? || pc.SReady? || pc == SBit(Unblock) || pc.SSend? || pc == SConfirm(Unblock)
    || pc.SEnd?
  }

  predicate Sending(pc: ServerPc) {
    pc.SStartSize? || pc.SStartData? || pc.SLoop? || pc.SBit? || pc.SSend? || pc.SNext? || pc.SConfirm?
  }

  predicate ServerPlace(s: Server) {
    && (s.pc.SBit? || s.pc.SSend? || s.pc.SNext? ==> s.bit < s.Bits())
    && (s.pc.SLoop? ==> s.bit <= s.Bits())
    && (s.pc.SStartData? ==> s.target.SizeField? && s.bit == USHRT_WIDTH)
    && (s.pc.SConfirm? || s.pc.SEnd? ==> s.target.Data? && s.bit == BitCount(s.n))
  }

  /** The server's buffer starts with the `n` bytes of the file that end at `pos`. */
  predicate Loaded(file: seq<bv8>, base: nat, n: nat, pos: nat, data: seq<bv8>)
    requires n <= |data| && base <= pos <= |file|
  {
    pos - base == n && data[..n] == file[base..pos] && (n == 0 ==> pos == |file|)
  }

  predicate ServerSound(file: seq<bv8>, base: nat, s: Server)
    requires |s.data| == USHRT_MAX
  {
    && s.n <= USHRT_MAX
    && s.size == ShortBytes(s.n)
    && base <= s.pos <= |file|
    && (!s.pc.SSetHandler? ==> s.handler)
    && (if (s.pc.SBit? || s.pc.SConfirm?) && !s.pc.w.Block? then s.blocked && !s.saved else !s.blocked)
    && One(ServerActive(s.pc)) + One(s.ready) + One(s.pending) <= 1
    && (s.pc == SBit(Reset) || s.pc == SConfirm(Reset) ==> s.ready)
    && (s.pc == SBit(Suspended) || s.pc == SConfirm(Suspended) ==> !s.ready)
    && ServerPlace(s)
    && (!s.pc.SSetHandler? && !s.pc.SRead? ==> Loaded(file, base, s.n, s.pos, s.data))
  }

  predicate Sized(st: State) { |st.c.data| == USHRT_MAX && |st.s.data| == USHRT_MAX }

  // ---------- the two together, while both are alive ----------

  predicate ServerHasToken(s: Server) { ServerActive(s.pc) || s.ready || s.pending }

  /** How many bits of the chunk the server has sent, and the client has received. */
  function Sent(s: Server): nat {
    if s.pc.SStartSize? then 0 else Place(s.target, s.bit) + One(s.pc.SNext?)
  }

  function Received(c: Client): nat { Place(c.target, c.bit) }

  /** A chunk: the two bytes of its size, and the buffer that starts with its bytes. */
  datatype Chunk = Chunk(n: nat, size: Short, data: seq<bv8>) {
    function Total(): nat { USHRT_WIDTH + BitCount(n) }

    /** Bit `i`, as the bits are sent. */
    predicate BitOf(i: nat)
      requires n <= |data| && i < Total()
    {
      if i < USHRT_WIDTH then BitAt(size, i) else BitAt(data, i - USHRT_WIDTH)
    }
  }

  /** Of the first `bit` bits that `target` points to, the receiver has what the chunk says. */
  predicate Agrees(ch: Chunk, size: Short, data: seq<bv8>, target: Target, bit: nat)
    requires ch.n <= |ch.data| <= |data|
  {
    && (target.Data? ==> size == ch.size)
    && bit <= (if target.SizeField? then USHRT_WIDTH else BitCount(ch.n))
    && SameBits(if target.SizeField? then size else data, if target.SizeField? then ch.size else ch.data, bit)
  }

  /** The signals pending at the client are those that bit `i` of the chunk calls for, if it has
      been sent. */
  predicate Signalled(ch: Chunk, i: nat, sent: nat, pending: SigSet, wire: Msg)
    requires ch.n <= |ch.data|
  {
    && sent == i + One(!pending.Empty())
    && sent <= ch.Total()
    && (!pending.Empty() ==> wire == Bit(i, ch.BitOf(i)) && pending == if ch.BitOf(i) then ONLY2 else ONLY1)
  }

  function ChunkOf(s: Server): Chunk { Chunk(s.n, s.size, s.data) }

  /** While the client receives: the counts agree, the signal under way carries the bit that is
      due, and the bits received so far are the server's. */
  predicate JointReceiving(st: State)
    requires Sized(st) && ServerSound(st.file, st.base, st.s)
  {
    var c, s := st.c, st.s;
    && Sending(s.pc)
    && st.out == st.file[..st.base]
    && Agrees(ChunkOf(s), c.size, c.data, c.target, c.bit)
    && Signalled(ChunkOf(s), Received(c), Sent(s), c.pending, st.wire)
    && (ServerHasToken(s) ==> Sent(s) < ChunkOf(s).Total())
  }

  /** While it does not: the signal under way says "ready" for the next chunk, or the server is
      learning that the last one has arrived. */
  predicate JointBetween(st: State)
    requires Sized(st) && ServerSound(st.file, st.base, st.s)
  {
    var c, s := st.c, st.s;
    var delivered := st.out + Unwritten(c);
    var holding := c.pc.CWrite? || c.pc.CEnd?;
    if !ServerHasToken(s) then
      && Sending(s.pc) && Sent(s) == 0
      && (!c.pending.Empty() ==> st.wire == Ready && c.pending == ONLY1)
      && delivered == st.file[..st.base]
      && (holding ==> c.Size() != 0)
    else if s.pc.SReady? then
      delivered == st.file[..st.base] && (holding ==> c.Size() != 0)
    else if s.pc.SSetHandler? || s.pc.SRead? then
      delivered == st.file[..s.pos] && (holding ==> c.Size() != 0)
    else
      && Sent(s) == ChunkOf(s).Total()
      && delivered == st.file[..s.pos]
      && (if holding then c.size == s.size else s.n != 0)
  }

  predicate Joint(st: State)
    requires Sized(st) && ServerSound(st.file, st.base, st.s)
  {
    var c, s := st.c, st.s;
    && One(ClientActive(c.pc)) + One(c.ready) + One(!c.pending.Empty())
       + One(ServerActive(s.pc)) + One(s.ready) + One(s.pending) == 1
    && if Receiving(c.pc) then JointReceiving(st) else JointBetween(st)
  }

  predicate BothAlive(st: State) { !st.c.pc.CExit? && !st.s.pc.SExit? }

  predicate Sound(st: State) {
    && Sized(st)
    && OutputSound(st.file, st.out, st.c)
    && (!st.c.pc.CExit? ==> ClientSound(st.c))
    && (!st.s.pc.SExit? ==> ServerSound(st.file, st.base, st.s))
  }

  predicate Inv(st: State) {
    && Sound(st)
    && (BothAlive(st) ==> Joint(st))
  }

  lemma InvStart(file: seq<bv8>)
    ensures Inv(Start(file))
  {}

  // ---------- preservation: each process by itself ----------

  /** Writing the next `n` bytes moves them from what is left to what is out. */
  lemma WriteSlice(out: seq<bv8>, data: seq<bv8>, written: nat, n: nat, size: nat)
    requires written + n <= size <= |data|
    ensures (out + data[written..written + n]) + data[written + n..size] == out + data[written..size]
  {
    assert data[written..size] == data[written..written + n] + data[written + n..size];
  }

  lemma WriteMovesOn(st: State, io: Io)
    requires Sized(st) && OutputSound(st.file, st.out, st.c) && st.c.pc.CWrite? && ClientStep(st, io).Some?
    ensures var st' := ClientStep(st, io).value;
            && st'.out + Unwritten(st'.c) <= st.file
            && (!st'.c.pc.CExit? ==> st'.out + Unwritten(st'.c) == st.out + Unwritten(st.c))
  {
    if st.c.written < st.c.Size() && io.Count? {
      WriteSlice(st.out, st.c.data, st.c.written, io.n, st.c.Size());
    }
  }

  lemma ReadyWaitSound(st: State, io: Io)
    requires Inv(st) && st.c.pc.CReady? && ClientStep(st, io).Some?
    ensures Sound(ClientStep(st, io).value)
  {}

  lemma BitWaitSound(st: State, io: Io)
    requires Inv(st) && st.c.pc.CBit? && ClientStep(st, io).Some?
    ensures Sound(ClientStep(st, io).value)
  {}

  lemma ClientLoopSound(st: State, io: Io)
    requires Inv(st) && st.c.pc.CLoop?
    ensures Sound(ClientStep(st, io).value)
  {}

  lemma ClientStartSound(st: State, io: Io)
    requires Inv(st) && (st.c.pc.CStartSize? || st.c.pc.CStartData?)
    ensures Sound(ClientStep(st, io).value)
  {}

  lemma ClientSetSound(st: State, io: Io)
    requires Inv(st) && (st.c.pc.CSetBit0? || st.c.pc.CSetBit1? || st.c.pc.CSetWait?)
    ensures Sound(ClientStep(st, io).value)
  {}

  lemma ClientEndSound(st: State, io: Io)
    requires Inv(st) && st.c.pc.CEnd?
    ensures Sound(ClientStep(st, io).value)
  {}

  lemma RequestSound(st: State, io: Io)
    requires Inv(st) && st.c.pc.CRequest?
    ensures Sound(ClientStep(st, io).value)
  {}

  lemma ConfirmSound(st: State, io: Io)
    requires Inv(st) && st.c.pc.CConfirm?
    ensures Sound(ClientStep(st, io).value)
  {
    if BothAlive(st) {
      ShortRoundTrip(st.s.n);
      SameBitsSameBytes(st.c.data, st.s.data, st.s.n);
      assert st.file[..st.base] + st.file[st.base..st.s.pos] == st.file[..st.s.pos];
    }
  }

  lemma WriteSound(st: State, io: Io)
    requires Inv(st) && st.c.pc.CWrite? && ClientStep(st, io).Some?
    ensures Sound(ClientStep(st, io).value)
  {
    WriteMovesOn(st, io);
  }

  lemma BitRequestWaitSound(st: State, io: Io)
    requires Inv(st) && st.s.pc.SBit? && ServerStep(st, io).Some?
    ensures Sound(ServerStep(st, io).value)
  {}

  lemma ConfirmWaitSound(st: State, io: Io)
    requires Inv(st) && st.s.pc.SConfirm? && ServerStep(st, io).Some?
    ensures Sound(ServerStep(st, io).value)
  {}

  lemma ServerLoopSound(st: State, io: Io)
    requires Inv(st) && st.s.pc.SLoop?
    ensures Sound(ServerStep(st, io).value)
  {}

  lemma ServerStartSound(st: State, io: Io)
    requires Inv(st) && (st.s.pc.SStartSize? || st.s.pc.SStartData?)
    ensures Sound(ServerStep(st, io).value)
  {}

  lemma ServerNextSound(st: State, io: Io)
    requires Inv(st) && st.s.pc.SNext?
    ensures Sound(ServerStep(st, io).value)
  {}

  lemma ServerEndSound(st: State, io: Io)
    requires Inv(st) && (st.s.pc.SSetHandler? || st.s.pc.SEnd?)
    ensures Sound(ServerStep(st, io).value)
  {}

  lemma ReadSound(st: State, io: Io)
    requires Inv(st) && st.s.pc.SRead? && ServerStep(st, io).Some?
    ensures Sound(ServerStep(st, io).value)
  {}

  lemma ReadySound(st: State, io: Io)
    requires Inv(st) && st.s.pc.SReady?
    ensures Sound(ServerStep(st, io).value)
  {}

  lemma SendSound(st: State, io: Io)
    requires Inv(st) && st.s.pc.SSend? && ServerStep(st, io).Some?
    ensures Sound(ServerStep(st, io).value)
  {}

  lemma DeliverReadySound(st: State, sig: Sig)
    requires Inv(st) && !Receiving(st.c.pc) && Step(st, DeliverToClient(sig)).Some?
    ensures Sound(Step(st, DeliverToClient(sig)).value)
  {}

  lemma DeliverSizeBitSound(st: State, sig: Sig)
    requires Inv(st) && Receiving(st.c.pc) && st.c.target.SizeField? && Step(st, DeliverToClient(sig)).Some?
    ensures Sound(Step(st, DeliverToClient(sig)).value)
  {}

  lemma DeliverDataBitSound(st: State, sig: Sig)
    requires Inv(st) && Receiving(st.c.pc) && st.c.target.Data? && Step(st, DeliverToClient(sig)).Some?
    ensures Sound(Step(st, DeliverToClient(sig)).value)
  {}

  lemma DeliverServerSound(st: State)
    requires Inv(st) && Step(st, DeliverToServer).Some?
    ensures Sound(Step(st, DeliverToServer).value)
  {}

  // ---------- preservation: the two together ----------

  /** A step of the server that leaves the signals, the chunk and the bits sent as they are. */
  lemma ServerMovesJoint(st: State, s': Server)
    requires Inv(st) && BothAlive(st) && Sound(st.(s := s')) && !s'.pc.SExit?
    requires Sending(st.s.pc) && Sending(s'.pc) && s'.pos == st.s.pos && s'.pending == st.s.pending
    requires ChunkOf(s') == ChunkOf(st.s) && Sent(s') == Sent(st.s)
    requires One(ServerActive(s'.pc)) + One(s'.ready) == One(ServerActive(st.s.pc)) + One(st.s.ready)
    ensures Joint(st.(s := s'))
  {
    assert ServerHasToken(s') == ServerHasToken(st.s);
  }

  /** A step of the client that leaves the signals, the bits received and the output as they are. */
  lemma ClientMovesJoint(st: State, c': Client)
    requires Inv(st) && BothAlive(st) && Sound(st.(c := c')) && !c'.pc.CExit?
    requires c'.size == st.c.size && c'.data == st.c.data && c'.target == st.c.target && c'.bit == st.c.bit
    requires c'.pending == st.c.pending && Receiving(c'.pc) == Receiving(st.c.pc)
    requires !c'.pc.CWrite? && !c'.pc.CEnd? && !st.c.pc.CWrite? && !st.c.pc.CEnd?
    requires One(ClientActive(c'.pc)) + One(c'.ready) == One(ClientActive(st.c.pc)) + One(st.c.ready)
    ensures Joint(st.(c := c'))
  {
    assert Received(c') == Received(st.c) && Unwritten(c') == Unwritten(st.c);
  }

  lemma ReadyWaitJoint(st: State, io: Io)
    requires Inv(st) && st.c.pc.CReady? && ClientStep(st, io).Some?
    requires Sound(ClientStep(st, io).value) && BothAlive(ClientStep(st, io).value)
    ensures Joint(ClientStep(st, io).value)
  {
    ClientMovesJoint(st, ClientStep(st, io).value.c);
  }

  lemma BitWaitStep(c: Client)
    requires c.pc.CBit? && ClientAlone(c).Some? && (c.pc.w.Reset? ==> c.ready)
    ensures var c' := ClientAlone(c).value;
            && c'.size == c.size && c'.data == c.data && c'.target == c.target && c'.bit == c.bit
            && c'.pending == c.pending && Receiving(c'.pc)
            && One(ClientActive(c'.pc)) + One(c'.ready) == One(ClientActive(c.pc)) + One(c.ready)
  {}

  lemma BitWaitJoint(st: State, io: Io)
    requires Inv(st) && st.c.pc.CBit? && ClientStep(st, io).Some?
    requires Sound(ClientStep(st, io).value) && BothAlive(ClientStep(st, io).value)
    ensures Joint(ClientStep(st, io).value)
  {
    BitWaitStep(st.c);
    ClientMovesJoint(st, ClientStep(st, io).value.c);
  }

  lemma ClientLoopJoint(st: State, io: Io)
    requires Inv(st) && st.c.pc.CLoop?
    requires Sound(ClientStep(st, io).value) && BothAlive(ClientStep(st, io).value)
    ensures Joint(ClientStep(st, io).value)
  {
    ClientMovesJoint(st, ClientStep(st, io).value.c);
  }

  lemma ClientStartJoint(st: State, io: Io)
    requires Inv(st) && (st.c.pc.CStartSize? || st.c.pc.CStartData?)
    requires Sound(ClientStep(st, io).value) && BothAlive(ClientStep(st, io).value)
    ensures Joint(ClientStep(st, io).value)
  {
    if st.c.pc.CStartData? {
      SameBitsSameBytes(st.c.size, st.s.size, 2);
    }
  }

  lemma ClientSetJoint(st: State, io: Io)
    requires Inv(st) && (st.c.pc.CSetBit0? || st.c.pc.CSetBit1? || st.c.pc.CSetWait?)
    requires Sound(ClientStep(st, io).value) && BothAlive(ClientStep(st, io).value)
    ensures Joint(ClientStep(st, io).value)
  {
    ClientMovesJoint(st, ClientStep(st, io).value.c);
  }

  lemma ClientEndJoint(st: State, io: Io)
    requires Inv(st) && st.c.pc.CEnd?
    requires Sound(ClientStep(st, io).value) && BothAlive(ClientStep(st, io).value)
    ensures Joint(ClientStep(st, io).value)
  {}

  lemma RequestJoint(st: State, io: Io)
    requires Inv(st) && st.c.pc.CRequest?
    requires Sound(ClientStep(st, io).value) && BothAlive(ClientStep(st, io).value)
    ensures Joint(ClientStep(st, io).value)
  {}

  lemma ConfirmJoint(st: State, io: Io)
    requires Inv(st) && st.c.pc.CConfirm?
    requires Sound(ClientStep(st, io).value) && BothAlive(ClientStep(st, io).value)
    ensures Joint(ClientStep(st, io).value)
  {
    ShortRoundTrip(st.s.n);
    SameBitsSameBytes(st.c.data, st.s.data, st.s.n);
    assert st.file[..st.base] + st.file[st.base..st.s.pos] == st.file[..st.s.pos];
  }

  lemma WriteJoint(st: State, io: Io)
    requires Inv(st) && st.c.pc.CWrite? && ClientStep(st, io).Some?
    requires Sound(ClientStep(st, io).value) && BothAlive(ClientStep(st, io).value)
    ensures Joint(ClientStep(st, io).value)
  {
    WriteMovesOn(st, io);
  }

  lemma BitRequestWaitJoint(st: State, io: Io)
    requires Inv(st) && st.s.pc.SBit? && ServerStep(st, io).Some?
    requires Sound(ServerStep(st, io).value) && BothAlive(ServerStep(st, io).value)
    ensures Joint(ServerStep(st, io).value)
  {
    ServerMovesJoint(st, ServerStep(st, io).value.s);
  }

  lemma ConfirmWaitJoint(st: State, io: Io)
    requires Inv(st) && st.s.pc.SConfirm? && !st.s.pc.w.Unblock? && ServerStep(st, io).Some?
    requires Sound(ServerStep(st, io).value) && BothAlive(ServerStep(st, io).value)
    ensures Joint(ServerStep(st, io).value)
  {
    ServerMovesJoint(st, ServerStep(st, io).value.s);
  }

  lemma ConfirmedJoint(st: State, io: Io)
    requires Inv(st) && st.s.pc == SConfirm(Unblock)
    requires Sound(ServerStep(st, io).value) && BothAlive(ServerStep(st, io).value)
    ensures Joint(ServerStep(st, io).value)
  {}

  lemma ServerLoopJoint(st: State, io: Io)
    requires Inv(st) && st.s.pc.SLoop?
    requires Sound(ServerStep(st, io).value) && BothAlive(ServerStep(st, io).value)
    ensures Joint(ServerStep(st, io).value)
  {
    ServerMovesJoint(st, ServerStep(st, io).value.s);
  }

  lemma ServerStartJoint(st: State, io: Io)
    requires Inv(st) && (st.s.pc.SStartSize? || st.s.pc.SStartData?)
    requires Sound(ServerStep(st, io).value) && BothAlive(ServerStep(st, io).value)
    ensures Joint(ServerStep(st, io).value)
  {
    ServerMovesJoint(st, ServerStep(st, io).value.s);
  }

  lemma ServerNextJoint(st: State, io: Io)
    requires Inv(st) && st.s.pc.SNext?
    requires Sound(ServerStep(st, io).value) && BothAlive(ServerStep(st, io).value)
    ensures Joint(ServerStep(st, io).value)
  {
    ServerMovesJoint(st, ServerStep(st, io).value.s);
  }

  lemma ServerEndJoint(st: State, io: Io)
    requires Inv(st) && (st.s.pc.SSetHandler? || st.s.pc.SEnd?)
    requires Sound(ServerStep(st, io).value) && BothAlive(ServerStep(st, io).value)
    ensures Joint(ServerStep(st, io).value)
  {}

  lemma ReadJoint(st: State, io: Io)
    requires Inv(st) && st.s.pc.SRead? && ServerStep(st, io).Some?
    requires Sound(ServerStep(st, io).value) && BothAlive(ServerStep(st, io).value)
    ensures Joint(ServerStep(st, io).value)
  {}

  lemma ReadyJoint(st: State, io: Io)
    requires Inv(st) && st.s.pc.SReady?
    requires Sound(ServerStep(st, io).value) && BothAlive(ServerStep(st, io).value)
    ensures Joint(ServerStep(st, io).value)
  {}

  /** A bit is sent only when the client has asked for it, and it is the one it waits for. */
  lemma SendsOnRequest(st: State)
    requires Inv(st) && BothAlive(st) && st.s.pc.SSend?
    ensures st.c.pc.CBit? && Sent(st.s) == Received(st.c) && st.c.pending.Empty() && !st.c.ready
  {}

  lemma SendSignals(st: State, io: Io)
    requires Inv(st) && BothAlive(st) && st.s.pc.SSend? && ServerStep(st, io).Some?
    requires Sound(ServerStep(st, io).value)
    ensures var st' := ServerStep(st, io).value;
            Signalled(ChunkOf(st'.s), Received(st'.c), Sent(st'.s), st'.c.pending, st'.wire)
  {
    SendsOnRequest(st);
    assert st.s.Current() == ChunkOf(st.s).BitOf(Sent(st.s));
  }

  lemma SendJoint(st: State, io: Io)
    requires Inv(st) && st.s.pc.SSend? && ServerStep(st, io).Some?
    requires Sound(ServerStep(st, io).value) && BothAlive(ServerStep(st, io).value)
    ensures Joint(ServerStep(st, io).value)
  {
    SendsOnRequest(st);
    SendSignals(st, io);
  }

  lemma DeliverReadyJoint(st: State, sig: Sig)
    requires Inv(st) && !Receiving(st.c.pc) && Step(st, DeliverToClient(sig)).Some?
    requires Sound(Step(st, DeliverToClient(sig)).value) && BothAlive(Step(st, DeliverToClient(sig)).value)
    ensures Joint(Step(st, DeliverToClient(sig)).value)
  {}

  lemma DeliverSizeBitJoint(st: State, sig: Sig)
    requires Inv(st) && Receiving(st.c.pc) && st.c.target.SizeField? && Step(st, DeliverToClient(sig)).Some?
    requires Sound(Step(st, DeliverToClient(sig)).value) && BothAlive(Step(st, DeliverToClient(sig)).value)
    ensures Joint(Step(st, DeliverToClient(sig)).value)
  {
    ReceiveNextBit(st.c.size, st.s.size, st.c.bit);
  }

  lemma DeliverDataBitJoint(st: State, sig: Sig)
    requires Inv(st) && Receiving(st.c.pc) && st.c.target.Data? && Step(st, DeliverToClient(sig)).Some?
    requires Sound(Step(st, DeliverToClient(sig)).value) && BothAlive(Step(st, DeliverToClient(sig)).value)
    ensures Joint(Step(st, DeliverToClient(sig)).value)
  {
    ReceiveNextBit(st.c.data, st.s.data, st.c.bit);
  }

  lemma DeliverServerJoint(st: State)
    requires Inv(st) && Step(st, DeliverToServer).Some?
    requires Sound(Step(st, DeliverToServer).value) && BothAlive(Step(st, DeliverToServer).value)
    ensures Joint(Step(st, DeliverToServer).value)
  {}

  lemma DeathKeeps(st: State, a: Action)
    requires Inv(st) && (a.ChildDeath? || a.ParentDeath? || a.KillClient? || a.KillServer?) && Step(st, a).Some?
    ensures Inv(Step(st, a).value)
  {}

  // ---------- steps and runs ----------

  lemma ClientStepSound(st: State, io: Io)
    requires Inv(st) && ClientStep(st, io).Some?
    ensures Sound(ClientStep(st, io).value)
  {
    match st.c.pc
    case CReady(_) =>
      ReadyWaitSound(st, io);
    case CBit(_) =>
      BitWaitSound(st, io);
    case CLoop =>
      ClientLoopSound(st, io);
    case CStartSize | CStartData =>
      ClientStartSound(st, io);
    case CSetBit0 | CSetBit1 | CSetWait =>
      ClientSetSound(st, io);
    case CEnd =>
      ClientEndSound(st, io);
    case CRequest =>
      RequestSound(st, io);
    case CConfirm =>
      ConfirmSound(st, io);
    case CWrite =>
      WriteSound(st, io);
    case CExit(_) =>
  }

  lemma ClientStepJoint(st: State, io: Io)
    requires Inv(st) && ClientStep(st, io).Some?
    requires Sound(ClientStep(st, io).value) && BothAlive(ClientStep(st, io).value)
    ensures Joint(ClientStep(st, io).value)
  {
    match st.c.pc
    case CReady(_) =>
      ReadyWaitJoint(st, io);
    case CBit(_) =>
      BitWaitJoint(st, io);
    case CLoop =>
      ClientLoopJoint(st, io);
    case CStartSize | CStartData =>
      ClientStartJoint(st, io);
    case CSetBit0 | CSetBit1 | CSetWait =>
      ClientSetJoint(st, io);
    case CEnd =>
      ClientEndJoint(st, io);
    case CRequest =>
      RequestJoint(st, io);
    case CConfirm =>
      ConfirmJoint(st, io);
    case CWrite =>
      WriteJoint(st, io);
    case CExit(_) =>
  }

  lemma ClientStepKeeps(st: State, io: Io)
    requires Inv(st) && ClientStep(st, io).Some?
    ensures Inv(ClientStep(st, io).value)
  {
    ClientStepSound(st, io);
    if BothAlive(ClientStep(st, io).value) { ClientStepJoint(st, io); }
  }

  lemma ServerStepSound(st: State, io: Io)
    requires Inv(st) && ServerStep(st, io).Some?
    ensures Sound(ServerStep(st, io).value)
  {
    match st.s.pc
    case SBit(_) =>
      BitRequestWaitSound(st, io);
    case SConfirm(_) =>
      ConfirmWaitSound(st, io);
    case SLoop =>
      ServerLoopSound(st, io);
    case SStartSize | SStartData =>
      ServerStartSound(st, io);
    case SNext =>
      ServerNextSound(st, io);
    case SSetHandler | SEnd =>
      ServerEndSound(st, io);
    case SRead =>
      ReadSound(st, io);
    case SReady =>
      ReadySound(st, io);
    case SSend =>
      SendSound(st, io);
    case SExit(_) =>
  }

  lemma ServerStepJoint(st: State, io: Io)
    requires Inv(st) && ServerStep(st, io).Some?
    requires Sound(ServerStep(st, io).value) && BothAlive(ServerStep(st, io).value)
    ensures Joint(ServerStep(st, io).value)
  {
    match st.s.pc
    case SBit(_) =>
      BitRequestWaitJoint(st, io);
    case SConfirm(_) =>
      if st.s.pc.w.Unblock? { ConfirmedJoint(st, io); } else { ConfirmWaitJoint(st, io); }
    case SLoop =>
      ServerLoopJoint(st, io);
    case SStartSize | SStartData =>
      ServerStartJoint(st, io);
    case SNext =>
      ServerNextJoint(st, io);
    case SSetHandler | SEnd =>
      ServerEndJoint(st, io);
    case SRead =>
      ReadJoint(st, io);
    case SReady =>
      ReadyJoint(st, io);
    case SSend =>
      SendJoint(st, io);
    case SExit(_) =>
  }

  lemma ServerStepKeeps(st: State, io: Io)
    requires Inv(st) && ServerStep(st, io).Some?
    ensures Inv(ServerStep(st, io).value)
  {
    ServerStepSound(st, io);
    if BothAlive(ServerStep(st, io).value) { ServerStepJoint(st, io); }
  }

  lemma {:induction false} StepKeeps(st: State, a: Action)
    requires Inv(st) && Step(st, a).Some?
    ensures Inv(Step(st, a).value)
  {
    match a
    case ClientMove(io) => ClientStepKeeps(st, io);
    case ServerMove(io) => ServerStepKeeps(st, io);
    case DeliverToClient(sig) =>
      if Receiving(st.c.pc) {
        if st.c.target.SizeField? {
          DeliverSizeBitSound(st, sig);
          if BothAlive(Step(st, a).value) { DeliverSizeBitJoint(st, sig); }
        } else {
          DeliverDataBitSound(st, sig);
          if BothAlive(Step(st, a).value) { DeliverDataBitJoint(st, sig); }
        }
      } else {
        DeliverReadySound(st, sig);
        if BothAlive(Step(st, a).value) { DeliverReadyJoint(st, sig); }
      }
    case DeliverToServer =>
      DeliverServerSound(st);
      if BothAlive(Step(st, a).value) { DeliverServerJoint(st); }
    case _ => DeathKeeps(st, a);
  }

  lemma SameFile(st: State, a: Action)
    requires Step(st, a).Some?
    ensures Step(st, a).value.file == st.file
  {}

  /** Every state a run reaches satisfies the invariant. */
  lemma {:induction false} RunKeeps(file: seq<bv8>, run: seq<Action>)
    requires Run(file, run).Some?
    ensures Inv(Run(file, run).value) && Run(file, run).value.file == file
    decreases |run|
  {
    if run == [] {
      InvStart(file);
    } else {
      var before := run[..|run| - 1];
      RunKeeps(file, before);
      StepKeeps(Run(file, before).value, run[|run| - 1]);
      SameFile(Run(file, before).value, run[|run| - 1]);
    }
  }
}
