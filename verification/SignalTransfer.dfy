/** The bit-per-signal transfer: the parent (client) and its child (server), their program
    counters, signal dispositions, masks, pending signals, flags and buffers.  Pending signals
    form a set: a signal sent while it is already pending is lost (section 2.4.1 of POSIX.1-2017
    System Interfaces).  A handler runs as one step, at any point where its signal is pending and
    not blocked. */
module SignalTransfer {
  import opened Kernel
  import opened SignalBits

  const USHRT_MAX := 0xFFFF
  const USHRT_WIDTH := 16

  datatype Sig = USR1 | USR2

  /** A `sigset_t` over the two signals. */
  datatype SigSet = SigSet(usr1: bool, usr2: bool) {
    predicate Has(sig: Sig) { if sig.USR1? then usr1 else usr2 }
    predicate Empty() { !usr1 && !usr2 }
    function With(sig: Sig): SigSet { if sig.USR1? then this.(usr1 := true) else this.(usr2 := true) }
    function Without(sig: Sig): SigSet { if sig.USR1? then this.(usr1 := false) else this.(usr2 := false) }
    function Union(o: SigSet): SigSet { SigSet(usr1 || o.usr1, usr2 || o.usr2) }
    function Minus(o: SigSet): SigSet { SigSet(usr1 && !o.usr1, usr2 && !o.usr2) }
  }

  const NONE := SigSet(false, false)
  const ONLY1 := SigSet(true, false)
  const ONLY2 := SigSet(false, true)
  const BOTH := SigSet(true, true)

  /** The bytes of an `unsigned short`. */
  type Short = s: seq<bv8> | |s| == 2 witness [0, 0]

  /** Where a process stands in its wait function: before SIG_BLOCK, at the loop test, inside
      sigsuspend, before the flag is cleared, before SIG_UNBLOCK. */
  datatype WaitPc = Block | Check | Suspended | Reset | Unblock

  /** What `active_data` points to. */
  datatype Target = SizeField | Data

  datatype ClientPc =
    | CReady(w: WaitPc)                 // waitForServerReady
    | CSetBit0 | CSetBit1               // activateRecieveHandlers
    | CStartSize | CStartData           // the openings of recieveBufferSize and recieveBuffer
    | CLoop | CRequest | CBit(w: WaitPc)  // recieveN
    | CSetWait | CConfirm | CWrite | CEnd // mainRecieveLoop
    | CExit(code: int)

  datatype Usr1 = WaitHandler | Bit0Handler
  datatype Usr2 = Terminate | Bit1Handler

  /** `bit` is `active_bit`, `size` the two bytes of `buffer_size`, `ready` is `server_ready`,
      `saved` the mask sigsuspend puts in place, `written` is `total_written`. */
  datatype Client = Client(
    pc: ClientPc, usr1: Usr1, usr2: Usr2, blocked: SigSet, saved: SigSet, pending: SigSet,
    ready: bool, bit: nat, target: Target, size: Short, data: seq<bv8>, written: nat)
  {
    function Size(): nat { ShortValue(size) }

    /** `n_bits` of the current `recieveN`. */
    function Bits(): nat {
      if target.SizeField? then USHRT_WIDTH else BitCount(Size())
    }
  }

  datatype ServerPc =
    | SSetHandler                       // activateSendHandlers
    | SRead | SReady                    // the opening of mainSendLoop
    | SStartSize | SStartData           // the openings of sendBufferSize and sendBuffer
    | SLoop | SBit(w: WaitPc) | SSend | SNext  // sendN
    | SConfirm(w: WaitPc) | SEnd        // the end of mainSendLoop
    | SExit(code: int)

  /** `handler` says that SIGUSR1 runs `sendWaitHandler`; only SIGUSR1 is ever sent here. */
  datatype Server = Server(
    pc: ServerPc, handler: bool, blocked: bool, saved: bool, pending: bool,
    ready: bool, bit: nat, target: Target, n: nat, size: Short, data: seq<bv8>, pos: nat)
  {
    /** `n_bits` of the current `sendN`; `n` is the value of `buffer_size`. */
    function Bits(): nat {
      if target.SizeField? then USHRT_WIDTH else BitCount(n)
    }

    /** The bit `sendN` is about to send. */
    predicate Current()
      requires bit < BitCount(|if target.SizeField? then size else data|)
    {
      BitAt(if target.SizeField? then size else data, bit)
    }
  }

  /** The latest signal the server sent to the client: that it is ready, or a data bit with its
      place in the chunk (the size comes first, then the data). */
  datatype Msg = NoMsg | Ready | Bit(i: nat, b: bool)

  /** `out` is what the client wrote; `base` is the file offset of the chunk in the server's
      buffer; `wire` is history. */
  datatype State = State(file: seq<bv8>, c: Client, s: Server, out: seq<bv8>, base: nat, wire: Msg)

  datatype Action =
    | ClientMove(io: Io)
    | ServerMove(io: Io)
    | DeliverToClient(sig: Sig)
    | DeliverToServer
    | ChildDeath     // SIGCHLD runs childDeathHandler
    | ParentDeath    // SIGTERM, by PR_SET_PDEATHSIG
    | KillClient
    | KillServer

  function Start(file: seq<bv8>): State {
    var zeros: seq<bv8> := seq(USHRT_MAX, _ => 0);
    State(file,
          Client(CReady(Block), WaitHandler, Terminate, NONE, NONE, NONE, false, 0, SizeField, [0, 0], zeros, 0),
          Server(SSetHandler, false, false, false, false, false, 0, SizeField, 0, [0, 0], zeros, 0),
          [], 0, NoMsg)
  }

  // ---------- signals between the two ----------

  /** `kill(cpid, SIGUSR1)`: fails once the child is gone (SA_NOCLDWAIT leaves no zombie). */
  function SignalServer(st: State, next: ClientPc): State {
    if st.s.pc.SExit? then st.(c := st.c.(pc := CExit(-1)))
    else st.(c := st.c.(pc := next), s := st.s.(pending := true))
  }

  /** `kill(ppid, sig)`. */
  function SignalClient(st: State, sig: Sig, msg: Msg, next: ServerPc): State {
    if st.c.pc.CExit? then st.(s := st.s.(pc := SExit(-1)))
    else st.(s := st.s.(pc := next), c := st.c.(pending := st.c.pending.With(sig)), wire := msg)
  }

  // ---------- the client ----------

  /** Where a wait function goes from `w`, short of returning. */
  function After(w: WaitPc, ready: bool): WaitPc {
    match w
    case Block => Check
    case Check => if ready then Reset else Suspended
    case Suspended => Suspended
    case Reset => Unblock
    case Unblock => Unblock
  }

  /** What one step of waitForServer with the signals of `mask` does besides moving on. */
  function ClientWait(c: Client, w: WaitPc, mask: SigSet): Client {
    match w
    case Block => c.(saved := c.blocked, blocked := c.blocked.Union(mask))
    case Reset => c.(ready := false)
    case Unblock => c.(blocked := c.blocked.Minus(mask))
    case _ => c
  }

  function ClientAlone(c: Client): Option<Client>
  {
    match c.pc
    case CReady(w) =>
      if w.Suspended? then None
      else Some(ClientWait(c, w, ONLY1).(pc := if w.Unblock? then CSetBit0 else CReady(After(w, c.ready))))
    case CSetBit0 => Some(c.(pc := CSetBit1, usr1 := Bit0Handler))
    case CSetBit1 => Some(c.(pc := CStartSize, usr2 := Bit1Handler))
    case CStartSize => Some(c.(pc := CLoop, size := [0, 0], target := SizeField, bit := 0))
    case CStartData => Some(c.(pc := CLoop, target := Data, bit := 0))
    case CLoop =>
      Some(c.(pc := if c.bit < c.Bits() then CRequest else if c.target.SizeField? then CStartData else CSetWait))
    case CBit(w) =>
      if w.Suspended? then None
      else Some(ClientWait(c, w, BOTH).(pc := if w.Unblock? then CLoop else CBit(After(w, c.ready))))
    case CSetWait => Some(c.(pc := CConfirm, usr1 := WaitHandler))
    case CEnd => Some(c.(pc := if c.Size() != 0 then CReady(Block) else CExit(0)))
    case _ => None
  }

  /** One `write(STDOUT_FILENO, buffer + total_written, buffer_size - total_written)`. */
  function ClientWrite(st: State, io: Io): Option<State>
  {
    var c := st.c;
    if c.written >= c.Size() then Some(st.(c := c.(pc := CEnd)))
    else if io.Fail? then Some(st.(c := c.(pc := CExit(-1))))
    else if c.written + io.n > c.Size() || c.written + io.n > |c.data| then None
    else Some(st.(c := c.(written := c.written + io.n), out := st.out + c.data[c.written..c.written + io.n]))
  }

  function ClientStep(st: State, io: Io): Option<State>
  {
    match st.c.pc
    case CRequest => Some(SignalServer(st, CBit(Block)))
    case CConfirm => Some(SignalServer(st.(c := st.c.(written := 0)), CWrite))
    case CWrite => ClientWrite(st, io)
    case CExit(_) => None
    case _ =>
      match ClientAlone(st.c)
      case Some(c) => Some(st.(c := c))
      case None => None
  }

  predicate BitInTarget(c: Client) { c.bit < BitCount(|if c.target.SizeField? then c.size else c.data|) }

  /** recieve0Handler and recieve1Handler. */
  function ReceiveBit(c: Client, b: bool): Client
    requires BitInTarget(c)
  {
    var c' := c.(bit := c.bit + 1, ready := true);
    if c.target.SizeField? then c'.(size := PutBit(c.size, c.bit, b)) else c'.(data := PutBit(c.data, c.bit, b))
  }

  function ClientMask(c: Client): SigSet {
    if c.pc == CReady(Suspended) || c.pc == CBit(Suspended) then c.saved else c.blocked
  }

  /** After a handler sigsuspend returns and puts the mask back. */
  function Wake(pc: ClientPc): ClientPc {
    if pc == CReady(Suspended) then CReady(Check) else if pc == CBit(Suspended) then CBit(Check) else pc
  }

  predicate RunsBitHandler(c: Client, sig: Sig) { if sig.USR1? then c.usr1.Bit0Handler? else c.usr2.Bit1Handler? }

  /** A bit handler past the end of its target would write outside it; such a step does not
      exist here, and `ClientSound` shows that it is never due. */
  function DeliverClient(c: Client, sig: Sig): Option<Client> {
    if !c.pending.Has(sig) || ClientMask(c).Has(sig) || c.pc.CExit? then None
    else if RunsBitHandler(c, sig) && !BitInTarget(c) then None
    else
      var c' := c.(pc := Wake(c.pc), pending := c.pending.Without(sig));
      Some(if !RunsBitHandler(c, sig) then if sig.USR1? then c'.(ready := true) else c'.(pc := CExit(-1))
           else ReceiveBit(c', sig.USR2?))
  }

  // ---------- the server ----------

  /** What one step of waitForClient does besides moving on. */
  function ServerWait(s: Server, w: WaitPc): Server {
    match w
    case Block => s.(saved := s.blocked, blocked := true)
    case Reset => s.(ready := false)
    case Unblock => s.(blocked := false)
    case _ => s
  }

  function ServerAlone(s: Server): Option<Server> {
    match s.pc
    case SSetHandler => Some(s.(pc := SRead, handler := true))
    case SStartSize => Some(s.(pc := SLoop, target := SizeField, bit := 0))
    case SStartData => Some(s.(pc := SLoop, target := Data, bit := 0))
    case SLoop =>
      Some(s.(pc := if s.bit < s.Bits() then SBit(Block)
                    else if s.target.SizeField? then SStartData else SConfirm(Block)))
    case SBit(w) =>
      if w.Suspended? then None
      else Some(ServerWait(s, w).(pc := if w.Unblock? then SSend else SBit(After(w, s.ready))))
    case SNext => Some(s.(pc := SLoop, bit := s.bit + 1))
    case SConfirm(w) =>
      if w.Suspended? then None
      else Some(ServerWait(s, w).(pc := if w.Unblock? then SEnd else SConfirm(After(w, s.ready))))
    case SEnd => Some(s.(pc := if s.n != 0 then SRead else SExit(0)))
    case _ => None
  }

  /** `read(fd, buffer, sizeof(buffer))` puts some next bytes of the file at the head of the
      buffer; it gives zero exactly at the end. */
  function ServerRead(st: State, io: Io): Option<State> {
    var s := st.s;
    if io.Fail? then Some(st.(s := s.(pc := SExit(-1))))
    else if io.n > USHRT_MAX || io.n > |s.data| || s.pos + io.n > |st.file| then None
    else if (io.n == 0) != (s.pos == |st.file|) then None
    else
      var data := st.file[s.pos..s.pos + io.n] + s.data[io.n..];
      Some(st.(s := s.(pc := SReady, data := data, n := io.n, size := ShortBytes(io.n), pos := s.pos + io.n),
               base := s.pos))
  }

  /** The place in the chunk of the bit `sendN` stands at. */
  function Place(target: Target, bit: nat): nat {
    if target.SizeField? then bit else USHRT_WIDTH + bit
  }

  function ServerStep(st: State, io: Io): Option<State> {
    match st.s.pc
    case SRead => ServerRead(st, io)
    case SReady => Some(SignalClient(st, USR1, Ready, SStartSize))
    case SSend =>
      var s := st.s;
      if s.bit >= BitCount(|if s.target.SizeField? then s.size else s.data|) then None
      else
        Some(SignalClient(st, if s.Current() then USR2 else USR1, Bit(Place(s.target, s.bit), s.Current()), SNext))
    case SExit(_) => None
    case _ =>
      match ServerAlone(st.s)
      case Some(s) => Some(st.(s := s))
      case None => None
  }

  function WakeServer(pc: ServerPc): ServerPc {
    if pc == SBit(Suspended) then SBit(Check) else if pc == SConfirm(Suspended) then SConfirm(Check) else pc
  }

  /** Before `activateSendHandlers` the signal would run the handler inherited from the parent
      and be lost. */
  function DeliverServer(s: Server): Option<Server> {
    var blocked := if s.pc == SBit(Suspended) || s.pc == SConfirm(Suspended) then s.saved else s.blocked;
    if !s.pending || blocked || s.pc.SExit? then None
    else Some(s.(pc := WakeServer(s.pc), pending := false, ready := s.ready || s.handler))
  }

  // ---------- steps and runs ----------

  function Step(st: State, a: Action): Option<State>
  {
    match a
    case ClientMove(io) => ClientStep(st, io)
    case ServerMove(io) => ServerStep(st, io)
    case DeliverToClient(sig) =>
      (match DeliverClient(st.c, sig)
       case Some(c) => Some(st.(c := c))
       case None => None)
    case DeliverToServer =>
      (match DeliverServer(st.s)
       case Some(s) => Some(st.(s := s))
       case None => None)
    case ChildDeath => if st.s.pc.SExit? && !st.c.pc.CExit? then Some(st.(c := st.c.(pc := CExit(-1)))) else None
    case ParentDeath => if st.c.pc.CExit? && !st.s.pc.SExit? then Some(st.(s := st.s.(pc := SExit(-1)))) else None
    case KillClient => if st.c.pc.CExit? then None else Some(st.(c := st.c.(pc := CExit(-1))))
    case KillServer => if st.s.pc.SExit? then None else Some(st.(s := st.s.(pc := SExit(-1))))
  }

  /** The state after the actions `run` from the start. */
  function Run(file: seq<bv8>, run: seq<Action>): Option<State>
    decreases |run|
  {
    if run == [] then Some(Start(file))
    else
      match Run(file, run[..|run| - 1])
      case None => None
      case Some(st) => Step(st, run[|run| - 1])
  }
}
