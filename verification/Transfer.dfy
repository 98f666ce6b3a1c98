/** The shared-memory transfer: any number of server and client processes, one buffer and one
    semaphore set.  One `Move` is one system call (or one access to the buffer) of one process;
    runs are sequences of actions, so every interleaving and every crash point is covered. */
module Transfer {
  import opened Kernel
  import opened SemaphoreSet

  const BUFFER_SIZE := 4096

  /** Where a server process stands: the call it makes next. */
  datatype ServerPc =
    | SAcquire | SSetFull | SSetEmpty | SSignalInit      // acquireServer
    | SWaitClient | SGate | SRead | SPost | SCheck       // copyIntoSharedMemory
    | SReturn(code: int)

  /** Where a client process stands; `CWrite` carries `total_num_written`. */
  datatype ClientPc =
    | CAcquire                                           // acquireClient
    | CWaitServer | CGate | CTest | CWrite(total: nat) | CPost  // copyFromSharedMemory
    | CReturn(code: int)

  datatype Proc =
    | Server(spc: ServerPc, file: seq<byte>, pos: nat, adj: Vals)
    | Client(cpc: ClientPc, adj: Vals)

  /** At the end of main; what is left is to exit. */
  predicate Returned(pr: Proc) { if pr.Server? then pr.spc.SReturn? else pr.cpc.CReturn? }

  /** What happened since the latest server acquired the block; no process reads it.
      `posted`: the chunks announced on FULL.  `taken`: who consumed an announcement and the
      chunk found in the buffer.  `acked`: how many chunks were given back on EMPTY.  `out`: the
      bytes clients wrote.  `short`: some write took a positive part of what it was offered.
      `ready`: the server has signalled INIT. */
  datatype Session = Session(file: seq<byte>, ready: bool, posted: seq<seq<byte>>, taken: seq<(nat, seq<byte>)>,
                             acked: nat, out: seq<byte>, short: bool)

  /** What the processes share: the semaphore values and the buffer; `data` holds the bytes the
      last read delivered.  `h` is history. */
  datatype Shared = Shared(v: Vals, size: int, data: seq<byte>, h: Session)

  datatype State = State(sh: Shared, procs: map<nat, Proc>)

  datatype Action =
    | SpawnServer(pid: nat, file: seq<byte>)
    | SpawnClient(pid: nat)
    | Exit(pid: nat)           // a crash anywhere, or the end of main after a return
    | Move(pid: nat, io: Io)

  const Init := State(Shared(ZERO, 0, [], Session([], false, [], [], 0, [], false)), map[])

  /** What a process leaves behind after one move: itself and the shared part. */
  datatype Moved = Moved(sh: Shared, me: Proc)

  /** The process calls `semop`; on success `ok` is where it goes, and EAGAIN makes it return -1. */
  function ServerSemop(sh: Shared, me: Proc, ops: seq<SemOp>, ok: ServerPc): Option<Moved>
    requires me.Server?
  {
    match Semop(sh.v, me.adj, ops)
    case Done(v, adj) => Some(Moved(sh.(v := v), me.(spc := ok, adj := adj)))
    case Again => Some(Moved(sh, me.(spc := SReturn(-1))))
    case Block => None
  }

  function ClientSemop(sh: Shared, me: Proc, ops: seq<SemOp>, ok: ClientPc): Option<Moved>
    requires me.Client?
  {
    match Semop(sh.v, me.adj, ops)
    case Done(v, adj) => Some(Moved(sh.(v := v), me.(cpc := ok, adj := adj)))
    case Again => Some(Moved(sh, me.(cpc := CReturn(-1))))
    case Block => None
  }

  /** Writes `h` into the history if the move reached the point where it counts. */
  function Record(m: Option<Moved>, reached: bool, h: Session): Option<Moved> {
    if m.Some? && reached then Some(m.value.(sh := m.value.sh.(h := h))) else m
  }

  /** A possible answer of `read` at offset `pos`: zero exactly at the end of the file. */
  predicate ReadAnswer(file: seq<byte>, pos: nat, n: nat) {
    && n <= BUFFER_SIZE
    && pos + n <= |file|
    && (n == 0 <==> pos == |file|)
  }

  function ServerMove(sh: Shared, me: Proc, io: Io): Option<Moved>
    requires me.Server?
  {
    match me.spc
    case SAcquire =>
      // A new session starts with the acquisition.
      Record(ServerSemop(sh, me, ACQUIRE_SERVER, SSetFull), true, Session(me.file, false, [], [], 0, [], false))
    case SSetFull => Some(Moved(sh.(v := sh.v.(full := 0)), me.(spc := SSetEmpty)))
    case SSetEmpty => Some(Moved(sh.(v := sh.v.(empty := 1)), me.(spc := SSignalInit)))
    case SSignalInit => Record(ServerSemop(sh, me, SIGNAL_INIT, SWaitClient), true, sh.h.(ready := true))
    case SWaitClient => ServerSemop(sh, me, WAIT_FOR_CLIENT, SGate)
    case SGate => ServerSemop(sh, me, SERVER_GATE, SRead)
    case SRead =>
      (match io
       case Fail => Some(Moved(sh.(size := -1), me.(spc := SReturn(-1))))
       case Count(n) =>
         if !ReadAnswer(me.file, me.pos, n) then None
         else Some(Moved(sh.(size := n, data := me.file[me.pos..me.pos + n]), me.(spc := SPost, pos := me.pos + n))))
    case SPost => Record(ServerSemop(sh, me, POST_FULL, SCheck), true, sh.h.(posted := sh.h.posted + [sh.data]))
    case SCheck => Some(Moved(sh, me.(spc := if sh.size == 0 then SReturn(0) else SGate)))
    case SReturn(_) => None
  }

  /** One `write(fd, buffer, size)`: always offered the buffer from its head. */
  function WriteChunk(sh: Shared, me: Proc, total: nat, k: nat): Option<Moved>
    requires me.Client?
  {
    if k > sh.size || k > |sh.data| then None
    else
      Some(Moved(sh.(h := sh.h.(out := sh.h.out + sh.data[..k], short := sh.h.short || 0 < k < sh.size)),
                 me.(cpc := if total + k < sh.size then CWrite(total + k) else CPost)))
  }

  /** `p` is the number of the process; only the history looks at it. */
  function ClientMove(sh: Shared, me: Proc, p: nat, io: Io): Option<Moved>
    requires me.Client?
  {
    match me.cpc
    case CAcquire => ClientSemop(sh, me, ACQUIRE_CLIENT, CWaitServer)
    case CWaitServer => ClientSemop(sh, me, WAIT_FOR_SERVER, CGate)
    case CGate =>
      var m := ClientSemop(sh, me, CLIENT_GATE, CTest);
      Record(m, m.Some? && m.value.me.cpc == CTest, sh.h.(taken := sh.h.taken + [(p, sh.data)]))
    case CTest => Some(Moved(sh, me.(cpc := if sh.size > 0 then CWrite(0) else CReturn(0))))
    case CWrite(total) =>
      (match io
       case Fail => Some(Moved(sh, me.(cpc := CReturn(-1))))
       case Count(k) => WriteChunk(sh, me, total, k))
    case CPost => Record(ClientSemop(sh, me, POST_EMPTY, CGate), true, sh.h.(acked := sh.h.acked + 1))
    case CReturn(_) => None
  }

  function ProcMove(sh: Shared, me: Proc, p: nat, io: Io): Option<Moved> {
    if me.Server? then ServerMove(sh, me, io) else ClientMove(sh, me, p, io)
  }

  /** The effect of an action, or `None` when it cannot happen now. */
  function Step(s: State, a: Action): Option<State> {
    match a
    case SpawnServer(p, file) =>
      if p in s.procs then None else Some(s.(procs := s.procs[p := Server(SAcquire, file, 0, ZERO)]))
    case SpawnClient(p) =>
      if p in s.procs then None else Some(s.(procs := s.procs[p := Client(CAcquire, ZERO)]))
    case Exit(p) =>
      if p !in s.procs then None
      else Some(State(s.sh.(v := ApplyUndo(s.sh.v, s.procs[p].adj)), s.procs - {p}))
    case Move(p, io) =>
      if p !in s.procs then None
      else
        match ProcMove(s.sh, s.procs[p], p, io)
        case None => None
        case Some(m) => Some(State(m.sh, s.procs[p := m.me]))
  }

  /** The state after the actions `run`, one after the other, from `s`. */
  function Run(s: State, run: seq<Action>): Option<State>
    decreases |run|
  {
    if run == [] then Some(s)
    else
      match Run(s, run[..|run| - 1])
      case Some(s') => Step(s', run[|run| - 1])
      case None => None
  }

  /** All chunks of `cs`, one after the other. */
  function Joined(cs: seq<seq<byte>>): seq<byte> {
    if cs == [] then [] else Joined(cs[..|cs| - 1]) + cs[|cs| - 1]
  }
}
