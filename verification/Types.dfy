/** The values mcon and the kernel exchange: sessions, operations, completions, events. */
module Types {

  const EAGAIN: int := 11
  const NO_SESSION: int := 0xF_FFFF
  const MAX_SESSIONS: int := 0xF_FFFF

  datatype Option<+T> = None | Some(value: T)

  /** The error codes mcon itself stores in errno. `EQUEUE` and `ESYSCALL` stand for whatever
      kqueue_push and a failed system call leave there. */
  datatype Errno = EINVAL | EBUSY | ENOBUFS | EQUEUE | ESYSCALL

  datatype Rc = Ok | Err(errno: Errno)

  /** The configuration of an instance, and the ring sizes the kernel grants for it:
      io_uring rounds the requested number of SQ entries up, and gives the CQ twice as many. */
  datatype Config = Config(
    sessionCount: nat,
    ioQueueSize: nat,
    ringSize: nat,
    maxAccepts: nat,
    sqEntries: nat,
    listenFd: int,
    pollFd: int)
  {
    /** mcon_config_validate. */
    predicate Accepted() {
      && 0 < sessionCount <= MAX_SESSIONS
      && 0 < ioQueueSize
      && 0 < ringSize
      && 0 < maxAccepts <= ringSize
    }

    /** What the type of io_uring_queue_size, the kernel and mcon_start's caller see to. */
    predicate Provided() {
      && ringSize < 0x1_0000
      && ringSize <= sqEntries
      && 0 <= listenFd && 0 <= pollFd
    }

    predicate Valid() { Accepted() && Provided() }

    function CqEntries(): nat { 2 * sqEntries }
  }

  datatype Kind = Accept | Read | Write | Drain | Close

  /** An SQE. `kind` and `session` are its user data, `fd` its target descriptor.
      `epoch` and `conn` are history: the incarnation and the connection of the slot
      when the operation was accepted. No step of mcon looks at them. */
  datatype Op = Op(kind: Kind, fd: int, session: int, epoch: nat, conn: int)

  function AcceptOp(fd: int): Op { Op(Accept, fd, NO_SESSION, 0, -1) }

  /** A CQE: the user data of its SQE and the result. `conn` is history: the connection
      a successful accept took from the backlog. */
  datatype Cqe = Cqe(op: Op, res: int, conn: int)
  {
    predicate Accepted() { op.kind == Accept && 0 <= res }

    /** An accept completion that keeps the accept cycle going. */
    predicate Hot() { op.kind == Accept && res != -EAGAIN }
  }

  type Byte = n: nat | n < 0x100

  type Uint16 = n: nat | n < 0x1_0000

  /** One entry of the session array. `epoch` (never wraps) and `conn` are history. */
  datatype Session = Session(
    fd: int,
    generation: Byte,
    reading: bool,
    writing: bool,
    rdhup: bool,
    closing: bool,
    epoch: nat,
    conn: int)
  {
    predicate Active() { fd != -1 }

    predicate Idle() { !reading && !writing && !closing }
  }

  const FRESH_SESSION := Session(-1, 0, false, false, false, false, 0, -1)

  datatype EventType =
    | NewConnection
    | ReadReady
    | ReadComplete
    | WriteComplete
    | DrainComplete
    | CloseComplete
    | ReadShutdown
    | RemoteHangup
    | ClientError

  datatype Event = Event(result: int, session: int, etype: EventType)

  function CompletionType(kind: Kind): EventType {
    match kind
    case Accept => NewConnection
    case Read => ReadComplete
    case Write => WriteComplete
    case Drain => DrainComplete
    case Close => CloseComplete
  }

  /** The readiness bits of an epoll event. `other` says that some bit
      outside the four subscribed ones is set. */
  datatype Readiness = Readiness(rin: bool, hup: bool, rdhup: bool, err: bool, other: bool)

  function Bit(b: bool): nat { if b then 1 else 0 }

  function Min(a: int, b: int): int { if a < b then a else b }

  function Clip(a: int): nat { if a < 0 then 0 else a }

  /** Arithmetic of uint16_t and of unsigned int. */
  function Wrap16(x: int): (r: nat) { x % 0x1_0000 }

  function Wrap32(x: int): (r: nat) { x % 0x1_0000_0000 }
}
