/** The whole system as one value, and every step of it as a function: what a call of the
    library does, what one iteration of the completion handler does, what the kernel does.
    What the environment is free to choose is an argument of the step. */
module World {
  import opened Types
  import opened Pipeline

  /** An entry of the epoll interest list. `session` and `generation` are in its token;
      `epoch` and `conn` are history: the incarnation it was made in, and for which connection. */
  datatype Registration = Registration(session: int, generation: Byte, epoch: nat, conn: int)

  /** Who may use the descriptor of a connection. */
  datatype Owner =
    | Waiting(fd: int)     // accepted, its completion not yet processed
    | Slot(session: int)   // belongs to a session
    | Foreign              // belongs to the consumer or to another part of the process
    | Gone

  /** What an observer of mcon writes down: operations taken on, and events given back. */
  datatype Obs =
    | Took(session: int, kind: Kind)
    | Told(event: Event, note: Note)

  datatype Note =
    | Plain
    | Opened(slot: Session)               // the slot, just prepared for its client
    | Finished(op: Op, before: Session)   // the completed operation, and the slot at that moment

  /** The fields of struct mcon. */
  datatype Lib = Lib(
    sessions: seq<Session>,
    free: seq<int>,
    queue: Queue,
    acceptsLive: int,
    acceptsRequested: bool,
    inFlight: int,
    shuttingDown: bool,
    serverFd: int,
    epollFd: int)

  /** The open descriptors with the connection behind each, who may use that connection,
      and epoll's interest list. Connections are numbered and never numbered again. */
  datatype Table = Table(fds: map<int, int>, owner: map<int, Owner>, interest: map<int, Registration>)

  /** The rings and the rest of the kernel. `seen` counts the CQEs consumed so far. */
  datatype Kernel = Kernel(
    sq: seq<Op>,
    pending: seq<Op>,      // submitted, not executed
    done: seq<Cqe>,        // executed, not posted
    cq: seq<Cqe>,          // posted, not consumed
    seen: nat,
    eventfd: nat,
    signalsDue: nat,
    backlog: nat,
    edgeReady: bool,       // the listening socket is on epoll's ready list
    edgesHeld: nat,        // edge notifications fetched by epoll_wait, not yet processed
    table: Table)

  /** Where control is: outside the completion handler, or at one of its interruption points. */
  datatype Control =
    | Outside
    | Looping(cap: nat, count: nat, rounds: nat)
    | Counting(cap: nat, count: nat, rounds: nat, slot: nat, produced: nat)
    | Clearing(count: nat)
    | Checking(count: nat)
    | Arming(count: nat)

  datatype World = World(
    cfg: Config,
    lib: Lib,
    ker: Kernel,
    ctl: Control,
    started: bool,
    log: seq<Obs>,
    registered: set<Registration>,   // every registration ever made
    addFailures: nat)                // accepted connections that could not be registered

  datatype DelResult = DelOk | DelNoEntry | DelOther

  datatype Step =
    // calls of the consumer
    | Start(ok: bool)
    | SessionIo(i: nat, kind: Kind)
    | Detach(i: nat, del: DelResult)
    | Submit(ret: int)
    | Shutdown(delOk: bool)
    | ServerEvent(readable: bool)
    | SessionEvent(i: nat, generation: int, ready: Readiness, cap: nat, sockOk: bool, sockErr: int)
    // the completion handler, from its entry to its return
    | Enter(cap: nat)
    | Process(addOk: bool)
    | Account
    | Leave
    | ClearEventfd
    | CheckReady
    | Rearm
    // the kernel and the clients
    | Arrive
    | Abandon
    | DeliverEdge
    | Execute(index: nat, res: int, conn: int, dequeue: bool)
    | Post(index: nat)
    | Signal
    | OpenForeign(fd: int, conn: int)
    | CloseForeign(fd: int)

  /* Initial state: mcon_create */

  function FreshSessions(n: nat): seq<Session> { seq(n, _ => FRESH_SESSION) }

  function CountDown(n: nat): seq<int> { seq(n, i => n - 1 - i) }

  function FreshLib(cfg: Config): Lib {
    Lib(FreshSessions(cfg.sessionCount), CountDown(cfg.sessionCount), EMPTY_QUEUE,
        0, false, 0, false, -1, -1)
  }

  function Init(cfg: Config): World {
    World(cfg, FreshLib(cfg),
          Kernel([], [], [], [], 0, 0, 0, 0, false, 0, Table(map[], map[], map[])),
          Outside, false, [], {}, 0)
  }

  /* Derived quantities */

  function OpsOf(cqes: seq<Cqe>): seq<Op> { seq(|cqes|, i requires 0 <= i < |cqes| => cqes[i].op) }

  /** Operations the kernel has not executed yet, wherever they are. */
  function Unexecuted(lib: Lib, ker: Kernel): multiset<Op> {
    multiset(Flat(lib.queue)) + multiset(ker.sq) + multiset(ker.pending)
  }

  function Executed(ker: Kernel): multiset<Op> {
    multiset(OpsOf(ker.done)) + multiset(OpsOf(ker.cq))
  }

  /** All operations taken on whose completion has not been processed. */
  function Outstanding(lib: Lib, ker: Kernel): multiset<Op> { Unexecuted(lib, ker) + Executed(ker) }

  function Completions(ker: Kernel): multiset<Cqe> { multiset(ker.done) + multiset(ker.cq) }

  /** Operations submitted to the kernel and not yet consumed. */
  function Submitted(ker: Kernel): nat { |ker.pending| + |ker.done| + |ker.cq| }

  function ActiveCount(lib: Lib): int { |lib.sessions| - |lib.free| }

  /** The operation of the given kind a session could have outstanding right now. */
  function OpAt(s: Session, i: int, kind: Kind): Op { Op(kind, s.fd, i, s.epoch, s.conn) }

  /** The listening socket is registered with epoll. */
  predicate Listening(lib: Lib) { lib.serverFd != -1 && !lib.shuttingDown }

  /* Session operations: session.c */

  function Conflicts(s: Session, kind: Kind): bool {
    match kind
    case Accept => true
    case Read => s.reading || s.closing
    case Drain => s.reading || s.closing
    case Write => s.writing || s.closing
    case Close => s.reading || s.writing || s.closing
  }

  function Mark(s: Session, kind: Kind): Session {
    match kind
    case Accept => s
    case Read => s.(reading := true)
    case Drain => s.(reading := true)
    case Write => s.(writing := true)
    case Close => s.(closing := true)
  }

  function Unmark(s: Session, kind: Kind): Session {
    match kind
    case Accept => s
    case Read => s.(reading := false)
    case Drain => s.(reading := false)
    case Write => s.(writing := false)
    case Close => s.(closing := false)
  }

  function Validate(lib: Lib, i: nat, kind: Kind): Rc {
    if i >= |lib.sessions| then Err(EINVAL)
    else if !lib.sessions[i].Active() || Conflicts(lib.sessions[i], kind) then Err(EBUSY)
    else Ok
  }

  /** mcon_session_get_socket: an operation that conflicts with nothing. */
  function DoGetSocket(lib: Lib, i: nat): (Rc, int) {
    if i >= |lib.sessions| then (Err(EINVAL), -1)
    else if !lib.sessions[i].Active() then (Err(EBUSY), -1)
    else (Ok, lib.sessions[i].fd)
  }

  function DoSessionIo(w: World, i: nat, kind: Kind): (World, Rc) {
    var valid := Validate(w.lib, i, kind);
    if valid != Ok then (w, valid)
    else if Size(w.lib.queue) >= w.cfg.ioQueueSize then (w, Err(EQUEUE))
    else
      var s := w.lib.sessions[i];
      (w.(lib := w.lib.(queue := Enqueue(w.lib.queue, OpAt(s, i, kind)),
                        sessions := w.lib.sessions[i := Mark(s, kind)]),
          log := w.log + [Took(i, kind)]),
       Ok)
  }

  /** session_reset_after_close. */
  function NextIncarnation(s: Session): Session {
    s.(fd := -1, generation := if s.generation == 0xff then 0 else s.generation + 1, epoch := s.epoch + 1)
  }

  /** mcon_complete_shutdown, under the test its two callers make. */
  function Settle(lib: Lib): Lib {
    if lib.shuttingDown && ActiveCount(lib) == 0
    then lib.(epollFd := -1, serverFd := -1, shuttingDown := false)
    else lib
  }

  /** The connection leaves the interest list and gets another owner. */
  function Disown(t: Table, conn: int, owner: Owner): Table {
    t.(interest := t.interest - {conn}, owner := t.owner[conn := owner])
  }

  /** The descriptor is closed: its connection, if any, leaves the interest list too. */
  function CloseFd(t: Table, fd: int): Table {
    if fd !in t.fds then t else t.(fds := t.fds - {fd}, interest := t.interest - {t.fds[fd]})
  }

  function DoDetach(w: World, i: nat, del: DelResult): (World, Rc) {
    var valid := Validate(w.lib, i, Close);
    if valid != Ok then (w, valid)
    else if |w.lib.free| >= |w.lib.sessions| then (w, Err(ESYSCALL))
    else
      var s := w.lib.sessions[i];
      var pushed := w.lib.(free := w.lib.free + [i]);
      match del
      case DelOther => (w, Err(ESYSCALL))
      case DelNoEntry => (w.(lib := pushed), Err(ESYSCALL))
      case DelOk =>
        (w.(lib := Settle(pushed.(sessions := w.lib.sessions[i := NextIncarnation(s)])),
            ker := w.ker.(table := Disown(w.ker.table, s.conn, Foreign))),
         Ok)
  }

  /* Submission, start and shutdown: mcon.c */

  /** How many accepts one submit adds. */
  function AcceptQuota(cfg: Config, lib: Lib): nat {
    if !lib.acceptsRequested then 0
    else Clip(Min(cfg.maxAccepts - lib.acceptsLive,
                  Min(|lib.free| - lib.acceptsLive, cfg.ioQueueSize - Size(lib.queue))))
  }

  function Repeat<T>(x: T, n: nat): seq<T> { seq(n, _ => x) }

  function WithAccepts(lib: Lib, n: nat): Lib {
    if n == 0 then lib
    else lib.(queue := lib.queue[4 := lib.queue[4] + Repeat(AcceptOp(lib.serverFd), n)],
              acceptsLive := lib.acceptsLive + n,
              acceptsRequested := false)
  }

  /** How many operations one submit moves into the SQ. */
  function TransferSize(cfg: Config, lib: Lib, ker: Kernel): nat {
    Min(Wrap32(cfg.ringSize - lib.inFlight),
        Min(Clip(cfg.sqEntries - |ker.sq|), Size(lib.queue)))
  }

  function Transfer(w: World, n: nat): World
    requires n <= Size(w.lib.queue)
  {
    w.(lib := w.lib.(queue := DropFirst(w.lib.queue, n)),
       ker := w.ker.(sq := w.ker.sq + Flat(w.lib.queue)[..n]))
  }

  /** The kernel takes the first `ret` staged operations; a negative `ret` is an error. */
  function Handover(w: World, ret: int): World
    requires ret <= |w.ker.sq|
  {
    if ret < 0 then w
    else w.(lib := w.lib.(inFlight := Wrap16(w.lib.inFlight + ret)),
            ker := w.ker.(sq := w.ker.sq[ret..], pending := w.ker.pending + w.ker.sq[..ret]))
  }

  /** The state of a submit just before it calls the kernel. */
  function Staged(w: World): World {
    var w1 := w.(lib := WithAccepts(w.lib, AcceptQuota(w.cfg, w.lib)));
    Transfer(w1, TransferSize(w1.cfg, w1.lib, w1.ker))
  }

  function MovedBySubmit(w: World): nat {
    TransferSize(w.cfg, WithAccepts(w.lib, AcceptQuota(w.cfg, w.lib)), w.ker)
  }

  function DoSubmit(w: World, ret: int): World
    requires ret <= |Staged(w).ker.sq|
  {
    if MovedBySubmit(w) == 0 then Staged(w) else Handover(Staged(w), ret)
  }

  function DoStart(w: World, ok: bool): World {
    if !ok then w
    else w.(lib := w.lib.(serverFd := w.cfg.listenFd, epollFd := w.cfg.pollFd), started := true,
            ker := w.ker.(edgeReady := w.ker.backlog > 0))
  }

  function DoShutdown(w: World, delOk: bool): (World, Rc) {
    if w.lib.shuttingDown then (w, Err(EBUSY))
    else if w.lib.serverFd == -1 then (w, Err(EINVAL))
    else if !delOk then (w, Err(ESYSCALL))
    else (w.(lib := w.lib.(shuttingDown := true), ker := w.ker.(edgeReady := false)), Ok)
  }

  /* Readiness events: event_processing.c, event_processing_session.c */

  function DoServerEvent(w: World, readable: bool): World {
    if !readable then w
    else w.(lib := w.lib.(acceptsRequested := true), ker := w.ker.(edgesHeld := Clip(w.ker.edgesHeld - 1)))
  }

  function Bits(ready: Readiness): nat {
    Bit(ready.rin) + Bit(ready.hup) + Bit(ready.rdhup) + Bit(ready.err)
  }

  function When(b: bool, e: Event): seq<Event> { if b then [e] else [] }

  /** The events a session's readiness gives rise to, in the order they are stored. */
  function ReadinessEvents(s: Session, i: nat, ready: Readiness, sockErr: int): seq<Event> {
    When(ready.rin, Event(0, i, ReadReady))
    + When(ready.hup, Event(0, i, ReadShutdown))
    + When(ready.rdhup && !s.rdhup, Event(0, i, RemoteHangup))
    + When(ready.err, Event(sockErr, i, ClientError))
  }

  function Tell(events: seq<Event>): seq<Obs> {
    seq(|events|, k requires 0 <= k < |events| => Told(events[k], Plain))
  }

  datatype Reply = Events(events: seq<Event>) | Failed(errno: Errno)

  /** The reply says what is returned; a failing getsockopt turns it into an error
      after the events have been stored and the hangup bit has been set. */
  function DoSessionEvent(w: World, i: nat, generation: int, ready: Readiness, cap: nat,
                          sockOk: bool, sockErr: int): (World, Reply)
  {
    if ready.other || i >= |w.lib.sessions| then (w, Failed(EINVAL))
    else if cap < Bits(ready) then (w, Failed(ENOBUFS))
    else
      var s := w.lib.sessions[i];
      if generation != s.generation then (w, Events([]))
      else
        var events := ReadinessEvents(s, i, ready, sockErr);
        (w.(lib := w.lib.(sessions := w.lib.sessions[i := s.(rdhup := s.rdhup || ready.rdhup)]),
            log := w.log + Tell(events)),
         if ready.err && !sockOk then Failed(ESYSCALL) else Events(events))
  }

  /* The completion handler: event_processing_io_uring.c */

  /** The ring entry that CQE number `n` is found in. */
  function Address(n: nat, size: nat): nat
    requires size > 0
  {
    if n < size then n else Address(n - size, size)
  }

  /** io_uring_cqe_seen. */
  function Consume(ker: Kernel): Kernel
    requires ker.cq != []
  {
    ker.(cq := ker.cq[1..], seen := ker.seen + 1)
  }

  /** Where the loop goes when it breaks, or finds its guard false. */
  function AfterLoop(ctl: Control): Control
    requires ctl.Looping?
  {
    if ctl.rounds == 0 then Clearing(ctl.count) else Outside
  }

  /** Where the loop goes when the current CQE produced `n` events. */
  function Produced(w: World, n: nat): Control
    requires w.ctl.Looping?
    requires w.cfg.sqEntries > 0
  {
    Counting(w.ctl.cap, w.ctl.count, w.ctl.rounds, Address(w.ker.seen, w.cfg.CqEntries()), n)
  }

  function NewClient(s: Session, fd: int, conn: int): Session {
    s.(fd := fd, reading := false, writing := false, rdhup := false, closing := false, conn := conn)
  }

  predicate AtCqe(w: World) {
    w.ctl.Looping? && w.ctl.count < w.ctl.cap && w.ker.cq != [] && w.cfg.sqEntries > 0
  }

  function ProcessAccept(w: World, addOk: bool): World
    requires AtCqe(w)
  {
    var res, conn := w.ker.cq[0].res, w.ker.cq[0].conn;
    var lib := w.lib.(acceptsLive := Wrap16(w.lib.acceptsLive - 1));
    var ker := Consume(w.ker);
    if res == -EAGAIN then
      w.(lib := lib, ker := ker, ctl := Produced(w, 0))
    else if res < 0 then
      w.(lib := lib.(acceptsRequested := true), ker := ker, ctl := Produced(w, 1),
         log := w.log + [Told(Event(res, NO_SESSION, NewConnection), Plain)])
    else if lib.free == [] then
      w.(lib := lib.(acceptsRequested := true), ker := ker, ctl := AfterLoop(w.ctl))
    else if !addOk then
      w.(lib := lib.(acceptsRequested := true), ctl := AfterLoop(w.ctl),
         ker := ker.(table := CloseFd(ker.table, res).(owner := ker.table.owner[conn := Gone])),
         addFailures := w.addFailures + 1)
    else
      var top := |lib.free| - 1;
      var i := lib.free[top];
      if !(0 <= i < |lib.sessions|) then w
      else
        var s := NewClient(lib.sessions[i], res, conn);
        var reg := Registration(i, s.generation, s.epoch, conn);
        w.(lib := lib.(acceptsRequested := true, free := lib.free[..top], sessions := lib.sessions[i := s]),
           ker := ker.(table := ker.table.(interest := ker.table.interest[conn := reg],
                                           owner := ker.table.owner[conn := Slot(i)])),
           ctl := Produced(w, 1),
           registered := w.registered + {reg},
           log := w.log + [Told(Event(res, i, NewConnection), Opened(s))])
  }

  /** Read, write and drain completions. */
  function ProcessIo(w: World): World
    requires AtCqe(w)
  {
    var c := w.ker.cq[0];
    var i := c.op.session;
    if !(0 <= i < |w.lib.sessions|) then w
    else
      var s := w.lib.sessions[i];
      w.(lib := w.lib.(sessions := w.lib.sessions[i := Unmark(s, c.op.kind)]),
         ker := Consume(w.ker),
         ctl := Produced(w, 1),
         log := w.log + [Told(Event(c.res, i, CompletionType(c.op.kind)), Finished(c.op, s))])
  }

  function ProcessClose(w: World): World
    requires AtCqe(w)
  {
    var c := w.ker.cq[0];
    var i := c.op.session;
    if !(0 <= i < |w.lib.sessions|) then w
    else if |w.lib.free| >= |w.lib.sessions| then w.(ctl := AfterLoop(w.ctl))
    else
      var s := w.lib.sessions[i];
      w.(lib := Settle(w.lib.(free := w.lib.free + [i],
                              sessions := w.lib.sessions[i := Unmark(NextIncarnation(s), Close)])),
         ker := Consume(w.ker).(table := w.ker.table.(owner := w.ker.table.owner[s.conn := Gone])),
         ctl := Produced(w, 1),
         log := w.log + [Told(Event(c.res, i, CloseComplete), Finished(c.op, s))])
  }

  function DoProcess(w: World, addOk: bool): World
    requires AtCqe(w)
  {
    match w.ker.cq[0].op.kind
    case Accept => ProcessAccept(w, addOk && w.lib.epollFd != -1)
    case Close => ProcessClose(w)
    case _ => ProcessIo(w)
  }

  /** The address io_uring_peek_cqe finds: a slot of the ring, or nothing. */
  function Head(w: World): Option<nat>
    requires w.cfg.sqEntries > 0
  {
    if w.ker.cq == [] then None else Some(Address(w.ker.seen, w.cfg.CqEntries()))
  }

  function DoAccount(w: World): World
    requires w.ctl.Counting? && w.cfg.sqEntries > 0
  {
    w.(lib := w.lib.(inFlight := Wrap16(w.lib.inFlight - Bit(Head(w) != Some(w.ctl.slot)))),
       ctl := Looping(w.ctl.cap, w.ctl.count + w.ctl.produced, w.ctl.rounds + 1))
  }

  /* The kernel */

  function OpenFd(t: Table, fd: int, conn: int, owner: Owner): Table {
    t.(fds := t.fds[fd := conn], owner := t.owner[conn := owner])
  }

  predicate CanExecute(ker: Kernel, index: nat, res: int, conn: int) {
    && index < |ker.pending|
    && (ker.pending[index].kind == Accept ==>
          && (0 <= res ==> ker.backlog > 0 && ker.pending[index].fd != -1
                           && res !in ker.table.fds && conn !in ker.table.owner)
          && (res == -EAGAIN ==> ker.backlog == 0))
  }

  function DoExecute(ker: Kernel, index: nat, res: int, conn: int, dequeue: bool): Kernel
    requires CanExecute(ker, index, res, conn)
  {
    var op := ker.pending[index];
    var moved := ker.(pending := RemoveAt(ker.pending, index),
                      done := ker.done + [Cqe(op, res, conn)]);
    match op.kind
    case Accept =>
      if 0 <= res then moved.(backlog := ker.backlog - 1,
                              table := OpenFd(ker.table, res, conn, Waiting(res)))
      else if dequeue then moved.(backlog := Clip(ker.backlog - 1))
      else moved
    case Close => moved.(table := CloseFd(ker.table, op.fd))
    case _ => moved
  }

  predicate CanClose(t: Table, fd: int) {
    fd in t.fds && t.fds[fd] in t.owner && t.owner[t.fds[fd]] == Foreign
  }

  /** EPOLL_CTL_DEL succeeds only for a registered descriptor, and answers ENOENT
      only for an open one that is not registered. */
  predicate TruthfulDel(w: World, i: nat, del: DelResult) {
    i < |w.lib.sessions| && w.lib.sessions[i].Active() ==>
      var fd := w.lib.sessions[i].fd;
      && (del == DelOk ==> fd in w.ker.table.fds && w.ker.table.fds[fd] in w.ker.table.interest)
      && (del == DelNoEntry ==> fd in w.ker.table.fds && w.ker.table.fds[fd] !in w.ker.table.interest)
  }

  /* One step */

  /** Whether the step can happen: one thread calls the library, an instance is started once,
      and the kernel answers truthfully. */
  predicate Enabled(w: World, step: Step) {
    match step
    case Start(_) => w.ctl.Outside? && !w.started
    case SessionIo(_, kind) => w.ctl.Outside? && kind != Accept
    case Detach(i, del) => w.ctl.Outside? && TruthfulDel(w, i, del)
    case Submit(ret) => w.ctl.Outside? && ret <= |Staged(w).ker.sq|
    case Shutdown(_) => w.ctl.Outside?
    case ServerEvent(readable) => w.ctl.Outside? && (readable ==> w.started)
    case SessionEvent(_, _, _, _, _, _) => w.ctl.Outside?
    case Enter(_) => w.ctl.Outside?
    case Process(_) => AtCqe(w)
    case Account => w.ctl.Counting? && w.cfg.sqEntries > 0
    case Leave => w.ctl.Looping? && (w.ctl.count >= w.ctl.cap || w.ker.cq == [])
    case ClearEventfd => w.ctl.Clearing?
    case CheckReady => w.ctl.Checking?
    case Rearm => w.ctl.Arming?
    case Arrive => true
    case Abandon => w.ker.backlog > 0
    case DeliverEdge => w.ker.edgeReady
    case Execute(index, res, conn, _) => CanExecute(w.ker, index, res, conn)
    case Post(index) => index < |w.ker.done| && |w.ker.cq| < w.cfg.CqEntries()
    case Signal => w.ker.signalsDue > 0
    case OpenForeign(fd, conn) => 0 <= fd && fd !in w.ker.table.fds && conn !in w.ker.table.owner
    case CloseForeign(fd) => CanClose(w.ker.table, fd)
  }

  /** A step of the kernel, of clients or of others in the process. */
  predicate IsEnvironment(step: Step) {
    step.Arrive? || step.Abandon? || step.DeliverEdge? || step.Execute? || step.Post? || step.Signal?
    || step.OpenForeign? || step.CloseForeign?
  }

  function Perform(w: World, step: Step): World
    requires Enabled(w, step)
  {
    match step
    case Start(ok) => DoStart(w, ok)
    case SessionIo(i, kind) => DoSessionIo(w, i, kind).0
    case Detach(i, del) => DoDetach(w, i, del).0
    case Submit(ret) => DoSubmit(w, ret)
    case Shutdown(delOk) => DoShutdown(w, delOk).0
    case ServerEvent(readable) => DoServerEvent(w, readable)
    case SessionEvent(i, g, ready, cap, sockOk, sockErr) =>
      DoSessionEvent(w, i, g, ready, cap, sockOk, sockErr).0
    case Enter(cap) => w.(ctl := Looping(cap, 0, 0))
    case Process(addOk) => DoProcess(w, addOk)
    case Account => DoAccount(w)
    case Leave => w.(ctl := AfterLoop(w.ctl))
    case ClearEventfd => w.(ker := w.ker.(eventfd := 0), ctl := Checking(w.ctl.count))
    case CheckReady => w.(ctl := if w.ker.cq != [] then Arming(w.ctl.count) else Outside)
    case Rearm => w.(ker := w.ker.(eventfd := w.ker.eventfd + 1), ctl := Outside)
    case Arrive => w.(ker := w.ker.(backlog := w.ker.backlog + 1,
                                    edgeReady := w.ker.edgeReady || Listening(w.lib)))
    case Abandon => w.(ker := w.ker.(backlog := w.ker.backlog - 1))
    case DeliverEdge => w.(ker := w.ker.(edgeReady := false, edgesHeld := w.ker.edgesHeld + 1))
    case Execute(index, res, conn, dequeue) => w.(ker := DoExecute(w.ker, index, res, conn, dequeue))
    case Post(index) =>
      w.(ker := w.ker.(done := RemoveAt(w.ker.done, index), cq := w.ker.cq + [w.ker.done[index]],
                       signalsDue := w.ker.signalsDue + 1))
    case Signal => w.(ker := w.ker.(signalsDue := w.ker.signalsDue - 1, eventfd := w.ker.eventfd + 1))
    case OpenForeign(fd, conn) =>
      w.(ker := w.ker.(table := OpenFd(w.ker.table, fd, conn, Foreign)))
    case CloseForeign(fd) =>
      w.(ker := w.ker.(table := CloseFd(w.ker.table, fd).(owner := w.ker.table.owner[w.ker.table.fds[fd] := Gone])))
  }

  /** A step that is not enabled does nothing. */
  function Apply(w: World, step: Step): World {
    if Enabled(w, step) then Perform(w, step) else w
  }

  function Run(w: World, steps: seq<Step>): World {
    if steps == [] then w else Apply(Run(w, steps[..|steps| - 1]), steps[|steps| - 1])
  }
}
