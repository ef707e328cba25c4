/** What each call answers and what it leaves behind, in every reachable state, in terms of
    the session bits, the error codes and the events themselves. */
module Answers {
  import opened Types
  import opened Pipeline
  import opened World
  import opened Invariant
  import opened Ledger
  import opened Calls
  import opened ReadinessSteps
  import opened Handler
  import opened AcceptSteps
  import opened Reachability
  import opened Behaviour
  import opened Theorems
  import opened HandlerRuns
  import opened Admission

  /* Session operations */

  /** The session is not there, on its way out, or has an operation outstanding
      that does not go together with the one asked for. */
  predicate Refuses(s: Session, kind: Kind) {
    || s.fd == -1
    || s.closing
    || (s.reading && kind in {Read, Drain, Close})
    || (s.writing && kind in {Write, Close})
  }

  /** The bit by which the session remembers the operation. */
  predicate Remembers(s: Session, s': Session, kind: Kind) {
    && s' == s.(reading := s'.reading, writing := s'.writing, closing := s'.closing)
    && (s'.reading <==> s.reading || kind in {Read, Drain})
    && (s'.writing <==> s.writing || kind == Write)
    && (s'.closing <==> s.closing || kind == Close)
  }

  lemma IoAnswers(w: World, i: nat, kind: Kind)
    requires kind != Accept
    ensures DoSessionIo(w, i, kind).1 ==
      if i >= |w.lib.sessions| then Err(EINVAL)
      else if Refuses(w.lib.sessions[i], kind) then Err(EBUSY)
      else if Size(w.lib.queue) >= w.cfg.ioQueueSize then Err(EQUEUE)
      else Ok
    ensures DoSessionIo(w, i, kind).1 != Ok ==> DoSessionIo(w, i, kind).0 == w
  {
  }

  lemma IoLeaves(w: World, i: nat, kind: Kind)
    requires kind != Accept && DoSessionIo(w, i, kind).1 == Ok
    ensures i < |w.lib.sessions|
    ensures var w', s := DoSessionIo(w, i, kind).0, w.lib.sessions[i];
      && |w'.lib.sessions| == |w.lib.sessions| && Remembers(s, w'.lib.sessions[i], kind)
      && (forall j :: 0 <= j < |w.lib.sessions| && j != i ==> w'.lib.sessions[j] == w.lib.sessions[j])
      && w'.ker == w.ker && w'.log == w.log + [Took(i, kind)]
      && w'.lib == w.lib.(sessions := w'.lib.sessions, queue := w'.lib.queue)
  {
  }

  /** A read, write, drain or close is refused exactly for an index out of range, for a session that is free, closing or
      has a conflicting operation outstanding, and for want of room in the queue, in that order; a refusal changes
      nothing. What is accepted is queued once, and remembered by its bit and nothing else. */
  lemma SessionIoAnswers(cfg: Config, steps: seq<Step>, i: nat, kind: Kind)
    requires cfg.Valid() && kind != Accept
    ensures var w := After(cfg, steps); var (w', rc) := DoSessionIo(w, i, kind);
      && |w.lib.sessions| == cfg.sessionCount
      && (rc == Err(EINVAL) <==> i >= cfg.sessionCount)
      && (rc == Err(EBUSY) <==> i < cfg.sessionCount && Refuses(w.lib.sessions[i], kind))
      && (rc == Ok <==> i < cfg.sessionCount && !Refuses(w.lib.sessions[i], kind)
                        && |Flat(w.lib.queue)| < cfg.ioQueueSize)
      && (rc != Ok ==> w' == w)
      && (rc == Ok ==>
            var s := w.lib.sessions[i];
            && Remembers(s, w'.lib.sessions[i], kind)
            && multiset(Journey(w')) == multiset(Journey(w)) + multiset{Op(kind, s.fd, i, s.epoch, s.conn)})
  {
    Reachable(cfg, steps);
    var w := After(cfg, steps);
    IoAnswers(w, i, kind);
    if DoSessionIo(w, i, kind).1 == Ok {
      IoLeaves(w, i, kind);
      SessionIoAdds(w, i, kind);
      JourneyBag(w);
      JourneyBag(DoSessionIo(w, i, kind).0);
    }
  }

  /** In terms of what is outstanding: a read or drain wants no other of the two, a write no write, a close none
      of them, and all of them no close. */
  lemma AcceptedExactly(cfg: Config, steps: seq<Step>, i: nat, kind: Kind)
    requires cfg.Valid() && kind != Accept && i < cfg.sessionCount
    ensures i < |After(cfg, steps).lib.sessions|
    ensures var w := After(cfg, steps); var ops := Journey(w);
      DoSessionIo(w, i, kind).1 == Ok <==>
        && w.lib.sessions[i].fd != -1 && |Flat(w.lib.queue)| < cfg.ioQueueSize
        && CountOps(ops, i, Close) == 0
        && (kind in {Read, Drain, Close} ==> CountOps(ops, i, Read) == 0 && CountOps(ops, i, Drain) == 0)
        && (kind in {Write, Close} ==> CountOps(ops, i, Write) == 0)
  {
    SessionIoAnswers(cfg, steps, i, kind);
    LedgerIsExact(cfg, steps, i);
  }

  /** mcon_session_get_socket. */
  lemma GetSocketAnswers(lib: Lib, i: nat)
    ensures var (rc, fd) := DoGetSocket(lib, i);
      && (rc == Err(EINVAL) <==> i >= |lib.sessions|)
      && (rc == Err(EBUSY) <==> i < |lib.sessions| && lib.sessions[i].fd == -1)
      && (rc == Ok <==> i < |lib.sessions| && lib.sessions[i].fd != -1)
      && (rc == Ok ==> fd == lib.sessions[i].fd) && (rc != Ok ==> fd == -1)
  {
  }

  /** The successor of an 8-bit generation. */
  predicate Succeeds(g: Byte, g': Byte) { if g == 0xff then g' == 0 else g' == g + 1 }

  /** The slot is free again, and its next generation begins. */
  predicate Freed(s: Session, s': Session) {
    s'.fd == -1 && Succeeds(s.generation, s'.generation) && !s'.reading && !s'.writing && !s'.closing
  }

  lemma DetachRefuses(w: World, i: nat, del: DelResult)
    requires |w.lib.free| < |w.lib.sessions| || i >= |w.lib.sessions| || Refuses(w.lib.sessions[i], Close)
    ensures DoDetach(w, i, del).1 ==
      if i >= |w.lib.sessions| then Err(EINVAL)
      else if Refuses(w.lib.sessions[i], Close) then Err(EBUSY)
      else if del != DelOk then Err(ESYSCALL)
      else Ok
  {
  }

  lemma DetachLeaves(w: World, i: nat)
    requires DoDetach(w, i, DelOk).1 == Ok
    ensures i < |w.lib.sessions|
    ensures var w', s := DoDetach(w, i, DelOk).0, w.lib.sessions[i];
      && |w'.lib.sessions| == |w.lib.sessions| && Freed(s, w'.lib.sessions[i])
      && (forall j :: 0 <= j < |w.lib.sessions| && j != i ==> w'.lib.sessions[j] == w.lib.sessions[j])
      && w'.lib.free == w.lib.free + [i] && w'.lib.queue == w.lib.queue && w'.log == w.log
      && w'.lib.acceptsLive == w.lib.acceptsLive && w'.lib.acceptsRequested == w.lib.acceptsRequested
      && w'.lib.inFlight == w.lib.inFlight
  {
  }

  /** A detach is refused exactly for an index out of range, for a session that is not both active and idle, and if
      EPOLL_CTL_DEL fails; a refusal changes nothing. Otherwise the slot is free, on top of the stack, and in
      its next generation, and no other session is touched. */
  lemma DetachAnswers(cfg: Config, steps: seq<Step>, i: nat, del: DelResult)
    requires cfg.Valid() && TruthfulDel(After(cfg, steps), i, del)
    ensures var w := After(cfg, steps); var (w', rc) := DoDetach(w, i, del);
      && |w.lib.sessions| == cfg.sessionCount
      && (rc == Err(EINVAL) <==> i >= cfg.sessionCount)
      && (rc == Err(EBUSY) <==> i < cfg.sessionCount && Refuses(w.lib.sessions[i], Close))
      && (rc == Ok <==> i < cfg.sessionCount && !Refuses(w.lib.sessions[i], Close) && del == DelOk)
      && (rc != Ok ==> w' == w)
      && (rc == Ok ==>
            && i < |w'.lib.sessions| && Freed(w.lib.sessions[i], w'.lib.sessions[i])
            && w'.lib.free == w.lib.free + [i] && w'.lib.queue == w.lib.queue)
  {
    Reachable(cfg, steps);
    var w := After(cfg, steps);
    FailedDetachChangesNothing(cfg, steps, i, del);
    IdleMayLeave(w, i);
    DetachRefuses(w, i, del);
    if DoDetach(w, i, del).1 == Ok { DetachLeaves(w, i); }
  }

  lemma IdleMayLeave(w: World, i: nat)
    requires Inv(w)
    ensures i < |w.lib.sessions| && !Refuses(w.lib.sessions[i], Close) ==> |w.lib.free| < |w.lib.sessions|
  {
    if i < |w.lib.sessions| && !Refuses(w.lib.sessions[i], Close) { PushCannotFail(w.lib.sessions, w.lib.free, i); }
  }

  /* Completions of session operations */

  /** Which event reports a completed operation. */
  predicate Announces(kind: Kind, etype: EventType) {
    && (kind == Read <==> etype == ReadComplete)
    && (kind == Write <==> etype == WriteComplete)
    && (kind == Drain <==> etype == DrainComplete)
    && (kind == Close <==> etype == CloseComplete)
  }

  /** Every completion that is reported is reported as what it is. */
  lemma EventsNameTheirOperation(cfg: Config, steps: seq<Step>, k: nat)
    requires cfg.Valid() && k < |After(cfg, steps).log|
    requires After(cfg, steps).log[k].Told?
    ensures var o := After(cfg, steps).log[k];
      && (o.note.Finished? ==> o.note.op.kind != Accept && Announces(o.note.op.kind, o.event.etype))
      && (o.event.etype in {ReadComplete, WriteComplete, DrainComplete, CloseComplete} ==> o.note.Finished?)
  {
    Reachable(cfg, steps);
    NamedBy(After(cfg, steps).log, k);
  }

  lemma NamedBy(log: seq<Obs>, k: nat)
    requires LogInv(log) && k < |log| && log[k].Told?
    ensures log[k].note.Finished? ==> log[k].note.op.kind != Accept
                                      && Announces(log[k].note.op.kind, log[k].event.etype)
    ensures log[k].event.etype in {ReadComplete, WriteComplete, DrainComplete, CloseComplete} ==> log[k].note.Finished?
  {
    assert SameIncarnation(log[k]) && CompletionIsNoted(log[k]);
  }

  /** Exactly-once completion, kind by kind. */
  lemma EachKindIsReportedOnce(cfg: Config, steps: seq<Step>, i: nat)
    requires cfg.Valid() && i < cfg.sessionCount
    ensures var w := After(cfg, steps); var ops := Journey(w);
      && CountTook(w.log, i, Read) == CountTold(w.log, i, ReadComplete) + CountOps(ops, i, Read)
      && CountTook(w.log, i, Write) == CountTold(w.log, i, WriteComplete) + CountOps(ops, i, Write)
      && CountTook(w.log, i, Drain) == CountTold(w.log, i, DrainComplete) + CountOps(ops, i, Drain)
      && CountTook(w.log, i, Close) == CountTold(w.log, i, CloseComplete) + CountOps(ops, i, Close)
  {
    AcceptedIsReportedOrOutstanding(cfg, steps, i, Read);
    AcceptedIsReportedOrOutstanding(cfg, steps, i, Write);
    AcceptedIsReportedOrOutstanding(cfg, steps, i, Drain);
    AcceptedIsReportedOrOutstanding(cfg, steps, i, Close);
  }

  /** The event of a completion: the kernel's result, for the session of the operation. */
  predicate ReportOf(o: Obs, c: Cqe) {
    && o.Told? && o.event.result == c.res && o.event.session == c.op.session
    && Announces(c.op.kind, o.event.etype)
  }

  /** The bit the completion takes back; a close frees the slot. */
  predicate Forgets(s: Session, s': Session, kind: Kind) {
    match kind
    case Read => s' == s.(reading := false)
    case Drain => s' == s.(reading := false)
    case Write => s' == s.(writing := false)
    case Close => Freed(s, s')
    case Accept => false
  }

  lemma IoReports(w: World, addOk: bool)
    requires AtIo(w) && 0 <= w.ker.cq[0].op.session < |w.lib.sessions|
    ensures CompletionOutcome(w, DoProcess(w, addOk), w.ker.cq[0])
  {
  }

  lemma CloseReports(w: World, addOk: bool)
    requires AtClose(w) && 0 <= w.ker.cq[0].op.session < |w.lib.sessions| && |w.lib.free| < |w.lib.sessions|
    requires w.lib.sessions[w.ker.cq[0].op.session].(closing := false).Idle()
    ensures CompletionOutcome(w, DoProcess(w, addOk), w.ker.cq[0])
  {
  }

  /** What processing the completion `c` of a session operation does. */
  ghost predicate CompletionOutcome(w: World, w': World, c: Cqe) {
    && 0 <= c.op.session < |w.lib.sessions| == |w'.lib.sessions|
    && |w'.log| == |w.log| + 1 && w'.log[..|w.log|] == w.log && ReportOf(w'.log[|w.log|], c)
    && Forgets(w.lib.sessions[c.op.session], w'.lib.sessions[c.op.session], c.op.kind)
    && (forall j :: 0 <= j < |w.lib.sessions| && j != c.op.session ==> w'.lib.sessions[j] == w.lib.sessions[j])
    && w'.lib.free == w.lib.free + (if c.op.kind == Close then [c.op.session] else [])
    && w.ker.cq != [] && w'.ker.cq == w.ker.cq[1..] && w'.ctl.Counting? && w'.ctl.produced == 1
  }

  lemma CompletionDoes(w: World, w': World, addOk: bool)
    requires Inv(w) && AtCqe(w) && w.ker.cq[0].op.kind != Accept && w' == DoProcess(w, addOk)
    ensures CompletionOutcome(w, w', w.ker.cq[0])
  {
    IoCqeKnown(w);
    if AtClose(w) {
      CloseCqePushes(w);
      CloseReports(w, addOk);
    } else {
      IoReports(w, addOk);
    }
  }

  /** Processing a completion of a session operation reports that operation with the kernel's result, once,
      takes its bit back, and leaves the other sessions alone. */
  lemma CompletionAnswers(cfg: Config, steps: seq<Step>, addOk: bool)
    requires cfg.Valid() && AtCqe(After(cfg, steps)) && After(cfg, steps).ker.cq[0].op.kind != Accept
    ensures var w := After(cfg, steps); CompletionOutcome(w, Apply(w, Process(addOk)), w.ker.cq[0])
  {
    var w := After(cfg, steps);
    Reachable(cfg, steps);
    Dispatches(w, addOk);
    CompletionDoes(w, DoProcess(w, addOk), addOk);
  }

  lemma Dispatches(w: World, addOk: bool)
    requires AtCqe(w)
    ensures Apply(w, Process(addOk)) == DoProcess(w, addOk)
  {
  }

  /* Completions of accepts */

  /** What no accept completion touches unless it opens a session. */
  ghost predicate NobodyCame(w: World, w': World) {
    && w.ker.cq != []
    && w'.lib.sessions == w.lib.sessions && w'.lib.free == w.lib.free && w'.registered == w.registered
    && w'.lib.queue == w.lib.queue && w'.ker.cq == w.ker.cq[1..] && w'.lib.acceptsLive == w.lib.acceptsLive - 1
  }

  lemma NobodyAnswers(w: World, addOk: bool)
    requires AtAccept(w) && w.ker.cq[0].res < 0 && 0 < w.lib.acceptsLive < 0x1_0000
    ensures var res, w' := w.ker.cq[0].res, Apply(w, Process(addOk));
      && NobodyCame(w, w') && w'.ker.table == w.ker.table && w'.ctl.Counting?
      && (res == -11 ==> w'.log == w.log && w'.ctl.produced == 0
                         && w'.lib.acceptsRequested == w.lib.acceptsRequested)
      && (res != -11 ==> w'.log == w.log + [Told(Event(res, 0xF_FFFF, NewConnection), Plain)]
                         && w'.ctl.produced == 1 && w'.lib.acceptsRequested)
  {
  }

  lemma RejectAnswers(w: World, addOk: bool)
    requires AtAccept(w) && w.ker.cq[0].res >= 0 && 0 < w.lib.acceptsLive < 0x1_0000 && w.lib.free != []
    requires !addOk || w.lib.epollFd == -1
    ensures var res, w' := w.ker.cq[0].res, Apply(w, Process(addOk));
      && NobodyCame(w, w') && res !in w'.ker.table.fds && w'.log == w.log && w'.lib.acceptsRequested
      && w'.ctl == if w.ctl.rounds == 0 then Clearing(w.ctl.count) else Outside
  {
  }

  /** The slot holds the new client, with no state bit set, in the generation it had. */
  predicate Welcomes(s: Session, s': Session, fd: int, conn: int) {
    && s'.fd == fd && s'.conn == conn && s'.generation == s.generation && s'.epoch == s.epoch
    && !s'.reading && !s'.writing && !s'.rdhup && !s'.closing
  }

  lemma WelcomeAnswers(w: World, i: nat)
    requires AtAccept(w) && w.ker.cq[0].res >= 0 && 0 < w.lib.acceptsLive < 0x1_0000 && w.lib.epollFd != -1
    requires w.lib.free != [] && i == w.lib.free[|w.lib.free| - 1] && i < |w.lib.sessions|
    ensures var c, w' := w.ker.cq[0], Apply(w, Process(true));
      && |w'.lib.sessions| == |w.lib.sessions| && Welcomes(w.lib.sessions[i], w'.lib.sessions[i], c.res, c.conn)
      && (forall j :: 0 <= j < |w.lib.sessions| && j != i ==> w'.lib.sessions[j] == w.lib.sessions[j])
      && w'.lib.free == w.lib.free[..|w.lib.free| - 1] && w'.lib.acceptsLive == w.lib.acceptsLive - 1
      && w'.lib.acceptsRequested && w'.ker.cq == w.ker.cq[1..]
      && w'.log == w.log + [Told(Event(c.res, i, NewConnection), Opened(w'.lib.sessions[i]))]
      && w'.ctl.Counting? && w'.ctl.produced == 1
  {
  }

  /** What processing an accept completion with result `res`, for connection `conn`, does. */
  ghost predicate AcceptOutcome(w: World, w': World, addOk: bool, res: int, conn: int) {
    && w.ker.cq != [] && w'.ker.cq == w.ker.cq[1..] && w'.lib.acceptsLive == w.lib.acceptsLive - 1
    && (w'.lib.acceptsRequested <==> w.lib.acceptsRequested || res != -11)
    && (res == -11 ==> NobodyCame(w, w') && w'.log == w.log)
    && (res < 0 && res != -11 ==>
          NobodyCame(w, w') && w'.log == w.log + [Told(Event(res, 0xF_FFFF, NewConnection), Plain)])
    && (res >= 0 && !(addOk && w.lib.epollFd != -1) ==>
          NobodyCame(w, w') && w'.log == w.log && res !in w'.ker.table.fds && !w'.ctl.Counting?)
    && (res >= 0 && addOk && w.lib.epollFd != -1 ==> SomebodyCame(w, w', res, conn))
  }

  /** The client gets the slot on top of the free stack, and no other slot is touched. */
  ghost predicate SomebodyCame(w: World, w': World, fd: int, conn: int) {
    && w.lib.free != []
    && var i := w.lib.free[|w.lib.free| - 1];
    && 0 <= i < |w.lib.sessions| == |w'.lib.sessions|
    && Welcomes(w.lib.sessions[i], w'.lib.sessions[i], fd, conn)
    && (forall j :: 0 <= j < |w.lib.sessions| && j != i ==> w'.lib.sessions[j] == w.lib.sessions[j])
    && w'.lib.free == w.lib.free[..|w.lib.free| - 1]
    && w'.log == w.log + [Told(Event(fd, i, NewConnection), Opened(w'.lib.sessions[i]))]
  }

  lemma AcceptDoes(w: World, w': World, addOk: bool)
    requires Inv(w) && AtAccept(w) && w' == Apply(w, Process(addOk))
    ensures AcceptOutcome(w, w', addOk, w.ker.cq[0].res, w.ker.cq[0].conn)
  {
    AcceptIsReserved(w);
    if w.ker.cq[0].res < 0 {
      NobodyAnswers(w, addOk);
    } else if !addOk || w.lib.epollFd == -1 {
      RejectAnswers(w, addOk);
    } else {
      WelcomeAnswers(w, w.lib.free[|w.lib.free| - 1]);
    }
  }

  /** An accept that found nobody (EAGAIN) reports nothing and asks for nothing; one that failed is reported
      without a session; a client that cannot be registered is disconnected, reported to nobody, and ends the
      loop; any other client gets the slot on top of the free stack. All but the first ask for further accepts. */
  lemma AcceptAnswers(cfg: Config, steps: seq<Step>, addOk: bool)
    requires cfg.Valid() && AtAccept(After(cfg, steps))
    ensures var w := After(cfg, steps);
      AcceptOutcome(w, Apply(w, Process(addOk)), addOk, w.ker.cq[0].res, w.ker.cq[0].conn)
  {
    Reachable(cfg, steps);
    AcceptDoes(After(cfg, steps), Apply(After(cfg, steps), Process(addOk)), addOk);
  }

  /* Readiness events */

  /** A readiness event is malformed if it has other bits or an index out of range, too large if the buffer
      has less room than it has bits, and stale if its generation is not the slot's: then it is skipped.
      A fresh one sets the hangup bit if it says so, and is answered with its events, unless the error
      query fails. */
  lemma SessionEventAnswers(w: World, i: nat, generation: int, ready: Readiness, cap: nat, sockOk: bool, sockErr: int)
    ensures var (w', reply) := DoSessionEvent(w, i, generation, ready, cap, sockOk, sockErr);
      if ready.other || i >= |w.lib.sessions| then
        w' == w && reply == Failed(EINVAL)
      else if cap < Bit(ready.rin) + Bit(ready.hup) + Bit(ready.rdhup) + Bit(ready.err) then
        w' == w && reply == Failed(ENOBUFS)
      else if generation != w.lib.sessions[i].generation then
        w' == w && reply == Events([])
      else
        var s := w.lib.sessions[i];
        && w'.lib == w.lib.(sessions := w.lib.sessions[i := s.(rdhup := s.rdhup || ready.rdhup)])
        && (if ready.err && !sockOk then reply == Failed(ESYSCALL)
            else reply.Events? && |reply.events| <= cap
                 && Reports(reply.events, i, ready, s.rdhup, sockErr) && w'.log == w.log + Tell(reply.events))
  {
    if i < |w.lib.sessions| { ReadinessReports(w.lib.sessions[i], i, ready, sockErr); }
  }

  /* Submit */

  /** How many accepts a submit adds: as many as all three limits allow. */
  predicate AddsAccepts(cfg: Config, lib: Lib, n: nat) {
    if !lib.acceptsRequested then n == 0
    else
      var room := Min(Min(cfg.maxAccepts, |lib.free|) - lib.acceptsLive, cfg.ioQueueSize - Size(lib.queue));
      n == if room < 0 then 0 else room
  }

  lemma QuotaAnswers(cfg: Config, lib: Lib)
    ensures AddsAccepts(cfg, lib, AcceptQuota(cfg, lib))
  {
  }

  lemma LimitIs(size: nat, load: nat)
    requires load <= size < 0x1_0000
    ensures Wrap32(size - load) == size - load
  {
  }

  lemma MovedAnswers(w: World, n: nat)
    requires Shape(w) && InFlightInv(w) && !w.ctl.Counting? && Load(w) <= w.cfg.ringSize
    requires n == AcceptQuota(w.cfg, w.lib)
    ensures MovedBySubmit(w) ==
      Min(w.cfg.ringSize - Load(w), Min(w.cfg.sqEntries - |w.ker.sq|, Size(w.lib.queue) + n))
  {
    LimitIs(w.cfg.ringSize, Load(w));
    RequestedIs(w);
  }

  /** What becomes of the first `m` of `all`, staged behind what is staged, when the kernel takes `ret` of it. */
  predicate HandsOver(w: World, w': World, all: seq<Op>, m: nat, ret: int)
    requires m <= |all|
  {
    var staged := w.ker.sq + all[..m];
    && Flat(w'.lib.queue) == all[m..]
    && (if m == 0 || ret < 0 then w'.ker.sq == staged && w'.ker.pending == w.ker.pending
        else ret <= |staged| && w'.ker.sq == staged[ret..] && w'.ker.pending == w.ker.pending + staged[..ret])
    && w'.ker.done == w.ker.done && w'.ker.cq == w.ker.cq
  }

  lemma SubmitHands(w: World, ret: int)
    requires ret <= |Staged(w).ker.sq|
    ensures MovedBySubmit(w) <= |Requested(w)| && HandsOver(w, DoSubmit(w, ret), Requested(w), MovedBySubmit(w), ret)
  {
    var m := MovedBySubmit(w);
    DropFirstIsSuffix(WithAccepts(w.lib, AcceptQuota(w.cfg, w.lib)).queue, m);
    assert Staged(w).ker.sq == w.ker.sq + Requested(w)[..m];
  }

  lemma SubmitCounts(w: World, ret: int)
    requires ret <= |Staged(w).ker.sq|
    ensures var w', n := DoSubmit(w, ret), AcceptQuota(w.cfg, w.lib);
      && w'.lib.acceptsLive == w.lib.acceptsLive + n
      && (w'.lib.acceptsRequested <==> w.lib.acceptsRequested && n == 0)
      && w'.lib.sessions == w.lib.sessions && w'.lib.free == w.lib.free && w'.log == w.log
  {
  }

  /** A submit adds, if asked, as many accepts as the maximum, the free sessions and the queue allow, aimed at
      the server socket, behind all else; then it moves as much as the ring size, the SQ and the queue allow,
      from the front, and hands over what the kernel takes of all that is staged, provided it moved anything. */
  ghost predicate SubmitOutcome(w: World, w': World, ret: int, n: nat, m: nat) {
    var all := Flat(w.lib.queue) + Repeat(AcceptOp(w.lib.serverFd), n);
    && AddsAccepts(w.cfg, w.lib, n)
    && m == Min(w.cfg.ringSize - Load(w), Min(w.cfg.sqEntries - |w.ker.sq|, |all|)) && m <= |all|
    && HandsOver(w, w', all, m, ret)
    && w'.lib.acceptsLive == w.lib.acceptsLive + n
    && (w'.lib.acceptsRequested <==> w.lib.acceptsRequested && n == 0)
  }

  lemma SubmitDoes(w: World, w': World, ret: int) returns (n: nat, m: nat)
    requires Shape(w) && InFlightInv(w) && w.ctl.Outside? && Load(w) <= w.cfg.ringSize
    requires ret <= |Staged(w).ker.sq| && w' == DoSubmit(w, ret)
    ensures SubmitOutcome(w, w', ret, n, m)
  {
    n, m := AcceptQuota(w.cfg, w.lib), MovedBySubmit(w);
    QuotaAnswers(w.cfg, w.lib);
    MovedAnswers(w, n);
    RequestedIs(w);
    SubmitHands(w, ret);
    SubmitCounts(w, ret);
  }

  /** What a submit does in a reachable state, for every answer of the kernel. */
  lemma SubmitAnswers(cfg: Config, steps: seq<Step>, ret: int) returns (n: nat, m: nat)
    requires cfg.Valid() && After(cfg, steps).ctl.Outside? && Load(After(cfg, steps)) <= cfg.ringSize
    requires ret <= |Staged(After(cfg, steps)).ker.sq|
    ensures SubmitOutcome(After(cfg, steps), DoSubmit(After(cfg, steps), ret), ret, n, m)
  {
    Reachable(cfg, steps);
    n, m := SubmitDoes(After(cfg, steps), DoSubmit(After(cfg, steps), ret), ret);
  }

  /* Start, shutdown, and a new instance */

  lemma StartAnswers(w: World, ok: bool)
    requires w.ctl.Outside? && !w.started
    ensures var w' := Apply(w, Start(ok));
      if !ok then w' == w
      else w' == w.(started := true, lib := w.lib.(serverFd := w.cfg.listenFd, epollFd := w.cfg.pollFd),
                    ker := w.ker.(edgeReady := w.ker.backlog > 0))
  {
  }

  predicate DescriptorsOf(w: World) {
    || (w.lib.serverFd == w.cfg.listenFd && w.lib.epollFd == w.cfg.pollFd && w.started)
    || (w.lib.serverFd == -1 && w.lib.epollFd == -1 && !w.lib.shuttingDown)
  }

  lemma ProcessKeepsDescriptorsOf(w: World, addOk: bool)
    requires DescriptorsOf(w) && AtCqe(w)
    ensures DescriptorsOf(DoProcess(w, addOk))
  {
  }

  predicate SetsDescriptors(step: Step) { step.Start? || step.Shutdown? || step.Detach? }

  lemma CallKeepsDescriptorsOf(w: World, step: Step)
    requires DescriptorsOf(w) && Enabled(w, step) && SetsDescriptors(step)
    ensures DescriptorsOf(Perform(w, step))
  {
  }

  lemma OtherKeepsDescriptorsOf(w: World, step: Step)
    requires Enabled(w, step) && !step.Process? && !SetsDescriptors(step)
    ensures var w' := Perform(w, step);
      && w'.cfg == w.cfg && w'.started == w.started && w'.lib.serverFd == w.lib.serverFd
      && w'.lib.epollFd == w.lib.epollFd && w'.lib.shuttingDown == w.lib.shuttingDown
  {
  }

  lemma DescriptorsStay(w: World, step: Step)
    requires DescriptorsOf(w)
    ensures DescriptorsOf(Apply(w, step))
  {
    if Enabled(w, step) {
      if step.Process? {
        ProcessKeepsDescriptorsOf(w, step.addOk);
      } else if SetsDescriptors(step) {
        CallKeepsDescriptorsOf(w, step);
      } else {
        OtherKeepsDescriptorsOf(w, step);
      }
    }
  }

  /** An instance uses the two descriptors it was started with, or, before its start and after
      its shutdown, none. */
  lemma {:induction false} DescriptorsAreGiven(cfg: Config, steps: seq<Step>)
    ensures DescriptorsOf(After(cfg, steps))
  {
    if steps != [] {
      DescriptorsAreGiven(cfg, steps[..|steps| - 1]);
      DescriptorsStay(After(cfg, steps[..|steps| - 1]), steps[|steps| - 1]);
    }
  }

  /** A shutdown is refused while one is under way, before a start or after completion, and if the server socket cannot
      be unregistered; a refusal changes nothing. A success stops edges, and only that, until sessions end. */
  lemma ShutdownAnswers(w: World, delOk: bool)
    ensures var (w', rc) := DoShutdown(w, delOk);
      && (rc == Err(EBUSY) <==> w.lib.shuttingDown)
      && (rc == Err(EINVAL) <==> !w.lib.shuttingDown && w.lib.serverFd == -1)
      && (rc == Err(ESYSCALL) <==> !w.lib.shuttingDown && w.lib.serverFd != -1 && !delOk)
      && (rc == Ok <==> !w.lib.shuttingDown && w.lib.serverFd != -1 && delOk)
      && (rc != Ok ==> w' == w)
      && (rc == Ok ==> !w'.ker.edgeReady && w'.lib.shuttingDown
                       && w' == w.(lib := w.lib.(shuttingDown := true), ker := w.ker.(edgeReady := false)))
  {
  }

  /** A new instance: all sessions free and in generation 0, handed out from the first on; nothing queued, asked for
      or counted; no descriptors. */
  lemma NewInstance(cfg: Config)
    ensures var lib := Init(cfg).lib;
      && |lib.sessions| == |lib.free| == cfg.sessionCount
      && (forall i :: 0 <= i < cfg.sessionCount ==>
            var s := lib.sessions[i];
            s.fd == -1 && s.generation == 0 && !s.reading && !s.writing && !s.closing && !s.rdhup)
      && (forall k :: 0 <= k < cfg.sessionCount ==> lib.free[k] == cfg.sessionCount - 1 - k)
      && Flat(lib.queue) == [] && lib.acceptsLive == 0 && !lib.acceptsRequested && lib.inFlight == 0
      && !lib.shuttingDown && lib.serverFd == -1 && lib.epollFd == -1
  {
    EmptyIsEmpty();
  }

  /* The eventfd */

  lemma OthersKeepEventfd(w: World, step: Step)
    requires Enabled(w, step) && !step.Process? && step != ClearEventfd
    ensures w.ker.eventfd <= Perform(w, step).ker.eventfd
  {
  }

  /** Only the handler lowers the eventfd, by clearing it. */
  lemma EventfdFalls(w: World, step: Step)
    requires Apply(w, step).ker.eventfd < w.ker.eventfd
    ensures step == ClearEventfd && w.ctl.Clearing? && Apply(w, step).ker.eventfd == 0
  {
    if step.Process? {
      ProcessKeepsEventfd(w, step.addOk);
    } else if step != ClearEventfd {
      OthersKeepEventfd(w, step);
    }
  }

  /** It gets there only if no iteration of the loop was completed. */
  lemma ClearingBegins(w: World, step: Step)
    requires !w.ctl.Clearing? && Apply(w, step).ctl.Clearing?
    ensures w.ctl.Looping? && w.ctl.rounds == 0
  {
  }

  lemma ClearAndCheck(w: World)
    requires w.ctl.Clearing?
    ensures var w' := Apply(Apply(w, ClearEventfd), CheckReady);
      && (w.ker.cq == [] ==> w' == w.(ctl := Outside, ker := w.ker.(eventfd := 0)))
      && (w.ker.cq != [] ==> w' == w.(ctl := Arming(w.ctl.count), ker := w.ker.(eventfd := 0)))
  {
  }

  lemma LeaveIdle(w: World, cap: nat)
    requires w.ctl.Outside? && w.ker.cq == []
    ensures Apply(Apply(w, Enter(cap)), Leave) == w.(ctl := Clearing(0))
  {
  }

  /** A call that finds the CQ empty, with nothing going on meanwhile, leaves the eventfd at zero,
      so epoll does not report it again until a completion is posted. */
  lemma IdleCallSilencesTheEventfd(w: World, cap: nat)
    requires w.ctl.Outside? && w.ker.cq == []
    ensures var w' := Run(w, [Enter(cap), Leave, ClearEventfd, CheckReady]);
      w'.ctl.Outside? && w'.ker.eventfd == 0 && w' == w.(ker := w.ker.(eventfd := 0))
  {
    var one, two, three := [Enter(cap)], [Enter(cap), Leave], [Enter(cap), Leave, ClearEventfd];
    RunOne(w, Enter(cap));
    RunOneMore(w, one, Leave);
    RunOneMore(w, two, ClearEventfd);
    RunOneMore(w, three, CheckReady);
    assert one + [Leave] == two && two + [ClearEventfd] == three;
    assert three + [CheckReady] == [Enter(cap), Leave, ClearEventfd, CheckReady];
    LeaveIdle(w, cap);
    ClearAndCheck(w.(ctl := Clearing(0)));
  }

  /** If a completion shows up in between, the eventfd is armed again, once. */
  lemma RearmAnswers(w: World)
    requires w.ctl.Arming?
    ensures Apply(w, Rearm) == w.(ctl := Outside, ker := w.ker.(eventfd := w.ker.eventfd + 1))
  {
  }
}
