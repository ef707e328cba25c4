/** struct mcon and its methods. Each method is proved against the step of the system it performs. */
module MconClass {
  import opened Types
  import opened Pipeline
  import opened World
  import opened Invariant
  import opened ReadinessSteps
  import opened Containers
  import opened Tokens
  import opened HandlerRuns

  class Mcon {
    const cfg: Config
    const instance: bv16
    const sessions: array<Session>
    const free: IdxStack
    const queue: IoQueue
    const os: Os
    var acceptsLive: Uint16
    var acceptsRequested: bool
    var inFlight: Uint16
    var shuttingDown: bool
    var serverFd: int
    var epollFd: int

    // where control is, and what an observer has seen
    ghost var ctl: Control
    ghost var started: bool
    ghost var log: seq<Obs>
    ghost var registered: set<Registration>
    ghost var addFailures: nat

    ghost predicate Valid()
      reads this, sessions, free, queue, os
    {
      && cfg.Valid() && os.cfg == cfg
      && sessions.Length == free.capacity == cfg.sessionCount
      && queue.capacity == cfg.ioQueueSize
      && |os.ker.sq| <= cfg.sqEntries
      && |free.items| <= free.capacity
    }

    function State(): Lib
      reads this, sessions, free, queue
    {
      Lib(sessions[..], free.items, queue.groups, acceptsLive, acceptsRequested, inFlight,
          shuttingDown, serverFd, epollFd)
    }

    /** The state of the system this object is part of. */
    ghost function View(): World
      reads this, sessions, free, queue, os
    {
      World(cfg, State(), os.ker, ctl, started, log, registered, addFailures)
    }

    /** The last part of mcon_create, with the instance id it draws. */
    constructor (cfg: Config, instance: bv16)
      requires cfg.Valid()
      ensures Valid() && View() == Init(cfg) && this.instance == instance
      ensures fresh(sessions) && fresh(free) && fresh(queue) && fresh(os)
    {
      var slots := new Session[cfg.sessionCount](_ => FRESH_SESSION);
      var stack := new IdxStack(cfg.sessionCount);
      var i := 0;
      while i < cfg.sessionCount
        invariant 0 <= i <= cfg.sessionCount
        invariant forall k :: 0 <= k < i ==> slots[k] == FRESH_SESSION
        invariant stack.items == []
      {
        slots[i] := FRESH_SESSION;
        i := i + 1;
      }
      i := 0;
      while i < cfg.sessionCount
        invariant 0 <= i <= cfg.sessionCount
        invariant |stack.items| == i && forall k :: 0 <= k < i ==> stack.items[k] == cfg.sessionCount - 1 - k
        invariant forall k :: 0 <= k < slots.Length ==> slots[k] == FRESH_SESSION
      {
        var failed := stack.Push(cfg.sessionCount - 1 - i);
        i := i + 1;
      }
      assert slots[..] == FreshSessions(cfg.sessionCount);
      this.cfg, this.instance := cfg, instance;
      sessions := slots;
      free := stack;
      queue := new IoQueue(cfg.ioQueueSize);
      os := new Os(cfg);
      acceptsLive, acceptsRequested, inFlight := 0, false, 0;
      shuttingDown, serverFd, epollFd := false, -1, -1;
      ctl, started, log, registered, addFailures := Outside, false, [], {}, 0;
    }

    /* session.c */

    /** mcon_session_is_active. An index out of range reads as active: -1, as a bool. */
    method IsActive(session: nat) returns (active: bool)
      requires Valid()
      ensures active <==> session >= sessions.Length || sessions[session].fd != -1
    {
      if session >= cfg.sessionCount { return true; }
      active := sessions[session].fd != -1;
    }

    /** VALIDATE_ARGS, with the incompatible states as a mask. */
    method ValidateArgs(session: nat, reading: bool, writing: bool, closing: bool) returns (rc: Rc)
      requires Valid()
      ensures rc == if session >= sessions.Length then Err(EINVAL)
                    else if sessions[session].fd == -1
                      || (reading && sessions[session].reading) || (writing && sessions[session].writing)
                      || (closing && sessions[session].closing) then Err(EBUSY)
                    else Ok
    {
      if session >= cfg.sessionCount { return Err(EINVAL); }
      var active := IsActive(session);
      var s := sessions[session];
      if !active || (reading && s.reading) || (writing && s.writing) || (closing && s.closing) {
        return Err(EBUSY);
      }
      return Ok;
    }

    method Read(session: nat) returns (rc: Rc)
      requires Valid()
      modifies this, sessions, queue
      ensures Valid() && (View(), rc) == DoSessionIo(old(View()), session, Kind.Read)
    {
      rc := ValidateArgs(session, true, false, true);
      if rc != Ok { return; }
      var s := sessions[session];
      var failed := queue.Push(Op(Kind.Read, s.fd, session, s.epoch, s.conn));
      if failed { return Err(EQUEUE); }
      sessions[session] := s.(reading := true);
      log := log + [Took(session, Kind.Read)];
    }

    method Write(session: nat) returns (rc: Rc)
      requires Valid()
      modifies this, sessions, queue
      ensures Valid() && (View(), rc) == DoSessionIo(old(View()), session, Kind.Write)
    {
      rc := ValidateArgs(session, false, true, true);
      if rc != Ok { return; }
      var s := sessions[session];
      var failed := queue.Push(Op(Kind.Write, s.fd, session, s.epoch, s.conn));
      if failed { return Err(EQUEUE); }
      sessions[session] := s.(writing := true);
      log := log + [Took(session, Kind.Write)];
    }

    method Drain(session: nat) returns (rc: Rc)
      requires Valid()
      modifies this, sessions, queue
      ensures Valid() && (View(), rc) == DoSessionIo(old(View()), session, Kind.Drain)
    {
      rc := ValidateArgs(session, true, false, true);
      if rc != Ok { return; }
      var s := sessions[session];
      var failed := queue.Push(Op(Kind.Drain, s.fd, session, s.epoch, s.conn));
      if failed { return Err(EQUEUE); }
      sessions[session] := s.(reading := true);
      log := log + [Took(session, Kind.Drain)];
    }

    method Close(session: nat) returns (rc: Rc)
      requires Valid()
      modifies this, sessions, queue
      ensures Valid() && (View(), rc) == DoSessionIo(old(View()), session, Kind.Close)
    {
      rc := ValidateArgs(session, true, true, true);
      if rc != Ok { return; }
      var s := sessions[session];
      var failed := queue.Push(Op(Kind.Close, s.fd, session, s.epoch, s.conn));
      if failed { return Err(EQUEUE); }
      sessions[session] := s.(closing := true);
      log := log + [Took(session, Kind.Close)];
    }

    /** mcon_session_get_socket. */
    method GetSocket(session: nat) returns (rc: Rc, fd: int)
      requires Valid()
      ensures (rc, fd) == DoGetSocket(State(), session)
    {
      rc := ValidateArgs(session, false, false, false);
      fd := if rc == Ok then sessions[session].fd else -1;
    }

    /** mcon_active_session_count. */
    method ActiveSessionCount() returns (n: int)
      requires Valid()
      ensures n == ActiveCount(State())
    {
      n := cfg.sessionCount - |free.items|;
    }

    /** mcon_complete_shutdown, where its callers find it due. */
    method CompleteShutdown()
      requires Valid()
      modifies this
      ensures Valid() && View() == old(View()).(lib := Settle(old(State())))
    {
      var n := ActiveSessionCount();
      if shuttingDown && n == 0 {
        epollFd, serverFd, shuttingDown := -1, -1, false;
      }
    }

    /** session_reset_after_close. The generation is an 8-bit counter. */
    method ResetAfterClose(session: nat)
      requires Valid() && session < sessions.Length
      modifies sessions
      ensures Valid() && sessions[..] == old(sessions[..])[session := NextIncarnation(old(sessions[session]))]
    {
      var s := sessions[session].(fd := -1);
      var rollover := if s.generation == 0xff then 1 else 0;
      s := s.(generation := s.generation + (1 - rollover));
      s := s.(generation := s.generation * (1 - rollover));
      sessions[session] := s.(epoch := s.epoch + 1);
    }

    /** mcon_session_detach; `del` is what EPOLL_CTL_DEL answers. */
    method Detach(session: nat, del: DelResult) returns (rc: Rc)
      requires Valid()
      modifies this, sessions, free, os
      ensures Valid() && (View(), rc) == DoDetach(old(View()), session, del)
    {
      rc := ValidateArgs(session, true, true, true);
      if rc != Ok { return; }
      var failed := free.Push(session);
      if failed { return Err(ESYSCALL); }
      if del != DelOk {
        if del != DelNoEntry {
          var none, tmp := free.Pop();
          assert free.items == old(free.items);
        }
        return Err(ESYSCALL);
      }
      os.ker := os.ker.(table := Disown(os.ker.table, sessions[session].conn, Foreign));
      ResetAfterClose(session);
      CompleteShutdown();
    }

    /* mcon.c */

    /** enqueue_accept. */
    method EnqueueAccept() returns (rc: Rc)
      requires Valid()
      modifies queue
      ensures Valid()
      ensures rc == if |free.items| <= acceptsLive then Err(ENOBUFS)
                    else if Size(old(queue.groups)) >= queue.capacity then Err(EQUEUE) else Ok
      ensures queue.groups == if rc == Ok then Enqueue(old(queue.groups), AcceptOp(serverFd)) else old(queue.groups)
    {
      if |free.items| <= acceptsLive { return Err(ENOBUFS); }
      var failed := queue.Push(AcceptOp(serverFd));
      rc := if failed then Err(EQUEUE) else Ok;
    }

    /** The first half of mcon_submit. */
    method EnqueueAccepts()
      requires Valid()
      modifies `acceptsLive, `acceptsRequested, queue
      ensures Valid() && State() == WithAccepts(old(State()), AcceptQuota(cfg, old(State())))
    {
      ghost var lib0, n := State(), 0;
      if acceptsRequested {
        var stop := false;
        while acceptsLive < cfg.maxAccepts && !stop
          invariant Valid() && n >= 0
          invariant acceptsLive == lib0.acceptsLive + n && acceptsRequested == (n == 0)
          invariant queue.groups == WithAccepts(lib0, n).queue && Size(queue.groups) == Size(lib0.queue) + n
          invariant n > 0 ==> WithinLimits(cfg, lib0, n)
          invariant stop ==> !WithinLimits(cfg, lib0, n + 1)
          decreases cfg.maxAccepts - acceptsLive, if stop then 0 else 1
        {
          var rc := EnqueueAccept();
          if rc != Ok {
            stop := true;
          } else {
            OneAcceptMore(lib0, n);
            acceptsLive := Wrap16(acceptsLive + 1);
            acceptsRequested := false;
            n := n + 1;
          }
        }
        QuotaIs(cfg, lib0, n);
      }
      WithAcceptsIs(lib0, n, State());
    }

    /** mcon_submit; `ret` is what io_uring_submit answers, should it be called. */
    method Submit(ret: int) returns (result: int)
      requires Valid() && ret <= |Staged(View()).ker.sq|
      modifies this, queue, os
      ensures Valid() && View() == DoSubmit(old(View()), ret)
      ensures result == if MovedBySubmit(old(View())) == 0 then 0 else if ret < 0 then -1 else ret
    {
      EnqueueAccepts();
      var sqeLimit := Wrap32(cfg.ringSize - inFlight);
      var sqesPopped := queue.PopIntoRing(os, sqeLimit);
      result := HandOver(sqesPopped, ret);
    }

    /** The last part of mcon_submit. */
    method HandOver(sqesPopped: nat, ret: int) returns (result: int)
      requires Valid() && ret <= |os.ker.sq|
      modifies `inFlight, os
      ensures Valid() && View() == if sqesPopped == 0 then old(View()) else Handover(old(View()), ret)
      ensures result == if sqesPopped == 0 then 0 else if ret < 0 then -1 else ret
    {
      var sqesSubmitted := 0;
      if sqesPopped != 0 { sqesSubmitted := SystemSubmit(ret); }
      if sqesSubmitted < 0 { return -1; }
      inFlight := Wrap16(inFlight + sqesSubmitted);
      return sqesSubmitted;
    }

    /** io_uring_submit. */
    method SystemSubmit(ret: int) returns (submitted: int)
      requires Valid() && ret <= |os.ker.sq|
      modifies os
      ensures submitted == ret
      ensures os.ker == if ret < 0 then old(os.ker)
                        else old(os.ker).(sq := old(os.ker).sq[ret..],
                                          pending := old(os.ker).pending + old(os.ker).sq[..ret])
    {
      if ret >= 0 {
        os.ker := os.ker.(sq := os.ker.sq[ret..], pending := os.ker.pending + os.ker.sq[..ret]);
      }
      submitted := ret;
    }

    /** mcon_start; the arguments say whether the socket is usable, and whether registering it
        and registering the eventfd succeed. */
    method Start(usable: bool, addSocket: bool, addEventfd: bool) returns (rc: Rc)
      requires Valid() && !os.ker.edgeReady
      modifies this, os
      ensures Valid() && View() == DoStart(old(View()), usable && addSocket && addEventfd)
      ensures rc == if !usable then Err(EINVAL) else if addSocket && addEventfd then Ok else Err(ESYSCALL)
    {
      if !usable { return Err(EINVAL); }
      if !addSocket { return Err(ESYSCALL); }
      os.ker := os.ker.(edgeReady := os.ker.backlog > 0);
      if !addEventfd {
        os.ker := os.ker.(edgeReady := false);
        return Err(ESYSCALL);
      }
      serverFd, epollFd, started := cfg.listenFd, cfg.pollFd, true;
      return Ok;
    }

    /** mcon_shutdown; `delOk` is whether EPOLL_CTL_DEL succeeds. */
    method Shutdown(delOk: bool) returns (rc: Rc)
      requires Valid()
      modifies this, os
      ensures Valid() && (View(), rc) == DoShutdown(old(View()), delOk)
    {
      if shuttingDown { return Err(EBUSY); }
      if serverFd == -1 { return Err(EINVAL); }
      if !delOk { return Err(ESYSCALL); }
      os.ker := os.ker.(edgeReady := false);
      shuttingDown := true;
      return Ok;
    }

    /* event_processing.c, event_processing_session.c */

    /** mcon_process_server_socket_event. */
    method ServerSocketEvent(readable: bool)
      requires Valid()
      modifies this, os
      ensures Valid() && View() == DoServerEvent(old(View()), readable)
    {
      if readable {
        acceptsRequested := true;
        os.ker := os.ker.(edgesHeld := Clip(os.ker.edgesHeld - 1));
      }
    }

    /** The part of mcon_process_session_event that stores events and sets the hangup bit. */
    method StoreReadiness(session: nat, ready: Readiness, events: array<Event>, sockErr: int) returns (produced: nat)
      requires Valid() && session < sessions.Length && Bits(ready) <= events.Length
      modifies sessions, events
      ensures Valid()
      ensures produced <= Bits(ready)
      ensures events[..produced] == ReadinessEvents(old(sessions[session]), session, ready, sockErr)
      ensures Reports(events[..produced], session, ready, old(sessions[session]).rdhup, sockErr)
      ensures var s := old(sessions[session]);
        sessions[..] == old(sessions[..])[session := s.(rdhup := s.rdhup || ready.rdhup)]
    {
      var s := sessions[session];
      produced := 0;
      if ready.rin {
        events[produced] := Event(0, session, ReadReady);
        produced := produced + 1;
      }
      if ready.hup {
        events[produced] := Event(0, session, ReadShutdown);
        produced := produced + 1;
      }
      if ready.rdhup {
        if !s.rdhup {
          events[produced] := Event(0, session, RemoteHangup);
          produced := produced + 1;
        }
        sessions[session] := s.(rdhup := true);
      }
      if ready.err {
        events[produced] := Event(sockErr, session, ClientError);
        produced := produced + 1;
      }
      ReadinessReports(s, session, ready, sockErr);
    }

    /** mcon_process_session_event; `sockOk` and `sockErr` are what getsockopt answers. */
    method SessionEvent(session: nat, generation: int, ready: Readiness, events: array<Event>, maxEvents: nat,
                        sockOk: bool, sockErr: int) returns (result: int, ghost reply: Reply)
      requires Valid() && maxEvents <= events.Length
      modifies this, sessions, events
      ensures Valid()
      ensures (View(), reply) == DoSessionEvent(old(View()), session, generation, ready, maxEvents, sockOk, sockErr)
      ensures result == if reply.Events? then |reply.events| else -1
      ensures reply.Events? ==> |reply.events| <= maxEvents && events[..|reply.events|] == reply.events
      ensures !ready.other && session < sessions.Length && Bits(ready) <= maxEvents && (ready.err ==> sockOk)
              && generation == old(sessions[..])[session].generation ==>
        result >= 0 && Reports(events[..result], session, ready, old(sessions[..])[session].rdhup, sockErr)
    {
      if ready.other || session >= cfg.sessionCount { return -1, Failed(EINVAL); }
      if maxEvents < Bits(ready) { return -1, Failed(ENOBUFS); }
      if generation != sessions[session].generation { return 0, Events([]); }
      var produced := StoreReadiness(session, ready, events, sockErr);
      log := log + Tell(events[..produced]);
      if ready.err && !sockOk { return -1, Failed(ESYSCALL); }
      return produced, Events(events[..produced]);
    }

    /* event_processing_io_uring.c: one completion. That there is room for an event,
       which each of these tests in C, is the guard of the loop that calls them. */

    /** What the completion at the head of the CQ needs of the object: its slot exists,
        and so does the slot on top of the free stack. */
    ghost predicate AtKnownCqe()
      reads this, sessions, free, queue, os
    {
      && AtCqe(View())
      && (os.ker.cq[0].op.kind != Kind.Accept ==> 0 <= os.ker.cq[0].op.session < sessions.Length)
      && (free.items != [] ==> 0 <= free.items[|free.items| - 1] < sessions.Length)
    }

    /** io_uring_cqe_seen. */
    method CqeSeen()
      requires os.ker.cq != []
      modifies os
      ensures os.ker == Consume(old(os.ker))
    {
      os.ker := Consume(os.ker);
    }

    /** The middle of _process_accept: a free session is popped, the new socket is registered
        with epoll, and the session is prepared; or the session and the socket are given up again. */
    method AdmitClient(fd: int, conn: int, addOk: bool) returns (failed: bool, session: int)
      requires Valid() && (free.items != [] ==> 0 <= free.items[|free.items| - 1] < sessions.Length)
      modifies `registered, `addFailures, sessions, free, os
      ensures Valid()
      ensures failed <==> old(free.items) == [] || !addOk
      ensures failed ==> sessions[..] == old(sessions[..]) && free.items == old(free.items)
      ensures failed ==> registered == old(registered)
      ensures failed ==> addFailures == old(addFailures) + Bit(old(free.items) != [])
      ensures failed ==> os.ker == if old(free.items) == [] then old(os.ker) else
        old(os.ker).(table := CloseFd(old(os.ker).table, fd).(owner := old(os.ker).table.owner[conn := Gone]))
      ensures !failed ==> session == old(free.items)[old(|free.items|) - 1]
                          && free.items == old(free.items)[..old(|free.items|) - 1] && addFailures == old(addFailures)
      ensures !failed ==>
        var s, t := NewClient(old(sessions[..])[session], fd, conn), old(os.ker).table;
        var reg := Registration(session, s.generation, s.epoch, conn);
        && sessions[..] == old(sessions[..])[session := s]
        && registered == old(registered) + {reg}
        && os.ker == old(os.ker).(table := t.(interest := t.interest[conn := reg],
                                             owner := t.owner[conn := Slot(session)]))
    {
      failed, session := free.Pop();
      if failed { return; }
      var t := os.ker.table;
      if !addOk {
        failed := free.Push(session);
        assert free.items == old(free.items);
        os.ker := os.ker.(table := CloseFd(t, fd).(owner := t.owner[conn := Gone]));
        addFailures := addFailures + 1;
        return true, session;
      }
      var s := NewClient(sessions[session], fd, conn);
      var reg := Registration(session, s.generation, s.epoch, conn);
      os.ker := os.ker.(table := t.(interest := t.interest[conn := reg], owner := t.owner[conn := Slot(session)]));
      sessions[session] := s;
      registered := registered + {reg};
    }

    /** _process_accept, from the point where there is a new connection. */
    method ProcessClient(fd: int, conn: int, addOk: bool, events: array<Event>, at: nat, ghost w: World)
      returns (err: int)
      requires Valid() && (free.items != [] ==> 0 <= free.items[|free.items| - 1] < sessions.Length)
      requires AtCqe(w) && w.ker.cq[0].res == fd >= 0 && w.ker.cq[0].conn == conn && at < events.Length
      requires View() == w.(lib := w.lib.(acceptsLive := Wrap16(w.lib.acceptsLive - 1), acceptsRequested := true),
                            ker := Consume(w.ker))
      modifies this, sessions, free, os, events
      ensures Valid() && View() == ProcessAccept(w, addOk)
      ensures Returned(w, View(), err)
      ensures err == 1 ==> Stored(w.log, log, events[at])
      ensures err in {-1, 1} && (err == -1 <==> old(free.items) == [] || !addOk) && acceptsRequested
      ensures err == 1 ==> events[at] == Event(fd, old(free.items)[|old(free.items)| - 1], NewConnection)
      ensures forall k :: 0 <= k < events.Length && k != at ==> events[k] == old(events[k])
    {
      var failed, newSession := AdmitClient(fd, conn, addOk);
      if failed {
        ctl := AfterLoop(w.ctl);
        return -1;
      }
      events[at] := Event(fd, newSession, NewConnection);
      log := log + [Told(events[at], Opened(sessions[newSession]))];
      ctl := Produced(w, 1);
      return 1;
    }

    /** _process_accept; `addOk` is whether EPOLL_CTL_ADD would succeed on an open epoll descriptor. */
    method ProcessAcceptCqe(addOk: bool, events: array<Event>, at: nat) returns (err: int)
      requires Valid() && AtKnownCqe() && os.ker.cq[0].op.kind == Kind.Accept && at < events.Length
      modifies this, sessions, free, os, events
      ensures Valid() && View() == ProcessAccept(old(View()), addOk)
      ensures Returned(old(View()), View(), err)
      ensures err == 1 ==> Stored(old(log), log, events[at])
      ensures err == 0 <==> old(os.ker).cq[0].res == -11
      ensures err == -1 <==> old(os.ker).cq[0].res >= 0 && (old(free.items) == [] || !addOk)
      ensures acceptsRequested <==> old(acceptsRequested) || old(os.ker).cq[0].res != -11
      ensures err == 1 ==> events[at].result == old(os.ker).cq[0].res && events[at].etype == NewConnection
      ensures err == 1 && old(os.ker).cq[0].res < 0 ==> events[at].session == 0xF_FFFF
      ensures err == 1 && old(os.ker).cq[0].res >= 0 ==> events[at].session == old(free.items)[|old(free.items)| - 1]
      ensures forall k :: 0 <= k < events.Length && k != at ==> events[k] == old(events[k])
    {
      var cqe := os.ker.cq[0];
      ghost var w := View();
      CqeSeen();
      acceptsLive := Wrap16(acceptsLive - 1);
      if cqe.res == -EAGAIN {
        FindNobody(w);
        return 0;
      }
      acceptsRequested := true;
      if cqe.res >= 0 {
        err := ProcessClient(cqe.res, cqe.conn, addOk, events, at, w);
      } else {
        RefuseClient(cqe.res, events, at, w);
        err := 1;
      }
    }

    /** _process_accept, when nobody was waiting. */
    method FindNobody(ghost w: World)
      requires Valid() && AtCqe(w) && w.ker.cq[0].res == -11
      requires View() == w.(lib := w.lib.(acceptsLive := Wrap16(w.lib.acceptsLive - 1)), ker := Consume(w.ker))
      modifies `ctl
      ensures Valid() && View() == ProcessAccept(w, true) == ProcessAccept(w, false)
      ensures Returned(w, View(), 0)
    {
      ctl := Produced(w, 0);
    }

    /** _process_accept, when the operation failed. */
    method RefuseClient(res: int, events: array<Event>, at: nat, ghost w: World)
      requires Valid() && AtCqe(w) && w.ker.cq[0].res == res < 0 && res != -EAGAIN && at < events.Length
      requires View() == w.(lib := w.lib.(acceptsLive := Wrap16(w.lib.acceptsLive - 1), acceptsRequested := true),
                            ker := Consume(w.ker))
      modifies this, events
      ensures Valid() && View() == ProcessAccept(w, true) == ProcessAccept(w, false)
      ensures Returned(w, View(), 1) && Stored(w.log, log, events[at])
      ensures events[at] == Event(res, 0xF_FFFF, NewConnection) && acceptsRequested == old(acceptsRequested)
      ensures forall k :: 0 <= k < events.Length && k != at ==> events[k] == old(events[k])
    {
      events[at] := Event(res, NO_SESSION, NewConnection);
      log := log + [Told(events[at], Plain)];
      ctl := Produced(w, 1);
    }

    /** _process_read. */
    method ProcessReadCqe(events: array<Event>, at: nat) returns (err: int)
      requires Valid() && AtKnownCqe() && os.ker.cq[0].op.kind == Kind.Read && at < events.Length
      modifies this, sessions, os, events
      ensures Valid() && View() == ProcessIo(old(View()))
      ensures Returned(old(View()), View(), err)
      ensures err == 1 ==> Stored(old(log), log, events[at])
      ensures events[at] == Event(old(os.ker).cq[0].res, old(os.ker).cq[0].op.session, ReadComplete)
      ensures forall k :: 0 <= k < events.Length && k != at ==> events[k] == old(events[k])
    {
      var cqe := os.ker.cq[0];
      var session := cqe.op.session;
      ghost var s := sessions[session];
      ctl := Produced(View(), 1);
      events[at] := Event(cqe.res, session, ReadComplete);
      CqeSeen();
      sessions[session] := sessions[session].(reading := false);
      log := log + [Told(events[at], Finished(cqe.op, s))];
      return 1;
    }

    /** _process_write. */
    method ProcessWriteCqe(events: array<Event>, at: nat) returns (err: int)
      requires Valid() && AtKnownCqe() && os.ker.cq[0].op.kind == Kind.Write && at < events.Length
      modifies this, sessions, os, events
      ensures Valid() && View() == ProcessIo(old(View()))
      ensures Returned(old(View()), View(), err)
      ensures err == 1 ==> Stored(old(log), log, events[at])
      ensures events[at] == Event(old(os.ker).cq[0].res, old(os.ker).cq[0].op.session, WriteComplete)
      ensures forall k :: 0 <= k < events.Length && k != at ==> events[k] == old(events[k])
    {
      var cqe := os.ker.cq[0];
      var session := cqe.op.session;
      ghost var s := sessions[session];
      ctl := Produced(View(), 1);
      events[at] := Event(cqe.res, session, WriteComplete);
      CqeSeen();
      sessions[session] := sessions[session].(writing := false);
      log := log + [Told(events[at], Finished(cqe.op, s))];
      return 1;
    }

    /** _process_drain. */
    method ProcessDrainCqe(events: array<Event>, at: nat) returns (err: int)
      requires Valid() && AtKnownCqe() && os.ker.cq[0].op.kind == Kind.Drain && at < events.Length
      modifies this, sessions, os, events
      ensures Valid() && View() == ProcessIo(old(View()))
      ensures Returned(old(View()), View(), err)
      ensures err == 1 ==> Stored(old(log), log, events[at])
      ensures events[at] == Event(old(os.ker).cq[0].res, old(os.ker).cq[0].op.session, DrainComplete)
      ensures forall k :: 0 <= k < events.Length && k != at ==> events[k] == old(events[k])
    {
      var cqe := os.ker.cq[0];
      var session := cqe.op.session;
      ghost var s := sessions[session];
      ctl := Produced(View(), 1);
      events[at] := Event(cqe.res, session, DrainComplete);
      CqeSeen();
      sessions[session] := sessions[session].(reading := false);
      log := log + [Told(events[at], Finished(cqe.op, s))];
      return 1;
    }

    /** The slot goes back to the free stack and starts its next incarnation. */
    method Retire(session: nat) returns (failed: bool)
      requires Valid() && session < sessions.Length
      modifies sessions, free
      ensures Valid()
      ensures failed <==> old(|free.items|) >= sessions.Length
      ensures failed ==> sessions[..] == old(sessions[..]) && free.items == old(free.items)
      ensures !failed ==> free.items == old(free.items) + [session]
      ensures !failed ==> sessions[..] == old(sessions[..])[session := NextIncarnation(old(sessions[session]))]
    {
      failed := free.Push(session);
      if !failed { ResetAfterClose(session); }
    }

    /** _process_close, once its slot is back on the free stack. */
    method FinishClose(cqe: Cqe, ghost w: World)
      requires Valid() && AtCqe(w) && cqe == w.ker.cq[0] && cqe.op.kind == Kind.Close
      requires 0 <= cqe.op.session < |w.lib.sessions| == sessions.Length && |w.lib.free| < |w.lib.sessions|
      requires var i := cqe.op.session;
        View() == w.(lib := w.lib.(free := w.lib.free + [i],
                                   sessions := w.lib.sessions[i := NextIncarnation(w.lib.sessions[i])]))
      modifies this, sessions, os
      ensures Valid() && View() == ProcessClose(w)
    {
      var session := cqe.op.session;
      ghost var s := w.lib.sessions[session];
      CqeSeen();
      os.ker := os.ker.(table := os.ker.table.(owner := os.ker.table.owner[sessions[session].conn := Gone]));
      sessions[session] := sessions[session].(closing := false);
      ctl := Produced(w, 1);
      log := log + [Told(Event(cqe.res, session, CloseComplete), Finished(cqe.op, s))];
      CompleteShutdown();
    }

    /** _process_close. */
    method ProcessCloseCqe(events: array<Event>, at: nat) returns (err: int)
      requires Valid() && AtKnownCqe() && os.ker.cq[0].op.kind == Kind.Close && at < events.Length
      modifies this, sessions, free, os, events
      ensures Valid() && View() == ProcessClose(old(View()))
      ensures Returned(old(View()), View(), err)
      ensures err == 1 ==> Stored(old(log), log, events[at])
      ensures err == 1 ==> events[at] == Event(old(os.ker).cq[0].res, old(os.ker).cq[0].op.session, CloseComplete)
      ensures forall k :: 0 <= k < events.Length && k != at ==> events[k] == old(events[k])
    {
      var cqe := os.ker.cq[0];
      ghost var w := View();
      events[at] := Event(cqe.res, cqe.op.session, CloseComplete);
      var failed := Retire(cqe.op.session);
      if failed {
        ctl := AfterLoop(w.ctl);
        return -1;
      }
      FinishClose(cqe, w);
      return 1;
    }

    /** The switch of mcon_process_io_uring_event. */
    method ProcessCqe(addOk: bool, events: array<Event>, at: nat) returns (err: int)
      requires Valid() && AtKnownCqe() && at < events.Length
      modifies this, sessions, free, os, events
      ensures Valid() && View() == DoProcess(old(View()), addOk)
      ensures Returned(old(View()), View(), err)
      ensures err == 1 ==> Stored(old(log), log, events[at])
      ensures forall k :: 0 <= k < events.Length && k != at ==> events[k] == old(events[k])
    {
      match os.ker.cq[0].op.kind {
        case Accept => err := ProcessAcceptCqe(addOk && epollFd != -1, events, at);
        case Close => err := ProcessCloseCqe(events, at);
        case Read => err := ProcessReadCqe(events, at);
        case Write => err := ProcessWriteCqe(events, at);
        case Drain => err := ProcessDrainCqe(events, at);
      }
    }

    /* event_processing_io_uring.c: the loop, with the kernel at work between its steps */

    /** What the kernel and the clients do while mcon is between two of its own steps. */
    method Meanwhile(steps: seq<Step>)
      requires Valid() && forall step :: step in steps ==> IsEnvironment(step)
      modifies os
      ensures Valid() && Leads(old(View()), steps, View()) && Submitted(os.ker) == Submitted(old(os.ker))
      ensures old(os.ker).eventfd <= os.ker.eventfd && (steps == [] ==> os.ker == old(os.ker))
    {
      LeadsNowhere(View());
      var k := 0;
      while k < |steps|
        invariant 0 <= k <= |steps| && Valid()
        invariant Leads(old(View()), steps[..k], View())
        invariant Submitted(os.ker) == Submitted(old(os.ker))
        invariant old(os.ker).eventfd <= os.ker.eventfd && (k == 0 ==> os.ker == old(os.ker))
      {
        EnvironmentStepIs(View(), steps[k]);
        LeadsBy(old(View()), steps[..k], View(), steps[k]);
        assert steps[..k] + [steps[k]] == steps[..k + 1];
        os.ker := EnvironmentStep(cfg, State(), os.ker, steps[k]);
        k := k + 1;
      }
      assert steps[..|steps|] == steps;
    }

    /** The next peek, and the accounting: the CQE has been consumed if the ring has another head now. */
    method AccountCqe(slot: nat)
      requires Valid() && ctl.Counting? && ctl.slot == slot
      modifies this
      ensures Valid() && View() == DoAccount(old(View()))
    {
      var next := if os.ker.cq == [] then None else Some(Address(os.ker.seen, cfg.CqEntries()));
      ctl := Looping(ctl.cap, ctl.count + ctl.produced, ctl.rounds + 1);
      inFlight := Wrap16(inFlight - Bit(Some(slot) != next));
    }

    /** The rest of an iteration, once a CQE has been processed. */
    method FinishRound(slot: nat, between: seq<Step>) returns (ghost trace: seq<Step>)
      requires Valid() && ctl.Counting? && ctl.slot == slot
      requires forall step :: step in between ==> IsEnvironment(step)
      modifies this, os
      ensures Valid() && Leads(old(View()), trace, View())
      ensures ctl == Looping(old(ctl).cap, old(ctl).count + old(ctl).produced, old(ctl).rounds + 1)
      ensures Submitted(os.ker) == Submitted(old(os.ker)) && log == old(log)
      ensures old(os.ker).eventfd <= os.ker.eventfd
    {
      Meanwhile(between);
      LeadsBy(old(View()), between, View(), Account);
      AccountCqe(slot);
      trace := between + [Account];
    }

    /** One iteration of the loop, from a CQE found by its guard to the next evaluation of the guard. */
    method OneRound(turn: Turn, events: array<Event>, count: nat) returns (err: int, ghost trace: seq<Step>)
      requires Valid() && AtKnownCqe() && ctl.count == count < events.Length && turn.Environmental()
      modifies this, sessions, free, os, events
      ensures Valid() && Leads(old(View()), trace, View())
      ensures err in {-1, 0, 1}
      ensures ctl == if err == -1 then AfterLoop(old(ctl))
                     else Looping(old(ctl).cap, count + err, old(ctl).rounds + 1)
      ensures old(os.ker).eventfd <= os.ker.eventfd
      ensures err >= 0 ==> Submitted(os.ker) < Submitted(old(os.ker))
      ensures if err == 1 then Stored(old(log), log, events[count]) else log == old(log)
      ensures forall k :: 0 <= k < events.Length && k != count ==> events[k] == old(events[k])
    {
      var slot := Address(os.ker.seen, cfg.CqEntries());
      LeadsNowhere(View());
      LeadsBy(View(), [], View(), Process(turn.addOk));
      ProcessKeepsEventfd(View(), turn.addOk);
      err := ProcessCqe(turn.addOk, events, count);
      trace := [] + [Process(turn.addOk)];
      if err >= 0 {
        ghost var w1 := View();
        ghost var rest := FinishRound(slot, turn.between);
        LeadsOn(old(View()), trace, w1, rest, View());
        ghost var w2 := View();
        Meanwhile(turn.after);
        LeadsOn(old(View()), trace + rest, w2, turn.after, View());
        trace := trace + rest + turn.after;
      }
    }

    /** The same, as the next part of the run that led here from `w0`. */
    method NextRound(turn: Turn, events: array<Event>, count: nat, ghost w0: World, ghost past: seq<Step>)
      returns (err: int, ghost trace: seq<Step>)
      requires Valid() && SlotsStayKnown(w0) && Leads(w0, past, View()) && turn.Environmental()
      requires AtCqe(View()) && ctl.count == count < events.Length && Reported(w0.log, log, events[..count])
      modifies this, sessions, free, os, events
      ensures Valid() && Leads(w0, trace, View())
      ensures err in {-1, 0, 1}
      ensures ctl == if err == -1 then AfterLoop(old(ctl))
                     else Looping(old(ctl).cap, count + err, old(ctl).rounds + 1)
      ensures old(os.ker).eventfd <= os.ker.eventfd
      ensures err >= 0 ==> Submitted(os.ker) < Submitted(old(os.ker))
      ensures Reported(w0.log, log, events[..count + Clip(err)])
    {
      assert SlotsKnown(View());
      ghost var more;
      err, more := OneRound(turn, events, count);
      LeadsOn(w0, past, old(View()), more, View());
      trace := past + more;
      assert events[..count + Clip(err)][..count] == old(events[..count]);
      ReportOneMore(w0.log, old(log), log, events[..count + Clip(err)], Clip(err));
    }

    /** The loop of mcon_process_io_uring_event. It ends because every iteration that does not
        break out of it consumes a completion of an operation that was submitted before the call. */
    method CqeLoop(events: array<Event>, maxEvents: nat, plan: nat -> Turn)
      returns (count: nat, iterations: nat, broken: bool, ghost trace: seq<Step>)
      requires Valid() && SlotsStayKnown(View()) && ctl == Looping(maxEvents, 0, 0) && maxEvents <= events.Length
      requires forall k :: plan(k).Environmental()
      modifies this, sessions, free, os, events
      ensures Valid() && Leads(old(View()), trace, View())
      ensures !broken ==> ctl == Looping(maxEvents, count, iterations) && (count >= maxEvents || os.ker.cq == [])
      ensures broken ==> ctl == if iterations == 0 then Clearing(count) else Outside
      ensures old(os.ker).eventfd <= os.ker.eventfd
      ensures old(os.ker).cq == [] ==> !broken && iterations == 0 && os.ker == old(os.ker)
      ensures count <= maxEvents && count <= iterations <= Submitted(old(os.ker))
      ensures Reported(old(log), log, events[..count])
    {
      ghost var w0 := View();
      LeadsNowhere(w0);
      trace := [];
      count, iterations, broken := 0, 0, false;
      while !broken && count < maxEvents && os.ker.cq != []
        invariant Valid() && Leads(w0, trace, View())
        invariant w0.ker.eventfd <= os.ker.eventfd
        invariant w0.ker.cq == [] ==> !broken && iterations == 0 && os.ker == w0.ker
        invariant count <= maxEvents && count <= iterations
        invariant iterations + (if broken then 0 else Submitted(os.ker)) <= Submitted(w0.ker)
        invariant ctl == if !broken then Looping(maxEvents, count, iterations)
                         else if iterations == 0 then Clearing(count) else Outside
        invariant Reported(w0.log, log, events[..count])
        decreases !broken, Submitted(os.ker)
      {
        var err;
        err, trace := NextRound(plan(iterations), events, count, w0, trace);
        if err < 0 {
          broken := true;
        } else {
          count := count + err;
          iterations := iterations + 1;
        }
      }
    }

    /** The end of the loop, when its guard is false. */
    method LeaveLoop(ghost w0: World, ghost past: seq<Step>) returns (ghost trace: seq<Step>)
      requires Valid() && Leads(w0, past, View()) && ctl.Looping? && (ctl.count >= ctl.cap || os.ker.cq == [])
      modifies `ctl
      ensures Valid() && Leads(w0, trace, View()) && ctl == AfterLoop(old(ctl))
    {
      LeadsBy(w0, past, View(), Leave);
      ctl := AfterLoop(ctl);
      trace := past + [Leave];
    }

    /** read() of the eventfd. */
    method ReadEventfd(before: seq<Step>, ghost w0: World, ghost past: seq<Step>) returns (ghost trace: seq<Step>)
      requires Valid() && Leads(w0, past, View()) && ctl.Clearing?
      requires forall step :: step in before ==> IsEnvironment(step)
      modifies this, os
      ensures Valid() && Leads(w0, trace, View())
      ensures ctl == Checking(old(ctl).count) && log == old(log)
      ensures before == [] ==> os.ker == old(os.ker).(eventfd := 0)
    {
      Meanwhile(before);
      LeadsOn(w0, past, old(View()), before, View());
      LeadsBy(w0, past + before, View(), ClearEventfd);
      os.ker := os.ker.(eventfd := 0);
      ctl := Checking(ctl.count);
      trace := past + before + [ClearEventfd];
    }

    /** io_uring_cq_ready. */
    method CqReady(before: seq<Step>, ghost w0: World, ghost past: seq<Step>)
      returns (ready: bool, ghost trace: seq<Step>)
      requires Valid() && Leads(w0, past, View()) && ctl.Checking?
      requires forall step :: step in before ==> IsEnvironment(step)
      modifies this, os
      ensures Valid() && Leads(w0, trace, View())
      ensures ctl == (if ready then Arming(old(ctl).count) else Outside) && log == old(log)
      ensures before == [] ==> os.ker == old(os.ker) && (ready <==> os.ker.cq != [])
    {
      Meanwhile(before);
      LeadsOn(w0, past, old(View()), before, View());
      LeadsBy(w0, past + before, View(), CheckReady);
      ready := os.ker.cq != [];
      ctl := if ready then Arming(ctl.count) else Outside;
      trace := past + before + [CheckReady];
    }

    /** write() to the eventfd. */
    method WriteEventfd(before: seq<Step>, ghost w0: World, ghost past: seq<Step>) returns (ghost trace: seq<Step>)
      requires Valid() && Leads(w0, past, View()) && ctl.Arming?
      requires forall step :: step in before ==> IsEnvironment(step)
      modifies this, os
      ensures Valid() && Leads(w0, trace, View())
      ensures ctl == Outside && log == old(log)
    {
      Meanwhile(before);
      LeadsOn(w0, past, old(View()), before, View());
      LeadsBy(w0, past + before, View(), Rearm);
      os.ker := os.ker.(eventfd := os.ker.eventfd + 1);
      ctl := Outside;
      trace := past + before + [Rearm];
    }

    /** What follows a loop without a completed iteration. */
    method SettleEventfd(quiet: Quiet, ghost w0: World, ghost past: seq<Step>) returns (ghost trace: seq<Step>)
      requires Valid() && Leads(w0, past, View()) && ctl.Clearing? && quiet.Environmental()
      modifies this, os
      ensures Valid() && Leads(w0, trace, View())
      ensures ctl == Outside && log == old(log)
      ensures quiet.Idle() && old(os.ker).cq == [] ==> os.ker == old(os.ker).(eventfd := 0)
    {
      trace := ReadEventfd(quiet.read, w0, past);
      var ready;
      ready, trace := CqReady(quiet.check, w0, trace);
      if ready { trace := WriteEventfd(quiet.write, w0, trace); }
    }

    /** mcon_process_io_uring_event, from the first evaluation of the loop's guard. */
    method Handle(events: array<Event>, maxEvents: nat, plan: nat -> Turn, quiet: Quiet)
      returns (count: nat, ghost trace: seq<Step>)
      requires Valid() && SlotsStayKnown(View()) && ctl == Looping(maxEvents, 0, 0) && maxEvents <= events.Length
      requires (forall k :: plan(k).Environmental()) && quiet.Environmental()
      modifies this, sessions, free, os, events
      ensures Valid() && Leads(old(View()), trace, View())
      ensures old(os.ker).cq == [] && quiet.Idle() ==> os.ker == old(os.ker).(eventfd := 0)
      ensures count > 0 ==> old(os.ker).eventfd <= os.ker.eventfd
      ensures ctl == Outside
      ensures count <= Min(maxEvents, Submitted(old(os.ker)))
      ensures Reported(old(log), log, events[..count])
    {
      var iterations, broken;
      count, iterations, broken, trace := CqeLoop(events, maxEvents, plan);
      if !broken { trace := LeaveLoop(old(View()), trace); }
      if iterations == 0 { trace := SettleEventfd(quiet, old(View()), trace); }
    }

    /** mcon_process_io_uring_event, with the environment at work at every point where it can be:
        a run of the handler's own steps, which reports exactly the events it returns. */
    method ProcessIoUringEvent(events: array<Event>, maxEvents: nat, plan: nat -> Turn, quiet: Quiet)
      returns (count: nat, ghost trace: seq<Step>)
      requires Valid() && Inv(View()) && ctl.Outside? && maxEvents <= events.Length
      requires (forall k :: plan(k).Environmental()) && quiet.Environmental()
      modifies this, sessions, free, os, events
      ensures Valid() && View() == Run(old(View()), [Enter(maxEvents)] + trace) && Internal(trace)
      ensures old(os.ker).cq == [] && quiet.Idle() ==> os.ker == old(os.ker).(eventfd := 0)
      ensures count > 0 ==> old(os.ker).eventfd <= os.ker.eventfd
      ensures ctl == Outside
      ensures count <= Min(maxEvents, Submitted(old(os.ker)))
      ensures Reported(old(log), log, events[..count])
    {
      ghost var w := View();
      ctl := Looping(maxEvents, 0, 0);
      EnterKeeps(w, maxEvents);
      count, trace := Handle(events, maxEvents, plan, quiet);
      EnterLeads(w, maxEvents, trace, View());
    }

    /** mcon_process_event: the token says whose event it is, and which of the three handlers gets it.
        UNKNOWN is a source mcon_is_valid_source lets through; no handler takes it. */
    method ProcessEvent(data: bv64, ready: Readiness, events: array<Event>, maxEvents: nat,
                        sockOk: bool, sockErr: int, plan: nat -> Turn, quiet: Quiet)
      returns (result: int, ghost trace: seq<Step>)
      requires Valid() && Inv(View()) && ctl.Outside? && maxEvents <= events.Length
      requires (forall k :: plan(k).Environmental()) && quiet.Environmental()
      modifies this, sessions, free, os, events
      ensures Valid() && result <= maxEvents
      ensures var entry := Decode(data);
        if !Owns(instance, data) || entry.source == SOURCE_UNKNOWN then
          result == -1 && View() == old(View())
        else if entry.source == SOURCE_SERVER_SOCKET then
          result == 0 && View() == DoServerEvent(old(View()), ready.rin)
        else if entry.source == SOURCE_IO_URING then
          result >= 0 && Reported(old(log), log, events[..result])
          && View() == Run(old(View()), [Enter(maxEvents)] + trace) && Internal(trace)
        else
          var (w', reply) := DoSessionEvent(old(View()), entry.session as nat, entry.generation as int, ready,
                                            maxEvents, sockOk, sockErr);
          View() == w' && result == (if reply.Events? then |reply.events| else -1)
          && (reply.Events? ==> events[..result] == reply.events)
    {
      trace := [];
      if !Owns(instance, data) { return -1, trace; }
      var entry := Decode(data);
      if entry.source == SOURCE_SERVER_SOCKET {
        ServerSocketEvent(ready.rin);
        result := 0;
      } else if entry.source == SOURCE_IO_URING {
        result, trace := ProcessIoUringEvent(events, maxEvents, plan, quiet);
      } else if entry.source == SOURCE_SESSION {
        ghost var reply;
        result, reply := SessionEvent(entry.session as nat, entry.generation as int, ready, events, maxEvents,
                                      sockOk, sockErr);
      } else {
        result := -1;
      }
    }
  }

  /** mcon_create. `made` says whether the rings, the eventfd and the memory could be had; `counter`
      is the counter instance ids are drawn from, before and after. */
  method Create(cfg: Config, made: bool, counter: Uint16) returns (rc: Rc, mcon: Mcon?, counter': Uint16)
    requires cfg.Provided()
    ensures rc == Err(EINVAL) <==> !(0 < cfg.sessionCount <= 0xF_FFFF && 0 < cfg.ioQueueSize
                                     && 0 < cfg.ringSize && 0 < cfg.maxAccepts <= cfg.ringSize)
    ensures rc == if !cfg.Accepted() then Err(EINVAL) else if !made then Err(ESYSCALL) else Ok
    ensures rc != Ok ==> mcon == null && counter' == counter
    ensures rc == Ok ==> mcon != null && fresh(mcon) && mcon.Valid() && mcon.View() == Init(cfg)
    ensures rc == Ok ==> (mcon.instance, counter') == (Tokens.Create(counter).0 as bv16, Tokens.Create(counter).1)
  {
    counter' := counter;
    if !cfg.Accepted() { return Err(EINVAL), null, counter'; }
    if !made { return Err(ESYSCALL), null, counter'; }
    var id := counter';
    counter' := Increment(counter');
    if id == 0 {
      id := counter';
      counter' := Increment(counter');
    }
    mcon := new Mcon(cfg, id as bv16);
    rc := Ok;
  }

  /** Adding n accepts stays within every limit a submit respects. */
  predicate WithinLimits(cfg: Config, lib: Lib, n: nat) {
    && lib.acceptsLive + n <= cfg.maxAccepts && lib.acceptsLive + n <= |lib.free|
    && Size(lib.queue) + n <= cfg.ioQueueSize
  }

  lemma QuotaIs(cfg: Config, lib: Lib, n: nat)
    requires lib.acceptsRequested && (n > 0 ==> WithinLimits(cfg, lib, n)) && !WithinLimits(cfg, lib, n + 1)
    ensures n == AcceptQuota(cfg, lib)
  {
  }

  lemma WithAcceptsIs(lib: Lib, n: nat, lib': Lib)
    requires lib' == lib.(queue := lib'.queue, acceptsLive := lib'.acceptsLive,
                          acceptsRequested := lib'.acceptsRequested)
    requires lib'.queue == WithAccepts(lib, n).queue && lib'.acceptsLive == lib.acceptsLive + n
    requires lib'.acceptsRequested == (lib.acceptsRequested && n == 0)
    ensures lib' == WithAccepts(lib, n)
  {
  }

  lemma OneAcceptMore(lib: Lib, n: nat)
    ensures Enqueue(WithAccepts(lib, n).queue, AcceptOp(lib.serverFd)) == WithAccepts(lib, n + 1).queue
    ensures Size(WithAccepts(lib, n + 1).queue) == Size(lib.queue) + n + 1
  {
    var q, op := lib.queue, AcceptOp(lib.serverFd);
    FlatGrows(q, 4, Repeat(op, n + 1));
    assert q[4] + Repeat(op, n + 1) == (q[4] + Repeat(op, n)) + [op];
    if n == 0 {
      assert q[4] + Repeat(op, 1) == q[4] + [op];
    } else {
      assert q[4 := q[4] + Repeat(op, n)][4 := q[4] + Repeat(op, n + 1)] == q[4 := q[4] + Repeat(op, n + 1)];
    }
  }
}
