/** Accept completions keep the invariant: nothing to accept, a failed accept,
    a client that cannot be registered, and a new session. */
module AcceptSteps {
  import opened Types
  import opened World
  import opened Invariant
  import opened Ledger
  import opened Calls
  import opened Handler

  /** An accept that is still counted, and has a free slot reserved for it. */
  ghost predicate Reserved(all: Bag, op: Op, live: int, free: nat, cfg: Config) {
    && op in all && op in {AcceptOp(cfg.listenFd), AcceptOp(-1)}
    && 0 < live <= free && live < 0x1_0000
  }

  lemma ReservedOf(all: Bag, ss: seq<Session>, op: Op, live: int, free: nat, cfg: Config)
    requires OpsInv(all, ss, cfg.listenFd) && AcceptInv(all, live, free, cfg) && cfg.Valid()
    requires op in all && op.kind == Accept
    ensures Reserved(all, op, live, free, cfg)
  {
    assert OpOk(ss, cfg.listenFd, op);
  }

  predicate AtAccept(w: World) {
    AtCqe(w) && w.ker.cq[0].op.kind == Accept
  }

  ghost predicate AtReserved(w: World) {
    && AtAccept(w) && w.cfg.Valid()
    && Reserved(Outstanding(w.lib, w.ker), w.ker.cq[0].op, w.lib.acceptsLive, |w.lib.free|, w.cfg)
  }

  /** Every accept completion is: accepts_live does not underflow, and the pop does not fail. */
  lemma AcceptIsReserved(w: World)
    requires Shape(w) && LedgerInv(w) && AtAccept(w)
    ensures AtReserved(w)
    ensures w.lib.free != []
  {
    OpsOfTail(w.ker.cq);
    ReservedOf(Outstanding(w.lib, w.ker), w.lib.sessions, w.ker.cq[0].op, w.lib.acceptsLive, |w.lib.free|, w.cfg);
  }

  /** One accept less, one reservation less. */
  lemma OneAcceptLess(all: Bag, ss: seq<Session>, op: Op, live: int, free: nat, cfg: Config)
    requires OpsInv(all, ss, cfg.listenFd) && SlotsInv(all, ss) && SizeInv(all, live, ss)
    requires AcceptInv(all, live, free, cfg) && 0 <= cfg.listenFd
    requires Reserved(all, op, live, free, cfg)
    ensures OpsInv(all - multiset{op}, ss, cfg.listenFd) && SlotsInv(all - multiset{op}, ss)
    ensures SizeInv(all - multiset{op}, live - 1, ss)
    ensures AcceptInv(all - multiset{op}, live - 1, free - 1, cfg)
  {
    var all' := all - multiset{op};
    SlotsSame(all, all', ss);
    forall x | x in all' ensures OpOk(ss, cfg.listenFd, x) { assert x in all; }
  }

  lemma BalanceOneAcceptLess(log: seq<Obs>, all: Bag, ss: seq<Session>, op: Op)
    requires BalanceInv(log, all, ss) && op.kind == Accept
    ensures BalanceInv(log, all - multiset{op}, ss)
  {
    BalanceSame(log, all, all - multiset{op}, ss);
  }

  /** From `w` to `w'` an accept completion has been processed, in one way or another. */
  ghost predicate AcceptDone(w: World, w': World) {
    && AtReserved(w)
    && Consumed(w, w') && CycleKept(w, w') && AccountedLater(w, w') && StillOpen(w.lib, w'.lib)
    && w'.lib.acceptsLive == w.lib.acceptsLive - 1
  }

  /* No session comes of it: nothing to accept, an error, or a client that cannot be registered */

  ghost predicate NoSession(w: World, w': World) {
    && AcceptDone(w, w')
    && w'.lib.sessions == w.lib.sessions && w'.lib.free == w.lib.free && w'.registered == w.registered
    && (w'.log == w.log || w'.log == w.log + [Told(Event(w.ker.cq[0].res, NO_SESSION, NewConnection), Plain)])
    && w'.ker.table == if w.ker.cq[0].res < 0 then w.ker.table
                       else Reject(w.ker.table, w.ker.cq[0].res, w.ker.cq[0].conn)
  }

  /** The new descriptor is closed again. */
  function Reject(t: Table, fd: int, conn: int): Table { CloseFd(t, fd).(owner := t.owner[conn := Gone]) }

  lemma ProcessFailedAccept(w: World, addOk: bool)
    requires AtReserved(w) && w.ker.cq[0].res < 0
    ensures NoSession(w, ProcessAccept(w, addOk))
  {
  }

  lemma ProcessReject(w: World)
    requires AtReserved(w) && 0 <= w.ker.cq[0].res
    ensures NoSession(w, ProcessAccept(w, false))
  {
  }

  lemma NoSessionKeepsLedger(w: World, w': World)
    requires LedgerInv(w) && NoSession(w, w')
    ensures LedgerInv(w')
  {
    ConsumedBooks(w, w');
    OneAcceptLess(Outstanding(w.lib, w.ker), w.lib.sessions, w.ker.cq[0].op, w.lib.acceptsLive, |w.lib.free|, w.cfg);
  }

  /** The other completions that carry a connection carry a different one. */
  lemma OtherClients(all: multiset<Cqe>, all': multiset<Cqe>, t: Table, listenFd: int, c: Cqe, x: Cqe)
    requires WaitingInv(all, t, listenFd) && all == all' + multiset{c}
    requires c.Accepted() && x in all' && x.Accepted()
    ensures WaitingOk(all, t, listenFd, x) && WaitingOk(all', t, listenFd, x)
    ensures x.conn != c.conn && x.res != c.res
  {
    assert WaitingOk(all, t, listenFd, c);
    assert WaitingOk(all, t, listenFd, x);
    assert x != c;
  }

  /** Closing the descriptor of a connection no session has leaves the sessions' claims intact. */
  lemma FdReject(un: Bag, t: Table, ss: seq<Session>, fd: int, conn: int)
    requires FdInv(un, t, ss) && TableInv(t)
    requires fd in t.fds && t.fds[fd] == conn && conn in t.owner && !t.owner[conn].Slot?
    ensures FdInv(un, Reject(t, fd, conn), ss) && TableInv(Reject(t, fd, conn))
  {
    var t' := Reject(t, fd, conn);
    forall j | 0 <= j < |ss| ensures SlotFdOk(un, t', ss[j], j) {
      assert SlotFdOk(un, t, ss[j], j);
    }
  }

  lemma WaitingReject(all: multiset<Cqe>, all': multiset<Cqe>, t: Table, listenFd: int, c: Cqe)
    requires WaitingInv(all, t, listenFd) && all == all' + multiset{c} && c.Accepted()
    ensures WaitingInv(all', Reject(t, c.res, c.conn), listenFd)
  {
    forall x: Cqe | x in all' && x.Accepted() ensures WaitingOk(all', Reject(t, c.res, c.conn), listenFd, x) {
      OtherClients(all, all', t, listenFd, c, x);
    }
  }

  lemma NoSessionKeepsDescriptors(w: World, w': World)
    requires DescriptorInv(w) && NoSession(w, w')
    ensures DescriptorInv(w')
  {
    var c, t := w.ker.cq[0], w.ker.table;
    ConsumedBooks(w, w');
    if c.res < 0 {
      WaitingShrink(Completions(w.ker), Completions(w'.ker), t, w.cfg.listenFd, c);
    } else {
      assert WaitingOk(Completions(w.ker), t, w.cfg.listenFd, c);
      FdReject(Unexecuted(w.lib, w.ker), t, w.lib.sessions, c.res, c.conn);
      WaitingReject(Completions(w.ker), Completions(w'.ker), t, w.cfg.listenFd, c);
    }
  }

  lemma PlainTold(log: seq<Obs>, all: Bag, ss: seq<Session>, result: int)
    requires BalanceInv(log, all, ss) && HangupInv(log, ss) && LogInv(log)
    ensures var log' := log + [Told(Event(result, NO_SESSION, NewConnection), Plain)];
      BalanceInv(log', all, ss) && HangupInv(log', ss) && LogInv(log')
  {
    var o := Told(Event(result, NO_SESSION, NewConnection), Plain);
    forall j, k | 0 <= j < |ss| && k != Accept ensures BalanceOk(log + [o], all, ss[j], j, k) {
      assert BalanceOk(log, all, ss[j], j, k);
      CountTookAppend(log, o, j, k);
      CountToldAppend(log, o, j, CompletionType(k));
    }
    forall j | 0 <= j < |ss| ensures HangupsSince(log + [o], j) == Bit(ss[j].rdhup) {
      HangupsSinceAppend(log, o, j);
    }
  }

  lemma NoSessionKeepsHistory(w: World, w': World)
    requires HistoryInv(w) && NoSession(w, w')
    ensures HistoryInv(w')
  {
    var op, all := w.ker.cq[0].op, Outstanding(w.lib, w.ker);
    ConsumedBooks(w, w');
    BalanceOneAcceptLess(w.log, all, w.lib.sessions, op);
    PlainTold(w.log, all - multiset{op}, w.lib.sessions, w.ker.cq[0].res);
  }

  lemma NoSessionKeeps(w: World, w': World)
    requires Inv(w) && NoSession(w, w')
    ensures Inv(w')
  {
    NoSessionKeepsLedger(w, w');
    NoSessionKeepsDescriptors(w, w');
    NoSessionKeepsHistory(w, w');
    ConsumedKeepsWakeups(w, w');
    ConsumedKeepsShape(w, w');
  }

  /* A new session */

  /** The connection is registered with epoll, and now belongs to the slot. */
  function Welcome(t: Table, i: int, s: Session, conn: int): Table {
    t.(interest := t.interest[conn := Registration(i, s.generation, s.epoch, conn)], owner := t.owner[conn := Slot(i)])
  }

  /** From `w` to `w'` slot `i`, the top of the free stack, has been opened. */
  ghost predicate NewSession(w: World, w': World, i: nat) {
    && AcceptDone(w, w') && 0 <= w.ker.cq[0].res
    && w.lib.free != [] && i == w.lib.free[|w.lib.free| - 1]
    && |w.lib.sessions| == w.cfg.sessionCount && i < |w.lib.sessions| && !w.lib.sessions[i].Active()
    && var c, s := w.ker.cq[0], w.lib.sessions[i];
    && w'.lib.sessions == w.lib.sessions[i := NewClient(s, c.res, c.conn)]
    && w'.lib.free == w.lib.free[..|w.lib.free| - 1]
    && w'.ker.table == Welcome(w.ker.table, i, s, c.conn)
    && w'.registered == w.registered + {Registration(i, s.generation, s.epoch, c.conn)}
    && w'.log == w.log + [Told(Event(c.res, i, NewConnection), Opened(NewClient(s, c.res, c.conn)))]
  }

  lemma ProcessNewSession(w: World)
    requires Shape(w) && FreeInv(w.lib.sessions, w.lib.free) && AtReserved(w) && 0 <= w.ker.cq[0].res
    ensures w.lib.free != [] && 0 <= w.lib.free[|w.lib.free| - 1]
    ensures NewSession(w, ProcessAccept(w, true), w.lib.free[|w.lib.free| - 1])
  {
  }

  /** Opening a slot changes no count: none of its bits was set, and none is. */
  lemma OpenSlot(all: Bag, ss: seq<Session>, listenFd: int, i: nat, fd: int, conn: int)
    requires OpsInv(all, ss, listenFd) && SlotsInv(all, ss) && i < |ss| <= MAX_SESSIONS && !ss[i].Active()
    ensures var ss' := ss[i := NewClient(ss[i], fd, conn)];
      OpsInv(all, ss', listenFd) && SlotsInv(all, ss') && BitsHeld(ss') == BitsHeld(ss)
    ensures forall op :: op in all ==> op.session != i
  {
    assert SlotOk(all, ss[i], i);
    IdleSlotIsQuiet(all, ss, listenFd, i);
    OpsOther(all, ss, listenFd, i, NewClient(ss[i], fd, conn));
    SlotsOther(all, ss, i, NewClient(ss[i], fd, conn));
    BitsHeldUpdate(ss, i, NewClient(ss[i], fd, conn));
  }

  lemma NewSessionKeepsLedger(w: World, w': World, i: nat)
    requires LedgerInv(w) && NewSession(w, w', i)
    ensures LedgerInv(w')
  {
    var c, all, ss := w.ker.cq[0], Outstanding(w.lib, w.ker), w.lib.sessions;
    ConsumedBooks(w, w');
    OneAcceptLess(all, ss, c.op, w.lib.acceptsLive, |w.lib.free|, w.cfg);
    OpenSlot(all - multiset{c.op}, ss, w.cfg.listenFd, i, c.res, c.conn);
  }

  /** The new session holds exactly the connection the completion carried. */
  lemma FdWelcome(un: Bag, t: Table, ss: seq<Session>, i: nat, fd: int, conn: int)
    requires FdInv(un, t, ss) && i < |ss| && !ss[i].Active() && fd != -1
    requires fd in t.fds && t.fds[fd] == conn && conn in t.owner && !t.owner[conn].Slot?
    ensures FdInv(un, Welcome(t, i, ss[i], conn), ss[i := NewClient(ss[i], fd, conn)])
  {
    var ss', t' := ss[i := NewClient(ss[i], fd, conn)], Welcome(t, i, ss[i], conn);
    forall j | 0 <= j < |ss'| ensures SlotFdOk(un, t', ss'[j], j) {
      assert SlotFdOk(un, t, ss[j], j);
    }
  }

  lemma RegisteredWelcome(ss: seq<Session>, registered: set<Registration>, i: nat, fd: int, conn: int)
    requires RegisteredInv(ss, registered) && i < |ss| && !ss[i].Active() && fd != -1
    requires ss[i].generation == Residue(ss[i].epoch)
    ensures RegisteredInv(ss[i := NewClient(ss[i], fd, conn)],
                          registered + {Registration(i, ss[i].generation, ss[i].epoch, conn)})
  {
    var ss' := ss[i := NewClient(ss[i], fd, conn)];
    RegisteredOther(ss, registered, i, NewClient(ss[i], fd, conn));
    assert RegistrationOk(ss', Registration(i, ss[i].generation, ss[i].epoch, conn));
  }

  lemma WaitingWelcome(all: multiset<Cqe>, all': multiset<Cqe>, t: Table, listenFd: int, c: Cqe, i: int, s: Session)
    requires WaitingInv(all, t, listenFd) && all == all' + multiset{c} && c.Accepted()
    ensures WaitingInv(all', Welcome(t, i, s, c.conn), listenFd)
  {
    forall x: Cqe | x in all' && x.Accepted() ensures WaitingOk(all', Welcome(t, i, s, c.conn), listenFd, x) {
      OtherClients(all, all', t, listenFd, c, x);
    }
  }

  lemma NewSessionKeepsDescriptors(w: World, w': World, i: nat)
    requires DescriptorInv(w) && NewSession(w, w', i) && SlotsInv(Outstanding(w.lib, w.ker), w.lib.sessions)
    ensures DescriptorInv(w')
  {
    assert SlotOk(Outstanding(w.lib, w.ker), w.lib.sessions[i], i);
    var c, t, ss := w.ker.cq[0], w.ker.table, w.lib.sessions;
    ConsumedBooks(w, w');
    assert WaitingOk(Completions(w.ker), t, w.cfg.listenFd, c);
    FdWelcome(Unexecuted(w.lib, w.ker), t, ss, i, c.res, c.conn);
    RegisteredWelcome(ss, w.registered, i, c.res, c.conn);
    WaitingWelcome(Completions(w.ker), Completions(w'.ker), t, w.cfg.listenFd, c, i, ss[i]);
  }

  lemma HistoryWelcome(log: seq<Obs>, all: Bag, ss: seq<Session>, i: nat, fd: int, conn: int)
    requires BalanceInv(log, all, ss) && HangupInv(log, ss) && LogInv(log)
    requires i < |ss| && !ss[i].Active() && forall op :: op in all ==> op.session != i
    ensures var s := NewClient(ss[i], fd, conn);
      var log' := log + [Told(Event(fd, i, NewConnection), Opened(s))];
      BalanceInv(log', all, ss[i := s]) && HangupInv(log', ss[i := s]) && LogInv(log')
  {
    var s := NewClient(ss[i], fd, conn);
    var ss', o := ss[i := s], Told(Event(fd, i, NewConnection), Opened(s));
    forall j, k | 0 <= j < |ss'| && k != Accept ensures BalanceOk(log + [o], all, ss'[j], j, k) {
      assert BalanceOk(log, all, ss[j], j, k);
      assert OpAt(s, i, k) !in all;
      CountTookAppend(log, o, j, k);
      CountToldAppend(log, o, j, CompletionType(k));
    }
    forall j | 0 <= j < |ss'| ensures HangupsSince(log + [o], j) == Bit(ss'[j].rdhup) {
      HangupsSinceAppend(log, o, j);
      assert HangupsSince(log, j) == Bit(ss[j].rdhup);
    }
  }

  lemma NewSessionKeepsHistory(w: World, w': World, i: nat)
    requires HistoryInv(w) && NewSession(w, w', i)
    requires OpsInv(Outstanding(w.lib, w.ker), w.lib.sessions, w.cfg.listenFd)
    requires SlotsInv(Outstanding(w.lib, w.ker), w.lib.sessions)
    ensures HistoryInv(w')
  {
    var c, all, ss := w.ker.cq[0], Outstanding(w.lib, w.ker), w.lib.sessions;
    ConsumedBooks(w, w');
    BalanceOneAcceptLess(w.log, all, ss, c.op);
    OpenSlot(all, ss, w.cfg.listenFd, i, c.res, c.conn);
    HistoryWelcome(w.log, all - multiset{c.op}, ss, i, c.res, c.conn);
  }

  lemma NewSessionKeepsBooks(w: World, w': World, i: nat)
    requires LedgerInv(w) && DescriptorInv(w) && HistoryInv(w) && NewSession(w, w', i)
    ensures LedgerInv(w') && DescriptorInv(w') && HistoryInv(w')
  {
    NewSessionKeepsLedger(w, w', i);
    NewSessionKeepsDescriptors(w, w', i);
    NewSessionKeepsHistory(w, w', i);
  }

  lemma NewSessionKeeps(w: World, w': World, i: nat)
    requires Inv(w) && NewSession(w, w', i)
    ensures Inv(w')
  {
    NewSessionKeepsBooks(w, w', i);
    ConsumedKeepsWakeups(w, w');
    ConsumedKeepsShape(w, w');
    FreePop(w.lib.sessions, w.lib.free, NewClient(w.lib.sessions[i], w.ker.cq[0].res, w.ker.cq[0].conn));
  }

  lemma AcceptKeeps(w: World, addOk: bool)
    requires Inv(w) && AtAccept(w)
    ensures Inv(ProcessAccept(w, addOk))
  {
    AcceptIsReserved(w);
    if w.ker.cq[0].res < 0 {
      ProcessFailedAccept(w, addOk);
      NoSessionKeeps(w, ProcessAccept(w, addOk));
    } else if addOk {
      ProcessNewSession(w);
      NewSessionKeeps(w, ProcessAccept(w, true), w.lib.free[|w.lib.free| - 1]);
    } else {
      ProcessReject(w);
      NoSessionKeeps(w, ProcessAccept(w, false));
    }
  }
}
