/** The steps of the completion handler on read, write, drain and close completions
    keep the invariant. */
module Handler {
  import opened Types
  import opened World
  import opened Invariant
  import opened Ledger
  import opened Calls

  /* Consuming a CQE */

  /** From `w` to `w'` the first CQE has been consumed, and the rings are otherwise unchanged. */
  ghost predicate Consumed(w: World, w': World) {
    && w.ker.cq != []
    && w'.cfg == w.cfg && w'.started == w.started
    && w'.ker == Consume(w.ker).(table := w'.ker.table)
    && w'.lib.queue == w.lib.queue && w'.lib.inFlight == w.lib.inFlight
  }

  lemma ConsumedBooks(w: World, w': World)
    requires Consumed(w, w')
    ensures w.ker.cq[0].op in Outstanding(w.lib, w.ker)
    ensures w.ker.cq[0].op in Executed(w.ker)
    ensures Unexecuted(w'.lib, w'.ker) == Unexecuted(w.lib, w.ker)
    ensures Outstanding(w'.lib, w'.ker) == Outstanding(w.lib, w.ker) - multiset{w.ker.cq[0].op}
    ensures Completions(w.ker) == Completions(w'.ker) + multiset{w.ker.cq[0]}
    ensures Submitted(w.ker) == Submitted(w'.ker) + 1
  {
    OpsOfTail(w.ker.cq);
  }

  lemma WaitingShrink(all: multiset<Cqe>, all': multiset<Cqe>, t: Table, listenFd: int, c: Cqe)
    requires WaitingInv(all, t, listenFd) && all == all' + multiset{c}
    ensures WaitingInv(all', t, listenFd)
  {
    forall x: Cqe | x in all' && x.Accepted() ensures WaitingOk(all', t, listenFd, x) {
      assert x in all;
      assert WaitingOk(all, t, listenFd, x);
    }
  }

  /** Consuming a completion keeps the accept wakeup if that completion did not carry it,
      or if the accept cycle is requested instead. */
  ghost predicate CycleKept(w: World, w': World) {
    && w.ker.cq != []
    && (Listening(w'.lib) ==> Listening(w.lib))
    && (w'.lib.acceptsRequested || (!w.lib.acceptsRequested && !w.ker.cq[0].Hot()))
  }

  lemma AcceptWakeupConsume(w: World, w': World)
    requires AcceptWakeup(w) && Consumed(w, w') && CycleKept(w, w')
    ensures AcceptWakeup(w')
  {
    ConsumedBooks(w, w');
    if Listening(w'.lib) && w'.ker.backlog > 0 && !w'.lib.acceptsRequested {
      if c: Cqe :| c in Completions(w.ker) && c.Hot() {
        assert c in Completions(w'.ker);
      }
    }
  }

  /** The consumed operation is either still to be accounted for, or lost to the accounting. */
  ghost predicate AccountedLater(w: World, w': World) {
    && AtCqe(w)
    && (if w'.ctl == AfterLoop(w.ctl) then w'.addFailures == w.addFailures + 1
        else w'.addFailures == w.addFailures && w'.ctl in {Produced(w, 0), Produced(w, 1)})
  }

  lemma ConsumedKeepsWakeups(w: World, w': World)
    requires WakeupInv(w) && Consumed(w, w') && CycleKept(w, w') && AccountedLater(w, w')
    ensures WakeupInv(w')
  {
    AcceptWakeupConsume(w, w');
    ConsumedBooks(w, w');
  }

  /** The instance stays open as it was, or its shutdown completes. */
  ghost predicate StillOpen(lib: Lib, lib': Lib) {
    && |lib'.sessions| == |lib.sessions|
    && (lib'.serverFd == lib.serverFd && lib'.epollFd == lib.epollFd ==> lib'.shuttingDown == lib.shuttingDown)
    && (lib'.serverFd != lib.serverFd || lib'.epollFd != lib.epollFd ==>
          lib'.serverFd == -1 && lib'.epollFd == -1 && !lib'.shuttingDown)
  }

  lemma ConsumedKeepsShape(w: World, w': World)
    requires Shape(w) && Consumed(w, w') && StillOpen(w.lib, w'.lib)
    ensures Shape(w')
  {
  }

  /* Read, write and drain completions */

  /** The completed operation is the one its slot issued. */
  ghost predicate CqeKnown(all: Bag, ss: seq<Session>, op: Op) {
    && op in all && op.kind != Accept
    && 0 <= op.session < |ss| && ss[op.session].Active()
    && op == OpAt(ss[op.session], op.session, op.kind)
    && (op.kind == Close ==> ss[op.session].(closing := false).Idle())
  }

  lemma IoCqeKnown(w: World)
    requires LedgerInv(w) && AtCqe(w) && w.ker.cq[0].op.kind != Accept
    ensures CqeKnown(Outstanding(w.lib, w.ker), w.lib.sessions, w.ker.cq[0].op)
    ensures Outstanding(w.lib, w.ker)[w.ker.cq[0].op] == 1
    ensures w.ker.cq[0].op in Executed(w.ker)
  {
    OpsOfTail(w.ker.cq);
    BitOfOutstanding(Outstanding(w.lib, w.ker), w.lib.sessions, w.cfg.listenFd, w.ker.cq[0].op);
  }

  /** The event a completion is reported with. */
  function Report(ss: seq<Session>, c: Cqe): Obs
    requires 0 <= c.op.session < |ss|
  {
    Told(Event(c.res, c.op.session, CompletionType(c.op.kind)), Finished(c.op, ss[c.op.session]))
  }

  /** From `w` to `w'` an I/O completion has been processed. */
  ghost predicate IoDone(w: World, w': World) {
    && AtCqe(w) && w.ker.cq[0].op.kind in {Read, Write, Drain}
    && Consumed(w, w') && CycleKept(w, w') && AccountedLater(w, w') && StillOpen(w.lib, w'.lib)
    && var c, ss := w.ker.cq[0], w.lib.sessions;
    && CqeKnown(Outstanding(w.lib, w.ker), ss, c.op)
    && w'.lib.sessions == ss[c.op.session := Unmark(ss[c.op.session], c.op.kind)]
    && w'.lib.free == w.lib.free && w'.lib.acceptsLive == w.lib.acceptsLive
    && w'.log == w.log + [Report(ss, c)]
    && w'.ker.table == w.ker.table && w'.registered == w.registered
  }

  predicate AtIo(w: World) {
    AtCqe(w) && w.ker.cq[0].op.kind in {Read, Write, Drain}
  }

  lemma ProcessIoDone(w: World)
    requires LedgerInv(w) && AtIo(w)
    ensures IoDone(w, ProcessIo(w))
  {
    IoCqeKnown(w);
  }

  /** Clearing the bit of the completed kind leaves one bit fewer. */
  lemma IoFinish(all: Bag, ss: seq<Session>, live: int, i: nat, kind: Kind, listenFd: int)
    requires OpsInv(all, ss, listenFd) && SlotsInv(all, ss) && SizeInv(all, live, ss)
    requires i < |ss| && ss[i].Active() && kind != Accept && OpAt(ss[i], i, kind) in all
    ensures var all', ss' := all - multiset{OpAt(ss[i], i, kind)}, ss[i := Unmark(ss[i], kind)];
      OpsInv(all', ss', listenFd) && SlotsInv(all', ss') && SizeInv(all', live, ss')
  {
    OpsFinish(all, ss, listenFd, i, kind);
    SlotsFinish(all, ss, i, kind);
    assert SlotOk(all, ss[i], i);
    BitsHeldUpdate(ss, i, Unmark(ss[i], kind));
  }

  lemma IoKeepsLedger(w: World, w': World)
    requires LedgerInv(w) && IoDone(w, w')
    ensures LedgerInv(w')
  {
    var op := w.ker.cq[0].op;
    ConsumedBooks(w, w');
    IoFinish(Outstanding(w.lib, w.ker), w.lib.sessions, w.lib.acceptsLive, op.session, op.kind, w.cfg.listenFd);
  }

  lemma FdUnmark(un: Bag, t: Table, ss: seq<Session>, i: nat, kind: Kind)
    requires FdInv(un, t, ss) && i < |ss| && kind in {Read, Write, Drain}
    ensures FdInv(un, t, ss[i := Unmark(ss[i], kind)])
  {
    var ss' := ss[i := Unmark(ss[i], kind)];
    forall j | 0 <= j < |ss'| ensures SlotFdOk(un, t, ss'[j], j) { assert SlotFdOk(un, t, ss[j], j); }
  }

  lemma IoKeepsDescriptors(w: World, w': World)
    requires DescriptorInv(w) && IoDone(w, w')
    ensures DescriptorInv(w')
  {
    var op, ss := w.ker.cq[0].op, w.lib.sessions;
    ConsumedBooks(w, w');
    FdUnmark(Unexecuted(w.lib, w.ker), w.ker.table, ss, op.session, op.kind);
    WaitingShrink(Completions(w.ker), Completions(w'.ker), w.ker.table, w.cfg.listenFd, w.ker.cq[0]);
    RegisteredOther(ss, w.registered, op.session, Unmark(ss[op.session], op.kind));
  }

  lemma BalanceFinish(log: seq<Obs>, all: Bag, ss: seq<Session>, c: Cqe)
    requires BalanceInv(log, all, ss) && CqeKnown(all, ss, c.op)
    ensures BalanceInv(log + [Report(ss, c)], all - multiset{c.op},
                       ss[c.op.session := Unmark(ss[c.op.session], c.op.kind)])
  {
    var i, op, o := c.op.session, c.op, Report(ss, c);
    var ss' := ss[i := Unmark(ss[i], op.kind)];
    forall j, k | 0 <= j < |ss'| && k != Accept
      ensures BalanceOk(log + [o], all - multiset{op}, ss'[j], j, k)
    {
      assert BalanceOk(log, all, ss[j], j, k);
      CountTookAppend(log, o, j, k);
      CountToldAppend(log, o, j, CompletionType(k));
    }
  }

  lemma IoKeepsHistory(w: World, w': World)
    requires HistoryInv(w) && IoDone(w, w')
    ensures HistoryInv(w')
  {
    var c, ss := w.ker.cq[0], w.lib.sessions;
    ConsumedBooks(w, w');
    BalanceFinish(w.log, Outstanding(w.lib, w.ker), ss, c);
    HangupKept(w.log, Report(ss, c), ss, c.op.session, Unmark(ss[c.op.session], c.op.kind));
    LogKept(w.log, Report(ss, c));
  }

  lemma IoKeeps(w: World)
    requires Inv(w) && AtIo(w)
    ensures Inv(ProcessIo(w))
  {
    var w', i := ProcessIo(w), w.ker.cq[0].op.session;
    ProcessIoDone(w);
    IoKeepsLedger(w, w');
    IoKeepsDescriptors(w, w');
    IoKeepsHistory(w, w');
    ConsumedKeepsWakeups(w, w');
    ConsumedKeepsShape(w, w');
    FreeSame(w.lib.sessions, w.lib.free, i, Unmark(w.lib.sessions[i], w.ker.cq[0].op.kind));
  }

  /* Close completions */

  /** The slot after its close completed. */
  function Closed(s: Session): Session { Unmark(NextIncarnation(s), Close) }

  ghost predicate CloseConsumed(w: World, w': World) {
    Consumed(w, w') && CycleKept(w, w') && AccountedLater(w, w') && StillOpen(w.lib, w'.lib)
  }

  /** From `w` to `w'` a close completion has been processed. */
  ghost predicate CloseDone(w: World, w': World) {
    && AtCqe(w) && w.ker.cq[0].op.kind == Close && w.cfg.Valid() && |w.lib.sessions| == w.cfg.sessionCount
    && CloseConsumed(w, w')
    && var c, ss := w.ker.cq[0], w.lib.sessions;
    && CqeKnown(Outstanding(w.lib, w.ker), ss, c.op)
    && w'.lib.sessions == ss[c.op.session := Closed(ss[c.op.session])]
    && w'.lib.free == w.lib.free + [c.op.session] && w'.lib.acceptsLive == w.lib.acceptsLive
    && w'.log == w.log + [Report(ss, c)]
    && w'.ker.table == w.ker.table.(owner := w.ker.table.owner[ss[c.op.session].conn := Gone])
    && w'.registered == w.registered
  }

  predicate AtClose(w: World) {
    AtCqe(w) && w.ker.cq[0].op.kind == Close
  }

  lemma CloseCqePushes(w: World)
    requires Inv(w) && AtClose(w)
    ensures |w.lib.free| < |w.lib.sessions|
  {
    IoCqeKnown(w);
    PushCannotFail(w.lib.sessions, w.lib.free, w.ker.cq[0].op.session);
  }

  lemma ProcessCloseConsumes(w: World)
    requires Shape(w) && AtClose(w) && 0 <= w.ker.cq[0].op.session < |w.lib.sessions| && |w.lib.free| < |w.lib.sessions|
    ensures CloseConsumed(w, ProcessClose(w))
  {
  }

  lemma ProcessCloseDone(w: World)
    requires Shape(w) && LedgerInv(w) && AtClose(w) && |w.lib.free| < |w.lib.sessions|
    ensures CloseDone(w, ProcessClose(w))
  {
    IoCqeKnown(w);
    ProcessCloseConsumes(w);
  }

  lemma CloseFinish(all: Bag, ss: seq<Session>, live: int, i: nat, listenFd: int)
    requires OpsInv(all, ss, listenFd) && SlotsInv(all, ss) && SizeInv(all, live, ss)
    requires i < |ss| <= MAX_SESSIONS && CqeKnown(all, ss, OpAt(ss[i], i, Close))
    ensures var all', ss' := all - multiset{OpAt(ss[i], i, Close)}, ss[i := Closed(ss[i])];
      OpsInv(all', ss', listenFd) && SlotsInv(all', ss') && SizeInv(all', live, ss')
  {
    var all', ss1 := all - multiset{OpAt(ss[i], i, Close)}, ss[i := Unmark(ss[i], Close)];
    IoFinish(all, ss, live, i, Close, listenFd);
    RetireIdleSlot(all', ss1, listenFd, i);
    ClosedSlot(ss, i);
  }

  lemma ClosedSlot(ss: seq<Session>, i: nat)
    requires i < |ss|
    ensures var ss1 := ss[i := Unmark(ss[i], Close)]; ss1[i := NextIncarnation(ss1[i])] == ss[i := Closed(ss[i])]
  {
  }

  lemma CloseKeepsLedger(w: World, w': World)
    requires LedgerInv(w) && CloseDone(w, w')
    ensures LedgerInv(w')
  {
    ConsumedBooks(w, w');
    CloseFinish(Outstanding(w.lib, w.ker), w.lib.sessions, w.lib.acceptsLive, w.ker.cq[0].op.session, w.cfg.listenFd);
  }

  lemma CloseKeepsDescriptors(w: World, w': World)
    requires DescriptorInv(w) && CloseDone(w, w')
    ensures DescriptorInv(w')
  {
    var i, ss := w.ker.cq[0].op.session, w.lib.sessions;
    var un, t, t' := Unexecuted(w.lib, w.ker), w.ker.table, w'.ker.table;
    ConsumedBooks(w, w');
    assert SlotFdOk(un, t, ss[i], i);
    FdRelease(un, t, t', ss, i, Closed(ss[i]), Gone);
    WaitingRelease(Completions(w.ker), t, t', w.cfg.listenFd, ss[i].conn, Gone);
    WaitingShrink(Completions(w.ker), Completions(w'.ker), t', w.cfg.listenFd, w.ker.cq[0]);
    RegisteredOther(ss, w.registered, i, Closed(ss[i]));
  }

  lemma BalanceClose(log: seq<Obs>, all: Bag, ss: seq<Session>, c: Cqe)
    requires BalanceInv(log, all, ss) && SlotsInv(all, ss) && CqeKnown(all, ss, c.op) && c.op.kind == Close
    ensures BalanceInv(log + [Report(ss, c)], all - multiset{c.op}, ss[c.op.session := Closed(ss[c.op.session])])
  {
    var i := c.op.session;
    var all', ss1 := all - multiset{c.op}, ss[i := Unmark(ss[i], Close)];
    BalanceFinish(log, all, ss, c);
    SlotsFinish(all, ss, i, Close);
    BalanceOther(log + [Report(ss, c)], all', ss1, i, Closed(ss[i]));
    assert ss1[i := Closed(ss[i])] == ss[i := Closed(ss[i])];
  }

  lemma CloseKeepsHistory(w: World, w': World)
    requires SlotsInv(Outstanding(w.lib, w.ker), w.lib.sessions) && HistoryInv(w) && CloseDone(w, w')
    ensures HistoryInv(w')
  {
    var c, ss := w.ker.cq[0], w.lib.sessions;
    ConsumedBooks(w, w');
    BalanceClose(w.log, Outstanding(w.lib, w.ker), ss, c);
    HangupKept(w.log, Report(ss, c), ss, c.op.session, Closed(ss[c.op.session]));
    LogKept(w.log, Report(ss, c));
  }

  lemma CloseKeepsBooks(w: World, w': World)
    requires LedgerInv(w) && DescriptorInv(w) && HistoryInv(w) && CloseDone(w, w')
    ensures LedgerInv(w') && DescriptorInv(w') && HistoryInv(w')
  {
    CloseKeepsLedger(w, w');
    CloseKeepsDescriptors(w, w');
    CloseKeepsHistory(w, w');
  }

  lemma CloseDoneKeeps(w: World, w': World)
    requires Inv(w) && CloseDone(w, w') && |w.lib.free| < |w.lib.sessions|
    ensures Inv(w')
  {
    var i := w.ker.cq[0].op.session;
    CloseKeepsBooks(w, w');
    ConsumedKeepsWakeups(w, w');
    ConsumedKeepsShape(w, w');
    FreePush(w.lib.sessions, w.lib.free, i, Closed(w.lib.sessions[i]));
  }

  lemma CloseKeeps(w: World)
    requires Inv(w) && AtClose(w)
    ensures Inv(ProcessClose(w))
  {
    CloseCqePushes(w);
    ProcessCloseDone(w);
    CloseDoneKeeps(w, ProcessClose(w));
  }
}
