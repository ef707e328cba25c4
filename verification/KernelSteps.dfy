/** The control steps of the completion handler, and the steps of the kernel, keep the invariant. */
module KernelSteps {
  import opened Types
  import opened Pipeline
  import opened World
  import opened Invariant
  import opened Ledger
  import opened Calls
  import opened AcceptSteps

  /* Control */

  /** Consuming one CQE moves the head to a different address of a ring of at least two. */
  lemma {:induction false} NextAddressDiffers(n: nat, size: nat)
    requires 2 <= size
    ensures Address(n, size) != Address(n + 1, size)
    ensures Address(n, size) < size
  {
    if n >= size {
      NextAddressDiffers(n - size, size);
    }
  }

  /** The pointer comparison sees that the CQE has been consumed, whatever was posted meanwhile. */
  lemma AccountCounts(w: World)
    requires Shape(w) && WakeupInv(w) && w.ctl.Counting?
    ensures w.cfg.sqEntries > 0 && Head(w) != Some(w.ctl.slot)
    ensures DoAccount(w).lib.inFlight == Wrap16(Submitted(w.ker) + w.addFailures)
  {
    NextAddressDiffers(w.ker.seen - 1, w.cfg.CqEntries());
    WrapTwice(Submitted(w.ker) + w.addFailures + 1, -1);
  }

  /** From `w` to `w'` only control, the eventfd and the in-flight counter have changed. */
  ghost predicate ControlMoved(w: World, w': World) {
    && w' == w.(ctl := w'.ctl, lib := w.lib.(inFlight := w'.lib.inFlight), ker := w.ker.(eventfd := w'.ker.eventfd))
    && ControlOk(w') && InFlightInv(w') && CompletionWakeup(w'.ker, w'.ctl)
  }

  lemma ControlKeepsWakeups(w: World, w': World)
    requires Shape(w) && WakeupInv(w) && ControlMoved(w, w')
    ensures Shape(w') && WakeupInv(w') && SameBooks(w, w')
  {
  }

  lemma ControlKeeps(w: World, w': World)
    requires Inv(w) && ControlMoved(w, w')
    ensures Inv(w')
  {
    ControlKeepsWakeups(w, w');
    BooksKept(w, w');
  }

  lemma AccountMoves(w: World)
    requires Shape(w) && WakeupInv(w) && w.ctl.Counting? && w.cfg.sqEntries > 0
    ensures ControlMoved(w, DoAccount(w))
  {
    AccountCounts(w);
  }

  lemma AccountKeeps(w: World)
    requires Inv(w) && w.ctl.Counting? && w.cfg.sqEntries > 0
    ensures Inv(DoAccount(w))
  {
    AccountMoves(w);
    ControlKeeps(w, DoAccount(w));
  }

  predicate IsControl(step: Step) {
    step.Enter? || step.Leave? || step.ClearEventfd? || step.CheckReady? || step.Rearm?
  }

  lemma ControlStepMoves(w: World, step: Step)
    requires WakeupInv(w) && IsControl(step) && Enabled(w, step)
    ensures ControlMoved(w, Perform(w, step))
  {
  }

  /* Clients, notifications, posting */

  /** From `w` to `w'` only the backlog and notifications have changed, and no wakeup is lost. */
  ghost predicate Notified(w: World, w': World) {
    && w' == w.(ker := w.ker.(backlog := w'.ker.backlog, edgeReady := w'.ker.edgeReady, edgesHeld := w'.ker.edgesHeld,
                              eventfd := w'.ker.eventfd, signalsDue := w'.ker.signalsDue))
    && (w'.ker.backlog <= w.ker.backlog || !Listening(w.lib) || w'.ker.edgeReady)
    && (w.ker.edgeReady ==> w'.ker.edgeReady || w'.ker.edgesHeld > 0)
    && (w.ker.edgesHeld > 0 ==> w'.ker.edgesHeld > 0)
    && (w.ker.eventfd > 0 ==> w'.ker.eventfd > 0)
    && (w.ker.signalsDue > 0 ==> w'.ker.signalsDue > 0 || w'.ker.eventfd > 0)
  }

  lemma NotifiedKeepsWakeups(w: World, w': World)
    requires Shape(w) && WakeupInv(w) && Notified(w, w')
    ensures Shape(w') && WakeupInv(w') && SameBooks(w, w')
  {
  }

  lemma NotifiedKeeps(w: World, w': World)
    requires Inv(w) && Notified(w, w')
    ensures Inv(w')
  {
    NotifiedKeepsWakeups(w, w');
    BooksKept(w, w');
  }

  predicate IsNotice(step: Step) {
    step.Arrive? || step.Abandon? || step.DeliverEdge? || step.Signal?
  }

  lemma NoticeStepNotifies(w: World, step: Step)
    requires IsNotice(step) && Enabled(w, step)
    ensures Notified(w, Perform(w, step))
  {
  }

  /** From `w` to `w'` executed operation `index` has been posted to the CQ. */
  ghost predicate Posted(w: World, w': World, index: nat) {
    && index < |w.ker.done| && |w.ker.cq| < w.cfg.CqEntries()
    && w' == w.(ker := w.ker.(done := RemoveAt(w.ker.done, index), cq := w.ker.cq + [w.ker.done[index]],
                              signalsDue := w.ker.signalsDue + 1))
  }

  lemma PostedKeepsBooks(w: World, w': World, index: nat)
    requires Posted(w, w', index)
    ensures SameBooks(w, w') && Submitted(w'.ker) == Submitted(w.ker)
  {
    OpsOfRemove(w.ker.done, index);
    OpsOfAppend(w.ker.cq, w.ker.done[index]);
    RemoveAtOne(w.ker.done, index);
  }

  lemma PostedKeepsWakeups(w: World, w': World, index: nat)
    requires Shape(w) && WakeupInv(w) && Posted(w, w', index)
    ensures Shape(w') && WakeupInv(w')
  {
    PostedKeepsBooks(w, w', index);
  }

  lemma PostedKeeps(w: World, w': World, index: nat)
    requires Inv(w) && Posted(w, w', index)
    ensures Inv(w')
  {
    PostedKeepsBooks(w, w', index);
    PostedKeepsWakeups(w, w', index);
    BooksKept(w, w');
  }

  /* Descriptors of others */

  /** From `w` to `w'` only the descriptor table has changed. */
  ghost predicate TableMoved(w: World, w': World) {
    w' == w.(ker := w.ker.(table := w'.ker.table))
  }

  lemma TableKeepsBooks(w: World, w': World)
    requires Shape(w) && LedgerInv(w) && HistoryInv(w) && TableMoved(w, w')
    ensures Shape(w') && LedgerInv(w') && HistoryInv(w')
  {
    assert Outstanding(w'.lib, w'.ker) == Outstanding(w.lib, w.ker);
  }

  lemma TableKeepsWakeups(w: World, w': World)
    requires WakeupInv(w) && TableMoved(w, w')
    ensures WakeupInv(w')
  {
    assert Unexecuted(w'.lib, w'.ker) == Unexecuted(w.lib, w.ker);
    assert Completions(w'.ker) == Completions(w.ker);
  }

  lemma TableKeeps(w: World, w': World)
    requires Inv(w) && TableMoved(w, w') && DescriptorInv(w')
    ensures Inv(w')
  {
    TableKeepsBooks(w, w');
    TableKeepsWakeups(w, w');
  }

  /** A descriptor is opened for a connection nobody has seen before. */
  lemma FdOpen(un: Bag, t: Table, ss: seq<Session>, fd: int, conn: int, owner: Owner)
    requires FdInv(un, t, ss) && TableInv(t)
    requires 0 <= fd && fd !in t.fds && conn !in t.owner
    ensures FdInv(un, OpenFd(t, fd, conn, owner), ss) && TableInv(OpenFd(t, fd, conn, owner))
  {
    var t' := OpenFd(t, fd, conn, owner);
    forall j | 0 <= j < |ss| ensures SlotFdOk(un, t', ss[j], j) {
      assert SlotFdOk(un, t, ss[j], j);
    }
  }

  lemma WaitingOpen(all: multiset<Cqe>, t: Table, listenFd: int, fd: int, conn: int, owner: Owner)
    requires WaitingInv(all, t, listenFd) && fd !in t.fds && conn !in t.owner
    ensures WaitingInv(all, OpenFd(t, fd, conn, owner), listenFd)
  {
    forall x: Cqe | x in all && x.Accepted() ensures WaitingOk(all, OpenFd(t, fd, conn, owner), listenFd, x) {
      assert WaitingOk(all, t, listenFd, x);
    }
  }

  lemma OpenForeignKeeps(w: World, fd: int, conn: int)
    requires Inv(w) && Enabled(w, OpenForeign(fd, conn))
    ensures Inv(Perform(w, OpenForeign(fd, conn)))
  {
    FdOpen(Unexecuted(w.lib, w.ker), w.ker.table, w.lib.sessions, fd, conn, Foreign);
    WaitingOpen(Completions(w.ker), w.ker.table, w.cfg.listenFd, fd, conn, Foreign);
    TableKeeps(w, Perform(w, OpenForeign(fd, conn)));
  }

  lemma CloseForeignKeepsDescriptors(w: World, fd: int)
    requires DescriptorInv(w) && Enabled(w, CloseForeign(fd))
    ensures DescriptorInv(Perform(w, CloseForeign(fd)))
  {
    var t := w.ker.table;
    var all, conn := Completions(w.ker), t.fds[fd];
    FdReject(Unexecuted(w.lib, w.ker), t, w.lib.sessions, fd, conn);
    forall x: Cqe | x in all && x.Accepted() ensures WaitingOk(all, Reject(t, fd, conn), w.cfg.listenFd, x) {
      assert WaitingOk(all, t, w.cfg.listenFd, x);
    }
  }

  lemma CloseForeignKeeps(w: World, fd: int)
    requires Inv(w) && Enabled(w, CloseForeign(fd))
    ensures Inv(Perform(w, CloseForeign(fd)))
  {
    CloseForeignKeepsDescriptors(w, fd);
    TableKeeps(w, Perform(w, CloseForeign(fd)));
  }

  /* Execution */

  /** From `w` to `w'` the kernel has executed pending operation `index`, with completion `c`. */
  ghost predicate Ran(w: World, w': World, index: nat, c: Cqe) {
    && index < |w.ker.pending| && c.op == w.ker.pending[index]
    && w' == w.(ker := w.ker.(pending := RemoveAt(w.ker.pending, index), done := w.ker.done + [c],
                              backlog := w'.ker.backlog, table := w'.ker.table))
    && w'.ker.backlog <= w.ker.backlog
    && (c.op.kind == Accept && c.res == -EAGAIN ==> w'.ker.backlog == 0)
  }

  lemma RanBooks(w: World, w': World, index: nat, c: Cqe)
    requires Ran(w, w', index, c)
    ensures c.op in Unexecuted(w.lib, w.ker)
    ensures Unexecuted(w'.lib, w'.ker) == Unexecuted(w.lib, w.ker) - multiset{c.op}
    ensures Executed(w'.ker) == Executed(w.ker) + multiset{c.op}
    ensures Outstanding(w'.lib, w'.ker) == Outstanding(w.lib, w.ker)
    ensures Completions(w'.ker) == Completions(w.ker) + multiset{c}
    ensures Submitted(w'.ker) == Submitted(w.ker)
  {
    RemoveAtOne(w.ker.pending, index);
    OpsOfAppend(w.ker.done, c);
  }

  lemma RanKeepsWakeups(w: World, w': World, index: nat, c: Cqe)
    requires Shape(w) && WakeupInv(w) && Ran(w, w', index, c)
    ensures Shape(w') && WakeupInv(w')
  {
    RanBooks(w, w', index, c);
    if Listening(w'.lib) && w'.ker.backlog > 0 {
      if x: Cqe :| x in Completions(w.ker) && x.Hot() { assert x in Completions(w'.ker); }
      if c.op == AcceptOp(w.cfg.listenFd) { assert c in Completions(w'.ker) && c.Hot(); }
    }
  }

  /** What is executed is the slot's own operation, aimed at the slot's own connection. */
  lemma ExecutedHitsItsSlot(w: World, op: Op)
    requires LedgerInv(w) && DescriptorInv(w)
    requires op in Unexecuted(w.lib, w.ker) && op.kind != Accept
    ensures 0 <= op.session < |w.lib.sessions|
    ensures op == OpAt(w.lib.sessions[op.session], op.session, op.kind)
    ensures Holds(Unexecuted(w.lib, w.ker), w.lib.sessions[op.session], op.session)
    ensures op.fd in w.ker.table.fds && w.ker.table.fds[op.fd] == op.conn
  {
    var all, i := Outstanding(w.lib, w.ker), op.session;
    BitOfOutstanding(all, w.lib.sessions, w.cfg.listenFd, op);
    assert SlotOk(all, w.lib.sessions[i], i);
    assert SlotFdOk(Unexecuted(w.lib, w.ker), w.ker.table, w.lib.sessions[i], i);
  }

  /** Reading, writing or draining changes no claim. */
  lemma FdRun(un: Bag, t: Table, ss: seq<Session>, op: Op)
    requires FdInv(un, t, ss) && op.kind != Close
    ensures FdInv(un - multiset{op}, t, ss)
  {
    forall j | 0 <= j < |ss| ensures SlotFdOk(un - multiset{op}, t, ss[j], j) {
      assert SlotFdOk(un, t, ss[j], j);
    }
  }

  lemma WaitingGrow(all: multiset<Cqe>, t: Table, listenFd: int, c: Cqe)
    requires WaitingInv(all, t, listenFd) && !c.Accepted()
    ensures WaitingInv(all + multiset{c}, t, listenFd)
  {
    forall x: Cqe | x in all + multiset{c} && x.Accepted()
      ensures WaitingOk(all + multiset{c}, t, listenFd, x)
    {
      assert WaitingOk(all, t, listenFd, x);
    }
  }

  /** Executing a close frees the descriptor number, and no other slot had it. */
  lemma FdClose(un: Bag, t: Table, ss: seq<Session>, i: nat)
    requires FdInv(un, t, ss) && TableInv(t) && i < |ss|
    requires Holds(un, ss[i], i) && un[OpAt(ss[i], i, Close)] == 1 && ss[i].closing
    ensures FdInv(un - multiset{OpAt(ss[i], i, Close)}, CloseFd(t, ss[i].fd), ss)
    ensures TableInv(CloseFd(t, ss[i].fd))
  {
    var un', t' := un - multiset{OpAt(ss[i], i, Close)}, CloseFd(t, ss[i].fd);
    assert SlotFdOk(un, t, ss[i], i);
    forall j | 0 <= j < |ss| ensures SlotFdOk(un', t', ss[j], j) {
      assert SlotFdOk(un, t, ss[j], j);
    }
  }

  lemma WaitingClose(all: multiset<Cqe>, t: Table, listenFd: int, fd: int)
    requires WaitingInv(all, t, listenFd) && fd in t.fds
    requires t.fds[fd] in t.owner && !t.owner[t.fds[fd]].Waiting?
    ensures WaitingInv(all, CloseFd(t, fd), listenFd)
  {
    forall x: Cqe | x in all && x.Accepted() ensures WaitingOk(all, CloseFd(t, fd), listenFd, x) {
      assert WaitingOk(all, t, listenFd, x);
    }
  }

  lemma RunCloseKeepsDescriptors(w: World, w': World, index: nat, c: Cqe)
    requires LedgerInv(w) && DescriptorInv(w) && Ran(w, w', index, c) && c.op.kind == Close
    requires w'.ker.table == CloseFd(w.ker.table, c.op.fd)
    ensures DescriptorInv(w')
  {
    var un, t, i := Unexecuted(w.lib, w.ker), w.ker.table, c.op.session;
    RanBooks(w, w', index, c);
    ExecutedHitsItsSlot(w, c.op);
    BitOfOutstanding(Outstanding(w.lib, w.ker), w.lib.sessions, w.cfg.listenFd, c.op);
    assert SlotFdOk(un, t, w.lib.sessions[i], i);
    FdClose(un, t, w.lib.sessions, i);
    WaitingGrow(Completions(w.ker), t, w.cfg.listenFd, c);
    WaitingClose(Completions(w'.ker), t, w.cfg.listenFd, c.op.fd);
  }

  lemma RunPlainKeepsDescriptors(w: World, w': World, index: nat, c: Cqe)
    requires DescriptorInv(w) && Ran(w, w', index, c) && c.op.kind != Close && !c.Accepted()
    requires w'.ker.table == w.ker.table
    ensures DescriptorInv(w')
  {
    RanBooks(w, w', index, c);
    FdRun(Unexecuted(w.lib, w.ker), w.ker.table, w.lib.sessions, c.op);
    WaitingGrow(Completions(w.ker), w.ker.table, w.cfg.listenFd, c);
  }

  lemma WaitingAccept(all: multiset<Cqe>, t: Table, listenFd: int, c: Cqe)
    requires WaitingInv(all, t, listenFd) && c.Accepted() && c.op == AcceptOp(listenFd)
    requires c.res !in t.fds && c.conn !in t.owner
    ensures WaitingInv(all + multiset{c}, OpenFd(t, c.res, c.conn, Waiting(c.res)), listenFd)
  {
    var t' := OpenFd(t, c.res, c.conn, Waiting(c.res));
    forall x: Cqe | x in all && x.Accepted() ensures x != c {
      assert WaitingOk(all, t, listenFd, x);
    }
    forall x: Cqe | x in all + multiset{c} && x.Accepted()
      ensures WaitingOk(all + multiset{c}, t', listenFd, x)
    {
      if x != c { assert WaitingOk(all, t, listenFd, x); }
    }
  }

  lemma RunAcceptKeepsDescriptors(w: World, w': World, index: nat, c: Cqe)
    requires OpsInv(Outstanding(w.lib, w.ker), w.lib.sessions, w.cfg.listenFd)
    requires DescriptorInv(w) && Ran(w, w', index, c) && c.Accepted() && c.op.fd != -1
    requires c.res !in w.ker.table.fds && c.conn !in w.ker.table.owner
    requires w'.ker.table == OpenFd(w.ker.table, c.res, c.conn, Waiting(c.res))
    ensures DescriptorInv(w')
  {
    var un, t := Unexecuted(w.lib, w.ker), w.ker.table;
    RanBooks(w, w', index, c);
    assert OpOk(w.lib.sessions, w.cfg.listenFd, c.op);
    FdOpen(un, t, w.lib.sessions, c.res, c.conn, Waiting(c.res));
    FdRun(un, w'.ker.table, w.lib.sessions, c.op);
    WaitingAccept(Completions(w.ker), t, w.cfg.listenFd, c);
  }

  lemma RanKeepsOther(w: World, w': World, index: nat, c: Cqe)
    requires LedgerInv(w) && HistoryInv(w) && Ran(w, w', index, c)
    ensures LedgerInv(w') && HistoryInv(w')
  {
    RanBooks(w, w', index, c);
  }

  lemma RanKeeps(w: World, w': World, index: nat, c: Cqe)
    requires Inv(w) && Ran(w, w', index, c) && DescriptorInv(w')
    ensures Inv(w')
  {
    RanKeepsWakeups(w, w', index, c);
    RanKeepsOther(w, w', index, c);
  }

  lemma ExecuteRuns(w: World, index: nat, res: int, conn: int, dequeue: bool)
    requires CanExecute(w.ker, index, res, conn)
    ensures Ran(w, w.(ker := DoExecute(w.ker, index, res, conn, dequeue)), index, Cqe(w.ker.pending[index], res, conn))
  {
  }

  lemma ExecuteKeeps(w: World, index: nat, res: int, conn: int, dequeue: bool)
    requires Inv(w) && CanExecute(w.ker, index, res, conn)
    ensures Inv(w.(ker := DoExecute(w.ker, index, res, conn, dequeue)))
  {
    var w', c := w.(ker := DoExecute(w.ker, index, res, conn, dequeue)), Cqe(w.ker.pending[index], res, conn);
    ExecuteRuns(w, index, res, conn, dequeue);
    if c.op.kind == Close {
      RunCloseKeepsDescriptors(w, w', index, c);
    } else if c.Accepted() {
      RunAcceptKeepsDescriptors(w, w', index, c);
    } else {
      RunPlainKeepsDescriptors(w, w', index, c);
    }
    RanKeeps(w, w', index, c);
  }
}
