/** The calls of the consumer keep the invariant. */
module Calls {
  import opened Types
  import opened Pipeline
  import opened World
  import opened Invariant
  import opened Ledger

  /* mcon_create */

  lemma InitHolds(cfg: Config)
    requires cfg.Valid()
    ensures Inv(Init(cfg))
  {
    var w := Init(cfg);
    EmptyIsEmpty();
    BitsHeldFresh(cfg.sessionCount);
    assert Unexecuted(w.lib, w.ker) == multiset{};
    assert Executed(w.ker) == multiset{};
    assert Outstanding(w.lib, w.ker) == multiset{};
    forall i | 0 <= i < cfg.sessionCount ensures i in w.lib.free {
      assert w.lib.free[cfg.sessionCount - 1 - i] == i;
    }
  }

  /* Session operations */

  lemma BalanceTake(log: seq<Obs>, all: Bag, ss: seq<Session>, i: nat, kind: Kind)
    requires BalanceInv(log, all, ss)
    requires i < |ss| && ss[i].Active() && kind != Accept
    ensures BalanceInv(log + [Took(i, kind)], all + multiset{OpAt(ss[i], i, kind)}, ss[i := Mark(ss[i], kind)])
  {
    var op, o := OpAt(ss[i], i, kind), Took(i, kind);
    var ss' := ss[i := Mark(ss[i], kind)];
    forall j, k | 0 <= j < |ss'| && k != Accept
      ensures BalanceOk(log + [o], all + multiset{op}, ss'[j], j, k)
    {
      assert BalanceOk(log, all, ss[j], j, k);
      CountTookAppend(log, o, j, k);
      CountToldAppend(log, o, j, CompletionType(k));
    }
  }

  lemma HangupKept(log: seq<Obs>, o: Obs, ss: seq<Session>, i: nat, s: Session)
    requires HangupInv(log, ss) && i < |ss| && s.rdhup == ss[i].rdhup
    requires o.Told? ==> !o.note.Opened? && o.event.etype != RemoteHangup
    ensures HangupInv(log + [o], ss[i := s])
  {
    var ss' := ss[i := s];
    forall j | 0 <= j < |ss'| ensures HangupsSince(log + [o], j) == Bit(ss'[j].rdhup) {
      HangupsSinceAppend(log, o, j);
      assert HangupsSince(log, j) == Bit(ss[j].rdhup);
    }
  }

  lemma LogKept(log: seq<Obs>, o: Obs)
    requires LogInv(log) && SameIncarnation(o) && OpensWithConnection(o) && CompletionIsNoted(o)
    ensures LogInv(log + [o])
  {
  }

  /** An accepted operation enters the pipeline, and nothing else in it changes. */
  lemma SessionIoAdds(w: World, i: nat, kind: Kind)
    requires kind != Accept && DoSessionIo(w, i, kind).1 == Ok
    ensures var w' := DoSessionIo(w, i, kind).0;
      && Unexecuted(w'.lib, w'.ker) == Unexecuted(w.lib, w.ker) + multiset{OpAt(w.lib.sessions[i], i, kind)}
      && Outstanding(w'.lib, w'.ker) == Outstanding(w.lib, w.ker) + multiset{OpAt(w.lib.sessions[i], i, kind)}
      && Size(w'.lib.queue) == Size(w.lib.queue) + 1
  {
    FlatGrows(w.lib.queue, Priority(kind), [OpAt(w.lib.sessions[i], i, kind)]);
  }

  /** From `w` to `w'` slot i has taken an operation on. */
  ghost predicate Taken(w: World, w': World, i: nat, kind: Kind) {
    var ss := w.lib.sessions;
    && kind != Accept && i < |ss| && ss[i].Active() && !Conflicts(ss[i], kind)
    && w'.cfg == w.cfg && w'.registered == w.registered && w'.log == w.log + [Took(i, kind)]
    && w'.lib.sessions == ss[i := Mark(ss[i], kind)] && w'.lib.free == w.lib.free
    && w'.lib.acceptsLive == w.lib.acceptsLive && w'.ker.table == w.ker.table
    && Completions(w'.ker) == Completions(w.ker)
    && Unexecuted(w'.lib, w'.ker) == Unexecuted(w.lib, w.ker) + multiset{OpAt(ss[i], i, kind)}
    && Outstanding(w'.lib, w'.ker) == Outstanding(w.lib, w.ker) + multiset{OpAt(ss[i], i, kind)}
  }

  lemma SessionIoTakes(w: World, i: nat, kind: Kind)
    requires kind != Accept && DoSessionIo(w, i, kind).1 == Ok
    ensures Taken(w, DoSessionIo(w, i, kind).0, i, kind)
  {
    SessionIoAdds(w, i, kind);
  }

  lemma TakenKeepsLedger(w: World, w': World, i: nat, kind: Kind)
    requires LedgerInv(w) && Taken(w, w', i, kind)
    ensures LedgerInv(w')
  {
    LedgerTake(Outstanding(w.lib, w.ker), w.lib.sessions, w.lib.acceptsLive, i, kind, w.cfg.listenFd);
  }

  lemma LedgerTake(all: Bag, ss: seq<Session>, live: int, i: nat, kind: Kind, listenFd: int)
    requires OpsInv(all, ss, listenFd) && SlotsInv(all, ss) && SizeInv(all, live, ss)
    requires i < |ss| && ss[i].Active() && kind != Accept && !Conflicts(ss[i], kind)
    ensures var all', ss' := all + multiset{OpAt(ss[i], i, kind)}, ss[i := Mark(ss[i], kind)];
      OpsInv(all', ss', listenFd) && SlotsInv(all', ss') && SizeInv(all', live, ss')
  {
    OpsTake(all, ss, listenFd, i, kind);
    SlotsTake(all, ss, i, kind);
    BitsHeldUpdate(ss, i, Mark(ss[i], kind));
  }

  lemma TakenKeepsDescriptors(w: World, w': World, i: nat, kind: Kind)
    requires DescriptorInv(w) && Taken(w, w', i, kind)
    ensures DescriptorInv(w')
  {
    FdTake(Unexecuted(w.lib, w.ker), w.ker.table, w.lib.sessions, i, kind);
    RegisteredOther(w.lib.sessions, w.registered, i, Mark(w.lib.sessions[i], kind));
  }

  lemma TakenKeepsHistory(w: World, w': World, i: nat, kind: Kind)
    requires HistoryInv(w) && Taken(w, w', i, kind)
    ensures HistoryInv(w')
  {
    BalanceTake(w.log, Outstanding(w.lib, w.ker), w.lib.sessions, i, kind);
    HangupKept(w.log, Took(i, kind), w.lib.sessions, i, Mark(w.lib.sessions[i], kind));
    LogKept(w.log, Took(i, kind));
  }

  lemma SessionIoKeepsRest(w: World, i: nat, kind: Kind)
    requires Shape(w) && FreeInv(w.lib.sessions, w.lib.free) && WakeupInv(w)
    requires kind != Accept && DoSessionIo(w, i, kind).1 == Ok
    ensures var w' := DoSessionIo(w, i, kind).0;
      Shape(w') && FreeInv(w'.lib.sessions, w'.lib.free) && WakeupInv(w')
  {
    SessionIoAdds(w, i, kind);
    FreeSame(w.lib.sessions, w.lib.free, i, Mark(w.lib.sessions[i], kind));
  }

  lemma SessionIoKeeps(w: World, i: nat, kind: Kind)
    requires Inv(w) && kind != Accept
    ensures Inv(DoSessionIo(w, i, kind).0)
  {
    if DoSessionIo(w, i, kind).1 == Ok {
      var w' := DoSessionIo(w, i, kind).0;
      SessionIoTakes(w, i, kind);
      TakenKeepsLedger(w, w', i, kind);
      TakenKeepsDescriptors(w, w', i, kind);
      TakenKeepsHistory(w, w', i, kind);
      SessionIoKeepsRest(w, i, kind);
    }
  }

  /* mcon_session_detach */

  /** Under the invariant a session that may be detached is registered, and the push succeeds. */
  lemma DetachPushes(w: World, i: nat, del: DelResult)
    requires Inv(w) && Validate(w.lib, i, Close) == Ok
    ensures |w.lib.free| < |w.lib.sessions|
    ensures TruthfulDel(w, i, del) ==> del != DelNoEntry
  {
    PushCannotFail(w.lib.sessions, w.lib.free, i);
    assert SlotFdOk(Unexecuted(w.lib, w.ker), w.ker.table, w.lib.sessions[i], i);
  }

  /** From `w` to `w'` the idle slot i has been detached; the pipeline is left alone. */
  ghost predicate Detached(w: World, w': World, i: nat) {
    var ss := w.lib.sessions;
    && i < |ss| && ss[i].Active() && ss[i].Idle()
    && w'.cfg == w.cfg && w'.registered == w.registered && w'.log == w.log
    && w'.lib.sessions == ss[i := NextIncarnation(ss[i])] && w'.lib.free == w.lib.free + [i]
    && w'.lib.acceptsLive == w.lib.acceptsLive && w'.ker.table == Disown(w.ker.table, ss[i].conn, Foreign)
    && Completions(w'.ker) == Completions(w.ker)
    && Unexecuted(w'.lib, w'.ker) == Unexecuted(w.lib, w.ker)
    && Outstanding(w'.lib, w'.ker) == Outstanding(w.lib, w.ker)
  }

  lemma DetachDetaches(w: World, i: nat)
    requires DoDetach(w, i, DelOk).1 == Ok
    ensures Detached(w, DoDetach(w, i, DelOk).0, i)
  {
  }

  lemma RetireIdleSlot(all: Bag, ss: seq<Session>, listenFd: int, i: nat)
    requires OpsInv(all, ss, listenFd) && SlotsInv(all, ss)
    requires i < |ss| <= MAX_SESSIONS && ss[i].Idle()
    ensures OpsInv(all, ss[i := NextIncarnation(ss[i])], listenFd)
    ensures SlotsInv(all, ss[i := NextIncarnation(ss[i])])
    ensures BitsHeld(ss[i := NextIncarnation(ss[i])]) == BitsHeld(ss)
  {
    var s' := NextIncarnation(ss[i]);
    assert SlotOk(all, ss[i], i);
    ResidueNext(ss[i].epoch);
    IdleSlotIsQuiet(all, ss, listenFd, i);
    OpsOther(all, ss, listenFd, i, s');
    SlotsOther(all, ss, i, s');
    BitsHeldUpdate(ss, i, s');
  }

  lemma DetachKeepsLedger(w: World, w': World, i: nat)
    requires Shape(w) && LedgerInv(w) && Detached(w, w', i)
    ensures LedgerInv(w')
  {
    RetireIdleSlot(Outstanding(w.lib, w.ker), w.lib.sessions, w.cfg.listenFd, i);
  }

  /** A slot that gives its connection up leaves every other slot's claim intact. */
  lemma FdRelease(un: Bag, t: Table, t': Table, ss: seq<Session>, i: nat, s: Session, owner: Owner)
    requires FdInv(un, t, ss) && i < |ss| && ss[i].Active() && !s.Active()
    requires t'.fds == t.fds && t'.owner == t.owner[ss[i].conn := owner]
    requires t'.interest == t.interest || t'.interest == t.interest - {ss[i].conn}
    ensures FdInv(un, t', ss[i := s])
  {
    var ss' := ss[i := s];
    assert SlotFdOk(un, t, ss[i], i);
    forall j | 0 <= j < |ss'| ensures SlotFdOk(un, t', ss'[j], j) {
      assert SlotFdOk(un, t, ss[j], j);
    }
  }

  lemma WaitingRelease(all: multiset<Cqe>, t: Table, t': Table, listenFd: int, conn: int, owner: Owner)
    requires WaitingInv(all, t, listenFd)
    requires conn in t.owner ==> !t.owner[conn].Waiting?
    requires t'.owner == t.owner[conn := owner] && t'.fds == t.fds
    ensures WaitingInv(all, t', listenFd)
  {
    forall c: Cqe | c in all && c.Accepted() ensures WaitingOk(all, t', listenFd, c) {
      assert WaitingOk(all, t, listenFd, c);
    }
  }

  lemma DetachKeepsDescriptors(w: World, w': World, i: nat)
    requires DescriptorInv(w) && Detached(w, w', i)
    ensures DescriptorInv(w')
  {
    var ss, s', t := w.lib.sessions, NextIncarnation(w.lib.sessions[i]), w.ker.table;
    assert SlotFdOk(Unexecuted(w.lib, w.ker), t, ss[i], i);
    FdRelease(Unexecuted(w.lib, w.ker), t, w'.ker.table, ss, i, s', Foreign);
    WaitingRelease(Completions(w.ker), t, w'.ker.table, w.cfg.listenFd, ss[i].conn, Foreign);
    RegisteredOther(ss, w.registered, i, s');
  }

  lemma BalanceOther(log: seq<Obs>, all: Bag, ss: seq<Session>, i: nat, s: Session)
    requires BalanceInv(log, all, ss) && SlotsInv(all, ss) && i < |ss| && ss[i].Active() && ss[i].Idle() && !s.Active()
    ensures BalanceInv(log, all, ss[i := s])
  {
    var ss' := ss[i := s];
    assert SlotOk(all, ss[i], i);
    forall j, k | 0 <= j < |ss'| && k != Accept ensures BalanceOk(log, all, ss'[j], j, k) {
      assert BalanceOk(log, all, ss[j], j, k);
    }
  }

  lemma DetachKeepsHistory(w: World, w': World, i: nat)
    requires HistoryInv(w) && SlotsInv(Outstanding(w.lib, w.ker), w.lib.sessions) && Detached(w, w', i)
    ensures HistoryInv(w')
  {
    BalanceOther(w.log, Outstanding(w.lib, w.ker), w.lib.sessions, i, NextIncarnation(w.lib.sessions[i]));
  }

  lemma DetachKeepsRest(w: World, i: nat)
    requires Shape(w) && FreeInv(w.lib.sessions, w.lib.free) && WakeupInv(w)
    requires DoDetach(w, i, DelOk).1 == Ok
    ensures var w' := DoDetach(w, i, DelOk).0;
      Shape(w') && FreeInv(w'.lib.sessions, w'.lib.free) && WakeupInv(w')
  {
    var s' := NextIncarnation(w.lib.sessions[i]);
    FreePush(w.lib.sessions, w.lib.free, i, s');
  }

  lemma DetachKeeps(w: World, i: nat, del: DelResult)
    requires Inv(w) && TruthfulDel(w, i, del)
    ensures Inv(DoDetach(w, i, del).0)
  {
    if Validate(w.lib, i, Close) == Ok {
      DetachPushes(w, i, del);
      if del == DelOk {
        var w' := DoDetach(w, i, DelOk).0;
        DetachDetaches(w, i);
        DetachKeepsLedger(w, w', i);
        DetachKeepsDescriptors(w, w', i);
        DetachKeepsHistory(w, w', i);
        DetachKeepsRest(w, i);
      }
    }
  }

  /* mcon_submit, first the accepts */

  lemma RepeatBag<T>(x: T, n: nat)
    ensures multiset(Repeat(x, n)) == multiset{}[x := n]
  {
    if n > 0 {
      RepeatBag(x, n - 1);
      assert Repeat(x, n) == Repeat(x, n - 1) + [x];
    }
  }

  /** Two bags that agree on every operation of a session. */
  ghost predicate SameSessionOps(all: Bag, all': Bag) {
    forall op: Op :: op.kind != Accept ==> all[op] == all'[op]
  }

  lemma WithAcceptsAdds(lib: Lib, ker: Kernel, n: nat)
    ensures Unexecuted(WithAccepts(lib, n), ker) == Unexecuted(lib, ker) + multiset{}[AcceptOp(lib.serverFd) := n]
    ensures Outstanding(WithAccepts(lib, n), ker) == Outstanding(lib, ker) + multiset{}[AcceptOp(lib.serverFd) := n]
    ensures Size(WithAccepts(lib, n).queue) == Size(lib.queue) + n
  {
    if n > 0 {
      FlatGrows(lib.queue, 4, Repeat(AcceptOp(lib.serverFd), n));
      RepeatBag(AcceptOp(lib.serverFd), n);
    }
  }

  lemma SlotsSame(all: Bag, all': Bag, ss: seq<Session>)
    requires SlotsInv(all, ss) && SameSessionOps(all, all')
    ensures SlotsInv(all', ss)
  {
    forall i | 0 <= i < |ss| ensures SlotOk(all', ss[i], i) {
      assert SlotOk(all, ss[i], i);
    }
  }

  lemma FdSame(un: Bag, un': Bag, t: Table, ss: seq<Session>)
    requires FdInv(un, t, ss) && SameSessionOps(un, un')
    ensures FdInv(un', t, ss)
  {
    forall i | 0 <= i < |ss| ensures SlotFdOk(un', t, ss[i], i) {
      assert SlotFdOk(un, t, ss[i], i);
      assert (OpAt(ss[i], i, Close) in un) == (OpAt(ss[i], i, Close) in un');
    }
  }

  lemma BalanceSame(log: seq<Obs>, all: Bag, all': Bag, ss: seq<Session>)
    requires BalanceInv(log, all, ss) && SameSessionOps(all, all')
    ensures BalanceInv(log, all', ss)
  {
    forall i, kind | 0 <= i < |ss| && kind != Accept ensures BalanceOk(log, all', ss[i], i, kind) {
      assert BalanceOk(log, all, ss[i], i, kind);
    }
  }

  lemma WithAcceptsAddsOnlyAccepts(lib: Lib, ker: Kernel, n: nat)
    ensures SameSessionOps(Unexecuted(lib, ker), Unexecuted(WithAccepts(lib, n), ker))
    ensures SameSessionOps(Outstanding(lib, ker), Outstanding(WithAccepts(lib, n), ker))
  {
    WithAcceptsAdds(lib, ker, n);
  }

  lemma OpsAccepts(all: Bag, ss: seq<Session>, listenFd: int, fd: int, n: nat)
    requires OpsInv(all, ss, listenFd) && fd in {-1, listenFd}
    ensures OpsInv(all + multiset{}[AcceptOp(fd) := n], ss, listenFd)
  {
    forall op | op in all + multiset{}[AcceptOp(fd) := n] ensures OpOk(ss, listenFd, op) {
      assert op != AcceptOp(fd) ==> op in all;
    }
  }

  /** Accepts added within the limits keep what is said of the outstanding operations. */
  lemma LedgerAccepts(all: Bag, ss: seq<Session>, live: int, free: nat, cfg: Config, fd: int, n: nat)
    requires OpsInv(all, ss, cfg.listenFd) && SlotsInv(all, ss) && AcceptInv(all, live, free, cfg)
    requires SizeInv(all, live, ss) && fd in {-1, cfg.listenFd} && 0 <= cfg.listenFd
    requires n > 0 ==> live + n <= free && live + n <= cfg.maxAccepts
    ensures var all' := all + multiset{}[AcceptOp(fd) := n];
      && OpsInv(all', ss, cfg.listenFd) && SlotsInv(all', ss)
      && AcceptInv(all', live + n, free, cfg) && SizeInv(all', live + n, ss)
  {
    OpsAccepts(all, ss, cfg.listenFd, fd, n);
    SlotsSame(all, all + multiset{}[AcceptOp(fd) := n], ss);
  }

  lemma QuotaFits(cfg: Config, lib: Lib)
    ensures var n := AcceptQuota(cfg, lib);
      n > 0 ==> lib.acceptsLive + n <= |lib.free| && lib.acceptsLive + n <= cfg.maxAccepts
  {
  }

  /** What of the fields the ledger speaks about. */
  lemma WithAcceptsFields(lib: Lib, n: nat)
    ensures var lib' := WithAccepts(lib, n);
      lib'.sessions == lib.sessions && lib'.free == lib.free && lib'.acceptsLive == lib.acceptsLive + n
  {
  }

  lemma WithAcceptsKeepsLedger(w: World, n: nat)
    requires Shape(w) && LedgerInv(w) && n == AcceptQuota(w.cfg, w.lib)
    ensures LedgerInv(w.(lib := WithAccepts(w.lib, n)))
  {
    WithAcceptsAdds(w.lib, w.ker, n);
    WithAcceptsFields(w.lib, n);
    QuotaFits(w.cfg, w.lib);
    LedgerAccepts(Outstanding(w.lib, w.ker), w.lib.sessions, w.lib.acceptsLive, |w.lib.free|, w.cfg, w.lib.serverFd, n);
  }

  lemma WithAcceptsKeepsDescriptors(w: World, n: nat)
    requires DescriptorInv(w)
    ensures DescriptorInv(w.(lib := WithAccepts(w.lib, n)))
  {
    WithAcceptsAddsOnlyAccepts(w.lib, w.ker, n);
    FdSame(Unexecuted(w.lib, w.ker), Unexecuted(WithAccepts(w.lib, n), w.ker), w.ker.table, w.lib.sessions);
  }

  lemma WithAcceptsKeepsHistory(w: World, n: nat)
    requires HistoryInv(w)
    ensures HistoryInv(w.(lib := WithAccepts(w.lib, n)))
  {
    WithAcceptsAddsOnlyAccepts(w.lib, w.ker, n);
    BalanceSame(w.log, Outstanding(w.lib, w.ker), Outstanding(WithAccepts(w.lib, n), w.ker), w.lib.sessions);
  }

  lemma WithAcceptsKeepsRest(w: World, n: nat)
    requires Shape(w) && WakeupInv(w) && n == AcceptQuota(w.cfg, w.lib)
    ensures Shape(w.(lib := WithAccepts(w.lib, n))) && WakeupInv(w.(lib := WithAccepts(w.lib, n)))
  {
    WithAcceptsAdds(w.lib, w.ker, n);
  }

  lemma WithAcceptsKeeps(w: World, n: nat)
    requires Inv(w) && n == AcceptQuota(w.cfg, w.lib)
    ensures Inv(w.(lib := WithAccepts(w.lib, n)))
  {
    WithAcceptsKeepsLedger(w, n);
    WithAcceptsKeepsDescriptors(w, n);
    WithAcceptsKeepsHistory(w, n);
    WithAcceptsKeepsRest(w, n);
  }

  /* mcon_submit, then the transfer into the SQ, then the system call */

  lemma TransferKeepsBooks(w: World, n: nat)
    requires n <= Size(w.lib.queue)
    ensures SameBooks(w, Transfer(w, n))
    ensures Size(Transfer(w, n).lib.queue) == Size(w.lib.queue) - n
  {
    DropFirstIsSuffix(w.lib.queue, n);
    SplitBag(Flat(w.lib.queue), n);
  }

  lemma TransferKeepsRest(w: World, n: nat)
    requires Shape(w) && WakeupInv(w) && n == TransferSize(w.cfg, w.lib, w.ker)
    ensures Shape(Transfer(w, n)) && WakeupInv(Transfer(w, n))
  {
    TransferKeepsBooks(w, n);
  }

  lemma TransferKeeps(w: World)
    requires Inv(w)
    ensures Inv(Transfer(w, TransferSize(w.cfg, w.lib, w.ker)))
  {
    var n := TransferSize(w.cfg, w.lib, w.ker);
    TransferKeepsBooks(w, n);
    TransferKeepsRest(w, n);
    BooksKept(w, Transfer(w, n));
  }

  lemma WrapTwice(x: int, y: int)
    ensures Wrap16(Wrap16(x) + y) == Wrap16(x + y)
  {
  }

  lemma HandoverKeepsBooks(w: World, ret: int)
    requires ret <= |w.ker.sq|
    ensures SameBooks(w, Handover(w, ret))
  {
    if ret >= 0 { SplitBag(w.ker.sq, ret); }
  }

  lemma HandoverKeepsRest(w: World, ret: int)
    requires Shape(w) && WakeupInv(w) && ret <= |w.ker.sq|
    ensures Shape(Handover(w, ret)) && WakeupInv(Handover(w, ret))
  {
    if ret >= 0 {
      HandoverKeepsBooks(w, ret);
      WrapTwice(Submitted(w.ker) + w.addFailures + InHand(w.ctl), ret);
    }
  }

  lemma HandoverKeeps(w: World, ret: int)
    requires Inv(w) && ret <= |w.ker.sq|
    ensures Inv(Handover(w, ret))
  {
    HandoverKeepsBooks(w, ret);
    HandoverKeepsRest(w, ret);
    BooksKept(w, Handover(w, ret));
  }

  lemma StagedKeeps(w: World)
    requires Inv(w)
    ensures Inv(Staged(w))
  {
    WithAcceptsKeeps(w, AcceptQuota(w.cfg, w.lib));
    TransferKeeps(w.(lib := WithAccepts(w.lib, AcceptQuota(w.cfg, w.lib))));
  }

  lemma SubmitKeeps(w: World, ret: int)
    requires Inv(w) && ret <= |Staged(w).ker.sq|
    ensures Inv(DoSubmit(w, ret))
  {
    StagedKeeps(w);
    if MovedBySubmit(w) != 0 {
      HandoverKeeps(Staged(w), ret);
    }
  }

  /* mcon_start, mcon_shutdown and the listening socket */

  lemma StartKeepsRest(w: World, ok: bool)
    requires Shape(w) && WakeupInv(w) && !w.started
    ensures SameBooks(w, DoStart(w, ok)) && Shape(DoStart(w, ok)) && WakeupInv(DoStart(w, ok))
  {
  }

  lemma StartKeeps(w: World, ok: bool)
    requires Inv(w) && !w.started
    ensures Inv(DoStart(w, ok))
  {
    StartKeepsRest(w, ok);
    BooksKept(w, DoStart(w, ok));
  }

  lemma ShutdownKeepsRest(w: World, delOk: bool)
    requires Shape(w) && WakeupInv(w)
    ensures var w' := DoShutdown(w, delOk).0; SameBooks(w, w') && Shape(w') && WakeupInv(w')
  {
  }

  lemma ShutdownKeeps(w: World, delOk: bool)
    requires Inv(w)
    ensures Inv(DoShutdown(w, delOk).0)
  {
    ShutdownKeepsRest(w, delOk);
    BooksKept(w, DoShutdown(w, delOk).0);
  }

  lemma ServerEventKeepsRest(w: World, readable: bool)
    requires Shape(w) && WakeupInv(w)
    ensures var w' := DoServerEvent(w, readable); SameBooks(w, w') && Shape(w') && WakeupInv(w')
  {
  }

  lemma ServerEventKeeps(w: World, readable: bool)
    requires Inv(w)
    ensures Inv(DoServerEvent(w, readable))
  {
    ServerEventKeepsRest(w, readable);
    BooksKept(w, DoServerEvent(w, readable));
  }
}
