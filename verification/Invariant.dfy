/** What holds in every reachable state, split by concern. Each predicate takes only
    the parts of the state it speaks about. */
module Invariant {
  import opened Types
  import opened Pipeline
  import opened World

  type Bag = multiset<Op>

  /* The predicates */

  ghost predicate Shape(w: World) {
    && w.cfg.Valid()
    && |w.lib.sessions| == w.cfg.sessionCount
    && |w.ker.sq| <= w.cfg.sqEntries
    && |w.ker.cq| <= w.cfg.CqEntries()
    && Size(w.lib.queue) <= w.cfg.ioQueueSize
    && (w.lib.serverFd == -1 <==> w.lib.epollFd == -1)
    && w.lib.serverFd in {-1, w.cfg.listenFd}
    && (!w.started ==> w.lib.serverFd == -1)
    && (w.lib.shuttingDown ==> w.lib.serverFd != -1)
  }

  /** The free stack is duplicate-free and holds exactly the inactive slots. */
  ghost predicate FreeInv(ss: seq<Session>, free: seq<int>) {
    && (forall i, j :: 0 <= i < j < |free| ==> free[i] != free[j])
    && (forall k :: 0 <= k < |free| ==> 0 <= free[k] < |ss| && !ss[free[k]].Active())
    && (forall i :: 0 <= i < |ss| && !ss[i].Active() ==> i in free)
  }

  /** An outstanding operation is the one its slot would issue now. */
  ghost predicate OpOk(ss: seq<Session>, listenFd: int, op: Op) {
    if op.kind == Accept then op == AcceptOp(listenFd) || op == AcceptOp(-1)
    else 0 <= op.session < |ss| && ss[op.session].Active() && op == OpAt(ss[op.session], op.session, op.kind)
  }

  ghost predicate OpsInv(all: Bag, ss: seq<Session>, listenFd: int) {
    forall op :: op in all ==> OpOk(ss, listenFd, op)
  }

  /** The remainder by 256, without a division. */
  function Residue(n: nat): nat { if n < 256 then n else Residue(n - 256) }

  /** The state bits of a slot are an exact ledger of its outstanding operations. */
  ghost predicate SlotOk(all: Bag, s: Session, i: int) {
    && s.generation == Residue(s.epoch)
    && (s.closing ==> !s.reading && !s.writing)
    && (if s.Active() then
          && all[OpAt(s, i, Read)] + all[OpAt(s, i, Drain)] == Bit(s.reading)
          && all[OpAt(s, i, Write)] == Bit(s.writing)
          && all[OpAt(s, i, Close)] == Bit(s.closing)
        else s.Idle())
  }

  ghost predicate SlotsInv(all: Bag, ss: seq<Session>) {
    forall i :: 0 <= i < |ss| ==> SlotOk(all, ss[i], i)
  }

  /** accepts_live counts the outstanding accepts, and each of them has a free slot reserved. */
  ghost predicate AcceptInv(all: Bag, live: int, free: nat, cfg: Config) {
    && all[AcceptOp(cfg.listenFd)] + all[AcceptOp(-1)] == live
    && live <= free
    && live <= cfg.maxAccepts
  }

  /** The session holds its connection: its close, if any, has not been executed. */
  ghost predicate Holds(unexecuted: Bag, s: Session, i: int) {
    s.Active() && (s.closing ==> OpAt(s, i, Close) in unexecuted)
  }

  /** No open descriptor leads to the connection. */
  ghost predicate Unreachable(t: Table, conn: int) {
    forall f :: f in t.fds ==> t.fds[f] != conn
  }

  ghost predicate SlotFdOk(unexecuted: Bag, t: Table, s: Session, i: int) {
    s.Active() ==>
      && s.conn in t.owner && t.owner[s.conn] == Slot(i)
      && (if Holds(unexecuted, s, i) then
            && s.fd in t.fds && t.fds[s.fd] == s.conn
            && s.conn in t.interest && t.interest[s.conn] == Registration(i, s.generation, s.epoch, s.conn)
          else Unreachable(t, s.conn))
  }

  ghost predicate FdInv(unexecuted: Bag, t: Table, ss: seq<Session>) {
    forall i :: 0 <= i < |ss| ==> SlotFdOk(unexecuted, t, ss[i], i)
  }

  /** Every open descriptor belongs to a known connection, and a connection has one descriptor. */
  ghost predicate TableInv(t: Table) {
    && (forall f :: f in t.fds ==> 0 <= f && t.fds[f] in t.owner)
    && (forall f, g :: f in t.fds && g in t.fds && t.fds[f] == t.fds[g] ==> f == g)
  }

  /** A successful accept completion carries the only handle on its connection. */
  ghost predicate WaitingOk(all: multiset<Cqe>, t: Table, listenFd: int, c: Cqe) {
    && all[c] == 1
    && c.op == AcceptOp(listenFd)
    && c.conn in t.owner && t.owner[c.conn] == Waiting(c.res)
    && c.res in t.fds && t.fds[c.res] == c.conn
  }

  ghost predicate WaitingInv(all: multiset<Cqe>, t: Table, listenFd: int) {
    forall c: Cqe :: c in all && c.Accepted() ==> WaitingOk(all, t, listenFd, c)
  }

  ghost predicate RegistrationOk(ss: seq<Session>, r: Registration) {
    && 0 <= r.session < |ss|
    && r.generation == Residue(r.epoch)
    && r.epoch <= ss[r.session].epoch
    && (r.epoch == ss[r.session].epoch ==> ss[r.session].Active() && ss[r.session].conn == r.conn)
  }

  /** A registration of a slot's present incarnation is for the connection it now holds. */
  ghost predicate RegisteredInv(ss: seq<Session>, registered: set<Registration>) {
    forall r :: r in registered ==> RegistrationOk(ss, r)
  }

  ghost predicate AcceptPending(w: World) {
    || w.ker.edgeReady || w.ker.edgesHeld > 0
    || w.lib.acceptsRequested
    || AcceptOp(w.cfg.listenFd) in Unexecuted(w.lib, w.ker)
    || exists c: Cqe :: c in Completions(w.ker) && c.Hot()
  }

  /** No connection waits in the backlog without something that will lead to its accept. */
  ghost predicate AcceptWakeup(w: World) {
    Listening(w.lib) && w.ker.backlog > 0 ==> AcceptPending(w)
  }

  /** No completion waits in the CQ unannounced, except where the handler is about to look. */
  ghost predicate CompletionWakeup(ker: Kernel, ctl: Control) {
    ker.cq != [] && !ctl.Checking? && !ctl.Arming? ==> ker.eventfd > 0 || ker.signalsDue > 0
  }

  /** The CQE just processed has been consumed, so the next peek finds another address. */
  ghost predicate ControlOk(w: World) {
    match w.ctl
    case Looping(cap, count, _) => count <= cap
    case Counting(cap, count, _, slot, produced) =>
      && count < cap && produced <= 1
      && w.cfg.sqEntries > 0 && w.ker.seen > 0
      && slot == Address(w.ker.seen - 1, w.cfg.CqEntries())
    case _ => true
  }

  /** The operation whose completion is consumed but not accounted for yet. */
  function InHand(ctl: Control): nat { Bit(ctl.Counting?) }

  ghost predicate InFlightInv(w: World) {
    w.lib.inFlight == Wrap16(Submitted(w.ker) + w.addFailures + InHand(w.ctl))
  }

  /** Number of state bits set over all sessions. */
  function BitsHeld(ss: seq<Session>): nat {
    if ss == [] then 0
    else
      var s := ss[|ss| - 1];
      BitsHeld(ss[..|ss| - 1]) + Bit(s.reading) + Bit(s.writing) + Bit(s.closing)
  }

  ghost predicate SizeInv(all: Bag, live: int, ss: seq<Session>) {
    |all| == live + BitsHeld(ss)
  }

  /* The observer's log */

  function CountTook(log: seq<Obs>, i: int, kind: Kind): nat {
    if log == [] then 0
    else
      var o := log[|log| - 1];
      CountTook(log[..|log| - 1], i, kind) + Bit(o.Took? && o.session == i && o.kind == kind)
  }

  function CountTold(log: seq<Obs>, i: int, etype: EventType): nat {
    if log == [] then 0
    else
      var o := log[|log| - 1];
      CountTold(log[..|log| - 1], i, etype) + Bit(o.Told? && o.event.session == i && o.event.etype == etype)
  }

  /** Hangups reported for a slot since it was last prepared for a client. */
  function HangupsSince(log: seq<Obs>, i: int): nat {
    if log == [] then 0
    else
      var o := log[|log| - 1];
      if o.Told? && o.note.Opened? && o.event.session == i then 0
      else HangupsSince(log[..|log| - 1], i)
           + Bit(o.Told? && o.event.session == i && o.event.etype == RemoteHangup)
  }

  function OutstandingOf(all: Bag, s: Session, i: int, kind: Kind): nat {
    if s.Active() then all[OpAt(s, i, kind)] else 0
  }

  ghost predicate BalanceOk(log: seq<Obs>, all: Bag, s: Session, i: int, kind: Kind) {
    CountTook(log, i, kind) == CountTold(log, i, CompletionType(kind)) + OutstandingOf(all, s, i, kind)
  }

  /** Operations accepted are operations completed plus operations outstanding. */
  ghost predicate BalanceInv(log: seq<Obs>, all: Bag, ss: seq<Session>) {
    forall i, kind :: 0 <= i < |ss| && kind != Accept ==> BalanceOk(log, all, ss[i], i, kind)
  }

  ghost predicate HangupInv(log: seq<Obs>, ss: seq<Session>) {
    forall i :: 0 <= i < |ss| ==> HangupsSince(log, i) == Bit(ss[i].rdhup)
  }

  /** A completion names an active slot in the incarnation that issued the operation. */
  ghost predicate SameIncarnation(o: Obs) {
    o.Told? && o.note.Finished? ==>
      && o.event.session == o.note.op.session && o.note.op.kind != Accept
      && o.note.before.Active()
      && o.note.op == OpAt(o.note.before, o.event.session, o.note.op.kind)
      && o.event.etype == CompletionType(o.note.op.kind)
  }

  /** Only the report of a new connection says that a slot was opened. */
  predicate OpensWithConnection(o: Obs) {
    o.Told? && o.note.Opened? ==> o.event.etype == NewConnection
  }

  /** The report of a completed read, write, drain or close says which operation it was. */
  predicate CompletionIsNoted(o: Obs) {
    o.Told? && o.event.etype in {ReadComplete, WriteComplete, DrainComplete, CloseComplete} ==> o.note.Finished?
  }

  ghost predicate LogInv(log: seq<Obs>) {
    forall k :: 0 <= k < |log| ==>
      SameIncarnation(log[k]) && OpensWithConnection(log[k]) && CompletionIsNoted(log[k])
  }

  /* All of it */

  ghost predicate LedgerInv(w: World) {
    var all := Outstanding(w.lib, w.ker);
    && OpsInv(all, w.lib.sessions, w.cfg.listenFd)
    && SlotsInv(all, w.lib.sessions)
    && AcceptInv(all, w.lib.acceptsLive, |w.lib.free|, w.cfg)
    && SizeInv(all, w.lib.acceptsLive, w.lib.sessions)
  }

  ghost predicate DescriptorInv(w: World) {
    && FdInv(Unexecuted(w.lib, w.ker), w.ker.table, w.lib.sessions)
    && TableInv(w.ker.table)
    && WaitingInv(Completions(w.ker), w.ker.table, w.cfg.listenFd)
    && RegisteredInv(w.lib.sessions, w.registered)
  }

  ghost predicate WakeupInv(w: World) {
    && AcceptWakeup(w)
    && CompletionWakeup(w.ker, w.ctl)
    && ControlOk(w)
    && InFlightInv(w)
  }

  ghost predicate HistoryInv(w: World) {
    && BalanceInv(w.log, Outstanding(w.lib, w.ker), w.lib.sessions)
    && HangupInv(w.log, w.lib.sessions)
    && LogInv(w.log)
  }

  ghost predicate Inv(w: World) {
    && Shape(w)
    && FreeInv(w.lib.sessions, w.lib.free)
    && LedgerInv(w)
    && DescriptorInv(w)
    && WakeupInv(w)
    && HistoryInv(w)
  }

  /** The two states agree on all that the ledger, the descriptors and the history speak of:
      they differ at most in where in the pipeline an operation is, and in flags. */
  ghost predicate SameBooks(w: World, w': World) {
    && w'.cfg == w.cfg && w'.log == w.log && w'.registered == w.registered
    && w'.lib.sessions == w.lib.sessions && w'.lib.free == w.lib.free
    && w'.lib.acceptsLive == w.lib.acceptsLive
    && w'.ker.table == w.ker.table
    && Unexecuted(w'.lib, w'.ker) == Unexecuted(w.lib, w.ker)
    && Outstanding(w'.lib, w'.ker) == Outstanding(w.lib, w.ker)
    && Completions(w'.ker) == Completions(w.ker)
  }

  lemma BooksKept(w: World, w': World)
    requires Inv(w) && SameBooks(w, w') && Shape(w') && WakeupInv(w')
    ensures Inv(w')
  {
  }
}
