/** What the invariant means for a consumer: statements about every run of the system. */
module Theorems {
  import opened Types
  import opened Pipeline
  import opened World
  import opened Invariant
  import opened Ledger
  import opened Calls
  import opened ReadinessSteps
  import opened KernelSteps
  import opened Reachability
  import opened Tokens

  /* Outstanding operations, counted by what their user data says */

  /** All outstanding operations, wherever they are. */
  function Journey(w: World): seq<Op> {
    Flat(w.lib.queue) + w.ker.sq + w.ker.pending + OpsOf(w.ker.done) + OpsOf(w.ker.cq)
  }

  function CountOps(ops: seq<Op>, i: int, kind: Kind): nat {
    if ops == [] then 0
    else CountOps(ops[1..], i, kind) + Bit(ops[0].session == i && ops[0].kind == kind)
  }

  lemma JourneyBag(w: World)
    ensures multiset(Journey(w)) == Outstanding(w.lib, w.ker)
  {
  }

  /** If all operations that name slot and kind are one and the same, counting them is its multiplicity. */
  lemma {:induction false} CountIsMultiplicity(ops: seq<Op>, i: int, kind: Kind, it: Op)
    requires forall op :: op in ops && op.session == i && op.kind == kind ==> op == it
    requires it.session == i && it.kind == kind
    ensures CountOps(ops, i, kind) == multiset(ops)[it]
  {
    if ops != [] {
      assert ops == [ops[0]] + ops[1..];
      CountIsMultiplicity(ops[1..], i, kind, it);
    }
  }

  lemma {:induction false} NoneToCount(ops: seq<Op>, i: int, kind: Kind)
    requires forall op :: op in ops ==> op.session != i
    ensures CountOps(ops, i, kind) == 0
  {
    if ops != [] { NoneToCount(ops[1..], i, kind); }
  }

  lemma OutstandingCount(w: World, i: nat, kind: Kind)
    requires LedgerInv(w) && Shape(w) && i < |w.lib.sessions| && kind != Accept
    ensures CountOps(Journey(w), i, kind) == OutstandingOf(Outstanding(w.lib, w.ker), w.lib.sessions[i], i, kind)
  {
    var all, ss, s := Outstanding(w.lib, w.ker), w.lib.sessions, w.lib.sessions[i];
    JourneyBag(w);
    if s.Active() {
      forall op | op in Journey(w) && op.session == i && op.kind == kind ensures op == OpAt(s, i, kind) {
        assert op in all;
        assert OpOk(ss, w.cfg.listenFd, op);
      }
      CountIsMultiplicity(Journey(w), i, kind, OpAt(s, i, kind));
    } else {
      assert SlotOk(all, s, i);
      IdleSlotIsQuiet(all, ss, w.cfg.listenFd, i);
      forall op | op in Journey(w) ensures op.session != i { assert op in all; }
      NoneToCount(Journey(w), i, kind);
    }
  }

  /** The operation ledger: each state bit says exactly how many operations of its kind are outstanding. */
  lemma LedgerIsExact(cfg: Config, steps: seq<Step>, i: nat)
    requires cfg.Valid() && i < cfg.sessionCount
    ensures var w := After(cfg, steps);
      && i < |w.lib.sessions|
      && var ops, s := Journey(w), w.lib.sessions[i];
      && CountOps(ops, i, Read) + CountOps(ops, i, Drain) == Bit(s.reading)
      && CountOps(ops, i, Write) == Bit(s.writing)
      && CountOps(ops, i, Close) == Bit(s.closing)
      && (s.closing ==> !s.reading && !s.writing)
      && (!s.Active() ==> s.Idle())
  {
    Reachable(cfg, steps);
    var w := After(cfg, steps);
    assert SlotOk(Outstanding(w.lib, w.ker), w.lib.sessions[i], i);
    OutstandingCount(w, i, Read);
    OutstandingCount(w, i, Drain);
    OutstandingCount(w, i, Write);
    OutstandingCount(w, i, Close);
  }

  /** Exactly-once completion: what was accepted has been reported, or is still on its way. */
  lemma AcceptedIsReportedOrOutstanding(cfg: Config, steps: seq<Step>, i: nat, kind: Kind)
    requires cfg.Valid() && i < cfg.sessionCount && kind != Accept
    ensures var w := After(cfg, steps);
      CountTook(w.log, i, kind) == CountTold(w.log, i, CompletionType(kind)) + CountOps(Journey(w), i, kind)
  {
    Reachable(cfg, steps);
    var w := After(cfg, steps);
    assert BalanceOk(w.log, Outstanding(w.lib, w.ker), w.lib.sessions[i], i, kind);
    OutstandingCount(w, i, kind);
  }

  /* Incarnations and descriptors */

  /** Every completion ever reported named an active slot, in the incarnation and on the
      connection for which the operation had been accepted. */
  lemma CompletionsStayInTheirIncarnation(cfg: Config, steps: seq<Step>, k: nat)
    requires cfg.Valid() && k < |After(cfg, steps).log|
    requires var o := After(cfg, steps).log[k];
      o.Told? && o.event.etype in {ReadComplete, WriteComplete, DrainComplete, CloseComplete}
    ensures var o := After(cfg, steps).log[k];
      && o.note.Finished? && o.note.before.Active()
      && o.event.session == o.note.op.session
      && o.note.op.epoch == o.note.before.epoch && o.note.op.conn == o.note.before.conn
      && o.event.etype == CompletionType(o.note.op.kind)
  {
    Reachable(cfg, steps);
    assert SameIncarnation(After(cfg, steps).log[k]) && CompletionIsNoted(After(cfg, steps).log[k]);
  }

  /** Every outstanding session operation belongs to the present incarnation of an active slot. */
  lemma OutstandingIsCurrent(cfg: Config, steps: seq<Step>, op: Op)
    requires cfg.Valid() && op in Journey(After(cfg, steps)) && op.kind != Accept
    ensures var ss := After(cfg, steps).lib.sessions;
      && 0 <= op.session < |ss| && ss[op.session].Active()
      && op.fd == ss[op.session].fd && op.epoch == ss[op.session].epoch && op.conn == ss[op.session].conn
  {
    Reachable(cfg, steps);
    JourneyBag(After(cfg, steps));
    assert OpOk(After(cfg, steps).lib.sessions, cfg.listenFd, op);
  }

  /** Descriptor recycling: until it is executed, an operation's descriptor number
      leads to the connection the operation was accepted for. */
  lemma OperationsReachTheirConnection(cfg: Config, steps: seq<Step>, op: Op)
    requires cfg.Valid() && op.kind != Accept
    requires op in Unexecuted(After(cfg, steps).lib, After(cfg, steps).ker)
    ensures var t := After(cfg, steps).ker.table; op.fd in t.fds && t.fds[op.fd] == op.conn
  {
    Reachable(cfg, steps);
    ExecutedHitsItsSlot(After(cfg, steps), op);
  }

  /** A slot whose descriptor may be stale is closing, with its close executed, and read, write, drain,
      close and detach refuse it. */
  lemma StaleDescriptorIsRefused(cfg: Config, steps: seq<Step>, i: nat, kind: Kind, del: DelResult)
    requires cfg.Valid() && i < cfg.sessionCount && kind != Accept
    ensures var w := After(cfg, steps);
      && i < |w.lib.sessions|
      && var s := w.lib.sessions[i];
      && (s.Active() && !(s.fd in w.ker.table.fds && w.ker.table.fds[s.fd] == s.conn) ==>
            && s.closing && OpAt(s, i, Close) in Executed(w.ker)
            && DoSessionIo(w, i, kind) == (w, Err(EBUSY))
            && DoDetach(w, i, del) == (w, Err(EBUSY)))
  {
    Reachable(cfg, steps);
    var w := After(cfg, steps);
    assert SlotOk(Outstanding(w.lib, w.ker), w.lib.sessions[i], i);
    assert SlotFdOk(Unexecuted(w.lib, w.ker), w.ker.table, w.lib.sessions[i], i);
  }

  /* Stale readiness events */

  lemma {:induction false} ResidueIs(n: nat)
    ensures Residue(n) == n % 256
  {
    if n >= 256 { ResidueIs(n - 256); }
  }

  /** Two epochs give the same generation exactly at a distance of a multiple of 256. */
  lemma SameResidue(a: nat, b: nat)
    requires a <= b
    ensures Residue(a) == Residue(b) <==> Residue(b - a) == 0
    ensures Residue(b - a) == 0 <==> (b - a) % 256 == 0
  {
    ResidueIs(a);
    ResidueIs(b);
    ResidueIs(b - a);
  }

  /** The slot is now `age` incarnations past the registration. */
  predicate HasAge(w: World, r: Registration, age: nat) {
    0 <= r.session < |w.lib.sessions| && w.lib.sessions[r.session].epoch == r.epoch + age
  }

  predicate Passes(w: World, r: Registration) {
    0 <= r.session < |w.lib.sessions| && r.generation == w.lib.sessions[r.session].generation
  }

  lemma FilterAge(w: World, r: Registration) returns (age: nat)
    requires RegisteredInv(w.lib.sessions, w.registered) && r in w.registered
    requires SlotsInv(Outstanding(w.lib, w.ker), w.lib.sessions)
    ensures HasAge(w, r, age) && (Passes(w, r) <==> Residue(age) == 0)
  {
    assert RegistrationOk(w.lib.sessions, r);
    assert SlotOk(Outstanding(w.lib, w.ker), w.lib.sessions[r.session], r.session);
    age := w.lib.sessions[r.session].epoch - r.epoch;
    SameResidue(r.epoch, r.epoch + age);
  }

  lemma FilterOf(w: World, r: Registration) returns (age: nat)
    requires Inv(w) && r in w.registered
    ensures HasAge(w, r, age) && (Passes(w, r) <==> Residue(age) == 0)
  {
    age := FilterAge(w, r);
  }

  /** What a readiness event of the registration does and answers. */
  function EventOf(w: World, r: Registration, ready: Readiness, cap: nat, sockOk: bool, sockErr: int): (World, Reply)
    requires 0 <= r.session
  {
    DoSessionEvent(w, r.session, r.generation, ready, cap, sockOk, sockErr)
  }

  /** A well-formed event with room for what it may report. */
  predicate Fitting(ready: Readiness, cap: nat) { !ready.other && Bits(ready) <= cap }

  /** The reply to an event that passes: its events, which are also what is written down,
      or an error if the error query fails. */
  predicate AnswersWith(w: World, r: Registration, ready: Readiness, sockOk: bool, sockErr: int,
                        w': World, reply: Reply)
    requires 0 <= r.session < |w.lib.sessions|
  {
    if ready.err && !sockOk then reply == Failed(ESYSCALL)
    else reply.Events? && w'.log == w.log + Tell(reply.events)
         && Reports(reply.events, r.session, ready, w.lib.sessions[r.session].rdhup, sockErr)
  }

  lemma EventPasses(w: World, r: Registration, ready: Readiness, cap: nat, sockOk: bool, sockErr: int)
    requires 0 <= r.session < |w.lib.sessions| && Fitting(ready, cap)
    ensures var (w', reply) := EventOf(w, r, ready, cap, sockOk, sockErr);
      if Passes(w, r) then
        w' == Noted(w, r.session, ready, sockErr) && AnswersWith(w, r, ready, sockOk, sockErr, w', reply)
      else w' == w && reply == Events([])
  {
    ReadinessReports(w.lib.sessions[r.session], r.session, ready, sockErr);
  }

  /** An event of a registration that is `age` incarnations old is discarded without a trace,
      unless its age is a multiple of 256: then it is handled in full. */
  lemma FilterDiscardsExactly(cfg: Config, steps: seq<Step>, r: Registration, ready: Readiness, cap: nat,
                              sockOk: bool, sockErr: int) returns (age: nat)
    requires cfg.Valid() && r in After(cfg, steps).registered && Fitting(ready, cap)
    ensures HasAge(After(cfg, steps), r, age)
    ensures var (w', reply) := EventOf(After(cfg, steps), r, ready, cap, sockOk, sockErr);
      if age % 256 != 0 then w' == After(cfg, steps) && reply == Events([])
      else w' == Noted(After(cfg, steps), r.session, ready, sockErr)
           && AnswersWith(After(cfg, steps), r, ready, sockOk, sockErr, w', reply)
  {
    Reachable(cfg, steps);
    age := FilterOf(After(cfg, steps), r);
    ResidueIs(age);
    EventPasses(After(cfg, steps), r, ready, cap, sockOk, sockErr);
  }

  lemma ResidueBelow(age: nat)
    requires age < 256
    ensures Residue(age) == 0 <==> age == 0
  {
  }

  /** An event younger than 256 incarnations that has any effect, on the state or on the answer,
      concerns an active session, on the very connection that was registered. */
  lemma PassedEventsAreForTheirConnection(cfg: Config, steps: seq<Step>, r: Registration, age: nat,
                                          ready: Readiness, cap: nat, sockOk: bool, sockErr: int)
    requires cfg.Valid() && r in After(cfg, steps).registered && Fitting(ready, cap)
    requires HasAge(After(cfg, steps), r, age) && age < 256
    requires EventOf(After(cfg, steps), r, ready, cap, sockOk, sockErr) != (After(cfg, steps), Events([]))
    ensures var s := After(cfg, steps).lib.sessions[r.session];
      s.Active() && s.conn == r.conn && s.epoch == r.epoch
  {
    Reachable(cfg, steps);
    var a := FilterOf(After(cfg, steps), r);
    EventPasses(After(cfg, steps), r, ready, cap, sockOk, sockErr);
    ResidueBelow(age);
    RegisteredNow(cfg, steps, r);
  }

  /** The token of a registration leads an event to the slot and the generation it was made for. */
  lemma TokenLeadsToItsSlot(cfg: Config, steps: seq<Step>, r: Registration,
                            instance: bv16, generation: bv8, session: bv32)
    requires cfg.Valid() && r in After(cfg, steps).registered
    requires generation as int == r.generation && session as int == r.session
    ensures var data := SessionToken(instance, generation, session);
      && Owns(instance, data) && Decode(data).source == SOURCE_SESSION
      && Decode(data).session as int == r.session && Decode(data).generation as int == r.generation
  {
    Reachable(cfg, steps);
    RegisteredNow(cfg, steps, r);
    SessionTokenDecodes(instance, generation, session);
  }

  lemma RegisteredNow(cfg: Config, steps: seq<Step>, r: Registration)
    requires cfg.Valid() && r in After(cfg, steps).registered
    ensures RegistrationOk(After(cfg, steps).lib.sessions, r)
  {
    Reachable(cfg, steps);
  }

  /* Wakeups */

  /** No lost accept: while the instance listens and a connection waits, there is an edge to be processed, a
      request for the next submit, an accept not yet executed, or the completion of one that starts the cycle
      again. An accept not yet executed may be one the kernel refused to take: see module Submission. */
  lemma NoLostAccept(cfg: Config, steps: seq<Step>)
    requires cfg.Valid()
    ensures var w := After(cfg, steps);
      Listening(w.lib) && w.ker.backlog > 0 ==>
        || w.ker.edgeReady || w.ker.edgesHeld > 0
        || w.lib.acceptsRequested
        || AcceptOp(cfg.listenFd) in Unexecuted(w.lib, w.ker)
        || exists c: Cqe :: c in Completions(w.ker) && c.op.kind == Accept && c.res != -EAGAIN
  {
    Reachable(cfg, steps);
    var w := After(cfg, steps);
    if Listening(w.lib) && w.ker.backlog > 0 {
      assert AcceptPending(w);
      if c: Cqe :| c in Completions(w.ker) && c.Hot() {
        assert c.op.kind == Accept && c.res != -EAGAIN;
      }
    }
  }

  lemma AcceptEnqueued(lib: Lib, n: nat)
    requires n > 0
    ensures AcceptOp(lib.serverFd) in Flat(WithAccepts(lib, n).queue)
  {
    var op := AcceptOp(lib.serverFd);
    FlatGrows(lib.queue, 4, Repeat(op, n));
    assert Repeat(op, n)[0] == op;
    assert op in multiset(Flat(WithAccepts(lib, n).queue));
  }

  lemma RequestIsTurned(cfg: Config, lib: Lib)
    requires lib.acceptsRequested && Size(lib.queue) <= cfg.ioQueueSize
    requires lib.acceptsLive <= cfg.maxAccepts && lib.acceptsLive <= |lib.free|
    ensures var lib' := WithAccepts(lib, AcceptQuota(cfg, lib));
      && (lib'.acceptsRequested <==> lib.acceptsLive == cfg.maxAccepts || lib.acceptsLive == |lib.free|
                                     || Size(lib.queue) == cfg.ioQueueSize)
      && (!lib'.acceptsRequested ==> AcceptOp(lib.serverFd) in Flat(lib'.queue))
  {
    if AcceptQuota(cfg, lib) > 0 { AcceptEnqueued(lib, AcceptQuota(cfg, lib)); }
  }

  /** The next submit turns a request into at least one accept in the queue, unless the accepts allowed are
      all live, every free session is spoken for, or the queue is full; and then it stays requested. */
  lemma RequestIsServed(cfg: Config, steps: seq<Step>)
    requires cfg.Valid() && After(cfg, steps).lib.acceptsRequested
    ensures var lib := After(cfg, steps).lib;
      var lib' := WithAccepts(lib, AcceptQuota(cfg, lib));
      && (lib'.acceptsRequested <==> lib.acceptsLive == cfg.maxAccepts || lib.acceptsLive == |lib.free|
                                     || Size(lib.queue) == cfg.ioQueueSize)
      && (!lib'.acceptsRequested ==> AcceptOp(lib.serverFd) in Flat(lib'.queue))
  {
    Reachable(cfg, steps);
    RequestIsTurned(cfg, After(cfg, steps).lib);
  }

  /** No lost completion: outside the handler, a waiting completion is announced or about to be. */
  lemma NoLostCompletion(cfg: Config, steps: seq<Step>)
    requires cfg.Valid()
    ensures var w := After(cfg, steps);
      w.ctl.Outside? && w.ker.cq != [] ==> w.ker.eventfd > 0 || w.ker.signalsDue > 0
  {
    Reachable(cfg, steps);
  }

  /* Accepts, free slots, backlog */

  /** The free stack is duplicate-free and holds exactly the free slots. */
  lemma FreeStackPartition(cfg: Config, steps: seq<Step>)
    requires cfg.Valid()
    ensures var lib := After(cfg, steps).lib;
      && (forall i, j :: 0 <= i < j < |lib.free| ==> lib.free[i] != lib.free[j])
      && (forall i: int :: i in lib.free <==> 0 <= i < |lib.sessions| && lib.sessions[i].fd == -1)
  {
    Reachable(cfg, steps);
    var lib := After(cfg, steps).lib;
    forall i | i in lib.free ensures 0 <= i < |lib.sessions| && lib.sessions[i].fd == -1 {
      var k :| 0 <= k < |lib.free| && lib.free[k] == i;
    }
  }

  function CountActive(ss: seq<Session>): nat {
    if ss == [] then 0 else CountActive(ss[..|ss| - 1]) + Bit(ss[|ss| - 1].Active())
  }

  lemma {:induction false} CountActiveUpdate(ss: seq<Session>, i: nat, s: Session)
    requires i < |ss|
    ensures CountActive(ss[i := s]) + Bit(ss[i].Active()) == CountActive(ss) + Bit(s.Active())
    decreases |ss|
  {
    var last := |ss| - 1;
    if i == last {
      assert ss[i := s][..last] == ss[..last];
    } else {
      CountActiveUpdate(ss[..last], i, s);
      assert ss[i := s][..last] == ss[..last][i := s];
    }
  }

  lemma {:induction false} AllActive(ss: seq<Session>)
    requires forall i :: 0 <= i < |ss| ==> ss[i].Active()
    ensures CountActive(ss) == |ss|
  {
    if ss != [] { AllActive(ss[..|ss| - 1]); }
  }

  /** What the stack does not hold is active. */
  lemma {:induction false} FreePlusActive(ss: seq<Session>, free: seq<int>)
    requires FreeInv(ss, free)
    ensures CountActive(ss) + |free| == |ss|
    decreases |free|
  {
    if free == [] {
      AllActive(ss);
    } else {
      var i := free[|free| - 1];
      var s := ss[i].(fd := 0);
      FreePop(ss, free, s);
      CountActiveUpdate(ss, i, s);
      FreePlusActive(ss[i := s], free[..|free| - 1]);
    }
  }

  /** mcon_active_session_count, computed from the stack's size, is the number of active sessions. */
  lemma ActiveCountIsExact(cfg: Config, steps: seq<Step>)
    requires cfg.Valid()
    ensures ActiveCount(After(cfg, steps).lib) == CountActive(After(cfg, steps).lib.sessions)
  {
    Reachable(cfg, steps);
    FreePlusActive(After(cfg, steps).lib.sessions, After(cfg, steps).lib.free);
  }

  lemma AcceptsOf(all: Bag, ops: seq<Op>, ss: seq<Session>, listenFd: int)
    requires OpsInv(all, ss, listenFd) && multiset(ops) == all
    ensures forall op :: op in ops && op.kind == Accept ==> op in {AcceptOp(listenFd), AcceptOp(-1)}
  {
    forall op | op in ops && op.kind == Accept ensures op in {AcceptOp(listenFd), AcceptOp(-1)} {
      assert op in all;
      assert OpOk(ss, listenFd, op);
    }
  }

  lemma CountLive(w: World)
    requires LedgerInv(w) && w.cfg.Valid()
    ensures CountOps(Journey(w), NO_SESSION, Accept) == w.lib.acceptsLive
  {
    JourneyBag(w);
    AcceptsOf(Outstanding(w.lib, w.ker), Journey(w), w.lib.sessions, w.cfg.listenFd);
    CountAccepts(Journey(w), AcceptOp(w.cfg.listenFd), AcceptOp(-1));
  }
  /** accepts_live is the number of outstanding accepts, fits its 16 bits,
      and each of them has a free session to go to. */
  lemma AcceptsAreReserved(cfg: Config, steps: seq<Step>)
    requires cfg.Valid()
    ensures var w := After(cfg, steps);
      && CountOps(Journey(w), NO_SESSION, Accept) == w.lib.acceptsLive
      && w.lib.acceptsLive <= |w.lib.free|
      && w.lib.acceptsLive <= cfg.maxAccepts < 0x1_0000
  {
    Reachable(cfg, steps);
    CountLive(After(cfg, steps));
  }

  lemma {:induction false} CountAccepts(ops: seq<Op>, a: Op, b: Op)
    requires forall op :: op in ops && op.kind == Accept ==> op in {a, b}
    requires a != b && a.session == b.session == NO_SESSION && a.kind == b.kind == Accept
    ensures CountOps(ops, NO_SESSION, Accept) == multiset(ops)[a] + multiset(ops)[b]
  {
    if ops != [] {
      assert ops == [ops[0]] + ops[1..];
      CountAccepts(ops[1..], a, b);
      if ops[0].kind == Accept { assert ops[0] in ops; }
    }
  }

  lemma {:induction false} AtMostTwoBits(ss: seq<Session>)
    requires forall i :: 0 <= i < |ss| ==>
      (ss[i].closing ==> !ss[i].reading && !ss[i].writing) && (!ss[i].Active() ==> ss[i].Idle())
    ensures BitsHeld(ss) <= 2 * CountActive(ss)
  {
    if ss != [] {
      AtMostTwoBits(ss[..|ss| - 1]);
    }
  }

  lemma BitsBound(w: World)
    requires SlotsInv(Outstanding(w.lib, w.ker), w.lib.sessions)
    ensures BitsHeld(w.lib.sessions) <= 2 * CountActive(w.lib.sessions)
  {
    forall i | 0 <= i < |w.lib.sessions|
      ensures var s := w.lib.sessions[i]; (s.closing ==> !s.reading && !s.writing) && (!s.Active() ==> s.Idle())
    {
      assert SlotOk(Outstanding(w.lib, w.ker), w.lib.sessions[i], i);
    }
    AtMostTwoBits(w.lib.sessions);
  }

  /** Backlog bound: two operations for each active session, and the accepts. */
  lemma BacklogBound(cfg: Config, steps: seq<Step>)
    requires cfg.Valid()
    ensures var w := After(cfg, steps);
      && |Journey(w)| <= 2 * ActiveCount(w.lib) + Min(|w.lib.free|, cfg.maxAccepts)
      && |Journey(w)| <= 2 * cfg.sessionCount
  {
    Reachable(cfg, steps);
    var w := After(cfg, steps);
    JourneyBag(w);
    assert |multiset(Journey(w))| == |Journey(w)|;
    BitsBound(w);
    ActiveCountIsExact(cfg, steps);
  }

  /** A queue of two entries a session never refuses an operation. */
  lemma SessionOperationsAreNeverRefused(cfg: Config, steps: seq<Step>, i: nat, kind: Kind)
    requires cfg.Valid() && kind != Accept && 2 * cfg.sessionCount <= cfg.ioQueueSize
    ensures DoSessionIo(After(cfg, steps), i, kind).1 == Validate(After(cfg, steps).lib, i, kind)
  {
    Reachable(cfg, steps);
    var w := After(cfg, steps);
    if Validate(w.lib, i, kind) == Ok {
      RoomForOne(w, i, kind);
    }
  }

  lemma RoomForOne(w: World, i: nat, kind: Kind)
    requires Inv(w) && kind != Accept && Validate(w.lib, i, kind) == Ok
    requires 2 * w.cfg.sessionCount <= w.cfg.ioQueueSize
    ensures Size(w.lib.queue) < w.cfg.ioQueueSize
  {
    OneBitMore(Outstanding(w.lib, w.ker), w.lib.sessions, i, kind);
    FreePlusActive(w.lib.sessions, w.lib.free);
    assert |multiset(Flat(w.lib.queue))| <= |Outstanding(w.lib, w.ker)|;
  }

  /** A slot that may take an operation on holds fewer bits than it could. */
  lemma OneBitMore(all: Bag, ss: seq<Session>, i: nat, kind: Kind)
    requires SlotsInv(all, ss) && i < |ss| && ss[i].Active() && kind != Accept && !Conflicts(ss[i], kind)
    ensures BitsHeld(ss) < 2 * CountActive(ss)
  {
    var ss' := ss[i := Mark(ss[i], kind)];
    SlotsTake(all, ss, i, kind);
    BitsHeldUpdate(ss, i, ss'[i]);
    CountActiveUpdate(ss, i, ss'[i]);
    forall j | 0 <= j < |ss'|
      ensures (ss'[j].closing ==> !ss'[j].reading && !ss'[j].writing) && (!ss'[j].Active() ==> ss'[j].Idle())
    {
      assert SlotOk(all + multiset{OpAt(ss[i], i, kind)}, ss'[j], j);
    }
    AtMostTwoBits(ss');
  }

  /** Nor does it ever keep an accept waiting. */
  lemma AcceptsAreNeverRefused(cfg: Config, steps: seq<Step>)
    requires cfg.Valid() && 2 * cfg.sessionCount <= cfg.ioQueueSize
    ensures var w := After(cfg, steps);
      AcceptQuota(cfg, w.lib) == if !w.lib.acceptsRequested then 0
                                 else Min(cfg.maxAccepts - w.lib.acceptsLive, |w.lib.free| - w.lib.acceptsLive)
  {
    Reachable(cfg, steps);
    var w := After(cfg, steps);
    BitsBound(w);
    ActiveCountIsExact(cfg, steps);
    assert |multiset(Flat(w.lib.queue))| <= |Outstanding(w.lib, w.ker)|;
  }

  /* The interest list */

  /** Every active session that is not closing is registered with epoll, for itself. */
  lemma InterestListAgrees(cfg: Config, steps: seq<Step>, i: nat)
    requires cfg.Valid() && i < cfg.sessionCount
    ensures var w := After(cfg, steps);
      && i < |w.lib.sessions|
      && var s, t := w.lib.sessions[i], w.ker.table;
      && (s.Active() && !s.closing ==> s.fd in t.fds && t.fds[s.fd] == s.conn && s.conn in t.interest
                                       && t.interest[s.conn] == Registration(i, s.generation, s.epoch, s.conn))
  {
    Reachable(cfg, steps);
    var w := After(cfg, steps);
    assert SlotFdOk(Unexecuted(w.lib, w.ker), w.ker.table, w.lib.sessions[i], i);
  }

  /** Detaching never meets an unregistered descriptor, and a detach that fails changes nothing. */
  lemma FailedDetachChangesNothing(cfg: Config, steps: seq<Step>, i: nat, del: DelResult)
    requires cfg.Valid() && TruthfulDel(After(cfg, steps), i, del)
    ensures var w := After(cfg, steps);
      && (Validate(w.lib, i, Close) == Ok ==> del != DelNoEntry && |w.lib.free| < |w.lib.sessions|)
      && (DoDetach(w, i, del).1 == Ok <==> Validate(w.lib, i, Close) == Ok && del == DelOk)
      && (DoDetach(w, i, del).1 != Ok ==> DoDetach(w, i, del).0 == w)
  {
    Reachable(cfg, steps);
    if Validate(After(cfg, steps).lib, i, Close) == Ok {
      DetachPushes(After(cfg, steps), i, del);
    }
  }

  /* In-flight accounting */

  /** sqe_in_flight is the number of operations submitted and not consumed,
      plus one for every client that could not be registered with epoll. */
  ghost predicate InFlightExact(w: World) {
    w.lib.inFlight == Wrap16(Submitted(w.ker) + w.addFailures)
  }

  lemma NothingInHand(w: World)
    requires InFlightInv(w) && !w.ctl.Counting?
    ensures InFlightExact(w)
  {
  }

  lemma InFlightOf(w: World)
    requires Inv(w) && !w.ctl.Counting?
    ensures InFlightExact(w)
  {
    NothingInHand(w);
  }

  /** Outside the accounting step, the counter is exact in every reachable state. */
  lemma InFlightIsSubmittedPlusLost(cfg: Config, steps: seq<Step>)
    requires cfg.Valid() && !After(cfg, steps).ctl.Counting?
    ensures InFlightExact(After(cfg, steps))
  {
    Reachable(cfg, steps);
    InFlightOf(After(cfg, steps));
  }

  lemma RemainderIs(x: int, q: int, r: nat)
    requires x == 0x1_0000 * q + r && r < 0x1_0000
    ensures Wrap16(x) == r
  {
  }

  lemma ShiftedRemainder(a: nat, f: nat)
    ensures Wrap16(a + f) == Wrap16(a) <==> Wrap16(f) == 0
  {
    var p, r, q, s := a / 0x1_0000, Wrap16(a), f / 0x1_0000, Wrap16(f);
    if r + s < 0x1_0000 {
      RemainderIs(a + f, p + q, r + s);
    } else {
      RemainderIs(a + f, p + q + 1, r + s - 0x1_0000);
    }
  }

  lemma ExactUnlessLost(w: World)
    requires InFlightExact(w)
    ensures w.lib.inFlight == Wrap16(Submitted(w.ker)) <==> Wrap16(w.addFailures) == 0
  {
    ShiftedRemainder(Submitted(w.ker), w.addFailures);
  }

  /** The counter says how many operations are submitted and not consumed if and only if
      no client was lost on the way to the interest list (or a multiple of 65536 of them). */
  lemma InFlightIsExactUnlessClientsAreLost(cfg: Config, steps: seq<Step>)
    requires cfg.Valid() && !After(cfg, steps).ctl.Counting?
    ensures var w := After(cfg, steps);
      w.lib.inFlight == Wrap16(Submitted(w.ker)) <==> Wrap16(w.addFailures) == 0
  {
    InFlightIsSubmittedPlusLost(cfg, steps);
    ExactUnlessLost(After(cfg, steps));
  }
}
