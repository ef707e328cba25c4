/** Clients after a shutdown: when mcon takes on another one, and when it never does. */
module Admission {
  import opened Types
  import opened Pipeline
  import opened World
  import opened Invariant
  import opened Ledger
  import opened Calls
  import opened AcceptSteps
  import opened Reachability
  import opened Aim
  import opened Behaviour
  import opened Handler
  import opened Draining

  /* The listening socket and its edges */

  /** The listening socket is on epoll's ready list only while it is registered. */
  predicate EdgesAreHeard(w: World) { w.ker.edgeReady ==> Listening(w.lib) }

  lemma CallHeard(w: World, step: Step)
    requires EdgesAreHeard(w) && Shape(w) && Enabled(w, step) && !step.Process?
    ensures EdgesAreHeard(Perform(w, step))
  {
  }

  lemma ProcessHeard(w: World, addOk: bool)
    requires EdgesAreHeard(w) && AtCqe(w)
    ensures EdgesAreHeard(DoProcess(w, addOk))
  {
  }

  lemma {:induction false} EdgesHeard(cfg: Config, steps: seq<Step>)
    requires cfg.Valid()
    ensures EdgesAreHeard(After(cfg, steps))
  {
    if steps != [] {
      var w, step := After(cfg, steps[..|steps| - 1]), steps[|steps| - 1];
      EdgesHeard(cfg, steps[..|steps| - 1]);
      Reachable(cfg, steps[..|steps| - 1]);
      if Enabled(w, step) {
        if step.Process? { ProcessHeard(w, step.addOk); } else { CallHeard(w, step); }
      }
    }
  }

  /** Nothing is left that could make mcon accept: no live accept, no request for one,
      and no edge notification that has been fetched or can be. */
  predicate Quiesced(w: World) {
    && w.started && !Listening(w.lib) && !w.ker.edgeReady && w.ker.edgesHeld == 0
    && !w.lib.acceptsRequested && w.lib.acceptsLive == 0
  }

  lemma QuietHasNoAccept(w: World)
    requires Inv(w) && Quiesced(w) && AtCqe(w)
    ensures w.ker.cq[0].op.kind != Accept
  {
    var all, op := Outstanding(w.lib, w.ker), w.ker.cq[0].op;
    OpsOfTail(w.ker.cq);
    assert op in all;
    assert OpOk(w.lib.sessions, w.cfg.listenFd, op);
  }

  lemma QuietProcess(w: World, addOk: bool)
    requires AtCqe(w) && Quiesced(w) && w.ker.cq[0].op.kind != Accept
    ensures Quiesced(DoProcess(w, addOk)) && DoProcess(w, addOk).registered == w.registered
  {
  }

  lemma QuietOther(w: World, step: Step)
    requires Shape(w) && Quiesced(w) && Enabled(w, step) && HonestStep(w, step) && !step.Process?
    ensures Quiesced(Perform(w, step)) && Perform(w, step).registered == w.registered
  {
  }

  lemma QuietStep(w: World, step: Step)
    requires Inv(w) && Quiesced(w) && HonestStep(w, step)
    ensures Quiesced(Apply(w, step)) && Apply(w, step).registered == w.registered
  {
    if Enabled(w, step) {
      if step.Process? {
        QuietHasNoAccept(w);
        QuietProcess(w, step.addOk);
      } else {
        QuietOther(w, step);
      }
    }
  }

  lemma {:induction false} QuietRun(w: World, steps: seq<Step>)
    requires Inv(w) && Quiesced(w) && HonestRun(w, steps)
    ensures Quiesced(Run(w, steps)) && Run(w, steps).registered == w.registered
  {
    if steps != [] {
      var front, step := steps[..|steps| - 1], steps[|steps| - 1];
      HonestFront(w, steps);
      QuietRun(w, front);
      RunKeeps(w, front);
      QuietStep(Run(w, front), step);
    }
  }

  /** After a shutdown no client is taken on, provided that when it was requested no accept was live,
      none was requested, and every edge notification fetched had been processed. */
  lemma ShutdownAdmitsNobodyFromQuiet(cfg: Config, before: seq<Step>, steps: seq<Step>)
    requires cfg.Valid() && HonestRun(After(cfg, before), steps)
    requires var w := After(cfg, before);
      w.lib.shuttingDown && w.lib.acceptsLive == 0 && !w.lib.acceptsRequested && w.ker.edgesHeld == 0
    ensures Run(After(cfg, before), steps).registered == After(cfg, before).registered
    ensures Run(After(cfg, before), steps).lib.acceptsLive == 0
  {
    Reachable(cfg, before);
    EdgesHeard(cfg, before);
    QuietRun(After(cfg, before), steps);
  }

  /** The promise of mcon_shutdown: whatever follows, no other client is taken on. */
  ghost predicate TakesNobody(w: World) {
    forall steps :: HonestRun(w, steps) ==> Run(w, steps).registered == w.registered
  }

  lemma QuietTakesNobody(cfg: Config, before: seq<Step>)
    requires cfg.Valid() && After(cfg, before).lib.shuttingDown
    requires var w := After(cfg, before);
      w.lib.acceptsLive == 0 && !w.lib.acceptsRequested && w.ker.edgesHeld == 0
    ensures TakesNobody(After(cfg, before))
  {
    var w := After(cfg, before);
    forall steps | HonestRun(w, steps) ensures Run(w, steps).registered == w.registered {
      ShutdownAdmitsNobodyFromQuiet(cfg, before, steps);
    }
  }

  /* A full server of one session: to have a slot for another client it must lose
     its only one, and that completes the shutdown */

  ghost predicate Confined(w: World) {
    w.started && (w.lib.epollFd == -1
                  || (w.lib.shuttingDown && w.lib.free == [] && |w.lib.sessions| == 1))
  }

  lemma ConfinedProcess(w: World, addOk: bool)
    requires Shape(w) && AtCqe(w) && Confined(w) && (w.ker.cq[0].op.kind == Accept ==> w.lib.free != [])
    ensures Confined(DoProcess(w, addOk)) && DoProcess(w, addOk).registered == w.registered
  {
  }

  lemma ConfinedOther(w: World, step: Step)
    requires Shape(w) && Confined(w) && Enabled(w, step) && !step.Process?
    requires step.Detach? && Validate(w.lib, step.i, Close) == Ok ==> step.del != DelNoEntry
    ensures Confined(Perform(w, step)) && Perform(w, step).registered == w.registered
  {
  }

  lemma ConfinedStep(w: World, step: Step)
    requires Inv(w) && Confined(w)
    ensures Confined(Apply(w, step)) && Apply(w, step).registered == w.registered
  {
    if Enabled(w, step) {
      if step.Process? {
        if w.ker.cq[0].op.kind == Accept { AcceptIsReserved(w); }
        ConfinedProcess(w, step.addOk);
      } else {
        if step.Detach? && Validate(w.lib, step.i, Close) == Ok { DetachPushes(w, step.i, step.del); }
        ConfinedOther(w, step);
      }
    }
  }

  lemma {:induction false} ConfinedRun(w: World, steps: seq<Step>)
    requires Inv(w) && Confined(w)
    ensures Confined(Run(w, steps)) && Run(w, steps).registered == w.registered
  {
    if steps != [] {
      var front := steps[..|steps| - 1];
      ConfinedRun(w, front);
      RunKeeps(w, front);
      ConfinedStep(Run(w, front), steps[|steps| - 1]);
    }
  }

  lemma ConfinedTakesNobody(w: World)
    requires Inv(w) && Confined(w)
    ensures TakesNobody(w)
  {
    forall steps | HonestRun(w, steps) ensures Run(w, steps).registered == w.registered { ConfinedRun(w, steps); }
  }

  /** Once a shutdown is complete, the promise is kept for good. */
  lemma CompletedShutdownTakesNobody(cfg: Config, before: seq<Step>)
    requires cfg.Valid() && After(cfg, before).started && After(cfg, before).lib.serverFd == -1
    ensures TakesNobody(After(cfg, before))
  {
    Reachable(cfg, before);
    ConfinedTakesNobody(After(cfg, before));
  }

  /* What takes a client on, from the last step back to the first: if a state keeps the promise,
     so does every state a step later, so it is enough to follow one run */

  lemma Heir(w: World, step: Step)
    requires TakesNobody(w) && HonestStep(w, step)
    ensures TakesNobody(Apply(w, step)) && Apply(w, step).registered == w.registered
  {
    var w' := Apply(w, step);
    assert HonestRun(w', []) && Run(w', []) == w';
    HonestCons(w, step, []);
    forall steps | HonestRun(w', steps) ensures Run(w', steps).registered == w'.registered {
      HonestCons(w, step, steps);
    }
  }

  lemma FirstDifferent(w: World, step: Step)
    requires HonestStep(w, step) && Apply(w, step).registered != w.registered
    ensures !TakesNobody(w)
  {
    if TakesNobody(w) { Heir(w, step); }
  }

  /** A free slot has no registration of its present incarnation. */
  lemma FreeIsUnregistered(ss: seq<Session>, registered: set<Registration>, i: nat)
    requires RegisteredInv(ss, registered) && i < |ss| && !ss[i].Active()
    ensures forall r :: r in registered && r.session == i ==> r.epoch != ss[i].epoch
  {
    forall r | r in registered && r.session == i ensures r.epoch != ss[i].epoch {
      assert RegistrationOk(ss, r);
    }
  }

  lemma TakenRegisters(w: World, i: nat)
    requires AtCqe(w) && w.ker.cq[0].Accepted() && w.lib.epollFd != -1
    requires w.lib.free != [] && i == w.lib.free[|w.lib.free| - 1] && i < |w.lib.sessions|
    ensures Registration(i, w.lib.sessions[i].generation, w.lib.sessions[i].epoch, w.ker.cq[0].conn)
            in Apply(w, Process(true)).registered
  {
  }

  /** Processing an accepted client registers what was not registered before. */
  lemma TakenIsNew(w: World) returns (step: Step)
    requires Inv(w) && AtCqe(w) && w.ker.cq[0].Accepted() && w.lib.epollFd != -1
    ensures HonestStep(w, step) && Apply(w, step).registered != w.registered
  {
    step := Process(true);
    AcceptIsReserved(w);
    var i := w.lib.free[|w.lib.free| - 1];
    FreeIsUnregistered(w.lib.sessions, w.registered, i);
    TakenRegisters(w, i);
  }

  lemma HeadIsTaken(w: World)
    requires Inv(w) && AtCqe(w) && w.ker.cq[0].Accepted() && w.lib.epollFd != -1
    ensures !TakesNobody(w)
  {
    var step := TakenIsNew(w);
    FirstDifferent(w, step);
  }

  lemma EnterAt(w: World)
    requires w.ctl.Outside? && w.ker.cq != [] && w.cfg.Valid()
    ensures Apply(w, Enter(1)) == w.(ctl := Looping(1, 0, 0)) && AtCqe(Apply(w, Enter(1)))
  {
  }

  lemma PostedIsTaken(w: World)
    requires Inv(w) && w.ctl.Outside? && w.ker.cq != [] && w.ker.cq[0].Accepted() && w.lib.epollFd != -1
    ensures !TakesNobody(w)
  {
    if TakesNobody(w) {
      EnterAt(w);
      StepKeeps(w, Enter(1));
      Heir(w, Enter(1));
      HeadIsTaken(Apply(w, Enter(1)));
    }
  }

  lemma PostAt(w: World)
    requires w.ker.done != [] && w.ker.cq == [] && w.cfg.Valid()
    ensures var w' := Apply(w, Post(|w.ker.done| - 1));
      w'.ker.cq == [w.ker.done[|w.ker.done| - 1]] && w'.ctl == w.ctl && w'.lib == w.lib
  {
  }

  lemma DoneIsTaken(w: World)
    requires Inv(w) && w.ctl.Outside? && w.ker.cq == [] && w.lib.epollFd != -1
    requires w.ker.done != [] && w.ker.done[|w.ker.done| - 1].Accepted()
    ensures !TakesNobody(w)
  {
    if TakesNobody(w) {
      var step := Post(|w.ker.done| - 1);
      PostAt(w);
      StepKeeps(w, step);
      Heir(w, step);
      PostedIsTaken(Apply(w, step));
    }
  }

  /** A number that no element of the set reaches. */
  lemma {:induction false} Unused(s: set<int>) returns (n: nat)
    ensures forall x :: x in s ==> x < n
    decreases s
  {
    if x :| x in s {
      var m := Unused(s - {x});
      n := if x < m then m else x + 1;
      forall y | y in s ensures y < n { assert y == x || y in s - {x}; }
    } else {
      n := 0;
    }
  }

  lemma ExecuteAt(w: World, k: nat, fd: nat, conn: int)
    requires k < |w.ker.pending| && w.ker.pending[k].kind == Accept && w.ker.pending[k].fd != -1
    requires w.ker.backlog > 0 && fd !in w.ker.table.fds && conn !in w.ker.table.owner
    ensures var w' := Apply(w, Execute(k, fd, conn, false));
      && w'.ker.cq == w.ker.cq && w'.ctl == w.ctl && w'.lib == w.lib
      && w'.ker.done == w.ker.done + [Cqe(w.ker.pending[k], fd, conn)]
  {
  }

  lemma WaitingIsTaken(w: World, k: nat)
    requires Inv(w) && w.ctl.Outside? && w.ker.cq == [] && w.lib.epollFd != -1 && w.ker.backlog > 0
    requires k < |w.ker.pending| && w.ker.pending[k] == AcceptOp(w.cfg.listenFd)
    ensures !TakesNobody(w)
  {
    if TakesNobody(w) {
      var fd := Unused(w.ker.table.fds.Keys);
      var conn := Unused(w.ker.table.owner.Keys);
      var step := Execute(k, fd, conn, false);
      ExecuteAt(w, k, fd, conn);
      StepKeeps(w, step);
      Heir(w, step);
      DoneIsTaken(Apply(w, step));
    }
  }

  lemma ArriveAt(w: World)
    ensures var w' := Apply(w, Arrive);
      && w'.ker == w.ker.(backlog := w.ker.backlog + 1, edgeReady := w'.ker.edgeReady)
      && w'.ctl == w.ctl && w'.lib == w.lib && w'.cfg == w.cfg
  {
  }

  /** An accept that has been submitted takes the next client, shutdown or not. */
  lemma PendingIsTaken(w: World)
    requires Inv(w) && w.ctl.Outside? && w.ker.cq == [] && w.lib.epollFd != -1
    requires AcceptOp(w.cfg.listenFd) in w.ker.pending
    ensures !TakesNobody(w)
  {
    if TakesNobody(w) {
      var k :| 0 <= k < |w.ker.pending| && w.ker.pending[k] == AcceptOp(w.cfg.listenFd);
      ArriveAt(w);
      StepKeeps(w, Arrive);
      Heir(w, Arrive);
      WaitingIsTaken(Apply(w, Arrive), k);
    }
  }

  /* The submit before that */

  lemma {:induction false} FlatLast(groups: seq<seq<Op>>, ops: seq<Op>)
    requires groups != []
    ensures var last := |groups| - 1; Flat(groups[last := groups[last] + ops]) == Flat(groups) + ops
  {
    var last := |groups| - 1;
    var grown := groups[last := groups[last] + ops];
    if last == 0 {
      assert grown[1..] == [] && groups[1..] == [];
    } else {
      var rest := groups[1..];
      FlatLast(rest, ops);
      assert grown[1..] == rest[last - 1 := rest[last - 1] + ops] && grown[0] == groups[0];
      assert Flat(grown) == groups[0] + (Flat(rest) + ops) == Flat(groups) + ops;
    }
  }

  /** No accept that found nobody waits to be processed, and if closes do,
      some session will still be active when they have been. */
  ghost predicate Lasting(w: World) {
    && (forall c: Cqe :: c in Completions(w.ker) && c.op.kind == Accept ==> c.Hot())
    && ((exists c: Cqe :: c in Completions(w.ker) && c.op.kind == Close) ==>
          exists i :: 0 <= i < |w.lib.sessions| && Survives(w.lib.sessions, w.ker, i))
  }

  /** The session's close has not been executed. */
  ghost predicate Survives(ss: seq<Session>, ker: Kernel, i: int)
    requires 0 <= i < |ss|
  {
    ss[i].Active() && forall c: Cqe :: c in Completions(ker) ==> c.op != OpAt(ss[i], i, Close)
  }

  /** Nothing stands between mcon and another client but mcon itself: nothing is stuck in the SQ, ring and queue
      have room, and what waits to be processed does not complete the shutdown or end the last accept. */
  ghost predicate Unhindered(w: World) {
    && w.ctl.Outside? && w.ker.sq == [] && Lasting(w)
    && Load(w) + Size(w.lib.queue) < w.cfg.ringSize
    && Size(w.lib.queue) < w.cfg.ioQueueSize
  }

  /** Nothing waits to be processed. */
  predicate Clear(ker: Kernel) { ker.done == [] && ker.cq == [] }

  /** The queue as the accepts of this submit leave it. */
  function Requested(w: World): seq<Op> { Flat(WithAccepts(w.lib, AcceptQuota(w.cfg, w.lib)).queue) }

  lemma RequestedIs(w: World)
    ensures Requested(w) == Flat(w.lib.queue) + Repeat(AcceptOp(w.lib.serverFd), AcceptQuota(w.cfg, w.lib))
  {
    var n := AcceptQuota(w.cfg, w.lib);
    FlatLast(w.lib.queue, Repeat(AcceptOp(w.lib.serverFd), n));
    if n == 0 { assert Flat(w.lib.queue) + Repeat(AcceptOp(w.lib.serverFd), 0) == Flat(w.lib.queue); }
  }

  lemma TransferTakes(w: World, n: nat)
    requires Shape(w) && InFlightInv(w) && Unhindered(w) && n == MovedBySubmit(w)
    ensures n <= |Requested(w)| && (n == |Requested(w)| || n > Size(w.lib.queue))
  {
  }

  lemma SubmitAt(w: World)
    requires w.ctl.Outside? && w.ker.sq == [] && MovedBySubmit(w) > 0
    ensures MovedBySubmit(w) <= |Requested(w)|
    ensures var w' := Apply(w, Submit(|Staged(w).ker.sq|));
      && w'.ker.pending == w.ker.pending + Requested(w)[..MovedBySubmit(w)]
      && w'.ker.cq == w.ker.cq && w'.ctl == w.ctl && w'.lib.epollFd == w.lib.epollFd && w'.cfg == w.cfg
  {
    var s := Staged(w);
    assert s.ker.sq == Requested(w)[..MovedBySubmit(w)];
    assert s.ker.sq[..|s.ker.sq|] == s.ker.sq;
  }

  /** An accept in the queue, or one that the next submit adds, is among what that submit may hand over. */
  lemma AcceptIsMoved(w: World)
    requires Shape(w) && InFlightInv(w) && Unhindered(w) && w.lib.serverFd == w.cfg.listenFd
    requires AcceptOp(w.cfg.listenFd) in Flat(w.lib.queue) || AcceptQuota(w.cfg, w.lib) > 0
    ensures 0 < MovedBySubmit(w) <= |Requested(w)|
    ensures AcceptOp(w.cfg.listenFd) in Requested(w)[..MovedBySubmit(w)]
  {
    var n, op, size := MovedBySubmit(w), AcceptOp(w.cfg.listenFd), Size(w.lib.queue);
    RequestedIs(w);
    TransferTakes(w, n);
    var k: nat;
    if op in Flat(w.lib.queue) {
      k :| 0 <= k < size && Flat(w.lib.queue)[k] == op;
    } else {
      k := size;
    }
    assert Requested(w)[k] == op && k < n;
    assert Requested(w)[..n][k] == op;
  }

  lemma QueuedIsTaken(w: World)
    requires Inv(w) && Unhindered(w) && Clear(w.ker) && w.lib.serverFd != -1
    requires AcceptOp(w.cfg.listenFd) in Flat(w.lib.queue) || AcceptQuota(w.cfg, w.lib) > 0
    ensures !TakesNobody(w)
  {
    if TakesNobody(w) {
      var step := Submit(|Staged(w).ker.sq|);
      AcceptIsMoved(w);
      SubmitAt(w);
      StepKeeps(w, step);
      Heir(w, step);
      PendingIsTaken(Apply(w, step));
    }
  }

  /** An accept live when the shutdown succeeds takes the next client. */
  lemma LiveIsTaken(w: World)
    requires Inv(w) && AcceptsAreAimed(w) && Unhindered(w) && Clear(w.ker)
    requires w.lib.serverFd != -1 && w.lib.acceptsLive > 0
    ensures !TakesNobody(w)
  {
    var op := AcceptOp(w.cfg.listenFd);
    assert op in Outstanding(w.lib, w.ker);
    assert op in Flat(w.lib.queue) || op in w.ker.pending;
    if op in w.ker.pending { PendingIsTaken(w); } else { QueuedIsTaken(w); }
  }

  lemma RequestedIsTaken(w: World)
    requires Inv(w) && Unhindered(w) && Clear(w.ker) && w.lib.serverFd != -1
    requires w.lib.acceptsLive == 0 && w.lib.acceptsRequested && w.lib.free != []
    ensures !TakesNobody(w)
  {
    QueuedIsTaken(w);
  }

  lemma EdgeAt(w: World)
    requires w.ctl.Outside? && w.started
    ensures Apply(w, ServerEvent(true)) == DoServerEvent(w, true)
  {
  }

  lemma EdgeIsTaken(w: World)
    requires Inv(w) && Unhindered(w) && Clear(w.ker) && w.lib.serverFd != -1
    requires w.lib.acceptsLive == 0 && w.lib.free != [] && w.ker.edgesHeld > 0
    ensures !TakesNobody(w)
  {
    if TakesNobody(w) {
      EdgeAt(w);
      StepKeeps(w, ServerEvent(true));
      Heir(w, ServerEvent(true));
      RequestedIsTaken(Apply(w, ServerEvent(true)));
    }
  }

  lemma AnnouncedIsTaken(w: World)
    requires Inv(w) && Unhindered(w) && Clear(w.ker) && w.lib.serverFd != -1
    requires w.lib.acceptsLive == 0 && w.lib.free != [] && (w.lib.acceptsRequested || w.ker.edgesHeld > 0)
    ensures !TakesNobody(w)
  {
    if w.lib.acceptsRequested { RequestedIsTaken(w); } else { EdgeIsTaken(w); }
  }

  /* A full server of two sessions or more */

  lemma DetachSucceeds(w: World, i: nat)
    requires w.ctl.Outside? && w.lib.shuttingDown && w.lib.free == [] && |w.lib.sessions| > 1
    requires i < |w.lib.sessions| && w.lib.sessions[i].Idle() && w.lib.sessions[i].Active()
    requires var s, t := w.lib.sessions[i], w.ker.table; s.fd in t.fds && t.fds[s.fd] in t.interest
    ensures var w' := Apply(w, Detach(i, DelOk));
      && w'.lib == w.lib.(free := [i], sessions := w'.lib.sessions) && w'.cfg == w.cfg && w'.ctl == w.ctl
      && w'.ker == w.ker.(table := w'.ker.table) && w'.addFailures == w.addFailures
  {
  }

  /** The consumer may detach an idle session. */
  lemma DetachAt(w: World, i: nat)
    requires Inv(w) && Unhindered(w) && Clear(w.ker) && w.lib.shuttingDown
    requires w.lib.free == [] && |w.lib.sessions| > 1
    requires i < |w.lib.sessions| && w.lib.sessions[i].Idle()
    ensures var w' := Apply(w, Detach(i, DelOk));
      && Unhindered(w') && Clear(w'.ker) && w'.lib.serverFd == w.lib.serverFd && w'.lib.free == [i]
      && w'.lib.acceptsLive == w.lib.acceptsLive && w'.lib.acceptsRequested == w.lib.acceptsRequested
      && w'.ker.edgesHeld == w.ker.edgesHeld
  {
    assert i !in w.lib.free;
    assert SlotFdOk(Unexecuted(w.lib, w.ker), w.ker.table, w.lib.sessions[i], i);
    DetachSucceeds(w, i);
  }

  /** With nothing outstanding the first session is idle. */
  lemma FullIdleIsTaken(w: World)
    requires Unsealed(w) && Clear(w.ker) && w.lib.free == [] && w.ker.pending == [] && Size(w.lib.queue) == 0
    ensures !TakesNobody(w)
  {
    if TakesNobody(w) {
      var step := Detach(0, DelOk);
      FirstIsIdle(w);
      DetachAt(w, 0);
      StepKeeps(w, step);
      Heir(w, step);
      AnnouncedIsTaken(Apply(w, step));
    }
  }

  lemma FirstIsIdle(w: World)
    requires Inv(w) && Clear(w.ker) && w.ker.sq == [] && w.ker.pending == [] && Size(w.lib.queue) == 0
    ensures |w.lib.sessions| > 0 && w.lib.sessions[0].Idle()
  {
    assert SlotOk(Outstanding(w.lib, w.ker), w.lib.sessions[0], 0);
  }

  /** No accept is live, and none is requested or announced, or there will be no session for it. */
  predicate Sealed(w: World) {
    && w.lib.acceptsLive == 0
    && ((!w.lib.acceptsRequested && w.ker.edgesHeld == 0) || (w.lib.free == [] && |w.lib.sessions| == 1))
  }

  ghost predicate Unsealed(w: World) {
    Inv(w) && AcceptsAreAimed(w) && Unhindered(w) && w.lib.shuttingDown && !Sealed(w)
  }

  /* What is in flight comes home first */

  /** Room and flags are as they were. */
  ghost predicate SameRoom(w: World, w': World) {
    && w'.cfg == w.cfg && w'.ctl == w.ctl && w'.ker.sq == w.ker.sq
    && Load(w') + Size(w'.lib.queue) == Load(w) + Size(w.lib.queue) && Size(w'.lib.queue) <= Size(w.lib.queue)
    && w'.lib.acceptsLive == w.lib.acceptsLive && w'.lib.acceptsRequested == w.lib.acceptsRequested
    && w'.ker.edgesHeld == w.ker.edgesHeld && w'.lib.shuttingDown == w.lib.shuttingDown
    && w'.lib.free == w.lib.free && w'.lib.sessions == w.lib.sessions
  }

  lemma RoomKeeps(w: World, w': World)
    requires Unsealed(w) && SameRoom(w, w') && Inv(w') && AcceptsAreAimed(w') && Lasting(w')
    ensures Unsealed(w')
  {
  }

  lemma PostUnsealed(w: World) returns (w': World)
    requires Unsealed(w) && w.ker.cq == [] && w.ker.done != []
    ensures w' == Apply(w, Post(0)) && Unsealed(w')
    ensures |w'.ker.cq| == 1 && |w'.ker.done| == |w.ker.done| - 1
    ensures w'.ker.pending == w.ker.pending && w'.lib.queue == w.lib.queue
  {
    w' := PostIt(w);
    AimStep(w, Post(0));
    PostMoves(w, w');
    RoomKeeps(w, w');
  }

  lemma PostedBooks(w: World, w': World)
    requires w.ker.cq == [] && w.ker.done != [] && w.cfg.Valid() && w' == Apply(w, Post(0))
    ensures SameRoom(w, w') && Completions(w'.ker) == Completions(w.ker)
  {
    assert RemoveAt(w.ker.done, 0) == w.ker.done[1..];
    assert w.ker.done == [w.ker.done[0]] + w.ker.done[1..];
  }

  lemma SameCompletionsLast(w: World, w': World)
    requires Lasting(w) && Completions(w'.ker) == Completions(w.ker) && w'.lib.sessions == w.lib.sessions
    ensures Lasting(w')
  {
    forall i | 0 <= i < |w.lib.sessions| && Survives(w.lib.sessions, w.ker, i)
      ensures Survives(w'.lib.sessions, w'.ker, i)
    {
    }
  }

  lemma PostMoves(w: World, w': World)
    requires w.ker.cq == [] && w.ker.done != [] && w.cfg.Valid() && w' == Apply(w, Post(0)) && Lasting(w)
    ensures SameRoom(w, w') && Lasting(w')
  {
    PostedBooks(w, w');
    SameCompletionsLast(w, w');
  }
  lemma ExecuteUnsealed(w: World) returns (w': World)
    requires Unsealed(w) && Clear(w.ker) && w.lib.free == [] && w.lib.acceptsLive == 0
    requires w.ker.pending != [] && |w.lib.sessions| > 1
    ensures w' == Apply(w, Execute(0, -1, 0, false)) && Unsealed(w')
    ensures |w'.ker.done| == 1 && w'.ker.cq == [] && |w'.ker.pending| == |w.ker.pending| - 1
    ensures w'.lib.queue == w.lib.queue
  {
    w' := ExecuteIt(w);
    AimStep(w, Execute(0, -1, 0, false));
    NoAcceptPending(w);
    ExecuteMoves(w, w');
    AnotherSurvives(w, w');
    RoomKeeps(w, w');
  }

  lemma NoAcceptPending(w: World)
    requires Inv(w) && w.lib.acceptsLive == 0 && w.ker.pending != []
    ensures w.ker.pending[0].kind != Accept
  {
    var op := w.ker.pending[0];
    assert op in Outstanding(w.lib, w.ker);
    assert OpOk(w.lib.sessions, w.cfg.listenFd, op);
  }

  lemma ExecuteMoves(w: World, w': World)
    requires Clear(w.ker) && w.ker.pending != [] && w' == Apply(w, Execute(0, -1, 0, false))
    ensures SameRoom(w, w') && Completions(w'.ker) == multiset{Cqe(w.ker.pending[0], -1, 0)}
  {
    assert w'.ker.done == [Cqe(w.ker.pending[0], -1, 0)];
    assert RemoveAt(w.ker.pending, 0) == w.ker.pending[1..];
  }

  /** Of two active sessions at most one is closed by one operation. */
  lemma AnotherSurvives(w: World, w': World)
    requires Inv(w) && w.lib.free == [] && |w.lib.sessions| > 1 && w.ker.pending != []
    requires w'.lib.sessions == w.lib.sessions && w.ker.pending[0].kind != Accept
    requires Completions(w'.ker) == multiset{Cqe(w.ker.pending[0], -1, 0)}
    ensures Lasting(w')
  {
    var ss := w.lib.sessions;
    var i := if w.ker.pending[0].session == 0 then 1 else 0;
    assert i !in w.lib.free;
    assert Survives(ss, w'.ker, i);
  }

  lemma SubmitUnsealed(w: World) returns (w': World)
    requires Unsealed(w) && Clear(w.ker) && w.lib.free == [] && w.lib.acceptsLive == 0 && Size(w.lib.queue) > 0
    ensures exists ret :: w' == Apply(w, Submit(ret))
    ensures Unsealed(w') && Clear(w'.ker) && Size(w'.lib.queue) == 0
    ensures |w'.ker.pending| == |w.ker.pending| + Size(w.lib.queue)
  {
    var ret := |Staged(w).ker.sq|;
    w' := Apply(w, Submit(ret));
    StepKeeps(w, Submit(ret));
    AimStep(w, Submit(ret));
    SubmitMoves(w, w');
    RoomKeeps(w, w');
  }

  lemma SubmitMoves(w: World, w': World)
    requires Shape(w) && InFlightInv(w) && Unhindered(w) && Clear(w.ker) && Size(w.lib.queue) > 0
    requires w.lib.free == [] && w.lib.acceptsLive == 0 && w' == Apply(w, Submit(|Staged(w).ker.sq|))
    ensures SameRoom(w, w') && Clear(w'.ker) && Size(w'.lib.queue) == 0 && Lasting(w')
    ensures |w'.ker.pending| == |w.ker.pending| + Size(w.lib.queue)
  {
    assert AcceptQuota(w.cfg, w.lib) == 0;
    var n := Size(w.lib.queue);
    assert MovedBySubmit(w) == n;
    DropFirstIsSuffix(w.lib.queue, n);
    var all := Flat(w.lib.queue)[..n];
    assert Staged(w).ker.sq == all && all[..n] == all && all[n..] == [];
  }

  /** From `w` to `w'` the first completion has been processed, and control is outside again. */
  ghost predicate Rounded(w: World, w': World) {
    && w.ker.cq != [] && w'.ctl.Outside? && SameWork(w, w')
    && w'.ker == Consume(w.ker).(table := w'.ker.table)
  }

  lemma RoundedBooks(w: World, w': World)
    requires Rounded(w, w') && w.ctl.Outside?
    ensures Completions(w.ker) == Completions(w'.ker) + multiset{w.ker.cq[0]}
    ensures Load(w') == Load(w) - 1
  {
    assert w.ker.cq == [w.ker.cq[0]] + w.ker.cq[1..];
  }

  /** What lasts goes on lasting if the survivors survive. */
  lemma LastingShrinks(w: World, w': World, c: Cqe)
    requires Lasting(w) && Completions(w.ker) == Completions(w'.ker) + multiset{c}
    requires |w'.lib.sessions| == |w.lib.sessions|
    requires forall i :: 0 <= i < |w.lib.sessions| && Survives(w.lib.sessions, w.ker, i) ==>
      Survives(w'.lib.sessions, w'.ker, i)
    ensures Lasting(w')
  {
    assert forall x: Cqe :: x in Completions(w'.ker) ==> x in Completions(w.ker);
    if x: Cqe :| x in Completions(w'.ker) && x.op.kind == Close {
      assert x in Completions(w.ker);
      var i :| 0 <= i < |w.lib.sessions| && Survives(w.lib.sessions, w.ker, i);
      assert Survives(w'.lib.sessions, w'.ker, i);
    }
  }

  /** The rest of what makes a state unsealed. */
  ghost predicate StillAsked(w: World, w': World) {
    && w'.lib.shuttingDown && w'.ker.edgesHeld == w.ker.edgesHeld
    && (w'.lib.acceptsRequested || !w.lib.acceptsRequested)
    && (w'.lib.acceptsLive == w.lib.acceptsLive || w'.lib.acceptsRequested)
    && (w'.lib.acceptsLive != w.lib.acceptsLive || w'.lib.free != w.lib.free ==> w'.lib.free != [])
    && |w'.lib.sessions| == |w.lib.sessions|
  }

  lemma RoundedKeeps(w: World, w': World)
    requires Unsealed(w) && Rounded(w, w') && StillAsked(w, w') && Lasting(w') && Inv(w') && AcceptsAreAimed(w')
    ensures Unsealed(w')
  {
    RoundedBooks(w, w');
  }

  lemma IoFacts(w: World)
    requires AtIo(w) && 0 <= w.ker.cq[0].op.session < |w.lib.sessions|
    ensures var op, ss := w.ker.cq[0].op, w.lib.sessions;
      DoProcess(w, true).lib == w.lib.(sessions := ss[op.session := Unmark(ss[op.session], op.kind)])
  {
  }

  lemma CloseFacts(w: World)
    requires AtClose(w) && 0 <= w.ker.cq[0].op.session < |w.lib.sessions| && |w.lib.free| + 1 < |w.lib.sessions|
    ensures var i, ss := w.ker.cq[0].op.session, w.lib.sessions;
      DoProcess(w, true).lib == w.lib.(free := w.lib.free + [i], sessions := ss[i := Closed(ss[i])])
  {
  }

  lemma AcceptFacts(w: World)
    requires AtAccept(w) && w.ker.cq[0].res < 0 && w.ker.cq[0].Hot()
    ensures DoProcess(w, true).lib == w.lib.(acceptsLive := Wrap16(w.lib.acceptsLive - 1), acceptsRequested := true)
  {
  }

  /** From `w` to `w'` the fields of struct mcon are those of `lib`, up to the in-flight counter. */
  predicate Fields(w': World, lib: Lib) { w'.lib == lib.(inFlight := w'.lib.inFlight) }

  /** Changing a state bit saves or dooms nobody. */
  lemma SurviveUnmark(ss: seq<Session>, ker: Kernel, ker': Kernel, j: nat, kind: Kind)
    requires j < |ss| && Completions(ker') <= Completions(ker)
    ensures forall i :: 0 <= i < |ss| && Survives(ss, ker, i) ==> Survives(ss[j := Unmark(ss[j], kind)], ker', i)
  {
    var ss' := ss[j := Unmark(ss[j], kind)];
    forall i | 0 <= i < |ss| && Survives(ss, ker, i) ensures Survives(ss', ker', i) {
      assert OpAt(ss'[i], i, Close) == OpAt(ss[i], i, Close);
      assert forall c: Cqe :: c in Completions(ker') ==> c in Completions(ker);
    }
  }

  lemma RoundIo(w: World, w': World)
    requires Unsealed(w) && Rounded(w, w') && Inv(w') && AcceptsAreAimed(w')
    requires w.ker.cq[0].op.kind in {Read, Write, Drain} && 0 <= w.ker.cq[0].op.session < |w.lib.sessions|
    requires var op, ss := w.ker.cq[0].op, w.lib.sessions;
      Fields(w', w.lib.(sessions := ss[op.session := Unmark(ss[op.session], op.kind)]))
    ensures Unsealed(w')
  {
    RoundedBooks(w, w');
    SurviveUnmark(w.lib.sessions, w.ker, w'.ker, w.ker.cq[0].op.session, w.ker.cq[0].op.kind);
    LastingShrinks(w, w', w.ker.cq[0]);
    RoundedKeeps(w, w');
  }

  /** Two active sessions leave room for two on the free stack. */
  lemma TwoActive(ss: seq<Session>, free: seq<int>, i: nat, j: nat)
    requires FreeInv(ss, free) && i < |ss| && j < |ss| && i != j && ss[i].Active() && ss[j].Active()
    ensures |free| + 1 < |ss|
  {
    var ss' := ss[i := ss[i].(fd := -1)];
    FreePush(ss, free, i, ss[i].(fd := -1));
    PushCannotFail(ss', free + [i], j);
  }

  /** The survivor of a close that waits to be processed is another session. */
  lemma SurvivorOf(w: World) returns (i: nat)
    requires Unsealed(w) && w.ker.cq != [] && w.ker.cq[0].op.kind == Close
    requires 0 <= w.ker.cq[0].op.session < |w.lib.sessions|
    requires var op, ss := w.ker.cq[0].op, w.lib.sessions;
      ss[op.session].Active() && op == OpAt(ss[op.session], op.session, Close)
    ensures i < |w.lib.sessions| && i != w.ker.cq[0].op.session && Survives(w.lib.sessions, w.ker, i)
    ensures |w.lib.free| + 1 < |w.lib.sessions|
  {
    assert w.ker.cq[0] in Completions(w.ker);
    i :| 0 <= i < |w.lib.sessions| && Survives(w.lib.sessions, w.ker, i);
    TwoActive(w.lib.sessions, w.lib.free, i, w.ker.cq[0].op.session);
  }

  /** Nor does closing another session. */
  lemma SurviveClose(ss: seq<Session>, ker: Kernel, ker': Kernel, c: Cqe)
    requires c in Completions(ker) && Completions(ker') <= Completions(ker)
    requires 0 <= c.op.session < |ss| && c.op == OpAt(ss[c.op.session], c.op.session, Close)
    ensures var j := c.op.session;
      forall i :: 0 <= i < |ss| && Survives(ss, ker, i) ==> Survives(ss[j := Closed(ss[j])], ker', i)
  {
    var j := c.op.session;
    forall i | 0 <= i < |ss| && Survives(ss, ker, i) ensures Survives(ss[j := Closed(ss[j])], ker', i) {
      assert i != j;
      assert forall x: Cqe :: x in Completions(ker') ==> x in Completions(ker);
    }
  }

  lemma RoundClose(w: World, w': World)
    requires Unsealed(w) && Rounded(w, w') && Inv(w') && AcceptsAreAimed(w')
    requires w.ker.cq[0].op.kind == Close && 0 <= w.ker.cq[0].op.session < |w.lib.sessions|
    requires var op, ss := w.ker.cq[0].op, w.lib.sessions; op == OpAt(ss[op.session], op.session, Close)
    requires var i, ss := w.ker.cq[0].op.session, w.lib.sessions;
      Fields(w', w.lib.(free := w.lib.free + [i], sessions := ss[i := Closed(ss[i])]))
    ensures Unsealed(w')
  {
    RoundedBooks(w, w');
    assert w.ker.cq[0] in Completions(w.ker);
    SurviveClose(w.lib.sessions, w.ker, w'.ker, w.ker.cq[0]);
    LastingShrinks(w, w', w.ker.cq[0]);
    RoundedKeeps(w, w');
  }

  lemma RoundAccept(w: World, w': World)
    requires Unsealed(w) && Rounded(w, w') && Inv(w') && AcceptsAreAimed(w') && w.lib.free != []
    requires Fields(w', w.lib.(acceptsLive := w'.lib.acceptsLive, acceptsRequested := true))
    ensures Unsealed(w')
  {
    RoundedBooks(w, w');
    forall i | 0 <= i < |w.lib.sessions| && Survives(w.lib.sessions, w.ker, i)
      ensures Survives(w'.lib.sessions, w'.ker, i)
    {
      assert forall c: Cqe :: c in Completions(w'.ker) ==> c in Completions(w.ker);
    }
    LastingShrinks(w, w', w.ker.cq[0]);
    RoundedKeeps(w, w');
  }

  lemma RoundMoves(w: World, w1: World, w': World)
    requires Unsealed(w) && w.ker.cq != [] && !w.ker.cq[0].Accepted() && Rounded(w, w')
    requires w1 == w.(ctl := Looping(1, 0, 0)) && Inv(w1) && AtCqe(w1)
    requires Fields(w', DoProcess(w1, true).lib) && Inv(w') && AcceptsAreAimed(w')
    ensures Unsealed(w')
  {
    assert w.ker.cq[0] in Completions(w.ker);
    if AtAccept(w1) {
      AcceptIsReserved(w1);
      AcceptFacts(w1);
      RoundAccept(w, w');
    } else {
      IoCqeKnown(w1);
      if AtClose(w1) {
        var i := SurvivorOf(w);
        CloseFacts(w1);
        RoundClose(w, w');
      } else {
        IoFacts(w1);
        RoundIo(w, w');
      }
    }
  }

  /** A step back to the invariant, the aim of accepts and the promise. */
  ghost predicate Inherits(w: World, w': World) {
    Inv(w') && AcceptsAreAimed(w') && (TakesNobody(w) ==> TakesNobody(w'))
  }

  lemma StepInherits(w: World, step: Step, w': World)
    requires Inv(w) && AcceptsAreAimed(w) && w' == Apply(w, step) && step != ServerEvent(true)
    ensures Inherits(w, w')
  {
    StepKeeps(w, step);
    AimStep(w, step);
    if TakesNobody(w) { Heir(w, step); }
  }

  lemma EnterInherits(w: World) returns (w': World)
    requires Inv(w) && AcceptsAreAimed(w) && w.ctl.Outside?
    ensures Inherits(w, w') && w' == w.(ctl := Looping(1, 0, 0))
  {
    w' := EnterIt(w);
    StepInherits(w, Enter(1), w');
  }

  lemma ProcessInherits(w: World) returns (w': World)
    requires Inv(w) && AcceptsAreAimed(w) && AtCqe(w) && w.lib.epollFd != -1
    requires w.ker.cq[0].op.kind != Accept || w.ker.cq[0].Hot()
    ensures Inherits(w, w') && w' == DoProcess(w, true) && TakenHome(w, w') && w'.ctl == Produced(w, 1)
  {
    w' := DoProcess(w, true);
    ProcessTakes(w);
    ProcessApplies(w);
    StepInherits(w, Process(true), w');
  }

  lemma CountInherits(w: World, w1: World) returns (w': World)
    requires Inv(w1) && AcceptsAreAimed(w1) && TakenHome(w, w1) && w1.ctl == Produced(w, 1)
    ensures Inherits(w1, w') && SameWork(w, w') && w'.ker == w1.ker && Fields(w', w1.lib)
    ensures w'.ctl == Looping(w.ctl.cap, w.ctl.count + 1, w.ctl.rounds + 1)
  {
    w' := CountIt(w, w1);
    StepInherits(w1, Account, w');
  }

  lemma LeaveInherits(w: World) returns (w': World)
    requires Inv(w) && AcceptsAreAimed(w) && w.ctl.Looping? && w.ctl.rounds > 0 && w.ctl.count >= w.ctl.cap
    ensures Inherits(w, w') && w' == w.(ctl := Outside)
  {
    w' := LeaveIt(w);
    StepInherits(w, Leave, w');
  }

  /** One completion that is not a new client is processed, and control is outside again. */
  lemma RoundUnsealed(w: World) returns (w': World)
    requires Unsealed(w) && w.ker.cq != [] && !w.ker.cq[0].Accepted()
    ensures Unsealed(w') && (TakesNobody(w) ==> TakesNobody(w'))
    ensures w'.ker.pending == w.ker.pending && w'.ker.done == w.ker.done && |w'.ker.cq| == |w.ker.cq| - 1
    ensures w'.lib.queue == w.lib.queue
  {
    assert w.ker.cq[0] in Completions(w.ker);
    var w1 := EnterInherits(w);
    var w2 := ProcessInherits(w1);
    var w3 := CountInherits(w1, w2);
    w' := LeaveInherits(w3);
    RoundMoves(w, w1, w');
  }

  /** The promise is not kept from an unsealed state: what is in flight comes home, and then
      there is a run that takes a client on. */
  lemma {:induction false} UnsealedIsTaken(w: World)
    requires Unsealed(w)
    ensures !TakesNobody(w)
    decreases Size(w.lib.queue) + |w.ker.pending| + |w.ker.done| + |w.ker.cq|,
              Size(w.lib.queue), |w.ker.pending|, |w.ker.done|, 1
  {
    if w.ker.cq != [] {
      if w.ker.cq[0].Accepted() {
        PostedIsTaken(w);
      } else {
        var w' := RoundUnsealed(w);
        UnsealedIsTaken(w');
      }
    } else if w.ker.done != [] {
      var w' := PostUnsealed(w);
      if TakesNobody(w) { Heir(w, Post(0)); }
      UnsealedIsTaken(w');
    } else if w.lib.acceptsLive > 0 {
      LiveIsTaken(w);
    } else if w.lib.free != [] {
      AnnouncedIsTaken(w);
    } else {
      FullIsTaken(w);
    }
  }

  lemma {:induction false} FullIsTaken(w: World)
    requires Unsealed(w) && Clear(w.ker) && w.lib.free == [] && w.lib.acceptsLive == 0
    ensures !TakesNobody(w)
    decreases Size(w.lib.queue) + |w.ker.pending| + |w.ker.done| + |w.ker.cq|,
              Size(w.lib.queue), |w.ker.pending|, |w.ker.done|, 0
  {
    if w.ker.pending != [] {
      var w' := ExecuteUnsealed(w);
      if TakesNobody(w) { Heir(w, Execute(0, -1, 0, false)); }
      UnsealedIsTaken(w');
    } else if Size(w.lib.queue) > 0 {
      var w' := SubmitUnsealed(w);
      var ret :| w' == Apply(w, Submit(ret));
      if TakesNobody(w) { Heir(w, Submit(ret)); }
      UnsealedIsTaken(w');
    } else {
      FullIdleIsTaken(w);
    }
  }

  /** "Without establishing new ones": after a shutdown mcon takes on no other client if it is sealed,
      and, where nothing else stands in the way, only then. */
  lemma ShutdownTakesNobodyExactly(cfg: Config, before: seq<Step>)
    requires cfg.Valid() && After(cfg, before).lib.shuttingDown
    ensures Sealed(After(cfg, before)) ==> TakesNobody(After(cfg, before))
    ensures Unhindered(After(cfg, before)) ==>
      (TakesNobody(After(cfg, before)) <==> Sealed(After(cfg, before)))
  {
    var w := After(cfg, before);
    Reachable(cfg, before);
    AcceptsStayAimed(cfg, before);
    if Sealed(w) {
      if !w.lib.acceptsRequested && w.ker.edgesHeld == 0 {
        QuietTakesNobody(cfg, before);
      } else {
        ConfinedTakesNobody(w);
      }
    } else if Unhindered(w) {
      UnsealedIsTaken(w);
    }
  }

  /** Nothing stands in the way of an instance without outstanding operations
      that has lost fewer clients than its ring has entries. */
  lemma IdleIsUnhindered(w: World)
    requires Inv(w) && w.ctl.Outside? && Outstanding(w.lib, w.ker) == multiset{} && w.addFailures < w.cfg.ringSize
    ensures Unhindered(w)
  {
    assert |Outstanding(w.lib, w.ker)| == 0;
    assert |OpsOf(w.ker.done)| == |w.ker.done| && |OpsOf(w.ker.cq)| == |w.ker.cq|;
  }

  /** For such an instance: the promise is kept if and only if no accept was requested and no fetched edge
      unprocessed at the shutdown, or the one session there is was taken. */
  lemma IdleShutdownTakesNobodyExactly(cfg: Config, before: seq<Step>)
    requires cfg.Valid() && After(cfg, before).lib.shuttingDown && After(cfg, before).ctl.Outside?
    requires Outstanding(After(cfg, before).lib, After(cfg, before).ker) == multiset{}
    requires After(cfg, before).addFailures < cfg.ringSize
    ensures var w := After(cfg, before);
      TakesNobody(w) <==>
        (!w.lib.acceptsRequested && w.ker.edgesHeld == 0) || (w.lib.free == [] && cfg.sessionCount == 1)
  {
    Reachable(cfg, before);
    IdleIsUnhindered(After(cfg, before));
    NoneLive(After(cfg, before));
    ShutdownTakesNobodyExactly(cfg, before);
  }

  lemma NoneLive(w: World)
    requires Inv(w) && Outstanding(w.lib, w.ker) == multiset{}
    ensures w.lib.acceptsLive == 0
  {
  }
}
