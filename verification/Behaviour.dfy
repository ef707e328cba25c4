/** Properties of whole runs, and of steps in any reachable state: full submission,
    shutdown, the hangup latch. */
module Behaviour {
  import opened Types
  import opened World
  import opened Invariant
  import opened Ledger
  import opened Calls
  import opened ReadinessSteps
  import opened KernelSteps
  import opened Reachability

  /* Runs in which every submit takes all staged operations */

  /** What sqe_in_flight counts. */
  function Load(w: World): nat { Submitted(w.ker) + w.addFailures + InHand(w.ctl) }

  predicate FullStep(w: World, step: Step) {
    step.Submit? && w.ctl.Outside? ==> step.ret == |Staged(w).ker.sq|
  }

  ghost predicate FullRun(w: World, steps: seq<Step>) {
    forall k :: 0 <= k < |steps| ==> FullStep(Run(w, steps[..k]), steps[k])
  }

  ghost predicate Bounded(w: World) {
    w.ker.sq == [] && Load(w) <= w.cfg.ringSize
  }

  lemma ProcessLoad(w: World, addOk: bool)
    requires AtCqe(w)
    ensures DoProcess(w, addOk).ker.sq == w.ker.sq && Load(DoProcess(w, addOk)) <= Load(w)
    ensures Submitted(DoProcess(w, addOk).ker) <= Submitted(w.ker)
  {
  }

  /** A call of the consumer other than submit and the completion handler. */
  predicate IsCall(step: Step) {
    step.Start? || step.SessionIo? || step.Detach? || step.Shutdown? || step.ServerEvent? || step.SessionEvent?
  }

  lemma CallLoad(w: World, step: Step)
    requires Enabled(w, step)
    requires IsCall(step)
    ensures Perform(w, step).ker.sq == w.ker.sq && Load(Perform(w, step)) <= Load(w)
    ensures Submitted(Perform(w, step).ker) <= Submitted(w.ker)
  {
  }

  lemma OtherLoad(w: World, step: Step)
    requires Enabled(w, step) && !step.Submit? && !step.Process? && !step.Execute?
    requires !IsCall(step)
    ensures Perform(w, step).ker.sq == w.ker.sq && Load(Perform(w, step)) <= Load(w)
    ensures Submitted(Perform(w, step).ker) <= Submitted(w.ker)
  {
  }

  lemma ExecuteLoad(w: World, step: Step)
    requires Enabled(w, step) && step.Execute?
    ensures Perform(w, step).ker.sq == w.ker.sq && Load(Perform(w, step)) <= Load(w)
    ensures Submitted(Perform(w, step).ker) <= Submitted(w.ker)
  {
    ExecuteRuns(w, step.index, step.res, step.conn, step.dequeue);
  }

  /** With the counter exact, the limit of line 233 does not underflow, and submit respects it. */
  lemma SubmitLoad(w: World, ret: int)
    requires w.cfg.Valid() && InFlightInv(w) && Bounded(w) && w.ctl.Outside? && ret == |Staged(w).ker.sq|
    ensures w.lib.inFlight == Load(w) && Wrap32(w.cfg.ringSize - w.lib.inFlight) == w.cfg.ringSize - Load(w)
    ensures MovedBySubmit(w) <= w.cfg.ringSize - Load(w)
    ensures DoSubmit(w, ret).ker.sq == [] && Load(DoSubmit(w, ret)) == Load(w) + MovedBySubmit(w)
  {
    var n := AcceptQuota(w.cfg, w.lib);
    var w1 := w.(lib := WithAccepts(w.lib, n));
    TransferKeepsBooks(w1, TransferSize(w1.cfg, w1.lib, w1.ker));
  }

  lemma OtherStepsLoad(w: World, step: Step)
    requires Enabled(w, step) && !step.Submit?
    ensures Perform(w, step).ker.sq == w.ker.sq && Load(Perform(w, step)) <= Load(w)
    ensures Submitted(Perform(w, step).ker) <= Submitted(w.ker)
  {
    if step.Process? {
      ProcessLoad(w, step.addOk);
    } else if step.Execute? {
      ExecuteLoad(w, step);
    } else if IsCall(step) {
      CallLoad(w, step);
    } else {
      OtherLoad(w, step);
    }
  }

  lemma StepStaysBounded(w: World, step: Step)
    requires w.cfg.Valid() && InFlightInv(w) && Bounded(w) && FullStep(w, step)
    ensures Bounded(Apply(w, step))
  {
    ConfigStays(w, [step]);
    assert [step][..0] == [];
    if Enabled(w, step) {
      if step.Submit? {
        SubmitLoad(w, step.ret);
      } else {
        OtherStepsLoad(w, step);
      }
    }
  }

  lemma {:induction false} RunStaysBounded(w: World, steps: seq<Step>)
    requires Inv(w) && Bounded(w) && FullRun(w, steps)
    ensures Bounded(Run(w, steps)) && Run(w, steps).cfg == w.cfg
  {
    if steps != [] {
      var front, last := steps[..|steps| - 1], steps[|steps| - 1];
      forall k | 0 <= k < |front| ensures FullStep(Run(w, front[..k]), front[k]) {
        assert front[..k] == steps[..k];
      }
      RunStaysBounded(w, front);
      RunKeeps(w, front);
      assert FullStep(Run(w, steps[..|steps| - 1]), steps[|steps| - 1]);
      StepStaysBounded(Run(w, front), last);
      ConfigStays(w, steps);
    } else {
      ConfigStays(w, steps);
    }
  }

  lemma LoadIsExact(w: World)
    requires InFlightInv(w) && Load(w) < 0x1_0000
    ensures w.lib.inFlight == Load(w)
  {
  }

  /** Where submit takes all it is given: the SQ is empty between calls, the counter is exact and
      within io_uring_queue_size, and the CQ has room for everything that may still be posted. */
  lemma FullSubmissionStaysInBounds(cfg: Config, steps: seq<Step>)
    requires cfg.Valid() && FullRun(Init(cfg), steps)
    ensures var w := After(cfg, steps);
      && w.ker.sq == []
      && w.lib.inFlight == Load(w) <= cfg.ringSize
      && Submitted(w.ker) <= cfg.ringSize - w.addFailures
      && |w.ker.cq| + |w.ker.done| + |w.ker.pending| <= cfg.ringSize < cfg.CqEntries()
  {
    InitHolds(cfg);
    RunStaysBounded(Init(cfg), steps);
    Reachable(cfg, steps);
    LoadIsExact(After(cfg, steps));
  }

  /* Clients that cannot be registered */

  lemma FailuresGrow(w: World, step: Step)
    ensures w.addFailures <= Apply(w, step).addFailures
  {
  }

  lemma {:induction false} FailuresAreNeverForgotten(w: World, steps: seq<Step>)
    ensures w.addFailures <= Run(w, steps).addFailures
  {
    if steps != [] {
      FailuresAreNeverForgotten(w, steps[..|steps| - 1]);
      FailuresGrow(Run(w, steps[..|steps| - 1]), steps[|steps| - 1]);
    }
  }

  /** Once as many clients could not be registered as the ring has entries,
      no later submit moves a single operation. */
  lemma LostClientsWedgeTheInstance(cfg: Config, steps: seq<Step>, more: seq<Step>)
    requires cfg.Valid() && FullRun(Init(cfg), steps + more)
    requires After(cfg, steps).addFailures == cfg.ringSize
    requires After(cfg, steps + more).ctl.Outside?
    ensures MovedBySubmit(After(cfg, steps + more)) == 0
  {
    var w := After(cfg, steps + more);
    RunAppend(Init(cfg), steps, more);
    FailuresAreNeverForgotten(After(cfg, steps), more);
    FullSubmissionStaysInBounds(cfg, steps + more);
    Reachable(cfg, steps + more);
    SubmitLoad(w, |Staged(w).ker.sq|);
  }

  /* Shutdown */

  ghost predicate ShutDown(lib: Lib) {
    !lib.shuttingDown && lib.serverFd == -1 && lib.epollFd == -1
  }

  /** While an instance shuts down, a step either leaves sessions active and the shutdown going on,
      or ends the last session, and then completes the shutdown. */
  ghost predicate ShutdownProceeds(w': World) {
    if ActiveCount(w'.lib) > 0 then w'.lib.shuttingDown else ShutDown(w'.lib)
  }

  lemma ProcessShutdown(w: World, addOk: bool)
    requires Shape(w) && AtCqe(w) && w.lib.shuttingDown && ActiveCount(w.lib) > 0
    ensures ShutdownProceeds(DoProcess(w, addOk))
  {
  }

  lemma SubmitShutdown(w: World, ret: int)
    requires ret <= |Staged(w).ker.sq|
    ensures DoSubmit(w, ret).lib.shuttingDown == w.lib.shuttingDown
    ensures ActiveCount(DoSubmit(w, ret).lib) == ActiveCount(w.lib)
  {
  }

  lemma DetachShutdown(w: World, i: nat, del: DelResult)
    requires Shape(w) && w.lib.shuttingDown && ActiveCount(w.lib) > 0
    requires Validate(w.lib, i, Close) == Ok ==> |w.lib.free| < |w.lib.sessions| && del != DelNoEntry
    ensures ShutdownProceeds(DoDetach(w, i, del).0)
  {
  }

  lemma OtherShutdown(w: World, step: Step)
    requires Shape(w) && w.lib.shuttingDown && ActiveCount(w.lib) > 0 && Enabled(w, step)
    requires !step.Process? && !step.Submit? && !step.Detach?
    ensures ShutdownProceeds(Perform(w, step))
  {
  }

  lemma ShutdownStep(w: World, step: Step)
    requires Inv(w) && w.lib.shuttingDown && ActiveCount(w.lib) > 0
    ensures ShutdownProceeds(Apply(w, step))
  {
    if Enabled(w, step) {
      if step.Process? {
        ProcessShutdown(w, step.addOk);
      } else if step.Submit? {
        SubmitShutdown(w, step.ret);
      } else if step.Detach? {
        if Validate(w.lib, step.i, Close) == Ok { DetachPushes(w, step.i, step.del); }
        DetachShutdown(w, step.i, step.del);
      } else {
        OtherShutdown(w, step);
      }
    }
  }

  /** Shutdown completes in the first state without active sessions, and not before. */
  lemma {:induction false} ShutdownCompletesOnTime(w: World, steps: seq<Step>)
    requires Inv(w) && w.lib.shuttingDown
    requires forall k :: 0 <= k < |steps| ==> ActiveCount(Run(w, steps[..k]).lib) > 0
    ensures steps != [] ==> ShutdownProceeds(Run(w, steps))
  {
    if steps != [] {
      var front := steps[..|steps| - 1];
      forall k | 0 <= k < |front| ensures ActiveCount(Run(w, front[..k]).lib) > 0 {
        assert front[..k] == steps[..k];
      }
      ShutdownCompletesOnTime(w, front);
      RunKeeps(w, front);
      assert ActiveCount(Run(w, steps[..|steps| - 1]).lib) > 0;
      ShutdownStep(Run(w, front), steps[|steps| - 1]);
    }
  }

  /** For an instance: from any reachable state in which a shutdown is under way. */
  lemma ShutdownOfAnInstance(cfg: Config, before: seq<Step>, steps: seq<Step>)
    requires cfg.Valid() && After(cfg, before).lib.shuttingDown && steps != []
    requires forall k :: 0 <= k < |steps| ==> ActiveCount(Run(After(cfg, before), steps[..k]).lib) > 0
    ensures ShutdownProceeds(Run(After(cfg, before), steps))
  {
    Reachable(cfg, before);
    ShutdownCompletesOnTime(After(cfg, before), steps);
  }

  lemma EmptyShutdownStays(w: World, step: Step)
    requires Shape(w) && w.lib.shuttingDown && ActiveCount(w.lib) <= 0
    ensures Apply(w, step).lib.shuttingDown
  {
  }

  /** In any reachable state in which a shutdown is under way, a step completes it if and only if
      that step ends the last active session. So one that finds no session active stays open
      until a client has come and gone again. */
  lemma ShutdownCompletesExactly(cfg: Config, steps: seq<Step>, step: Step)
    requires cfg.Valid() && After(cfg, steps).lib.shuttingDown
    ensures var lib, lib' := After(cfg, steps).lib, Apply(After(cfg, steps), step).lib;
      && (!lib'.shuttingDown <==> ActiveCount(lib) > 0 && ActiveCount(lib') == 0)
      && (!lib'.shuttingDown ==> lib'.serverFd == -1 && lib'.epollFd == -1)
  {
    Reachable(cfg, steps);
    var w := After(cfg, steps);
    StepKeeps(w, step);
    CountIsNatural(w);
    CountIsNatural(Apply(w, step));
    if ActiveCount(w.lib) > 0 {
      ShutdownStep(w, step);
    } else {
      EmptyShutdownStays(w, step);
    }
  }

  lemma CountIsNatural(w: World)
    requires Inv(w)
    ensures ActiveCount(w.lib) >= 0
  {
    Pigeonhole(w.lib.free, |w.lib.sessions|);
  }

  /** A shutdown that finds no active session is not complete, although nothing is left to close. */
  lemma IdleShutdownStaysOpen(cfg: Config)
    requires cfg.Valid()
    ensures var w := After(cfg, [Start(true), Shutdown(true)]);
      w.lib.shuttingDown && ActiveCount(w.lib) == 0
  {
    var w1 := Apply(Init(cfg), Start(true));
    assert [Start(true)][..0] == [];
    assert Run(Init(cfg), [Start(true)]) == w1;
    assert [Start(true), Shutdown(true)][..1] == [Start(true)];
  }

  /* The hangup latch */

  predicate IsHangup(o: Obs, i: int) {
    o.Told? && o.event.session == i && o.event.etype == RemoteHangup
  }

  predicate Opens(o: Obs, i: int) {
    o.Told? && o.note.Opened? && o.event.session == i
  }

  ghost predicate Latched(log: seq<Obs>, n: nat) {
    forall p, i :: 0 <= p <= |log| && 0 <= i < n ==> HangupsSince(log[..p], i) <= 1
  }

  lemma {:induction false} HangupsAfter(log: seq<Obs>, a: nat, i: int)
    requires a < |log| && IsHangup(log[a], i) && !Opens(log[a], i)
    requires forall c :: a < c < |log| ==> !Opens(log[c], i)
    ensures HangupsSince(log, i) >= 1
    decreases |log|
  {
    if a < |log| - 1 {
      HangupsAfter(log[..|log| - 1], a, i);
    }
  }

  /** Between two reported hangups of a slot it was given to a new client. */
  lemma TwoHangupsTwoClients(log: seq<Obs>, n: nat, a: nat, b: nat, i: nat)
    requires Latched(log, n) && i < n && a < b < |log|
    requires IsHangup(log[a], i) && IsHangup(log[b], i)
    requires !Opens(log[a], i) && !Opens(log[b], i)
    ensures exists c :: a < c < b && Opens(log[c], i)
  {
    assert HangupsSince(log[..b], i) == 0 by {
      assert log[..b + 1][..b] == log[..b];
      assert HangupsSince(log[..b + 1], i) <= 1;
    }
    if forall c :: a < c < b ==> !Opens(log[c], i) {
      HangupsAfter(log[..b], a, i);
    }
  }

  lemma LatchedAppend(log: seq<Obs>, o: Obs, n: nat)
    requires Latched(log, n)
    requires forall i :: 0 <= i < n ==> HangupsSince(log + [o], i) <= 1
    ensures Latched(log + [o], n)
  {
    forall p, i | 0 <= p <= |log + [o]| && 0 <= i < n ensures HangupsSince((log + [o])[..p], i) <= 1 {
      if p <= |log| {
        assert (log + [o])[..p] == log[..p];
      } else {
        assert (log + [o])[..p] == log + [o];
      }
    }
  }

  lemma {:induction false} LatchedTell(log: seq<Obs>, events: seq<Event>, n: nat)
    requires Latched(log, n) && OnlyReadiness(events)
    requires forall i :: 0 <= i < n ==> HangupsSince(log, i) + Hangs(events, i) <= 1
    ensures Latched(log + Tell(events), n)
  {
    if events == [] {
      assert log + Tell(events) == log;
    } else {
      var front, e := events[..|events| - 1], events[|events| - 1];
      assert forall x :: x in front ==> x in events;
      forall i | 0 <= i < n ensures HangupsSince(log, i) + Hangs(front, i) <= 1 {
        assert HangupsSince(log, i) + Hangs(events, i) <= 1;
      }
      LatchedTell(log, front, n);
      forall i | 0 <= i < n ensures HangupsSince((log + Tell(front)) + [Told(e, Plain)], i) <= 1 {
        TellCounts(log, front, i, Read);
        HangupsSinceAppend(log + Tell(front), Told(e, Plain), i);
        assert HangupsSince(log, i) + Hangs(events, i) <= 1;
      }
      LatchedAppend(log + Tell(front), Told(e, Plain), n);
      assert log + Tell(events) == (log + Tell(front)) + [Told(e, Plain)];
    }
  }

  lemma ProcessLog(w: World, addOk: bool)
    requires AtCqe(w)
    ensures var log' := DoProcess(w, addOk).log;
      log' == w.log || (log' != [] && log' == w.log + [log'[|log'| - 1]])
  {
  }

  /** A step other than a readiness event writes at most one line. */
  lemma StepLog(w: World, step: Step)
    requires Enabled(w, step) && !step.SessionEvent?
    ensures var log' := Perform(w, step).log;
      log' == w.log || (log' != [] && log' == w.log + [log'[|log'| - 1]])
  {
    if step.Process? { ProcessLog(w, step.addOk); }
  }

  lemma ReportLatches(w: World, w': World, events: seq<Event>)
    requires HangupInv(w.log, w.lib.sessions) && HangupInv(w'.log, w'.lib.sessions)
    requires |w'.lib.sessions| == |w.lib.sessions|
    requires Latched(w.log, |w.lib.sessions|) && w'.log == w.log + Tell(events) && OnlyReadiness(events)
    ensures Latched(w'.log, |w.lib.sessions|)
  {
    forall i | 0 <= i < |w.lib.sessions| ensures HangupsSince(w.log, i) + Hangs(events, i) <= 1 {
      TellCounts(w.log, events, i, Read);
      assert HangupsSince(w'.log, i) == Bit(w'.lib.sessions[i].rdhup);
    }
    LatchedTell(w.log, events, |w.lib.sessions|);
  }

  lemma LineLatches(w: World, w': World)
    requires HangupInv(w'.log, w'.lib.sessions) && |w'.lib.sessions| == |w.lib.sessions|
    requires w'.log != [] && w'.log == w.log + [w'.log[|w'.log| - 1]]
    requires Latched(w.log, |w.lib.sessions|)
    ensures Latched(w'.log, |w.lib.sessions|)
  {
    forall i | 0 <= i < |w.lib.sessions| ensures HangupsSince(w'.log, i) <= 1 {
      assert HangupsSince(w'.log, i) == Bit(w'.lib.sessions[i].rdhup);
    }
    LatchedAppend(w.log, w'.log[|w'.log| - 1], |w.lib.sessions|);
  }

  lemma SameSlots(w: World, w': World)
    requires Inv(w) && Inv(w') && w'.cfg == w.cfg
    ensures HangupInv(w.log, w.lib.sessions) && HangupInv(w'.log, w'.lib.sessions)
    ensures |w'.lib.sessions| == |w.lib.sessions| == w.cfg.sessionCount
  {
  }

  lemma EventLatches(w: World, w': World, step: Step)
    requires HangupInv(w.log, w.lib.sessions) && HangupInv(w'.log, w'.lib.sessions)
    requires |w'.lib.sessions| == |w.lib.sessions|
    requires step.SessionEvent? && Enabled(w, step) && w' == Perform(w, step)
    requires Latched(w.log, |w.lib.sessions|)
    ensures Latched(w'.log, |w.lib.sessions|)
  {
    if w' != w {
      var s := w.lib.sessions[step.i];
      HangsOfReadiness(s, step.i, step.ready, step.sockErr, step.i);
      ReportLatches(w, w', ReadinessEvents(s, step.i, step.ready, step.sockErr));
    }
  }

  lemma StepLatches(w: World, w': World, step: Step)
    requires HangupInv(w.log, w.lib.sessions) && HangupInv(w'.log, w'.lib.sessions)
    requires |w'.lib.sessions| == |w.lib.sessions| && w' == Apply(w, step)
    requires Latched(w.log, |w.lib.sessions|)
    ensures Latched(w'.log, |w.lib.sessions|)
  {
    if Enabled(w, step) {
      if step.SessionEvent? {
        EventLatches(w, w', step);
      } else {
        StepLog(w, step);
        if w'.log != w.log { LineLatches(w, w'); }
      }
    }
  }

  lemma {:induction false} RunLatches(cfg: Config, steps: seq<Step>)
    requires cfg.Valid()
    ensures Latched(After(cfg, steps).log, cfg.sessionCount)
  {
    if steps != [] {
      var front := steps[..|steps| - 1];
      RunLatches(cfg, front);
      Reachable(cfg, front);
      Reachable(cfg, steps);
      SameSlots(After(cfg, front), After(cfg, steps));
      StepLatches(After(cfg, front), After(cfg, steps), steps[|steps| - 1]);
    }
  }

  /** Each active period of a slot sees at most one hangup: between any two hangups
      reported for it, the slot was prepared for a new client. */
  lemma OneHangupPerClient(cfg: Config, steps: seq<Step>, a: nat, b: nat, i: nat)
    requires cfg.Valid() && i < cfg.sessionCount
    requires a < b < |After(cfg, steps).log|
    requires IsHangup(After(cfg, steps).log[a], i) && IsHangup(After(cfg, steps).log[b], i)
    ensures exists c :: a < c < b && Opens(After(cfg, steps).log[c], i)
  {
    RunLatches(cfg, steps);
    Reachable(cfg, steps);
    HangupsDoNotOpen(After(cfg, steps).log, i);
    TwoHangupsTwoClients(After(cfg, steps).log, cfg.sessionCount, a, b, i);
  }

  lemma HangupsDoNotOpen(log: seq<Obs>, i: int)
    requires LogInv(log)
    ensures forall k :: 0 <= k < |log| && IsHangup(log[k], i) ==> !Opens(log[k], i)
  {
    forall k | 0 <= k < |log| && IsHangup(log[k], i) ensures !Opens(log[k], i) {
      assert OpensWithConnection(log[k]);
    }
  }
}
