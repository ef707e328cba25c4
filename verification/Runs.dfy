/** Every reachable state satisfies the invariant. */
module Reachability {
  import opened Types
  import opened World
  import opened Invariant
  import opened Calls
  import opened ReadinessSteps
  import opened Handler
  import opened AcceptSteps
  import opened KernelSteps

  lemma ProcessKeeps(w: World, addOk: bool)
    requires Inv(w) && AtCqe(w)
    ensures Inv(DoProcess(w, addOk))
  {
    ProcessIs(w, addOk);
    match w.ker.cq[0].op.kind
    case Accept => AcceptKeeps(w, addOk && w.lib.epollFd != -1);
    case Close => CloseKeeps(w);
    case _ => IoKeeps(w);
  }

  lemma ProcessIs(w: World, addOk: bool)
    requires AtCqe(w)
    ensures w.ker.cq[0].op.kind == Accept ==> DoProcess(w, addOk) == ProcessAccept(w, addOk && w.lib.epollFd != -1)
    ensures w.ker.cq[0].op.kind == Close ==> DoProcess(w, addOk) == ProcessClose(w)
    ensures w.ker.cq[0].op.kind !in {Accept, Close} ==> DoProcess(w, addOk) == ProcessIo(w)
  {
  }

  lemma CallKeeps(w: World, step: Step)
    requires Inv(w) && Enabled(w, step)
    requires step.Start? || step.SessionIo? || step.Detach? || step.Submit? || step.Shutdown?
          || step.ServerEvent? || step.SessionEvent?
    ensures Inv(Perform(w, step))
  {
    match step
    case Start(ok) => StartKeeps(w, ok);
    case SessionIo(i, kind) => SessionIoKeeps(w, i, kind);
    case Detach(i, del) => DetachKeeps(w, i, del);
    case Submit(ret) => SubmitKeeps(w, ret);
    case Shutdown(delOk) => ShutdownKeeps(w, delOk);
    case ServerEvent(readable) => ServerEventKeeps(w, readable);
    case SessionEvent(i, g, ready, cap, sockOk, sockErr) => SessionEventKeeps(w, i, g, ready, cap, sockOk, sockErr);
  }

  lemma OtherKeeps(w: World, step: Step)
    requires Inv(w) && Enabled(w, step)
    requires step.Account? || step.Execute? || step.Post? || step.OpenForeign? || step.CloseForeign?
    ensures Inv(Perform(w, step))
  {
    match step
    case Account => AccountKeeps(w);
    case Execute(index, res, conn, dequeue) => ExecuteKeeps(w, index, res, conn, dequeue);
    case Post(index) => PostedKeeps(w, Perform(w, step), index);
    case OpenForeign(fd, conn) => OpenForeignKeeps(w, fd, conn);
    case CloseForeign(fd) => CloseForeignKeeps(w, fd);
  }

  lemma StepKeeps(w: World, step: Step)
    requires Inv(w)
    ensures Inv(Apply(w, step))
  {
    if Enabled(w, step) {
      if step.Process? {
        ProcessKeeps(w, step.addOk);
      } else if IsControl(step) {
        ControlStepMoves(w, step);
        ControlKeeps(w, Perform(w, step));
      } else if IsNotice(step) {
        NoticeStepNotifies(w, step);
        NotifiedKeeps(w, Perform(w, step));
      } else if step.Account? || step.Execute? || step.Post? || step.OpenForeign? || step.CloseForeign? {
        OtherKeeps(w, step);
      } else {
        CallKeeps(w, step);
      }
    }
  }

  lemma {:induction false} RunKeeps(w: World, steps: seq<Step>)
    requires Inv(w)
    ensures Inv(Run(w, steps))
  {
    if steps != [] {
      RunKeeps(w, steps[..|steps| - 1]);
      StepKeeps(Run(w, steps[..|steps| - 1]), steps[|steps| - 1]);
    }
  }

  lemma {:induction false} RunAppend(w: World, steps: seq<Step>, more: seq<Step>)
    ensures Run(w, steps + more) == Run(Run(w, steps), more)
  {
    if more == [] {
      assert steps + more == steps;
    } else {
      RunAppend(w, steps, more[..|more| - 1]);
      assert (steps + more)[..|steps + more| - 1] == steps + more[..|more| - 1];
    }
  }

  lemma RunOneMore(w: World, steps: seq<Step>, step: Step)
    ensures Run(w, steps + [step]) == Apply(Run(w, steps), step)
  {
    assert (steps + [step])[..|steps|] == steps;
  }

  lemma RunOne(w: World, step: Step)
    ensures Run(w, [step]) == Apply(w, step)
  {
    RunOneMore(w, [], step);
    assert [] + [step] == [step];
  }

  /** The state an instance is in after the given steps. */
  function After(cfg: Config, steps: seq<Step>): World { Run(Init(cfg), steps) }

  lemma Reachable(cfg: Config, steps: seq<Step>)
    requires cfg.Valid()
    ensures Inv(After(cfg, steps)) && After(cfg, steps).cfg == cfg
  {
    InitHolds(cfg);
    RunKeeps(Init(cfg), steps);
    ConfigStays(Init(cfg), steps);
  }

  lemma StepKeepsConfig(w: World, step: Step)
    ensures Apply(w, step).cfg == w.cfg
  {
  }

  lemma {:induction false} ConfigStays(w: World, steps: seq<Step>)
    ensures Run(w, steps).cfg == w.cfg
  {
    if steps != [] {
      ConfigStays(w, steps[..|steps| - 1]);
      StepKeepsConfig(Run(w, steps[..|steps| - 1]), steps[|steps| - 1]);
    }
  }

  /* Honest consumers */

  /** The consumer hands over readiness of the listening socket only as epoll reported it. */
  predicate HonestStep(w: World, step: Step) {
    step == ServerEvent(true) ==> w.ker.edgesHeld > 0
  }

  ghost predicate HonestRun(w: World, steps: seq<Step>) {
    forall k :: 0 <= k < |steps| ==> HonestStep(Run(w, steps[..k]), steps[k])
  }

  /** Part of a run of an honest consumer, and the step that follows it. */
  lemma HonestFront(w: World, steps: seq<Step>)
    requires HonestRun(w, steps) && steps != []
    ensures var last := |steps| - 1; HonestRun(w, steps[..last]) && HonestStep(Run(w, steps[..last]), steps[last])
  {
    var front := steps[..|steps| - 1];
    forall k | 0 <= k < |front| ensures HonestStep(Run(w, front[..k]), front[k]) {
      assert front[..k] == steps[..k];
    }
  }

  lemma HonestCons(w: World, step: Step, steps: seq<Step>)
    requires HonestStep(w, step) && HonestRun(Apply(w, step), steps)
    ensures HonestRun(w, [step] + steps) && Run(w, [step] + steps) == Run(Apply(w, step), steps)
  {
    RunOne(w, step);
    RunAppend(w, [step], steps);
    forall k | 0 <= k < |[step] + steps| ensures HonestStep(Run(w, ([step] + steps)[..k]), ([step] + steps)[k]) {
      if k > 0 {
        assert ([step] + steps)[..k] == [step] + steps[..k - 1];
        RunAppend(w, [step], steps[..k - 1]);
        assert HonestStep(Run(Apply(w, step), steps[..k - 1]), steps[k - 1]);
      }
    }
  }
}
