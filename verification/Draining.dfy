/** How what is in flight can be brought home: runs of the kernel and of the completion handler
    that take completions off the CQ while nothing is submitted. */
module Draining {
  import opened Types
  import opened Pipeline
  import opened World
  import opened Invariant
  import opened Handler
  import opened AcceptSteps
  import opened KernelSteps
  import opened Reachability

  /* One completion */

  /** From `w` to `w'` the first completion has been processed, and no client has been lost on the way. */
  ghost predicate TakenHome(w: World, w': World) {
    && AtCqe(w)
    && w'.ctl in {Produced(w, 0), Produced(w, 1)}
    && w'.cfg == w.cfg && w'.addFailures == w.addFailures && w'.started == w.started
    && w'.lib.queue == w.lib.queue && w'.lib.inFlight == w.lib.inFlight
    && w'.ker == Consume(w.ker).(table := w'.ker.table)
    && (w'.ctl == Produced(w, 0) ==> w'.lib.epollFd == w.lib.epollFd)
  }

  lemma AcceptTakes(w: World)
    requires AtAccept(w) && w.lib.free != [] && 0 <= w.lib.free[|w.lib.free| - 1] < |w.lib.sessions|
    requires w.lib.epollFd != -1
    ensures TakenHome(w, DoProcess(w, true))
    ensures w.ker.cq[0].Hot() ==> DoProcess(w, true).ctl == Produced(w, 1)
  {
  }

  lemma IoTakes(w: World)
    requires AtIo(w) && 0 <= w.ker.cq[0].op.session < |w.lib.sessions|
    ensures TakenHome(w, DoProcess(w, true)) && DoProcess(w, true).ctl == Produced(w, 1)
  {
  }

  lemma CloseTakes(w: World)
    requires AtClose(w) && 0 <= w.ker.cq[0].op.session < |w.lib.sessions| && |w.lib.free| < |w.lib.sessions|
    ensures TakenHome(w, DoProcess(w, true)) && DoProcess(w, true).ctl == Produced(w, 1)
  {
  }

  lemma ProcessTakes(w: World)
    requires Inv(w) && AtCqe(w) && w.lib.epollFd != -1
    ensures TakenHome(w, DoProcess(w, true))
    ensures w.ker.cq[0].op.kind != Accept || w.ker.cq[0].Hot() ==> DoProcess(w, true).ctl == Produced(w, 1)
  {
    if AtAccept(w) {
      AcceptIsReserved(w);
      AcceptTakes(w);
    } else {
      IoCqeKnown(w);
      if AtClose(w) {
        CloseCqePushes(w);
        CloseTakes(w);
      } else {
        IoTakes(w);
      }
    }
  }

  lemma ProcessApplies(w: World)
    requires AtCqe(w)
    ensures Apply(w, Process(true)) == DoProcess(w, true)
  {
  }

  lemma AccountApplies(w: World)
    requires w.ctl.Counting? && w.cfg.sqEntries > 0
    ensures Apply(w, Account) == DoAccount(w)
  {
  }

  lemma LeaveApplies(w: World)
    requires w.ctl.Looping? && w.ctl.rounds > 0 && (w.ctl.count >= w.ctl.cap || w.ker.cq == [])
    ensures Apply(w, Leave) == w.(ctl := Outside)
  {
  }

  /* Back out of the handler */

  /** Nothing of it submits, and nothing of it is a call other than the completion handler. */
  predicate Drains(step: Step) {
    step.Execute? || step.Post? || step.Enter? || step.Process? || step.Account? || step.Leave?
  }

  predicate AllDrain(steps: seq<Step>) { forall step :: step in steps ==> Drains(step) }

  /** From `w` to `w'` the queue and the SQ are as they were. */
  ghost predicate SameWork(w: World, w': World) {
    w'.cfg == w.cfg && w'.lib.queue == w.lib.queue && w'.ker.sq == w.ker.sq && w'.addFailures == w.addFailures
  }

  /** These steps lead from `w` to `w'`. It speaks of a prefix, which is all of them,
      so that a run is only looked into where one is put together. */
  ghost predicate Drained(w: World, steps: seq<Step>, w': World) {
    forall n: nat :: n == |steps| ==> AllDrain(steps[..n]) && Run(w, steps[..n]) == w'
  }

  lemma DrainedIs(w: World, steps: seq<Step>, w': World)
    ensures Drained(w, steps, w') <==> AllDrain(steps) && Run(w, steps) == w'
  {
    assert steps[..|steps|] == steps;
  }

  lemma DrainedBy(w: World, step: Step)
    requires Drains(step)
    ensures Drained(w, [step], Apply(w, step))
  {
    RunOne(w, step);
    DrainedIs(w, [step], Apply(w, step));
  }

  lemma DrainedOn(w: World, steps: seq<Step>, w1: World, more: seq<Step>, w2: World)
    requires Drained(w, steps, w1) && Drained(w1, more, w2)
    ensures Drained(w, steps + more, w2)
  {
    DrainedIs(w, steps, w1);
    DrainedIs(w1, more, w2);
    RunAppend(w, steps, more);
    DrainedIs(w, steps + more, w2);
  }

  /** The same run, with the invariant and the work to be submitted as they were. */
  ghost predicate Safely(w: World, steps: seq<Step>, w': World) {
    Drained(w, steps, w') && Inv(w') && SameWork(w, w')
  }

  lemma Counted(w: World, w': World)
    requires TakenHome(w, w')
    ensures w'.cfg.sqEntries > 0
    ensures SameWork(w, DoAccount(w')) && DoAccount(w').ker == w'.ker
    ensures DoAccount(w').lib == w'.lib.(inFlight := DoAccount(w').lib.inFlight)
    ensures DoAccount(w').ctl == Looping(w.ctl.cap, w.ctl.count + w'.ctl.produced, w.ctl.rounds + 1)
    ensures Submitted(DoAccount(w').ker) == Submitted(w.ker) - 1
  {
  }

  /** One iteration of the loop. */
  lemma Iterate(w: World) returns (w': World, steps: seq<Step>)
    requires Inv(w) && AtCqe(w) && w.lib.epollFd != -1
    ensures Safely(w, steps, w')
    ensures Submitted(w'.ker) == Submitted(w.ker) - 1 && w'.ker.cq == w.ker.cq[1..]
    ensures w'.ctl in {Looping(w.ctl.cap, w.ctl.count, w.ctl.rounds + 1),
                       Looping(w.ctl.cap, w.ctl.count + 1, w.ctl.rounds + 1)}
    ensures w'.ctl.count == w.ctl.count ==> w'.lib.epollFd != -1
  {
    var w1 := DoProcess(w, true);
    ProcessTakes(w);
    ProcessApplies(w);
    ProcessKeeps(w, true);
    DrainedBy(w, Process(true));
    w' := CountIt(w, w1);
    DrainedBy(w1, Account);
    DrainedOn(w, [Process(true)], w1, [Account], w');
    steps := [Process(true)] + [Account];
  }

  lemma CountIt(w: World, w1: World) returns (w': World)
    requires Inv(w1) && TakenHome(w, w1)
    ensures w' == Apply(w1, Account) == DoAccount(w1) && Inv(w') && SameWork(w, w') && w'.ker == w1.ker
    ensures Submitted(w'.ker) == Submitted(w.ker) - 1 && w'.lib.epollFd == w1.lib.epollFd
    ensures w'.ctl == Looping(w.ctl.cap, w.ctl.count + w1.ctl.produced, w.ctl.rounds + 1)
  {
    w' := DoAccount(w1);
    AccountApplies(w1);
    AccountKeeps(w1);
    Counted(w, w1);
  }

  lemma LeaveIt(w: World) returns (w': World)
    requires Inv(w) && w.ctl.Looping? && w.ctl.rounds > 0 && (w.ctl.count >= w.ctl.cap || w.ker.cq == [])
    ensures Safely(w, [Leave], w') && w' == Apply(w, Leave) == w.(ctl := Outside)
  {
    w' := w.(ctl := Outside);
    LeaveApplies(w);
    StepKeeps(w, Leave);
    DrainedBy(w, Leave);
  }

  /** From a loop with room for one event, back out of the handler. */
  lemma {:induction false} LoopOut(w: World) returns (w': World, steps: seq<Step>)
    requires Inv(w) && w.ctl.Looping? && w.ctl.cap == 1 && w.ctl.count <= 1 && w.ctl.rounds > 0
    requires w.ctl.count == 0 ==> w.lib.epollFd != -1
    ensures Safely(w, steps, w') && w'.ctl.Outside? && Submitted(w'.ker) <= Submitted(w.ker)
    decreases |w.ker.cq|
  {
    if w.ctl.count == 1 || w.ker.cq == [] {
      w' := LeaveIt(w);
      steps := [Leave];
    } else {
      var w1, first := Iterate(w);
      var rest;
      w', rest := LoopOut(w1);
      DrainedOn(w, first, w1, rest, w');
      steps := first + rest;
    }
  }

  lemma EnterApplies(w: World)
    requires w.ctl.Outside?
    ensures Apply(w, Enter(1)) == w.(ctl := Looping(1, 0, 0))
  {
  }

  lemma EnterIt(w: World) returns (w': World)
    requires Inv(w) && w.ctl.Outside?
    ensures Safely(w, [Enter(1)], w') && w' == Apply(w, Enter(1)) == w.(ctl := Looping(1, 0, 0))
  {
    w' := w.(ctl := Looping(1, 0, 0));
    EnterApplies(w);
    StepKeeps(w, Enter(1));
    DrainedBy(w, Enter(1));
  }

  lemma ConsumeOne(w: World) returns (w': World, steps: seq<Step>)
    requires Inv(w) && w.ctl.Outside? && w.ker.cq != [] && w.lib.epollFd != -1
    ensures Safely(w, steps, w') && w'.ctl.Outside? && Submitted(w'.ker) < Submitted(w.ker)
  {
    var w1 := EnterIt(w);
    var w2, second := Iterate(w1);
    var third;
    w', third := LoopOut(w2);
    DrainedOn(w1, second, w2, third, w');
    DrainedOn(w, [Enter(1)], w1, second + third, w');
    steps := [Enter(1)] + (second + third);
  }

  lemma PostApplies(w: World)
    requires w.ker.done != [] && w.ker.cq == [] && w.cfg.Valid()
    ensures var w' := Apply(w, Post(0));
      && w'.ker.cq == [w.ker.done[0]] && w'.ker.done == w.ker.done[1..] && w'.ker.pending == w.ker.pending
      && w'.ctl == w.ctl && w'.lib == w.lib && SameWork(w, w')
  {
    assert RemoveAt(w.ker.done, 0) == w.ker.done[1..];
  }

  lemma PostIt(w: World) returns (w': World)
    requires Inv(w) && w.ker.cq == [] && w.ker.done != []
    ensures Safely(w, [Post(0)], w') && w' == Apply(w, Post(0)) && Submitted(w'.ker) == Submitted(w.ker)
    ensures w'.ker.cq == [w.ker.done[0]] && w'.ker.done == w.ker.done[1..] && w'.ker.pending == w.ker.pending
    ensures w'.ctl == w.ctl && w'.lib == w.lib
  {
    w' := Apply(w, Post(0));
    PostApplies(w);
    StepKeeps(w, Post(0));
    DrainedBy(w, Post(0));
  }

  lemma PostOne(w: World) returns (w': World, steps: seq<Step>)
    requires Inv(w) && w.ctl.Outside? && w.ker.cq == [] && w.ker.done != [] && w.lib.epollFd != -1
    ensures Safely(w, steps, w') && w'.ctl.Outside? && Submitted(w'.ker) < Submitted(w.ker)
  {
    var w1 := PostIt(w);
    var rest;
    w', rest := ConsumeOne(w1);
    DrainedOn(w, [Post(0)], w1, rest, w');
    steps := [Post(0)] + rest;
  }

  /** The kernel may fail any operation with an error other than EAGAIN. */
  lemma ExecuteApplies(w: World)
    requires w.ker.pending != []
    ensures var w' := Apply(w, Execute(0, -1, 0, false));
      && w'.ker.done == w.ker.done + [Cqe(w.ker.pending[0], -1, 0)] && w'.ker.pending == w.ker.pending[1..]
      && w'.ker.cq == w.ker.cq && w'.ctl == w.ctl && w'.lib == w.lib && SameWork(w, w')
  {
    assert RemoveAt(w.ker.pending, 0) == w.ker.pending[1..];
  }

  lemma ExecuteIt(w: World) returns (w': World)
    requires Inv(w) && w.ker.pending != []
    ensures Safely(w, [Execute(0, -1, 0, false)], w') && w' == Apply(w, Execute(0, -1, 0, false))
    ensures Submitted(w'.ker) == Submitted(w.ker) && w'.ker.cq == w.ker.cq && w'.ctl == w.ctl && w'.lib == w.lib
    ensures w'.ker.done == w.ker.done + [Cqe(w.ker.pending[0], -1, 0)] && w'.ker.pending == w.ker.pending[1..]
  {
    w' := Apply(w, Execute(0, -1, 0, false));
    ExecuteApplies(w);
    StepKeeps(w, Execute(0, -1, 0, false));
    DrainedBy(w, Execute(0, -1, 0, false));
  }

  /** As long as mcon has an epoll descriptor, some run takes a submitted operation home. */
  lemma FinishOne(w: World) returns (w': World, steps: seq<Step>)
    requires Inv(w) && w.ctl.Outside? && Submitted(w.ker) > 0 && w.lib.epollFd != -1
    ensures Safely(w, steps, w') && w'.ctl.Outside? && Submitted(w'.ker) < Submitted(w.ker)
  {
    if w.ker.cq != [] {
      w', steps := ConsumeOne(w);
    } else if w.ker.done != [] {
      w', steps := PostOne(w);
    } else {
      var w1 := ExecuteIt(w);
      var rest;
      w', rest := PostOne(w1);
      DrainedOn(w, [Execute(0, -1, 0, false)], w1, rest, w');
      steps := [Execute(0, -1, 0, false)] + rest;
    }
  }
}
