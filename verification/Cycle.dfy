/** The accept cycle: what starts it, what keeps it going, and what ends it. */
module Cycle {
  import opened Types
  import opened World
  import opened Invariant
  import opened AcceptSteps
  import opened KernelSteps
  import opened Reachability
  import opened Theorems

  /* Who asks for accepts */

  /** The step processes an accept completion that is not EAGAIN. */
  predicate Continues(w: World, step: Step) {
    step.Process? && AtCqe(w) && w.ker.cq[0].op.kind == Accept && w.ker.cq[0].res != -EAGAIN
  }

  lemma ProcessAsks(w: World, addOk: bool)
    requires AtCqe(w) && !w.lib.acceptsRequested && DoProcess(w, addOk).lib.acceptsRequested
    ensures w.ker.cq[0].op.kind == Accept && w.ker.cq[0].res != -EAGAIN
  {
  }

  lemma OtherAsks(w: World, step: Step)
    requires Enabled(w, step) && !step.Process?
    requires !w.lib.acceptsRequested && Perform(w, step).lib.acceptsRequested
    ensures step == ServerEvent(true)
  {
  }

  /** A request comes only from an edge of the listening socket, or from an accept
      that found somebody or failed: one that found nobody ends the cycle. */
  lemma RequestComesFrom(w: World, step: Step)
    requires !w.lib.acceptsRequested && Apply(w, step).lib.acceptsRequested
    ensures step == ServerEvent(true) || Continues(w, step)
  {
    if step.Process? { ProcessAsks(w, step.addOk); } else { OtherAsks(w, step); }
  }

  lemma Started(w: World)
    requires w.ctl.Outside? && w.started
    ensures Apply(w, ServerEvent(true)).lib.acceptsRequested
  {
  }

  /** Exactly these make a request. */
  lemma RequestIsMadeExactly(cfg: Config, steps: seq<Step>, step: Step)
    requires cfg.Valid() && Enabled(After(cfg, steps), step) && !After(cfg, steps).lib.acceptsRequested
    ensures Apply(After(cfg, steps), step).lib.acceptsRequested
       <==> step == ServerEvent(true) || Continues(After(cfg, steps), step)
  {
    var w := After(cfg, steps);
    Reachable(cfg, steps);
    if step == ServerEvent(true) {
      Started(w);
    } else if Continues(w, step) {
      AcceptIsReserved(w);
      AcceptAsks(w, step.addOk);
    }
    if Apply(w, step).lib.acceptsRequested { RequestComesFrom(w, step); }
  }

  lemma AcceptAsks(w: World, addOk: bool)
    requires AtAccept(w) && w.ker.cq[0].res != -EAGAIN
    requires w.lib.free != [] && 0 <= w.lib.free[|w.lib.free| - 1] < |w.lib.sessions|
    ensures Apply(w, Process(addOk)).lib.acceptsRequested
  {
  }

  /* An idle server */

  /** Nothing asks for an accept, and nobody waits for one. */
  ghost predicate Calm(w: World) {
    && !w.lib.acceptsRequested && w.ker.edgesHeld == 0 && !w.ker.edgeReady && w.ker.backlog == 0
    && forall c: Cqe :: c in Completions(w.ker) ==> !c.Hot()
  }

  /** No client arrives, the consumer hands over no edge that epoll has not reported,
      and an accept that is executed finds nobody. */
  predicate CalmStep(w: World, step: Step) {
    && !step.Arrive? && HonestStep(w, step)
    && (step.Execute? && step.index < |w.ker.pending| && w.ker.pending[step.index].kind == Accept ==>
          step.res == -EAGAIN)
  }

  ghost predicate CalmRun(w: World, steps: seq<Step>) {
    forall k :: 0 <= k < |steps| ==> CalmStep(Run(w, steps[..k]), steps[k])
  }

  /** From `w` to `w'` no accept has been asked for or added, and nobody has come. */
  ghost predicate CalmMove(w: World, w': World) {
    && !w'.lib.acceptsRequested && w'.ker.edgesHeld == 0 && !w'.ker.edgeReady && w'.ker.backlog == 0
    && w'.lib.acceptsLive <= w.lib.acceptsLive
    && Completions(w'.ker) <= Completions(w.ker)
  }

  lemma ColdHead(w: World)
    requires Calm(w) && AtCqe(w)
    ensures !w.ker.cq[0].Hot()
  {
    assert w.ker.cq[0] in Completions(w.ker);
  }

  /** From `w` to `w'` the first completion at most has been consumed, and nothing has been asked for. */
  ghost predicate CalmlyConsumed(w: World, w': World) {
    && !w'.lib.acceptsRequested && w'.ker.edgesHeld == 0 && !w'.ker.edgeReady && w'.ker.backlog == 0
    && w'.lib.acceptsLive <= w.lib.acceptsLive && w.ker.cq != []
    && w'.ker.done == w.ker.done && w'.ker.cq in {w.ker.cq, w.ker.cq[1..]}
  }

  lemma ConsumedIsCalm(w: World, w': World)
    requires CalmlyConsumed(w, w')
    ensures CalmMove(w, w')
  {
    assert w.ker.cq == [w.ker.cq[0]] + w.ker.cq[1..];
  }

  lemma ColdAcceptIsCalm(w: World, addOk: bool)
    requires Calm(w) && AtCqe(w) && w.ker.cq[0].op.kind == Accept && w.ker.cq[0].res == -EAGAIN
    requires 0 < w.lib.acceptsLive < 0x1_0000
    ensures CalmlyConsumed(w, DoProcess(w, addOk))
  {
  }

  lemma OtherProcessIsCalm(w: World, addOk: bool)
    requires Calm(w) && AtCqe(w) && w.ker.cq[0].op.kind != Accept
    ensures CalmlyConsumed(w, DoProcess(w, addOk))
  {
  }

  lemma CalmProcess(w: World, addOk: bool)
    requires Inv(w) && Calm(w) && AtCqe(w)
    ensures CalmMove(w, DoProcess(w, addOk))
  {
    ColdHead(w);
    if w.ker.cq[0].op.kind == Accept {
      AcceptIsReserved(w);
      ColdAcceptIsCalm(w, addOk);
    } else {
      OtherProcessIsCalm(w, addOk);
    }
    ConsumedIsCalm(w, DoProcess(w, addOk));
  }

  lemma CalmSubmit(w: World, ret: int)
    requires Calm(w) && ret <= |Staged(w).ker.sq|
    ensures CalmMove(w, DoSubmit(w, ret))
  {
    assert AcceptQuota(w.cfg, w.lib) == 0;
  }

  lemma CalmPost(w: World, index: nat)
    requires Calm(w) && Enabled(w, Post(index))
    ensures CalmMove(w, Perform(w, Post(index)))
  {
    PostedKeepsBooks(w, Perform(w, Post(index)), index);
  }

  lemma CalmOther(w: World, step: Step)
    requires Calm(w) && Enabled(w, step) && CalmStep(w, step)
    requires !step.Process? && !step.Submit? && !step.Execute? && !step.Post?
    ensures CalmMove(w, Perform(w, step))
  {
  }

  lemma CalmExecute(w: World, step: Step)
    requires Calm(w) && Enabled(w, step) && CalmStep(w, step) && step.Execute?
    ensures Calm(Perform(w, step)) && Perform(w, step).lib == w.lib
  {
    var c := Cqe(w.ker.pending[step.index], step.res, step.conn);
    ExecuteRuns(w, step.index, step.res, step.conn, step.dequeue);
    RanBooks(w, Perform(w, step), step.index, c);
    ExecuteRests(w, step);
  }

  lemma ExecuteRests(w: World, step: Step)
    requires Enabled(w, step) && step.Execute? && w.ker.backlog == 0
    ensures var w' := Perform(w, step);
      w'.ker.edgesHeld == w.ker.edgesHeld && w'.ker.edgeReady == w.ker.edgeReady && w'.ker.backlog == 0
  {
  }

  lemma MoveKeepsCalm(w: World, w': World)
    requires Calm(w) && CalmMove(w, w')
    ensures Calm(w')
  {
    forall c: Cqe | c in Completions(w'.ker) ensures !c.Hot() { assert c in Completions(w.ker); }
  }

  lemma CalmStays(w: World, step: Step)
    requires Inv(w) && Calm(w) && CalmStep(w, step)
    ensures Calm(Apply(w, step)) && Apply(w, step).lib.acceptsLive <= w.lib.acceptsLive
  {
    if Enabled(w, step) {
      if step.Execute? {
        CalmExecute(w, step);
      } else {
        if step.Process? {
          CalmProcess(w, step.addOk);
        } else if step.Submit? {
          CalmSubmit(w, step.ret);
        } else if step.Post? {
          CalmPost(w, step.index);
        } else {
          CalmOther(w, step);
        }
        MoveKeepsCalm(w, Perform(w, step));
      }
    }
  }

  lemma CalmFront(w: World, steps: seq<Step>)
    requires CalmRun(w, steps) && steps != []
    ensures var last := |steps| - 1; CalmRun(w, steps[..last]) && CalmStep(Run(w, steps[..last]), steps[last])
  {
    var front := steps[..|steps| - 1];
    forall k | 0 <= k < |front| ensures CalmStep(Run(w, front[..k]), front[k]) {
      assert front[..k] == steps[..k];
    }
  }

  lemma {:induction false} CalmRunStays(w: World, steps: seq<Step>)
    requires Inv(w) && Calm(w) && CalmRun(w, steps)
    ensures Calm(Run(w, steps)) && Run(w, steps).lib.acceptsLive <= w.lib.acceptsLive
  {
    if steps != [] {
      var front, last := steps[..|steps| - 1], steps[|steps| - 1];
      CalmFront(w, steps);
      CalmRunStays(w, front);
      RunKeeps(w, front);
      CalmStays(Run(w, front), last);
    }
  }

  /** An idle server is quiet: from a state without request, edge, waiting client or completion that keeps
      the cycle going, no accept is asked for and none is added until a client arrives or an accept fails. */
  lemma IdleServerIsQuiet(cfg: Config, before: seq<Step>, steps: seq<Step>)
    requires cfg.Valid() && Calm(After(cfg, before)) && CalmRun(After(cfg, before), steps)
    ensures var w, w' := After(cfg, before), After(cfg, before + steps);
      && !w'.lib.acceptsRequested
      && CountOps(Journey(w'), NO_SESSION, Accept) <= CountOps(Journey(w), NO_SESSION, Accept)
  {
    Reachable(cfg, before);
    CalmRunStays(After(cfg, before), steps);
    RunAppend(Init(cfg), before, steps);
    AcceptsAreReserved(cfg, before);
    AcceptsAreReserved(cfg, before + steps);
  }
}
