/** An accept prepared while mcon has a server socket is aimed at that socket. */
module Aim {
  import opened Types
  import opened Pipeline
  import opened World
  import opened Invariant
  import opened Ledger
  import opened Calls
  import opened AcceptSteps
  import opened KernelSteps
  import opened Reachability

  ghost predicate AcceptsAreAimed(w: World) {
    && (w.lib.serverFd != -1 ==> AcceptOp(-1) !in Outstanding(w.lib, w.ker))
    && (!w.started ==> !w.lib.acceptsRequested && w.lib.acceptsLive == 0)
  }

  lemma AimProcess(w: World, addOk: bool)
    requires Inv(w) && AtCqe(w) && AcceptsAreAimed(w)
    ensures AcceptsAreAimed(DoProcess(w, addOk))
  {
    OpsOfTail(w.ker.cq);
    if !w.started && w.ker.cq[0].op.kind == Accept { AcceptIsReserved(w); }
    ProcessAims(w, addOk);
    ProcessFlags(w, addOk);
  }

  lemma ProcessAims(w: World, addOk: bool)
    requires AtCqe(w)
    ensures var w' := DoProcess(w, addOk);
      && w'.ker.cq in {w.ker.cq, w.ker.cq[1..]}
      && w'.ker == w.ker.(cq := w'.ker.cq, seen := w'.ker.seen, table := w'.ker.table)
      && w'.lib.queue == w.lib.queue
  {
  }

  lemma ProcessFlags(w: World, addOk: bool)
    requires AtCqe(w)
    ensures var w' := DoProcess(w, addOk);
      && w'.started == w.started
      && w'.lib.serverFd in {w.lib.serverFd, -1}
      && (w.ker.cq[0].op.kind != Accept ==>
            w'.lib.acceptsRequested == w.lib.acceptsRequested && w'.lib.acceptsLive == w.lib.acceptsLive)
  {
  }

  /** Outstanding operations are those there were, and `n` accepts aimed at the server socket. */
  lemma AimAdded(w: World, w': World, n: nat)
    requires AcceptsAreAimed(w) && w'.started == w.started && w'.lib.serverFd == w.lib.serverFd
    requires Outstanding(w'.lib, w'.ker) == Outstanding(w.lib, w.ker) + multiset{}[AcceptOp(w.lib.serverFd) := n]
    requires !w.started ==> w'.lib.acceptsRequested == w.lib.acceptsRequested
    requires !w.started ==> w'.lib.acceptsLive == w.lib.acceptsLive
    ensures AcceptsAreAimed(w')
  {
  }

  lemma SubmitAdds(w: World, ret: int)
    requires ret <= |Staged(w).ker.sq|
    ensures var w' := DoSubmit(w, ret);
      Outstanding(w'.lib, w'.ker)
        == Outstanding(w.lib, w.ker) + multiset{}[AcceptOp(w.lib.serverFd) := AcceptQuota(w.cfg, w.lib)]
  {
    var n := AcceptQuota(w.cfg, w.lib);
    var w1 := w.(lib := WithAccepts(w.lib, n));
    WithAcceptsAdds(w.lib, w.ker, n);
    TransferKeepsBooks(w1, TransferSize(w1.cfg, w1.lib, w1.ker));
    HandoverKeepsBooks(Staged(w), ret);
  }

  lemma AimSubmit(w: World, ret: int)
    requires AcceptsAreAimed(w) && ret <= |Staged(w).ker.sq|
    ensures AcceptsAreAimed(DoSubmit(w, ret))
  {
    SubmitAdds(w, ret);
    SubmitFields(w, ret);
    AimAdded(w, DoSubmit(w, ret), AcceptQuota(w.cfg, w.lib));
  }

  lemma SubmitFields(w: World, ret: int)
    requires ret <= |Staged(w).ker.sq|
    ensures var w', lib1 := DoSubmit(w, ret), WithAccepts(w.lib, AcceptQuota(w.cfg, w.lib));
      && w'.started == w.started && w'.lib.serverFd == w.lib.serverFd
      && w'.lib.acceptsLive == lib1.acceptsLive && w'.lib.acceptsRequested == lib1.acceptsRequested
  {
  }

  lemma AimStart(w: World, ok: bool)
    requires Inv(w) && AcceptsAreAimed(w) && !w.started
    ensures AcceptsAreAimed(DoStart(w, ok))
  {
    assert Outstanding(DoStart(w, ok).lib, DoStart(w, ok).ker) == Outstanding(w.lib, w.ker);
  }

  lemma AimIo(w: World, i: nat, kind: Kind)
    requires AcceptsAreAimed(w) && kind != Accept
    ensures AcceptsAreAimed(DoSessionIo(w, i, kind).0)
  {
    if DoSessionIo(w, i, kind).1 == Ok { SessionIoAdds(w, i, kind); }
  }

  lemma AimKernel(w: World, step: Step)
    requires AcceptsAreAimed(w) && Enabled(w, step) && (step.Execute? || step.Post?)
    ensures AcceptsAreAimed(Perform(w, step))
  {
    match step
    case Execute(index, res, conn, dequeue) =>
      ExecuteRuns(w, index, res, conn, dequeue);
      RanBooks(w, Perform(w, step), index, Cqe(w.ker.pending[index], res, conn));
    case Post(index) =>
      PostedKeepsBooks(w, Perform(w, step), index);
  }

  predicate MovesNoOperation(step: Step) {
    && !step.Process? && !step.Submit? && !step.Start? && !step.SessionIo? && !step.Execute? && !step.Post?
  }

  lemma OtherAims(w: World, step: Step)
    requires Enabled(w, step) && MovesNoOperation(step)
    ensures var w' := Perform(w, step);
      && w'.ker.sq == w.ker.sq && w'.ker.pending == w.ker.pending
      && w'.ker.done == w.ker.done && w'.ker.cq == w.ker.cq && w'.lib.queue == w.lib.queue
  {
  }

  lemma OtherFlags(w: World, step: Step)
    requires Enabled(w, step) && MovesNoOperation(step)
    ensures var w' := Perform(w, step);
      && w'.started == w.started && w'.lib.serverFd in {w.lib.serverFd, -1} && w'.lib.acceptsLive == w.lib.acceptsLive
      && (!w.started ==> w'.lib.acceptsRequested == w.lib.acceptsRequested)
  {
  }

  lemma AimKept(w: World, w': World)
    requires AcceptsAreAimed(w)
    requires w'.started == w.started && w'.lib.serverFd in {w.lib.serverFd, -1}
    requires Outstanding(w'.lib, w'.ker) == Outstanding(w.lib, w.ker) && w'.lib.acceptsLive == w.lib.acceptsLive
    requires !w.started ==> w'.lib.acceptsRequested == w.lib.acceptsRequested
    ensures AcceptsAreAimed(w')
  {
  }

  lemma AimOther(w: World, step: Step)
    requires AcceptsAreAimed(w) && Enabled(w, step) && MovesNoOperation(step)
    ensures AcceptsAreAimed(Perform(w, step))
  {
    OtherAims(w, step);
    OtherFlags(w, step);
    AimKept(w, Perform(w, step));
  }

  lemma AimStep(w: World, step: Step)
    requires Inv(w) && AcceptsAreAimed(w)
    ensures AcceptsAreAimed(Apply(w, step))
  {
    if Enabled(w, step) {
      if step.Process? {
        AimProcess(w, step.addOk);
      } else if step.Submit? {
        AimSubmit(w, step.ret);
      } else if step.Start? {
        AimStart(w, step.ok);
      } else if step.SessionIo? {
        AimIo(w, step.i, step.kind);
      } else if step.Execute? || step.Post? {
        AimKernel(w, step);
      } else {
        AimOther(w, step);
      }
    }
  }

  lemma {:induction false} AcceptsStayAimed(cfg: Config, steps: seq<Step>)
    requires cfg.Valid()
    ensures AcceptsAreAimed(After(cfg, steps))
  {
    if steps == [] {
      EmptyIsEmpty();
    } else {
      AcceptsStayAimed(cfg, steps[..|steps| - 1]);
      Reachable(cfg, steps[..|steps| - 1]);
      AimStep(After(cfg, steps[..|steps| - 1]), steps[|steps| - 1]);
    }
  }
}
