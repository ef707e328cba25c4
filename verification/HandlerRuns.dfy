/** Runs of the completion handler: its own steps, with steps of the environment between any two. */
module HandlerRuns {
  import opened Types
  import opened World
  import opened Invariant
  import opened Handler
  import opened Reachability

  /** The environment's part in one iteration: whether a client can be registered, its moves between
      the processing of a CQE and the accounting, and those before the guard is evaluated again. */
  datatype Turn = Turn(addOk: bool, between: seq<Step>, after: seq<Step>)
  {
    predicate Environmental() {
      (forall s :: s in between ==> IsEnvironment(s)) && (forall s :: s in after ==> IsEnvironment(s))
    }
  }

  predicate IsHandler(step: Step) {
    step.Process? || step.Account? || step.Leave? || step.ClearEventfd? || step.CheckReady? || step.Rearm?
  }

  /** Steps of the handler and of the environment only. */
  ghost predicate Internal(trace: seq<Step>) {
    forall step :: step in trace ==> IsHandler(step) || IsEnvironment(step)
  }

  function EnvironmentStep(cfg: Config, lib: Lib, ker: Kernel, step: Step): Kernel {
    Apply(World(cfg, lib, ker, Outside, true, [], {}, 0), step).ker
  }

  lemma EnvironmentMovesKernel(w: World, step: Step)
    requires IsEnvironment(step)
    ensures Apply(w, step) == w.(ker := EnvironmentStep(w.cfg, w.lib, w.ker, step))
  {
  }

  lemma EnvironmentStepIs(w: World, step: Step)
    requires IsEnvironment(step)
    ensures Apply(w, step) == w.(ker := EnvironmentStep(w.cfg, w.lib, w.ker, step))
    ensures Submitted(Apply(w, step).ker) == Submitted(w.ker) && Apply(w, step).ker.sq == w.ker.sq
    ensures w.ker.eventfd <= Apply(w, step).ker.eventfd
  {
    EnvironmentMovesKernel(w, step);
    EnvironmentSubmitsNothing(w, step);
  }

  lemma EnvironmentSubmitsNothing(w: World, step: Step)
    requires IsEnvironment(step)
    ensures Submitted(Apply(w, step).ker) == Submitted(w.ker) && Apply(w, step).ker.sq == w.ker.sq
    ensures w.ker.eventfd <= Apply(w, step).ker.eventfd
  {
  }

  /** The handler and the environment get from w to w' by these steps. It speaks of a prefix, which is
      all of them, so that a run is only looked into where one is cut into pieces. */
  ghost predicate Leads(w: World, steps: seq<Step>, w': World) {
    forall n: nat :: n == |steps| ==> Internal(steps[..n]) && Run(w, steps[..n]) == w'
  }

  lemma LeadsIs(w: World, steps: seq<Step>, w': World)
    ensures Leads(w, steps, w') <==> Internal(steps) && Run(w, steps) == w'
  {
    assert steps[..|steps|] == steps;
  }

  lemma LeadsNowhere(w: World)
    ensures Leads(w, [], w)
  {
    LeadsIs(w, [], w);
  }

  lemma LeadsOn(w: World, steps: seq<Step>, w1: World, more: seq<Step>, w2: World)
    requires Leads(w, steps, w1) && Leads(w1, more, w2)
    ensures Leads(w, steps + more, w2)
  {
    LeadsIs(w, steps, w1);
    LeadsIs(w1, more, w2);
    RunAppend(w, steps, more);
    LeadsIs(w, steps + more, w2);
  }

  lemma LeadsBy(w: World, steps: seq<Step>, w1: World, step: Step)
    requires Leads(w, steps, w1) && (IsHandler(step) || IsEnvironment(step))
    ensures Leads(w, steps + [step], Apply(w1, step))
  {
    LeadsIs(w, steps, w1);
    assert (steps + [step])[..|steps|] == steps;
    LeadsIs(w, steps + [step], Apply(w1, step));
  }

  /** Processing a completion does not touch the eventfd. */
  lemma ProcessKeepsEventfd(w: World, addOk: bool)
    requires AtCqe(w)
    ensures DoProcess(w, addOk).ker.eventfd == w.ker.eventfd
  {
  }

  lemma EnterKeeps(w: World, cap: nat)
    requires Inv(w) && w.ctl.Outside?
    ensures SlotsStayKnown(w.(ctl := Looping(cap, 0, 0)))
  {
    StepKeeps(w, Enter(cap));
    EnterIs(w, cap);
    SlotsAreKnown(Apply(w, Enter(cap)));
  }

  lemma EnterIs(w: World, cap: nat)
    requires w.ctl.Outside?
    ensures Apply(w, Enter(cap)) == w.(ctl := Looping(cap, 0, 0))
  {
  }

  lemma EnterLeads(w: World, cap: nat, trace: seq<Step>, w': World)
    requires w.ctl.Outside? && Leads(w.(ctl := Looping(cap, 0, 0)), trace, w')
    ensures w' == Run(w, [Enter(cap)] + trace) && Internal(trace)
  {
    EnterIs(w, cap);
    LeadsIs(w.(ctl := Looping(cap, 0, 0)), trace, w');
    assert [Enter(cap)][..0] == [];
    RunAppend(w, [Enter(cap)], trace);
  }

  /** What is returned, and where control goes: -1 leaves the loop, 0 and 1 count the events stored. */
  ghost predicate Returned(w: World, w': World, err: int)
    requires AtCqe(w)
  {
    && err in {-1, 0, 1}
    && w'.ctl == (if err == -1 then AfterLoop(w.ctl) else Produced(w, err))
    && (err >= 0 ==> Submitted(w'.ker) == Submitted(w.ker) - 1)
    && (err <= 0 ==> w'.log == w.log)
  }

  /** The event stored is the event logged. */
  ghost predicate Stored(log: seq<Obs>, log': seq<Obs>, event: Event) {
    |log'| == |log| + 1 && log'[..|log|] == log && TellsAt(log', |log|, event)
  }

  /** The environment's moves before each of the three system calls that follow an idle loop. */
  datatype Quiet = Quiet(read: seq<Step>, check: seq<Step>, write: seq<Step>)
  {
    predicate Environmental() {
      forall s :: s in read + check + write ==> IsEnvironment(s)
    }

    /** Nothing goes on meanwhile. */
    predicate Idle() { read == check == write == [] }
  }

  predicate TellsAt(log: seq<Obs>, n: nat, event: Event) {
    n < |log| && log[n].Told? && log[n].event == event
  }

  /** The events are the last entries of the log, in order. */
  ghost predicate Reported(log: seq<Obs>, log': seq<Obs>, events: seq<Event>) {
    && |log'| == |log| + |events|
    && log'[..|log|] == log
    && forall k :: 0 <= k < |events| ==> TellsAt(log', |log| + k, events[k])
  }

  lemma ReportOneMore(log: seq<Obs>, log1: seq<Obs>, log2: seq<Obs>, events: seq<Event>, err: int)
    requires err in {0, 1} && err <= |events|
    requires Reported(log, log1, events[..|events| - err])
    requires if err == 1 then Stored(log1, log2, events[|events| - 1]) else log2 == log1
    ensures Reported(log, log2, events)
  {
    if err == 0 {
      assert events[..|events|] == events;
    } else {
      var n := |events| - 1;
      assert log2[..|log|] == log2[..|log1|][..|log|];
      forall k | 0 <= k < |events| ensures TellsAt(log2, |log| + k, events[k]) {
        if k < n {
          assert log2[|log| + k] == log2[..|log1|][|log| + k] == log1[|log| + k];
          assert events[..n][k] == events[k];
          assert TellsAt(log1, |log| + k, events[..n][k]);
        }
      }
    }
  }

  /** The slots the next completion leads to exist. */
  ghost predicate SlotsKnown(w: World) {
    AtCqe(w) ==>
      && (w.ker.cq[0].op.kind != Kind.Accept ==> 0 <= w.ker.cq[0].op.session < |w.lib.sessions|)
      && (w.lib.free != [] ==> 0 <= w.lib.free[|w.lib.free| - 1] < |w.lib.sessions|)
  }

  ghost predicate SlotsStayKnown(w: World) {
    forall steps, w' :: Leads(w, steps, w') ==> SlotsKnown(w')
  }

  lemma SlotsOf(w: World)
    requires Inv(w)
    ensures SlotsKnown(w)
  {
    if AtCqe(w) && w.ker.cq[0].op.kind != Kind.Accept { IoCqeKnown(w); }
  }

  lemma SlotsAreKnown(w: World)
    requires Inv(w)
    ensures SlotsStayKnown(w)
  {
    forall steps, w' | Leads(w, steps, w') ensures SlotsKnown(w') {
      LeadsIs(w, steps, w');
      RunKeeps(w, steps);
      SlotsOf(w');
    }
  }
}
