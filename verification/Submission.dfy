/** What becomes of operations that one submit has staged and the kernel has not taken. */
module Submission {
  import opened Types
  import opened Pipeline
  import opened World
  import opened Invariant
  import opened Calls
  import opened Reachability
  import opened Behaviour
  import opened Draining
  import opened Theorems

  /** Where the kernel takes all it is offered, a submit leaves operations in the SQ if and only if
      there were some and it adds none: then it does not call the kernel. */
  lemma StagedStayExactly(w: World)
    ensures DoSubmit(w, |Staged(w).ker.sq|).ker.sq != [] <==> MovedBySubmit(w) == 0 && w.ker.sq != []
  {
    if MovedBySubmit(w) == 0 { assert Staged(w).ker.sq == w.ker.sq; }
  }

  /* A full SQ */

  lemma FullRingSubmit(w: World, ret: int)
    requires |w.ker.sq| >= w.cfg.sqEntries && ret <= |Staged(w).ker.sq|
    ensures MovedBySubmit(w) == 0 && DoSubmit(w, ret).ker == w.ker
  {
    assert Staged(w).ker.sq == w.ker.sq;
  }

  lemma FullRingStep(w: World, step: Step)
    requires |w.ker.sq| >= w.cfg.sqEntries
    ensures Apply(w, step).ker.sq == w.ker.sq && Submitted(Apply(w, step).ker) <= Submitted(w.ker)
  {
    if Enabled(w, step) {
      if step.Submit? { FullRingSubmit(w, step.ret); } else { OtherStepsLoad(w, step); }
    }
  }

  /** A full SQ stays as it is: whatever follows, nothing is ever submitted again. */
  lemma {:induction false} FullRingIsStuck(w: World, steps: seq<Step>)
    requires |w.ker.sq| >= w.cfg.sqEntries
    ensures Run(w, steps).ker.sq == w.ker.sq && Submitted(Run(w, steps).ker) <= Submitted(w.ker)
  {
    ConfigStays(w, steps);
    if steps != [] {
      var front := steps[..|steps| - 1];
      FullRingIsStuck(w, front);
      ConfigStays(w, front);
      FullRingStep(Run(w, front), steps[|steps| - 1]);
    }
  }

  /* Operations that are never handed over */

  /** Whatever an honest consumer and the environment do, what is staged stays staged. */
  ghost predicate StagedForever(w: World) {
    forall steps :: HonestRun(w, steps) ==> w.ker.sq <= Run(w, steps).ker.sq
  }

  lemma FullRingKeeps(w: World)
    requires |w.ker.sq| >= w.cfg.sqEntries
    ensures StagedForever(w)
  {
    forall steps ensures w.ker.sq <= Run(w, steps).ker.sq { FullRingIsStuck(w, steps); }
  }

  /** The counter stands at the ring's size although nothing is in flight. */
  predicate Wedged(w: World) {
    w.lib.inFlight == w.cfg.ringSize && Submitted(w.ker) == 0 && !w.ctl.Counting?
  }

  lemma WedgedStep(w: World, step: Step)
    requires Wedged(w)
    ensures Wedged(Apply(w, step)) && Apply(w, step).ker.sq == w.ker.sq
  {
    if step.Submit? && Enabled(w, step) { assert MovedBySubmit(w) == 0 && Staged(w).ker.sq == w.ker.sq; }
  }

  lemma {:induction false} WedgedRun(w: World, steps: seq<Step>)
    requires Wedged(w)
    ensures Wedged(Run(w, steps)) && Run(w, steps).ker.sq == w.ker.sq
  {
    if steps != [] {
      WedgedRun(w, steps[..|steps| - 1]);
      WedgedStep(Run(w, steps[..|steps| - 1]), steps[|steps| - 1]);
    }
  }

  lemma WedgedKeeps(w: World)
    requires Wedged(w)
    ensures StagedForever(w)
  {
    forall steps ensures w.ker.sq <= Run(w, steps).ker.sq { WedgedRun(w, steps); }
  }

  /** The session's outstanding operations leave no room for another. */
  predicate Busy(s: Session) { s.closing || (s.reading && s.writing) }

  /** No accept will be added: its limits are reached, or nothing asks for one. */
  predicate NoAcceptComes(w: World) {
    || |w.lib.free| <= w.lib.acceptsLive
    || w.cfg.maxAccepts <= w.lib.acceptsLive
    || (!w.lib.acceptsRequested && w.ker.edgesHeld == 0 && !w.ker.edgeReady && !Listening(w.lib))
  }

  /** Nothing is on its way, and nothing can be added: every active session has all it may have outstanding,
      all of it staged, and no accept will be added either. */
  ghost predicate Saturated(w: World) {
    && Submitted(w.ker) == 0 && Size(w.lib.queue) == 0
    && (forall i :: 0 <= i < |w.lib.sessions| && w.lib.sessions[i].Active() ==> Busy(w.lib.sessions[i]))
    && NoAcceptComes(w)
  }

  lemma SaturatedSubmit(w: World, ret: int)
    requires Saturated(w) && ret <= |Staged(w).ker.sq|
    ensures MovedBySubmit(w) == 0
    ensures var w' := DoSubmit(w, ret);
      && w'.ker == w.ker && w'.cfg == w.cfg && Size(w'.lib.queue) == 0
      && w'.lib == w.lib.(queue := w'.lib.queue)
  {
    assert AcceptQuota(w.cfg, w.lib) == 0;
    assert Staged(w).ker.sq == w.ker.sq;
    DropFirstIsSuffix(w.lib.queue, 0);
  }

  lemma SaturatedIo(w: World, i: nat, kind: Kind, del: DelResult)
    requires Saturated(w) && kind != Accept
    ensures DoSessionIo(w, i, kind).0 == w && DoDetach(w, i, del).0 == w
  {
  }

  /** From `w` to `w'` nothing has changed in the sessions and the pipeline that saturation speaks of. */
  ghost predicate StaysFull(w: World, w': World) {
    && w'.cfg == w.cfg && w'.lib.queue == w.lib.queue && w'.lib.free == w.lib.free
    && w'.lib.acceptsLive == w.lib.acceptsLive && Submitted(w'.ker) == Submitted(w.ker) && w'.ker.sq == w.ker.sq
    && |w'.lib.sessions| == |w.lib.sessions|
    && forall i :: 0 <= i < |w.lib.sessions| ==>
         w'.lib.sessions[i] == w.lib.sessions[i].(rdhup := w'.lib.sessions[i].rdhup)
  }

  /** A step that leaves a saturated instance as it is, but for flags and what is not of mcon. */
  predicate IsPassive(step: Step) {
    !step.Submit? && !step.SessionIo? && !step.Detach? && !step.Account?
  }

  lemma PassiveLatches(w: World, step: Step)
    requires Submitted(w.ker) == 0 && Enabled(w, step) && IsPassive(step)
    ensures var ss, ss' := w.lib.sessions, Perform(w, step).lib.sessions;
      |ss'| == |ss| && forall i :: 0 <= i < |ss| ==> ss'[i] == ss[i].(rdhup := ss'[i].rdhup)
  {
  }

  lemma PassiveMoves(w: World, step: Step)
    requires Submitted(w.ker) == 0 && Enabled(w, step) && IsPassive(step)
    ensures var w' := Perform(w, step);
      && w'.cfg == w.cfg && w'.lib.queue == w.lib.queue && w'.lib.free == w.lib.free
      && w'.lib.acceptsLive == w.lib.acceptsLive && Submitted(w'.ker) == 0 && w'.ker.sq == w.ker.sq
      && (w.started ==> w'.started)
  {
  }

  lemma OtherFills(w: World, step: Step)
    requires Saturated(w) && Enabled(w, step) && w.started && IsPassive(step)
    ensures StaysFull(w, Perform(w, step)) && Perform(w, step).started
  {
    PassiveLatches(w, step);
    PassiveMoves(w, step);
  }
  lemma FullStays(w: World, w': World)
    requires Saturated(w) && StaysFull(w, w') && NoAcceptComes(w')
    ensures Saturated(w')
  {
  }

  lemma OtherAsksNothing(w: World, step: Step)
    requires Saturated(w) && Enabled(w, step) && w.started && HonestStep(w, step)
    requires IsPassive(step)
    ensures NoAcceptComes(Perform(w, step))
  {
  }

  lemma OtherStays(w: World, step: Step, w': World)
    requires Saturated(w) && Enabled(w, step) && w.started && HonestStep(w, step) && w' == Perform(w, step)
    requires IsPassive(step)
    ensures Saturated(w') && w'.ker.sq == w.ker.sq && w'.started
  {
    OtherFills(w, step);
    OtherAsksNothing(w, step);
    FullStays(w, w');
  }

  lemma SaturatedCall(w: World, step: Step)
    requires Saturated(w) && Enabled(w, step) && w.started
    requires !IsPassive(step)
    ensures Saturated(Perform(w, step)) && Perform(w, step).ker.sq == w.ker.sq && Perform(w, step).started
  {
    match step
    case Submit(ret) => SaturatedSubmit(w, ret);
    case SessionIo(i, kind) => SaturatedIo(w, i, kind, DelOk);
    case Detach(i, del) => SaturatedIo(w, i, Close, del);
    case Account =>
  }

  lemma SaturatedStep(w: World, step: Step)
    requires Saturated(w) && w.started && HonestStep(w, step)
    ensures Saturated(Apply(w, step)) && Apply(w, step).ker.sq == w.ker.sq && Apply(w, step).started
  {
    if Enabled(w, step) {
      if IsPassive(step) { OtherStays(w, step, Perform(w, step)); } else { SaturatedCall(w, step); }
    }
  }

  lemma {:induction false} SaturatedRun(w: World, steps: seq<Step>)
    requires Saturated(w) && w.started && HonestRun(w, steps)
    ensures Saturated(Run(w, steps)) && Run(w, steps).ker.sq == w.ker.sq && Run(w, steps).started
  {
    if steps != [] {
      HonestFront(w, steps);
      SaturatedRun(w, steps[..|steps| - 1]);
      SaturatedStep(Run(w, steps[..|steps| - 1]), steps[|steps| - 1]);
    }
  }

  lemma SaturatedKeeps(w: World)
    requires Saturated(w) && w.started
    ensures StagedForever(w)
  {
    forall steps | HonestRun(w, steps) ensures w.ker.sq <= Run(w, steps).ker.sq { SaturatedRun(w, steps); }
  }

  /* The other states: one run that hands over all that is staged, from its last step back to the first */

  lemma HeirStaged(w: World, step: Step)
    requires StagedForever(w) && HonestStep(w, step) && Apply(w, step).ker.sq == w.ker.sq
    ensures StagedForever(Apply(w, step))
  {
    var w' := Apply(w, step);
    forall steps | HonestRun(w', steps) ensures w'.ker.sq <= Run(w', steps).ker.sq {
      HonestCons(w, step, steps);
    }
  }

  lemma LimitIsPositive(size: nat, inFlight: nat)
    requires size < 0x1_0000 && inFlight < 0x1_0000 && inFlight != size
    ensures Wrap32(size - inFlight) > 0
  {
  }

  /** Room in the SQ, and a counter that leaves some of the ring. */
  predicate Open(w: World) {
    && w.cfg.Valid() && w.ctl.Outside? && |w.ker.sq| < w.cfg.sqEntries
    && 0 <= w.lib.inFlight < 0x1_0000 && w.lib.inFlight != w.cfg.ringSize
  }

  lemma RoomMoves(w: World)
    requires Open(w) && Size(w.lib.queue) + AcceptQuota(w.cfg, w.lib) > 0
    ensures MovedBySubmit(w) > 0
  {
    var n := AcceptQuota(w.cfg, w.lib);
    LimitIsPositive(w.cfg.ringSize, w.lib.inFlight);
    if n > 0 { FlatGrows(w.lib.queue, 4, Repeat(AcceptOp(w.lib.serverFd), n)); }
  }

  /** A submit that moves something, with a kernel that takes all it is offered, empties the SQ. */
  lemma SubmitEmpties(w: World) returns (steps: seq<Step>)
    requires w.ctl.Outside? && MovedBySubmit(w) > 0
    ensures HonestRun(w, steps) && Run(w, steps).ker.sq == []
  {
    steps := [Submit(|Staged(w).ker.sq|)];
    RunOne(w, steps[0]);
  }

  lemma QueuedMoves(w: World)
    requires Open(w) && w.ker.sq != [] && Size(w.lib.queue) + AcceptQuota(w.cfg, w.lib) > 0
    ensures !StagedForever(w)
  {
    RoomMoves(w);
    var steps := SubmitEmpties(w);
  }

  lemma IoAt(w: World, i: nat, kind: Kind)
    requires w.ctl.Outside? && kind != Accept && Validate(w.lib, i, kind) == Ok
    requires Size(w.lib.queue) < w.cfg.ioQueueSize
    ensures var w' := Apply(w, SessionIo(i, kind));
      && w'.ker == w.ker && w'.cfg == w.cfg && w'.ctl == w.ctl && w'.lib.inFlight == w.lib.inFlight
      && Size(w'.lib.queue) > 0
  {
    SessionIoAdds(w, i, kind);
  }

  /** A session that is not busy may read or write. */
  lemma IdleMoves(w: World, i: nat)
    requires Open(w) && w.ker.sq != [] && Size(w.lib.queue) == 0
    requires i < |w.lib.sessions| && w.lib.sessions[i].Active() && !Busy(w.lib.sessions[i])
    ensures !StagedForever(w)
  {
    if StagedForever(w) {
      var kind := if w.lib.sessions[i].reading then Write else Read;
      IoAt(w, i, kind);
      HeirStaged(w, SessionIo(i, kind));
      QueuedMoves(Apply(w, SessionIo(i, kind)));
    }
  }

  /** The limits leave room for an accept. */
  predicate AcceptFits(w: World) {
    && w.lib.acceptsLive < |w.lib.free| && w.lib.acceptsLive < w.cfg.maxAccepts
    && Size(w.lib.queue) < w.cfg.ioQueueSize
  }

  lemma EdgeAsks(w: World)
    requires w.ctl.Outside? && w.started
    ensures var w' := Apply(w, ServerEvent(true));
      && w'.lib == w.lib.(acceptsRequested := true) && w'.ker == w.ker.(edgesHeld := w'.ker.edgesHeld)
      && w'.cfg == w.cfg && w'.ctl == w.ctl
  {
  }

  lemma HeldEdgeMoves(w: World)
    requires Open(w) && w.ker.sq != [] && w.started && AcceptFits(w) && w.ker.edgesHeld > 0
    ensures !StagedForever(w)
  {
    if StagedForever(w) {
      EdgeAsks(w);
      HeirStaged(w, ServerEvent(true));
      QueuedMoves(Apply(w, ServerEvent(true)));
    }
  }

  lemma ReadyEdgeMoves(w: World)
    requires Open(w) && w.ker.sq != [] && w.started && AcceptFits(w) && w.ker.edgeReady
    ensures !StagedForever(w)
  {
    if StagedForever(w) {
      var w' := Apply(w, DeliverEdge);
      HeirStaged(w, DeliverEdge);
      HeldEdgeMoves(w');
    }
  }

  lemma ListenerMoves(w: World)
    requires Open(w) && w.ker.sq != [] && w.started && AcceptFits(w) && Listening(w.lib)
    ensures !StagedForever(w)
  {
    if StagedForever(w) {
      HeirStaged(w, Arrive);
      ReadyEdgeMoves(Apply(w, Arrive));
    }
  }

  lemma UnsaturatedMoves(w: World)
    requires Shape(w) && Open(w) && w.ker.sq != [] && w.started && Submitted(w.ker) == 0 && !Saturated(w)
    ensures !StagedForever(w)
  {
    if Size(w.lib.queue) > 0 || (AcceptFits(w) && w.lib.acceptsRequested) {
      QueuedMoves(w);
    } else if i :| 0 <= i < |w.lib.sessions| && w.lib.sessions[i].Active() && !Busy(w.lib.sessions[i]) {
      IdleMoves(w, i);
    } else if w.ker.edgesHeld > 0 {
      HeldEdgeMoves(w);
    } else if w.ker.edgeReady {
      ReadyEdgeMoves(w);
    } else {
      ListenerMoves(w);
    }
  }

  /** Operations staged while nothing is in flight are lost for good if and only if the SQ is full,
      the counter stands at the ring's size, or nothing can be added to the queue any more. */
  lemma StagedAreLostExactly(cfg: Config, before: seq<Step>)
    requires cfg.Valid()
    requires var w := After(cfg, before);
      w.ctl.Outside? && w.started && w.ker.sq != [] && Submitted(w.ker) == 0
    ensures var w := After(cfg, before);
      StagedForever(w) <==> |w.ker.sq| == cfg.sqEntries || w.lib.inFlight == cfg.ringSize || Saturated(w)
  {
    Reachable(cfg, before);
    var w := After(cfg, before);
    InFlightFits(w);
    if |w.ker.sq| == cfg.sqEntries {
      FullRingKeeps(w);
    } else if w.lib.inFlight == cfg.ringSize {
      WedgedKeeps(w);
    } else if Saturated(w) {
      SaturatedKeeps(w);
    } else {
      UnsaturatedMoves(w);
    }
  }

  lemma InFlightFits(w: World)
    requires Inv(w)
    ensures 0 <= w.lib.inFlight < 0x1_0000
  {
  }

  /** No submit of any continuation hands anything over. */
  ghost predicate NeverSubmits(w: World) {
    forall steps :: HonestRun(w, steps) ==> SubmitsNothing(Run(w, steps))
  }

  ghost predicate SubmitsNothing(w: World) {
    forall ret :: Submitted(Apply(w, Submit(ret)).ker) <= Submitted(w.ker)
  }

  lemma FullRingNeverSubmits(w: World)
    requires |w.ker.sq| >= w.cfg.sqEntries
    ensures NeverSubmits(w)
  {
    forall steps ensures SubmitsNothing(Run(w, steps)) {
      FullRingIsStuck(w, steps);
      ConfigStays(w, steps);
      forall ret ensures Submitted(Apply(Run(w, steps), Submit(ret)).ker) <= Submitted(Run(w, steps).ker) {
        FullRingStep(Run(w, steps), Submit(ret));
      }
    }
  }

  lemma SubmitGrows(w: World) returns (ret: int)
    requires w.ctl.Outside? && MovedBySubmit(w) > 0
    ensures Submitted(Apply(w, Submit(ret)).ker) > Submitted(w.ker)
  {
    ret := |Staged(w).ker.sq|;
  }

  lemma SomeSubmit(w: World, ret: int)
    requires Submitted(Apply(w, Submit(ret)).ker) > Submitted(w.ker)
    ensures !NeverSubmits(w)
  {
    assert HonestRun(w, []) && Run(w, []) == w;
  }

  /** With work in the queue and the counter not at the ring's size, whatever is in flight,
      an instance never submits again if and only if its SQ is full. */
  lemma StuckExactly(cfg: Config, before: seq<Step>)
    requires cfg.Valid()
    requires var w := After(cfg, before);
      w.ctl.Outside? && Size(w.lib.queue) > 0 && w.lib.inFlight != cfg.ringSize
    ensures NeverSubmits(After(cfg, before)) <==> |After(cfg, before).ker.sq| == cfg.sqEntries
  {
    Reachable(cfg, before);
    var w := After(cfg, before);
    InFlightFits(w);
    if |w.ker.sq| == cfg.sqEntries {
      FullRingNeverSubmits(w);
    } else {
      RoomMoves(w);
      var ret := SubmitGrows(w);
      SomeSubmit(w, ret);
    }
  }

  /* Where every submit takes all it is offered */

  lemma FullAppend(w: World, steps: seq<Step>, more: seq<Step>)
    requires FullRun(w, steps) && AllDrain(more)
    ensures FullRun(w, steps + more)
  {
    forall k | 0 <= k < |steps + more| ensures FullStep(Run(w, (steps + more)[..k]), (steps + more)[k]) {
      if k < |steps| {
        assert (steps + more)[..k] == steps[..k] && (steps + more)[k] == steps[k];
        assert FullStep(Run(w, steps[..k]), steps[k]);
      } else {
        assert (steps + more)[k] == more[k - |steps|] && Drains(more[k - |steps|]);
        DrainIsFull(Run(w, (steps + more)[..k]), (steps + more)[k]);
      }
    }
  }

  lemma DrainIsFull(w: World, step: Step)
    requires Drains(step)
    ensures FullStep(w, step)
  {
  }

  /** In this continuation of the run the next submit moves something out of the queue. */
  ghost predicate CanMove(cfg: Config, steps: seq<Step>, more: seq<Step>) {
    && FullRun(Init(cfg), steps + more) && After(cfg, steps + more).ctl.Outside?
    && MovedBySubmit(After(cfg, steps + more)) > 0
  }

  lemma RoomLeft(cfg: Config, steps: seq<Step>)
    requires cfg.Valid() && FullRun(Init(cfg), steps) && After(cfg, steps).ctl.Outside?
    requires Size(After(cfg, steps).lib.queue) > 0 && Load(After(cfg, steps)) < cfg.ringSize
    ensures MovedBySubmit(After(cfg, steps)) > 0
  {
    FullSubmissionStaysInBounds(cfg, steps);
    Reachable(cfg, steps);
    RoomMoves(After(cfg, steps));
  }

  lemma RoomComes(cfg: Config, steps: seq<Step>) returns (more: seq<Step>)
    requires cfg.Valid() && FullRun(Init(cfg), steps)
    requires var w := After(cfg, steps);
      w.ctl.Outside? && Size(w.lib.queue) > 0 && w.lib.epollFd != -1 && w.addFailures < cfg.ringSize
    ensures CanMove(cfg, steps, more)
  {
    var w := After(cfg, steps);
    FullSubmissionStaysInBounds(cfg, steps);
    Reachable(cfg, steps);
    if Load(w) < cfg.ringSize {
      more := [];
      assert steps + [] == steps;
      RoomLeft(cfg, steps);
    } else {
      var w';
      w', more := FinishOne(w);
      DrainedIs(w, more, w');
      RunAppend(Init(cfg), steps, more);
      FullAppend(Init(cfg), steps, more);
      RoomLeft(cfg, steps + more);
    }
  }

  /** As long as mcon has an epoll descriptor, an instance with work in its queue is wedged
      if and only if as many clients could not be registered as the ring has entries. */
  lemma WedgedExactly(cfg: Config, steps: seq<Step>)
    requires cfg.Valid() && FullRun(Init(cfg), steps)
    requires var w := After(cfg, steps); w.ctl.Outside? && Size(w.lib.queue) > 0 && w.lib.epollFd != -1
    ensures (forall more :: !CanMove(cfg, steps, more)) <==> After(cfg, steps).addFailures == cfg.ringSize
  {
    FullSubmissionStaysInBounds(cfg, steps);
    if After(cfg, steps).addFailures == cfg.ringSize {
      forall more ensures !CanMove(cfg, steps, more) {
        if CanMove(cfg, steps, more) { LostClientsWedgeTheInstance(cfg, steps, more); }
      }
    } else {
      var more := RoomComes(cfg, steps);
    }
  }

  /** Where every submit takes all it is offered, no accept is stuck in the SQ: a waiting connection
      has an edge, a request, an accept in the queue or in the kernel, or a completion to be processed. */
  lemma NoLostAcceptWithFullSubmission(cfg: Config, steps: seq<Step>)
    requires cfg.Valid() && FullRun(Init(cfg), steps)
    ensures var w := After(cfg, steps);
      Listening(w.lib) && w.ker.backlog > 0 ==>
        || w.ker.edgeReady || w.ker.edgesHeld > 0
        || w.lib.acceptsRequested
        || AcceptOp(cfg.listenFd) in multiset(Flat(w.lib.queue)) + multiset(w.ker.pending)
        || exists c: Cqe :: c in Completions(w.ker) && c.op.kind == Accept && c.res != -EAGAIN
  {
    FullSubmissionStaysInBounds(cfg, steps);
    NoLostAccept(cfg, steps);
  }
}
