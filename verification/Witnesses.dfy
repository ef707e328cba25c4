/** Concrete runs in which a promise is not kept. */
module Witnesses {
  import opened Types
  import opened Pipeline
  import opened World
  import opened Reachability
  import opened Behaviour
  import opened Queries
  import opened Submission

  /** One session, rings of one entry. */
  const SMALL := Config(1, 1, 1, 1, 1, 3, 4)

  const ACCEPT := AcceptOp(3)

  lemma RunThree(w: World, a: Step, b: Step, c: Step)
    ensures Run(w, [a, b, c]) == Apply(Apply(Apply(w, a), b), c)
  {
    RunOneMore(w, [], a);
    RunOneMore(w, [a], b);
    RunOneMore(w, [a, b], c);
    assert [] + [a] == [a] && [a] + [b] == [a, b] && [a, b] + [c] == [a, b, c];
  }

  /** A client arrives at an instance just started, and its edge is fetched and processed. */
  const BEGIN: seq<Step> := [Start(true), Arrive, DeliverEdge, ServerEvent(true)]

  const REQUESTED: World :=
    World(SMALL,
          Lib([FRESH_SESSION], [0], EMPTY_QUEUE, 0, true, 0, false, 3, 4),
          Kernel([], [], [], [], 0, 0, 0, 1, false, 0, Table(map[], map[], map[])),
          Outside, true, [], {}, 0)

  function Begun(cfg: Config): World {
    var w := Init(cfg);
    w.(lib := w.lib.(serverFd := cfg.listenFd, epollFd := cfg.pollFd, acceptsRequested := true),
       started := true, ker := w.ker.(backlog := 1))
  }

  lemma ToFetched(cfg: Config)
    requires cfg.Valid()
    ensures var w := After(cfg, [Start(true), Arrive, DeliverEdge]);
      w == Begun(cfg).(lib := Begun(cfg).lib.(acceptsRequested := false),
                       ker := Begun(cfg).ker.(edgesHeld := 1))
  {
    var w0 := Init(cfg);
    RunThree(w0, Start(true), Arrive, DeliverEdge);
    var w1 := Apply(w0, Start(true));
    assert w1 == w0.(lib := w0.lib.(serverFd := cfg.listenFd, epollFd := cfg.pollFd), started := true);
    var w2 := Apply(w1, Arrive);
    assert w2 == w1.(ker := w1.ker.(backlog := 1, edgeReady := true));
  }

  lemma ToBegun(cfg: Config)
    requires cfg.Valid()
    ensures After(cfg, BEGIN) == Begun(cfg)
  {
    ToFetched(cfg);
    var first := [Start(true), Arrive, DeliverEdge];
    RunOneMore(Init(cfg), first, ServerEvent(true));
    assert first + [ServerEvent(true)] == BEGIN;
  }

  lemma ToRequested()
    ensures After(SMALL, BEGIN) == REQUESTED
  {
    ToBegun(SMALL);
    assert FreshSessions(1) == [FRESH_SESSION] && CountDown(1) == [0];
  }

  /** The consumer of a run that begins so is honest if it hands over no other edge. */
  lemma Honest(cfg: Config, rest: seq<Step>)
    requires cfg.Valid() && ServerEvent(true) !in rest
    ensures HonestRun(Init(cfg), BEGIN + rest)
  {
    ToFetched(cfg);
    var steps := BEGIN + rest;
    forall k | 0 <= k < |steps| ensures HonestStep(Run(Init(cfg), steps[..k]), steps[k]) {
      if k == 3 {
        assert steps[..3] == [Start(true), Arrive, DeliverEdge];
      } else if k > 3 {
        assert steps[k] == rest[k - 4];
      }
    }
  }

  /* The kernel accepts it */

  const POSTED: World :=
    World(SMALL,
          Lib([FRESH_SESSION], [0], EMPTY_QUEUE, 1, false, 1, false, 3, 4),
          Kernel([], [], [], [Cqe(ACCEPT, 5, 7)], 0, 0, 1, 0, false, 0,
                 Table(map[5 := 7], map[7 := Waiting(5)], map[])),
          Outside, true, [], {}, 0)

  /** The same state, but with a shutdown under way. */
  function Maybe(w: World, down: bool): World {
    if down then w.(lib := w.lib.(shuttingDown := true)) else w
  }

  const SUBMITTED: World :=
    REQUESTED.(lib := REQUESTED.lib.(acceptsLive := 1, acceptsRequested := false, inFlight := 1),
               ker := REQUESTED.ker.(pending := [ACCEPT]))

  const STAGED: World :=
    REQUESTED.(lib := REQUESTED.lib.(acceptsLive := 1, acceptsRequested := false),
               ker := REQUESTED.ker.(sq := [ACCEPT]))

  lemma StageAccept(down: bool)
    ensures Staged(Maybe(REQUESTED, down)) == Maybe(STAGED, down)
    ensures MovedBySubmit(Maybe(REQUESTED, down)) == 1
  {
    var w := Maybe(REQUESTED, down);
    FlatOf([], [], [], [], []);
    FlatOf([], [], [], [], [ACCEPT]);
    assert AcceptQuota(w.cfg, w.lib) == 1;
    assert Repeat(ACCEPT, 1) == [ACCEPT] && [] + [ACCEPT] == [ACCEPT];
    var lib1 := WithAccepts(w.lib, 1);
    assert lib1.queue == [[], [], [], [], [ACCEPT]];
    assert TransferSize(w.cfg, lib1, w.ker) == 1;
    DropAll(lib1.queue);
  }

  lemma SubmitAccept(down: bool)
    ensures Apply(Maybe(REQUESTED, down), Submit(1)) == Maybe(SUBMITTED, down)
  {
    StageAccept(down);
    assert Handover(Maybe(STAGED, down), 1) == Maybe(SUBMITTED, down);
  }

  const ACCEPTED: World :=
    POSTED.(ker := POSTED.ker.(done := [Cqe(ACCEPT, 5, 7)], cq := [], signalsDue := 0))

  lemma ExecuteAccept(down: bool)
    ensures Apply(Maybe(SUBMITTED, down), Execute(0, 5, 7, false)) == Maybe(ACCEPTED, down)
  {
    assert RemoveAt(SUBMITTED.ker.pending, 0) == [];
  }

  lemma PostOnly(down: bool)
    ensures Apply(Maybe(ACCEPTED, down), Post(0)) == Maybe(POSTED, down)
  {
    assert RemoveAt(ACCEPTED.ker.done, 0) == [];
  }

  lemma PostAccept(down: bool)
    ensures Run(Maybe(REQUESTED, down), [Submit(1), Execute(0, 5, 7, false), Post(0)]) == Maybe(POSTED, down)
  {
    RunThree(Maybe(REQUESTED, down), Submit(1), Execute(0, 5, 7, false), Post(0));
    SubmitAccept(down);
    ExecuteAccept(down);
    PostOnly(down);
  }

  /* It gets a session; the session is closed; the descriptor number is used again */

  const CLIENT := Session(5, 0, false, false, false, false, 0, 7)
  const REG := Registration(0, 0, 0, 7)
  const OPENED: World :=
    World(SMALL,
          Lib([CLIENT], [], EMPTY_QUEUE, 0, true, 0, false, 3, 4),
          Kernel([], [], [], [], 1, 0, 1, 0, false, 0,
                 Table(map[5 := 7], map[7 := Slot(0)], map[7 := REG])),
          Looping(1, 1, 1), true, [Told(Event(5, 0, NewConnection), Opened(CLIENT))], {REG}, 0)

  const TAKEN: World :=
    OPENED.(lib := OPENED.lib.(inFlight := 1), ctl := Counting(1, 0, 0, 0, 1))

  const LOOKING: World := POSTED.(ctl := Looping(1, 0, 0))

  lemma TakeClient(down: bool)
    ensures Apply(Maybe(LOOKING, down), Process(true)) == Maybe(TAKEN, down)
  {
    var w := Apply(Maybe(LOOKING, down), Process(true));
    assert w.lib == Maybe(TAKEN, down).lib;
    assert w.ker == Maybe(TAKEN, down).ker;
    assert w.log == TAKEN.log && w.registered == TAKEN.registered;
  }

  lemma LookAndCount(down: bool)
    ensures Apply(Maybe(POSTED, down), Enter(1)) == Maybe(LOOKING, down)
    ensures Apply(Maybe(TAKEN, down), Account) == Maybe(OPENED, down)
  {
  }

  lemma OpenSession(down: bool)
    ensures Run(Maybe(POSTED, down), [Enter(1), Process(true), Account]) == Maybe(OPENED, down)
  {
    RunThree(Maybe(POSTED, down), Enter(1), Process(true), Account);
    LookAndCount(down);
    TakeClient(down);
  }

  const CLOSE := Op(Close, 5, 0, 0, 7)
  const CLOSING: World :=
    OPENED.(lib := OPENED.lib.(sessions := [CLIENT.(closing := true)], inFlight := 1),
            ker := OPENED.ker.(pending := [CLOSE]), ctl := Outside, log := OPENED.log + [Took(0, Close)])

  const ISSUED: World :=
    CLOSING.(lib := CLOSING.lib.(queue := [[CLOSE], [], [], [], []], inFlight := 0), ker := OPENED.ker)

  lemma IssueClose()
    ensures Apply(Apply(OPENED, Leave), SessionIo(0, Close)) == ISSUED
  {
    FlatOf([], [], [], [], []);
    assert [] + [CLOSE] == [CLOSE];
  }

  lemma SubmitClose()
    ensures Apply(ISSUED, Submit(1)) == CLOSING
  {
    var w := ISSUED;
    FlatOf([CLOSE], [], [], [], []);
    DropAll(w.lib.queue);
    assert AcceptQuota(w.cfg, w.lib) == 0;
    assert TransferSize(w.cfg, w.lib, w.ker) == 1;
    assert Staged(w) == w.(lib := w.lib.(queue := EMPTY_QUEUE), ker := w.ker.(sq := [CLOSE]));
  }

  lemma CloseSession()
    ensures Run(OPENED, [Leave, SessionIo(0, Close), Submit(1)]) == CLOSING
  {
    RunThree(OPENED, Leave, SessionIo(0, Close), Submit(1));
    IssueClose();
    SubmitClose();
  }

  const REUSED: World :=
    CLOSING.(ker := CLOSING.ker.(backlog := 1, edgeReady := true, pending := [], done := [Cqe(CLOSE, 0, 0)],
                                 table := Table(map[5 := 8], map[7 := Slot(0), 8 := Foreign], map[])))

  lemma ReuseDescriptor()
    ensures Run(CLOSING, [Execute(0, 0, 0, false), OpenForeign(5, 8), Arrive])
         == REUSED
  {
    RunThree(CLOSING, Execute(0, 0, 0, false), OpenForeign(5, 8), Arrive);
    var w1 := Apply(CLOSING, Execute(0, 0, 0, false));
    assert w1.ker.table == Table(map[], map[7 := Slot(0)], map[]);
    assert RemoveAt(CLOSING.ker.pending, 0) == [];
  }

  const REUSE: seq<Step> :=
    BEGIN
    + [Submit(1), Execute(0, 5, 7, false), Post(0)]
    + [Enter(1), Process(true), Account]
    + [Leave, SessionIo(0, Close), Submit(1)]
    + [Execute(0, 0, 0, false), OpenForeign(5, 8), Arrive]

  lemma ReuseIsHonest()
    ensures HonestRun(Init(SMALL), REUSE)
  {
    var rest := [Submit(1), Execute(0, 5, 7, false), Post(0)]
      + [Enter(1), Process(true), Account]
      + [Leave, SessionIo(0, Close), Submit(1)]
      + [Execute(0, 0, 0, false), OpenForeign(5, 8), Arrive];
    assert REUSE == BEGIN + rest;
    Honest(SMALL, rest);
  }

  lemma ToReused()
    ensures After(SMALL, REUSE) == REUSED
  {
    var w0 := Init(SMALL);
    var s1, s2 := BEGIN, [Submit(1), Execute(0, 5, 7, false), Post(0)];
    var s3, s4 := [Enter(1), Process(true), Account], [Leave, SessionIo(0, Close), Submit(1)];
    var s5 := [Execute(0, 0, 0, false), OpenForeign(5, 8), Arrive];
    RunAppend(w0, s1, s2);
    RunAppend(w0, s1 + s2, s3);
    RunAppend(w0, s1 + s2 + s3, s4);
    RunAppend(w0, s1 + s2 + s3 + s4, s5);
    ToRequested();
    PostAccept(false);
    OpenSession(false);
    CloseSession();
    ReuseDescriptor();
  }

  /** A readiness event fetched before the close, processed after it was executed: the event passes
      the filter, is reported for session 0, and its error query asks a stranger's descriptor. */
  lemma ErrorQueryCanReachAStranger()
    ensures HonestRun(Init(SMALL), REUSE)
    ensures After(SMALL, REUSE) == REUSED
    ensures REG in REUSED.registered && REG.generation == REUSED.lib.sessions[0].generation
    ensures REUSED.ker.table.fds[REUSED.lib.sessions[0].fd] == 8 && REUSED.ker.table.owner[8] == Foreign
    ensures !ReachesClient(REUSED, 0)
    ensures DoSessionEvent(REUSED, 0, REG.generation, Readiness(false, false, false, true, false), 1, true, 104).1
         == Events([Event(104, 0, ClientError)])
  {
    ReuseIsHonest();
    ToReused();
  }

  /** In the same state mcon_session_get_socket succeeds, with the stranger's descriptor. */
  lemma SocketCanBeAStrangers()
    ensures HonestRun(Init(SMALL), REUSE)
    ensures After(SMALL, REUSE) == REUSED
    ensures DoGetSocket(REUSED.lib, 0) == (Ok, 5) && REUSED.ker.table.owner[REUSED.ker.table.fds[5]] == Foreign
  {
    ReuseIsHonest();
    ToReused();
  }

  /* Or a shutdown comes in between */

  const LATE: seq<Step> :=
    BEGIN
    + [Shutdown(true)]
    + [Submit(1), Execute(0, 5, 7, false), Post(0)]
    + [Enter(1), Process(true), Account]

  lemma LateIsHonest()
    ensures HonestRun(Init(SMALL), LATE)
  {
    var rest := [Shutdown(true)]
      + [Submit(1), Execute(0, 5, 7, false), Post(0)]
      + [Enter(1), Process(true), Account];
    assert LATE == BEGIN + rest;
    Honest(SMALL, rest);
  }

  lemma ShutDownNow()
    ensures Run(REQUESTED, [Shutdown(true)]) == Maybe(REQUESTED, true)
  {
    RunOneMore(REQUESTED, [], Shutdown(true));
    assert [] + [Shutdown(true)] == [Shutdown(true)];
  }

  /** A client is taken on by a submit that comes after mcon_shutdown has succeeded. */
  lemma ClientsCanComeAfterShutdown()
    ensures HonestRun(Init(SMALL), LATE)
    ensures After(SMALL, LATE) == Maybe(OPENED, true)
    ensures OPENED.log == [Told(Event(5, 0, NewConnection), Opened(CLIENT))] && CLIENT.Active()
  {
    LateIsHonest();
    var w0 := Init(SMALL);
    var s1, s2 := BEGIN, [Shutdown(true)];
    var s3 := [Submit(1), Execute(0, 5, 7, false), Post(0)];
    RunAppend(w0, s1, s2);
    RunAppend(w0, s1 + s2, s3);
    RunAppend(w0, s1 + s2 + s3, [Enter(1), Process(true), Account]);
    ToRequested();
    ShutDownNow();
    PostAccept(true);
    OpenSession(true);
  }

  /* Or it cannot be registered */

  const LOSE: seq<Step> := BEGIN + [Submit(1)] + AFTERWARDS

  const AFTERWARDS: seq<Step> := [Execute(0, 5, 7, false), Post(0), Enter(1), Process(false), ClearEventfd]

  lemma LoseIsHonest()
    ensures HonestRun(Init(SMALL), LOSE)
  {
    var rest := [Submit(1), Execute(0, 5, 7, false), Post(0)]
      + [Enter(1), Process(false), ClearEventfd];
    assert LOSE == BEGIN + rest;
    Honest(SMALL, rest);
  }

  lemma LoseClient()
    ensures var w := Run(POSTED, [Enter(1), Process(false), ClearEventfd]);
      w.lib.inFlight == 1 && Submitted(w.ker) == 0 && w.addFailures == 1
  {
    RunThree(POSTED, Enter(1), Process(false), ClearEventfd);
    var w1 := Apply(POSTED, Enter(1));
    var w2 := Apply(w1, Process(false));
    assert w2.lib.inFlight == 1 && w2.ctl == Clearing(0);
  }

  lemma LoseIs()
    ensures LOSE == (BEGIN + [Submit(1), Execute(0, 5, 7, false), Post(0)]) + [Enter(1), Process(false), ClearEventfd]
  {
  }

  lemma ToLost()
    ensures var w := After(SMALL, LOSE); w.lib.inFlight == 1 && Submitted(w.ker) == 0 && w.addFailures == 1
  {
    var w0, s2 := Init(SMALL), [Submit(1), Execute(0, 5, 7, false), Post(0)];
    LoseIs();
    RunAppend(w0, BEGIN, s2);
    RunAppend(w0, BEGIN + s2, [Enter(1), Process(false), ClearEventfd]);
    ToRequested();
    PostAccept(false);
    LoseClient();
  }
  /** After one client that could not be registered, nothing is in flight,
      and the counter says that something is. */
  lemma CounterCanBeWrong()
    ensures HonestRun(Init(SMALL), LOSE)
    ensures var w := After(SMALL, LOSE); w.lib.inFlight == 1 && Submitted(w.ker) == 0
  {
    LoseIsHonest();
    ToLost();
  }

  lemma OtherIsFull(w: World, step: Step)
    requires !step.Submit?
    ensures FullStep(w, step)
  {
  }

  lemma OfferedIsFull(w: World, ret: int)
    requires ret == |Staged(w).ker.sq|
    ensures FullStep(w, Submit(ret))
  {
  }

  /** A run is one of full submissions if its only submit takes what it is offered. */
  lemma OneSubmitIsFull(w: World, before: seq<Step>, u: World, ret: int, rest: seq<Step>)
    requires forall step :: step in before || step in rest ==> !step.Submit?
    requires Run(w, before) == u && FullStep(u, Submit(ret))
    ensures FullRun(w, before + [Submit(ret)] + rest)
  {
    var steps := before + [Submit(ret)] + rest;
    forall k | 0 <= k < |steps| ensures FullStep(Run(w, steps[..k]), steps[k]) {
      if k == |before| {
        assert steps[..k] == before && steps[k] == Submit(ret);
      } else {
        NotTheSubmit(before, ret, rest, k);
        OtherIsFull(Run(w, steps[..k]), steps[k]);
      }
    }
  }

  lemma NotTheSubmit(before: seq<Step>, ret: int, rest: seq<Step>, k: nat)
    requires forall step :: step in before || step in rest ==> !step.Submit?
    requires k < |before + [Submit(ret)] + rest| && k != |before|
    ensures !(before + [Submit(ret)] + rest)[k].Submit?
  {
    var step := (before + [Submit(ret)] + rest)[k];
    if k < |before| { assert step == before[k]; } else { assert step == rest[k - |before| - 1]; }
  }

  lemma NoOtherSubmits()
    ensures forall step :: step in BEGIN || step in AFTERWARDS ==> !step.Submit?
  {
  }

  lemma RequestedIsFull()
    ensures FullStep(REQUESTED, Submit(1))
  {
    StageAccept(false);
    OfferedIsFull(REQUESTED, 1);
  }

  lemma LoseIsFull()
    ensures FullRun(Init(SMALL), LOSE)
  {
    ToRequested();
    RequestedIsFull();
    NoOtherSubmits();
    OneSubmitIsFull(Init(SMALL), BEGIN, REQUESTED, 1, AFTERWARDS);
  }

  /** A run of full submissions with as many failures as the ring has entries. */
  lemma InstanceCanWedge()
    ensures HonestRun(Init(SMALL), LOSE) && FullRun(Init(SMALL), LOSE)
    ensures After(SMALL, LOSE).addFailures == SMALL.ringSize
  {
    LoseIsHonest();
    LoseIsFull();
    ToLost();
  }

  /* Or the kernel does not take its accept */

  const FAIL: seq<Step> := BEGIN + [Submit(-1)]

  lemma FailIsHonest()
    ensures HonestRun(Init(SMALL), FAIL)
  {
    var rest := [Submit(-1)];
    assert FAIL == BEGIN + rest;
    Honest(SMALL, rest);
  }

  /** A submit that the kernel answers with an error has staged what it moved. */
  lemma FailedSubmit(w: World)
    requires w.ctl.Outside?
    ensures Apply(w, Submit(-1)) == Staged(w)
  {
  }

  lemma ToFailed()
    ensures After(SMALL, FAIL) == STAGED
  {
    ToRequested();
    StageAccept(false);
    FailedSubmit(REQUESTED);
    RunOneMore(Init(SMALL), BEGIN, Submit(-1));
  }

  /** After one failed submit a client waits, its accept is in the SQ, no registration has failed,
      and whatever follows, the accept is never submitted. */
  lemma SubmissionCanBeLost(more: seq<Step>)
    ensures HonestRun(Init(SMALL), FAIL) && After(SMALL, FAIL) == STAGED
    ensures STAGED.ker.backlog == 1 && STAGED.ker.sq == [ACCEPT] && STAGED.addFailures == 0 && Listening(STAGED.lib)
    ensures var w' := After(SMALL, FAIL + more); w'.ker.sq == [ACCEPT] && Submitted(w'.ker) == 0
  {
    FailIsHonest();
    ToFailed();
    FullRingIsStuck(STAGED, more);
    RunAppend(Init(SMALL), FAIL, more);
  }

  /* The same with mcon_config_default and rings as large as it asks for */

  const DEFAULT := Config(128, 512, 256, 8, 256, 3, 4)

  const WAITING: World := Begun(DEFAULT)

  const LOST: World :=
    WAITING.(lib := WAITING.lib.(acceptsLive := 8, acceptsRequested := false),
             ker := WAITING.ker.(sq := Repeat(ACCEPT, 8)))

  const EIGHT: seq<Op> := Repeat(ACCEPT, 8)

  lemma QuotaIsEight()
    ensures AcceptQuota(DEFAULT, WAITING.lib) == 8
  {
    FlatOf([], [], [], [], []);
  }

  lemma QueueOfEight()
    ensures WithAccepts(WAITING.lib, 8).queue == [[], [], [], [], EIGHT]
    ensures Flat([[], [], [], [], EIGHT]) == EIGHT
  {
    FlatOf([], [], [], [], EIGHT);
    assert [] + EIGHT == EIGHT;
  }

  lemma StageEight()
    ensures Staged(WAITING) == LOST
  {
    QuotaIsEight();
    QueueOfEight();
    var lib1 := WithAccepts(WAITING.lib, 8);
    assert TransferSize(DEFAULT, lib1, WAITING.ker) == 8;
    DropAll(lib1.queue);
    assert EIGHT[..8] == EIGHT;
  }

  lemma NobodyIsActive()
    ensures Saturated(LOST)
  {
    FlatOf([], [], [], [], []);
    assert forall i :: 0 <= i < |LOST.lib.sessions| ==> !LOST.lib.sessions[i].Active();
  }

  const FAIL_DEFAULT: seq<Step> := BEGIN + [Submit(-1)]

  lemma FailDefault()
    ensures After(DEFAULT, FAIL_DEFAULT) == LOST
  {
    ToBegun(DEFAULT);
    StageEight();
    RunOneMore(Init(DEFAULT), BEGIN, Submit(-1));
    FailedSubmit(WAITING);
  }

  /** The first submit of an instance fails. From then on 8 of 256 entries of the SQ are taken by accepts,
      which is as many as may be live, so no submit adds any, and none calls the kernel: the server never
      accepts the client that waits, nor any other. */
  lemma ServerCanStarve(more: seq<Step>)
    requires HonestRun(LOST, more)
    ensures HonestRun(Init(DEFAULT), FAIL_DEFAULT)
    ensures After(DEFAULT, FAIL_DEFAULT) == LOST && StagedForever(LOST)
    ensures LOST.ker.backlog == 1 && Listening(LOST.lib) && LOST.addFailures == 0 && |LOST.ker.sq| == 8
    ensures var w := After(DEFAULT, FAIL_DEFAULT + more); w.ker.sq == LOST.ker.sq && Submitted(w.ker) == 0
  {
    Honest(DEFAULT, [Submit(-1)]);
    FailDefault();
    NobodyIsActive();
    SaturatedKeeps(LOST);
    SaturatedRun(LOST, more);
    RunAppend(Init(DEFAULT), FAIL_DEFAULT, more);
  }
}
