/** The descriptor of a slot in the hands of others: the error query of a readiness event,
    and mcon_session_get_socket. */
module Queries {
  import opened Types
  import opened Pipeline
  import opened World
  import opened Invariant
  import opened Reachability

  /** The descriptor of the slot still leads to the slot's connection. */
  predicate ReachesClient(w: World, i: nat)
    requires i < |w.lib.sessions|
  {
    var s, t := w.lib.sessions[i], w.ker.table;
    s.fd in t.fds && t.fds[s.fd] == s.conn
  }

  /** The operation that closes the slot. */
  function CloseOf(w: World, i: nat): Op
    requires i < |w.lib.sessions|
  {
    OpAt(w.lib.sessions[i], i, Close)
  }

  lemma ReachOf(w: World, i: nat)
    requires LedgerInv(w) && DescriptorInv(w) && i < |w.lib.sessions| && w.lib.sessions[i].Active()
    ensures ReachesClient(w, i) <==> CloseOf(w, i) !in Executed(w.ker)
    ensures w.lib.sessions[i].closing <==> CloseOf(w, i) in Outstanding(w.lib, w.ker)
    ensures !w.lib.sessions[i].closing ==> ReachesClient(w, i)
  {
    var all, s := Outstanding(w.lib, w.ker), w.lib.sessions[i];
    assert SlotOk(all, s, i);
    assert SlotFdOk(Unexecuted(w.lib, w.ker), w.ker.table, s, i);
    assert all[CloseOf(w, i)] == Unexecuted(w.lib, w.ker)[CloseOf(w, i)] + Executed(w.ker)[CloseOf(w, i)];
  }

  /** For an event that passes the filter on an active slot, the query reaches the right client
      if and only if the slot's close has not been executed yet; that the slot is not closing suffices. */
  lemma ErrorQueryReachesItsClient(cfg: Config, steps: seq<Step>, i: nat)
    requires cfg.Valid() && i < cfg.sessionCount && i < |After(cfg, steps).lib.sessions|
    requires After(cfg, steps).lib.sessions[i].Active()
    ensures var w := After(cfg, steps);
      && (ReachesClient(w, i) <==> CloseOf(w, i) !in Executed(w.ker))
      && (!w.lib.sessions[i].closing ==> ReachesClient(w, i))
  {
    Reachable(cfg, steps);
    ReachOf(After(cfg, steps), i);
  }

  /** mcon_session_get_socket hands out a descriptor exactly for an active session. That descriptor leads to
      the session's connection if and only if the close has not been executed; not closing suffices. */
  lemma SocketReachesItsClient(cfg: Config, steps: seq<Step>, i: nat)
    requires cfg.Valid()
    ensures var w := After(cfg, steps); var (rc, fd) := DoGetSocket(w.lib, i);
      && (rc == Ok <==> i < |w.lib.sessions| && w.lib.sessions[i].fd != -1)
      && (rc == Ok ==>
            var reaches := fd in w.ker.table.fds && w.ker.table.fds[fd] == w.lib.sessions[i].conn;
            && (reaches <==> CloseOf(w, i) !in Executed(w.ker))
            && (!w.lib.sessions[i].closing ==> reaches))
  {
    Reachable(cfg, steps);
    var w := After(cfg, steps);
    if i < |w.lib.sessions| && w.lib.sessions[i].Active() { ReachOf(w, i); }
  }

  /* Until the next call */

  /** Whatever happens before the next call of the library, the descriptor leads to the slot's connection. */
  ghost predicate SafeUntilNextCall(w: World, i: nat)
    requires i < |w.lib.sessions|
  {
    forall steps :: OnlyEnvironment(steps) ==>
      i < |Run(w, steps).lib.sessions| && ReachesClient(Run(w, steps), i)
  }

  predicate OnlyEnvironment(steps: seq<Step>) {
    forall step :: step in steps ==> IsEnvironment(step)
  }

  lemma EnvironmentLeavesRings(w: World, step: Step)
    requires IsEnvironment(step)
    ensures Apply(w, step).lib == w.lib && Apply(w, step).ker.sq == w.ker.sq
  {
  }

  lemma {:induction false} EnvironmentRun(w: World, steps: seq<Step>)
    requires OnlyEnvironment(steps)
    ensures Run(w, steps).lib == w.lib && Run(w, steps).ker.sq == w.ker.sq
  {
    if steps != [] {
      EnvironmentRun(w, steps[..|steps| - 1]);
      EnvironmentLeavesRings(Run(w, steps[..|steps| - 1]), steps[|steps| - 1]);
    }
  }

  /** A close that has not been submitted is outstanding once, so nowhere else. */
  lemma UnsubmittedIsUnexecuted(w: World, i: nat)
    requires LedgerInv(w) && i < |w.lib.sessions| && w.lib.sessions[i].Active()
    requires CloseOf(w, i) in multiset(Flat(w.lib.queue)) + multiset(w.ker.sq)
    ensures CloseOf(w, i) !in Executed(w.ker)
  {
    assert SlotOk(Outstanding(w.lib, w.ker), w.lib.sessions[i], i);
  }

  lemma SafeIfUnsubmitted(w: World, i: nat)
    requires Inv(w) && i < |w.lib.sessions| && w.lib.sessions[i].Active()
    requires CloseOf(w, i) !in multiset(w.ker.pending) + Executed(w.ker)
    ensures SafeUntilNextCall(w, i)
  {
    ReachOf(w, i);
    forall steps | OnlyEnvironment(steps)
      ensures i < |Run(w, steps).lib.sessions| && ReachesClient(Run(w, steps), i)
    {
      var u := Run(w, steps);
      EnvironmentRun(w, steps);
      RunKeeps(w, steps);
      if w.lib.sessions[i].closing { UnsubmittedIsUnexecuted(u, i); }
      ReachOf(u, i);
    }
  }

  /** The kernel may execute a submitted close at once. */
  lemma ExecuteClose(w: World, k: nat) returns (steps: seq<Step>)
    requires k < |w.ker.pending| && w.ker.pending[k].kind == Close
    ensures OnlyEnvironment(steps)
    ensures Run(w, steps).lib == w.lib && w.ker.pending[k] in Executed(Run(w, steps).ker)
  {
    var w' := Apply(w, Execute(k, 0, 0, false));
    steps := [Execute(k, 0, 0, false)];
    RunOne(w, steps[0]);
    assert w'.ker.done == w.ker.done + [Cqe(w.ker.pending[k], 0, 0)];
    assert OpsOf(w'.ker.done)[|w.ker.done|] == w.ker.pending[k];
  }

  lemma UnsafeOncePending(w: World, i: nat, k: nat)
    requires Inv(w) && i < |w.lib.sessions| && w.lib.sessions[i].Active()
    requires k < |w.ker.pending| && w.ker.pending[k] == CloseOf(w, i)
    ensures !SafeUntilNextCall(w, i)
  {
    var steps := ExecuteClose(w, k);
    RunKeeps(w, steps);
    ReachOf(Run(w, steps), i);
  }

  /** The descriptor stays good until the next call if and only if no close of the slot has been submitted. */
  lemma SafeUntilNextCallExactly(cfg: Config, steps: seq<Step>, i: nat)
    requires cfg.Valid() && i < |After(cfg, steps).lib.sessions| && After(cfg, steps).lib.sessions[i].Active()
    ensures var w := After(cfg, steps);
      SafeUntilNextCall(w, i) <==> CloseOf(w, i) !in multiset(w.ker.pending) + Executed(w.ker)
  {
    Reachable(cfg, steps);
    var w := After(cfg, steps);
    if CloseOf(w, i) !in multiset(w.ker.pending) + Executed(w.ker) {
      SafeIfUnsubmitted(w, i);
    } else if CloseOf(w, i) in w.ker.pending {
      var k :| 0 <= k < |w.ker.pending| && w.ker.pending[k] == CloseOf(w, i);
      UnsafeOncePending(w, i, k);
    } else {
      ReachOf(w, i);
      assert OnlyEnvironment([]) && Run(w, []) == w;
    }
  }

  /** Where everything taken on has been submitted, that is exactly that the session is not closing. */
  lemma SafeUnlessClosing(cfg: Config, steps: seq<Step>, i: nat)
    requires cfg.Valid() && i < |After(cfg, steps).lib.sessions| && After(cfg, steps).lib.sessions[i].Active()
    requires Size(After(cfg, steps).lib.queue) == 0 && After(cfg, steps).ker.sq == []
    ensures SafeUntilNextCall(After(cfg, steps), i) <==> !After(cfg, steps).lib.sessions[i].closing
  {
    Reachable(cfg, steps);
    SafeUntilNextCallExactly(cfg, steps, i);
    ReachOf(After(cfg, steps), i);
  }
}
