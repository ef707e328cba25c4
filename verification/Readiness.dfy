/** Readiness events of a session keep the invariant: they touch the hangup bit and the log. */
module ReadinessSteps {
  import opened Types
  import opened World
  import opened Invariant
  import opened Ledger

  function Hangs(events: seq<Event>, i: int): nat {
    if events == [] then 0
    else
      var e := events[|events| - 1];
      Hangs(events[..|events| - 1], i) + Bit(e.session == i && e.etype == RemoteHangup)
  }

  predicate OnlyReadiness(events: seq<Event>) {
    forall e :: e in events ==> e.etype in {ReadReady, ReadShutdown, RemoteHangup, ClientError}
  }

  lemma TellLast(log: seq<Obs>, events: seq<Event>)
    requires events != []
    ensures var last := |events| - 1;
      log + Tell(events) == (log + Tell(events[..last])) + [Told(events[last], Plain)]
  {
  }

  /** One readiness event more is no operation taken on and none completed. */
  lemma ToldCounts(log: seq<Obs>, e: Event, i: int, kind: Kind)
    requires e.etype in {ReadReady, ReadShutdown, RemoteHangup, ClientError}
    ensures var log' := log + [Told(e, Plain)];
      && CountTook(log', i, kind) == CountTook(log, i, kind)
      && CountTold(log', i, CompletionType(kind)) == CountTold(log, i, CompletionType(kind))
      && HangupsSince(log', i) == HangupsSince(log, i) + Bit(e.session == i && e.etype == RemoteHangup)
  {
    CountTookAppend(log, Told(e, Plain), i, kind);
    CountToldAppend(log, Told(e, Plain), i, CompletionType(kind));
    HangupsSinceAppend(log, Told(e, Plain), i);
  }

  lemma {:induction false} TellCounts(log: seq<Obs>, events: seq<Event>, i: int, kind: Kind)
    requires OnlyReadiness(events)
    ensures CountTook(log + Tell(events), i, kind) == CountTook(log, i, kind)
    ensures CountTold(log + Tell(events), i, CompletionType(kind)) == CountTold(log, i, CompletionType(kind))
    ensures HangupsSince(log + Tell(events), i) == HangupsSince(log, i) + Hangs(events, i)
  {
    if events == [] {
      assert log + Tell(events) == log;
    } else {
      var front, e := events[..|events| - 1], events[|events| - 1];
      assert forall x :: x in front ==> x in events;
      TellLast(log, events);
      TellCounts(log, front, i, kind);
      ToldCounts(log + Tell(front), e, i, kind);
    }
  }

  lemma {:induction false} HangsConcat(xs: seq<Event>, ys: seq<Event>, i: int)
    ensures Hangs(xs + ys, i) == Hangs(xs, i) + Hangs(ys, i)
  {
    if ys == [] {
      assert xs + ys == xs;
    } else {
      HangsConcat(xs, ys[..|ys| - 1], i);
      assert (xs + ys)[..|xs + ys| - 1] == xs + ys[..|ys| - 1];
    }
  }

  function HangBit(b: bool, e: Event, i: int): nat {
    Bit(b && e.session == i && e.etype == RemoteHangup)
  }

  lemma HangsOfWhen(b: bool, e: Event, i: int)
    ensures Hangs(When(b, e), i) == HangBit(b, e, i)
  {
    assert [e][..0] == [];
  }

  lemma HangsOfTwo(xs: seq<Event>, b: bool, e: Event, i: int)
    ensures Hangs(xs + When(b, e), i) == Hangs(xs, i) + HangBit(b, e, i)
  {
    HangsConcat(xs, When(b, e), i);
    HangsOfWhen(b, e, i);
  }

  lemma ReadinessIsOnlyThat(s: Session, i: nat, ready: Readiness, sockErr: int)
    ensures OnlyReadiness(ReadinessEvents(s, i, ready, sockErr))
  {
  }

  /** One readiness report contains a hangup for its session exactly if the latch was open. */
  lemma HangsOfReadiness(s: Session, i: nat, ready: Readiness, sockErr: int, j: int)
    ensures OnlyReadiness(ReadinessEvents(s, i, ready, sockErr))
    ensures Hangs(ReadinessEvents(s, i, ready, sockErr), j) == Bit(j == i && ready.rdhup && !s.rdhup)
  {
    var e0, e1, e2, e3 :=
      Event(0, i, ReadReady), Event(0, i, ReadShutdown), Event(0, i, RemoteHangup), Event(sockErr, i, ClientError);
    var latch := ready.rdhup && !s.rdhup;
    HangsOfWhen(ready.rin, e0, j);
    HangsOfTwo(When(ready.rin, e0), ready.hup, e1, j);
    HangsOfTwo(When(ready.rin, e0) + When(ready.hup, e1), latch, e2, j);
    HangsOfTwo(When(ready.rin, e0) + When(ready.hup, e1) + When(latch, e2), ready.err, e3, j);
    ReadinessIsOnlyThat(s, i, ready, sockErr);
  }

  lemma FlagKeepsLedger(all: Bag, ss: seq<Session>, listenFd: int, i: nat, flag: bool)
    requires OpsInv(all, ss, listenFd) && SlotsInv(all, ss) && i < |ss|
    ensures OpsInv(all, ss[i := ss[i].(rdhup := flag)], listenFd)
    ensures SlotsInv(all, ss[i := ss[i].(rdhup := flag)])
    ensures BitsHeld(ss[i := ss[i].(rdhup := flag)]) == BitsHeld(ss)
  {
    var ss' := ss[i := ss[i].(rdhup := flag)];
    forall op | op in all ensures OpOk(ss', listenFd, op) { assert OpOk(ss, listenFd, op); }
    forall j | 0 <= j < |ss'| ensures SlotOk(all, ss'[j], j) { assert SlotOk(all, ss[j], j); }
    BitsHeldUpdate(ss, i, ss'[i]);
  }

  lemma FlagKeepsDescriptors(un: Bag, t: Table, ss: seq<Session>, i: nat, flag: bool)
    requires FdInv(un, t, ss) && i < |ss|
    ensures FdInv(un, t, ss[i := ss[i].(rdhup := flag)])
  {
    var ss' := ss[i := ss[i].(rdhup := flag)];
    forall j | 0 <= j < |ss'| ensures SlotFdOk(un, t, ss'[j], j) { assert SlotFdOk(un, t, ss[j], j); }
  }

  lemma TellKeepsBalance(log: seq<Obs>, events: seq<Event>, all: Bag, ss: seq<Session>, i: nat, flag: bool)
    requires BalanceInv(log, all, ss) && i < |ss| && OnlyReadiness(events)
    ensures BalanceInv(log + Tell(events), all, ss[i := ss[i].(rdhup := flag)])
  {
    var ss' := ss[i := ss[i].(rdhup := flag)];
    forall j, kind | 0 <= j < |ss'| && kind != Accept
      ensures BalanceOk(log + Tell(events), all, ss'[j], j, kind)
    {
      assert BalanceOk(log, all, ss[j], j, kind);
      TellCounts(log, events, j, kind);
    }
  }

  lemma LatchKeepsHangups(log: seq<Obs>, ss: seq<Session>, i: nat, ready: Readiness, sockErr: int)
    requires HangupInv(log, ss) && i < |ss|
    ensures HangupInv(log + Tell(ReadinessEvents(ss[i], i, ready, sockErr)),
                      ss[i := ss[i].(rdhup := ss[i].rdhup || ready.rdhup)])
  {
    var ss' := ss[i := ss[i].(rdhup := ss[i].rdhup || ready.rdhup)];
    var events := ReadinessEvents(ss[i], i, ready, sockErr);
    forall j | 0 <= j < |ss'| ensures HangupsSince(log + Tell(events), j) == Bit(ss'[j].rdhup) {
      HangsOfReadiness(ss[i], i, ready, sockErr, j);
      TellCounts(log, events, j, Read);
      assert HangupsSince(log, j) == Bit(ss[j].rdhup);
    }
  }

  lemma TellKeepsLog(log: seq<Obs>, events: seq<Event>)
    requires LogInv(log) && OnlyReadiness(events)
    ensures LogInv(log + Tell(events))
  {
  }

  /** The state after a readiness event that is not discarded. */
  ghost function Noted(w: World, i: nat, ready: Readiness, sockErr: int): World
    requires i < |w.lib.sessions|
  {
    var s := w.lib.sessions[i];
    w.(lib := w.lib.(sessions := w.lib.sessions[i := s.(rdhup := s.rdhup || ready.rdhup)]),
       log := w.log + Tell(ReadinessEvents(s, i, ready, sockErr)))
  }

  lemma NotedKeepsBooks(w: World, i: nat, ready: Readiness, sockErr: int)
    requires i < |w.lib.sessions| && LedgerInv(w) && DescriptorInv(w)
    ensures LedgerInv(Noted(w, i, ready, sockErr)) && DescriptorInv(Noted(w, i, ready, sockErr))
  {
    var ss, flag := w.lib.sessions, w.lib.sessions[i].rdhup || ready.rdhup;
    FlagKeepsLedger(Outstanding(w.lib, w.ker), ss, w.cfg.listenFd, i, flag);
    FlagKeepsDescriptors(Unexecuted(w.lib, w.ker), w.ker.table, ss, i, flag);
    RegisteredOther(ss, w.registered, i, ss[i].(rdhup := flag));
  }

  lemma NotedKeepsHistory(w: World, i: nat, ready: Readiness, sockErr: int)
    requires i < |w.lib.sessions| && HistoryInv(w)
    ensures HistoryInv(Noted(w, i, ready, sockErr))
  {
    var ss, s := w.lib.sessions, w.lib.sessions[i];
    var events := ReadinessEvents(s, i, ready, sockErr);
    HangsOfReadiness(s, i, ready, sockErr, i);
    TellKeepsBalance(w.log, events, Outstanding(w.lib, w.ker), ss, i, s.rdhup || ready.rdhup);
    LatchKeepsHangups(w.log, ss, i, ready, sockErr);
    TellKeepsLog(w.log, events);
  }

  lemma NotedKeepsRest(w: World, i: nat, ready: Readiness, sockErr: int)
    requires i < |w.lib.sessions| && Shape(w) && WakeupInv(w) && FreeInv(w.lib.sessions, w.lib.free)
    ensures var w' := Noted(w, i, ready, sockErr);
      Shape(w') && WakeupInv(w') && FreeInv(w'.lib.sessions, w'.lib.free)
  {
    var s := w.lib.sessions[i];
    FreeSame(w.lib.sessions, w.lib.free, i, s.(rdhup := s.rdhup || ready.rdhup));
  }

  lemma NotedKeeps(w: World, i: nat, ready: Readiness, sockErr: int)
    requires i < |w.lib.sessions| && Inv(w)
    ensures Inv(Noted(w, i, ready, sockErr))
  {
    NotedKeepsBooks(w, i, ready, sockErr);
    NotedKeepsHistory(w, i, ready, sockErr);
    NotedKeepsRest(w, i, ready, sockErr);
  }

  lemma SessionEventNotes(w: World, i: nat, generation: int, ready: Readiness, cap: nat, sockOk: bool, sockErr: int)
    ensures var w' := DoSessionEvent(w, i, generation, ready, cap, sockOk, sockErr).0;
      w' == w || (i < |w.lib.sessions| && w' == Noted(w, i, ready, sockErr))
  {
  }

  lemma SessionEventKeeps(w: World, i: nat, generation: int, ready: Readiness, cap: nat, sockOk: bool, sockErr: int)
    requires Inv(w)
    ensures Inv(DoSessionEvent(w, i, generation, ready, cap, sockOk, sockErr).0)
  {
    SessionEventNotes(w, i, generation, ready, cap, sockOk, sockErr);
    if i < |w.lib.sessions| { NotedKeeps(w, i, ready, sockErr); }
  }

  /* Which events, in which order */

  /** The events are exactly those the bits call for, each once, in this order: readable, read side
      shut down, remote hangup unless it has been reported, error. */
  predicate Reports(events: seq<Event>, i: int, ready: Readiness, latched: bool, sockErr: int) {
    var hangup := ready.rdhup && !latched;
    var a := Bit(ready.rin);
    var b := a + Bit(ready.hup);
    var c := b + Bit(hangup);
    && |events| == c + Bit(ready.err)
    && (ready.rin ==> events[0] == Event(0, i, ReadReady))
    && (ready.hup ==> events[a] == Event(0, i, ReadShutdown))
    && (hangup ==> events[b] == Event(0, i, RemoteHangup))
    && (ready.err ==> events[c] == Event(sockErr, i, ClientError))
  }

  lemma ReadinessReports(s: Session, i: nat, ready: Readiness, sockErr: int)
    ensures Reports(ReadinessEvents(s, i, ready, sockErr), i, ready, s.rdhup, sockErr)
  {
  }

  /** Which events there are. */
  lemma ReportsExactly(events: seq<Event>, i: int, ready: Readiness, latched: bool, sockErr: int)
    requires Reports(events, i, ready, latched, sockErr)
    ensures Event(0, i, ReadReady) in events <==> ready.rin
    ensures Event(0, i, ReadShutdown) in events <==> ready.hup
    ensures Event(0, i, RemoteHangup) in events <==> ready.rdhup && !latched
    ensures Event(sockErr, i, ClientError) in events <==> ready.err
    ensures forall e :: e in events ==>
      e in {Event(0, i, ReadReady), Event(0, i, ReadShutdown), Event(0, i, RemoteHangup),
            Event(sockErr, i, ClientError)}
    ensures forall j, k :: 0 <= j < k < |events| ==> events[j] != events[k]
  {
  }
}
