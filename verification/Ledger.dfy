/** How the predicates of the invariant react to one operation being taken on, completed,
    or to one slot changing hands. */
module Ledger {
  import opened Types
  import opened Pipeline
  import opened World
  import opened Invariant

  /* Taking an operation on */

  lemma OpsTake(all: Bag, ss: seq<Session>, listenFd: int, i: nat, kind: Kind)
    requires OpsInv(all, ss, listenFd)
    requires i < |ss| && ss[i].Active() && kind != Accept
    ensures OpsInv(all + multiset{OpAt(ss[i], i, kind)}, ss[i := Mark(ss[i], kind)], listenFd)
  {
    var op := OpAt(ss[i], i, kind);
    var ss' := ss[i := Mark(ss[i], kind)];
    forall x | x in all + multiset{op} ensures OpOk(ss', listenFd, x) {
      if x != op { assert x in all; }
    }
  }

  lemma SlotsTake(all: Bag, ss: seq<Session>, i: nat, kind: Kind)
    requires SlotsInv(all, ss)
    requires i < |ss| && ss[i].Active() && !Conflicts(ss[i], kind)
    ensures SlotsInv(all + multiset{OpAt(ss[i], i, kind)}, ss[i := Mark(ss[i], kind)])
  {
    var op := OpAt(ss[i], i, kind);
    var ss' := ss[i := Mark(ss[i], kind)];
    forall j | 0 <= j < |ss| ensures SlotOk(all + multiset{op}, ss'[j], j) {
      assert SlotOk(all, ss[j], j);
    }
  }

  lemma FdTake(unexecuted: Bag, t: Table, ss: seq<Session>, i: nat, kind: Kind)
    requires FdInv(unexecuted, t, ss)
    requires i < |ss| && ss[i].Active() && !Conflicts(ss[i], kind)
    ensures FdInv(unexecuted + multiset{OpAt(ss[i], i, kind)}, t, ss[i := Mark(ss[i], kind)])
  {
    var op := OpAt(ss[i], i, kind);
    var ss' := ss[i := Mark(ss[i], kind)];
    forall j | 0 <= j < |ss| ensures SlotFdOk(unexecuted + multiset{op}, t, ss'[j], j) {
      assert SlotFdOk(unexecuted, t, ss[j], j);
    }
  }

  /* Completing an operation */

  lemma OpsFinish(all: Bag, ss: seq<Session>, listenFd: int, i: nat, kind: Kind)
    requires OpsInv(all, ss, listenFd) && i < |ss|
    ensures OpsInv(all - multiset{OpAt(ss[i], i, kind)}, ss[i := Unmark(ss[i], kind)], listenFd)
  {
    var ss' := ss[i := Unmark(ss[i], kind)];
    forall x | x in all - multiset{OpAt(ss[i], i, kind)} ensures OpOk(ss', listenFd, x) {
      assert x in all;
    }
  }

  lemma SlotsFinish(all: Bag, ss: seq<Session>, i: nat, kind: Kind)
    requires SlotsInv(all, ss)
    requires i < |ss| && ss[i].Active() && kind != Accept && OpAt(ss[i], i, kind) in all
    ensures SlotsInv(all - multiset{OpAt(ss[i], i, kind)}, ss[i := Unmark(ss[i], kind)])
  {
    var op := OpAt(ss[i], i, kind);
    var ss' := ss[i := Unmark(ss[i], kind)];
    forall j | 0 <= j < |ss| ensures SlotOk(all - multiset{op}, ss'[j], j) {
      assert SlotOk(all, ss[j], j);
    }
  }

  /** A slot with an outstanding operation has the matching state bit set. */
  lemma BitOfOutstanding(all: Bag, ss: seq<Session>, listenFd: int, op: Op)
    requires OpsInv(all, ss, listenFd) && SlotsInv(all, ss)
    requires op in all && op.kind != Accept
    ensures 0 <= op.session < |ss| && ss[op.session].Active()
    ensures op == OpAt(ss[op.session], op.session, op.kind) && all[op] == 1
    ensures match op.kind
            case Write => ss[op.session].writing
            case Close => ss[op.session].closing && ss[op.session].(closing := false).Idle()
            case _ => ss[op.session].reading
  {
    assert OpOk(ss, listenFd, op);
    assert SlotOk(all, ss[op.session], op.session);
  }

  /** An idle slot has no outstanding operation at all. */
  lemma IdleSlotIsQuiet(all: Bag, ss: seq<Session>, listenFd: int, i: nat)
    requires OpsInv(all, ss, listenFd) && SlotsInv(all, ss)
    requires i < |ss| && ss[i].Idle() && i < NO_SESSION
    ensures forall op :: op in all ==> op.session != i
  {
    forall op | op in all ensures op.session != i {
      assert OpOk(ss, listenFd, op);
      if op.kind != Accept { BitOfOutstanding(all, ss, listenFd, op); }
    }
  }

  /* Changing a slot that has no operation outstanding */

  lemma OpsOther(all: Bag, ss: seq<Session>, listenFd: int, i: nat, s: Session)
    requires OpsInv(all, ss, listenFd) && i < |ss|
    requires forall op :: op in all ==> op.session != i
    ensures OpsInv(all, ss[i := s], listenFd)
  {
    forall op | op in all ensures OpOk(ss[i := s], listenFd, op) {
      assert OpOk(ss, listenFd, op);
    }
  }

  /** An 8-bit counter counts remainders by 256. */
  lemma {:induction false} ResidueNext(n: nat)
    ensures Residue(n) < 256
    ensures Residue(n + 1) == if Residue(n) == 0xff then 0 else Residue(n) + 1
  {
    if n >= 256 { ResidueNext(n - 256); }
  }

  lemma SlotsOther(all: Bag, ss: seq<Session>, i: nat, s: Session)
    requires SlotsInv(all, ss) && i < |ss|
    requires s.generation == Residue(s.epoch) && s.Idle()
    requires forall op :: op in all ==> op.session != i
    ensures SlotsInv(all, ss[i := s])
  {
    var ss' := ss[i := s];
    forall j | 0 <= j < |ss'| ensures SlotOk(all, ss'[j], j) {
      assert SlotOk(all, ss[j], j);
      if j == i {
        assert forall kind :: OpAt(s, i, kind).session == i;
      }
    }
  }

  lemma RegisteredOther(ss: seq<Session>, registered: set<Registration>, i: nat, s: Session)
    requires RegisteredInv(ss, registered) && i < |ss|
    requires s.epoch > ss[i].epoch
          || (s.epoch == ss[i].epoch && (ss[i].Active() ==> s.Active() && s.conn == ss[i].conn))
    ensures RegisteredInv(ss[i := s], registered)
  {
    forall r | r in registered ensures RegistrationOk(ss[i := s], r) {
      assert RegistrationOk(ss, r);
    }
  }

  /* The free stack */

  lemma FreePush(ss: seq<Session>, free: seq<int>, i: nat, s: Session)
    requires FreeInv(ss, free) && i < |ss| && ss[i].Active() && !s.Active()
    ensures FreeInv(ss[i := s], free + [i])
  {
    var ss', free' := ss[i := s], free + [i];
    forall j | 0 <= j < |ss'| && !ss'[j].Active() ensures j in free' {
      if j != i { assert j in free; }
    }
    forall j, k | 0 <= j < k < |free'| ensures free'[j] != free'[k] {
      if k == |free| { assert !ss[free[j]].Active(); }
    }
  }

  lemma FreePop(ss: seq<Session>, free: seq<int>, s: Session)
    requires FreeInv(ss, free) && free != [] && s.Active()
    ensures 0 <= free[|free| - 1] < |ss|
    ensures FreeInv(ss[free[|free| - 1] := s], free[..|free| - 1])
  {
    var top := |free| - 1;
    var ss' := ss[free[top] := s];
    forall j | 0 <= j < |ss'| && !ss'[j].Active() ensures j in free[..top] {
      assert j in free;
      var k :| 0 <= k < |free| && free[k] == j;
      assert free[..top][k] == j;
    }
  }

  lemma FreeSame(ss: seq<Session>, free: seq<int>, i: nat, s: Session)
    requires FreeInv(ss, free) && i < |ss| && s.Active() == ss[i].Active()
    ensures FreeInv(ss[i := s], free)
  {
  }

  /** A duplicate-free sequence of indices below `n` holds at most `n` of them. */
  lemma {:induction false} Pigeonhole(free: seq<int>, n: nat)
    requires forall i, j :: 0 <= i < j < |free| ==> free[i] != free[j]
    requires forall k :: 0 <= k < |free| ==> 0 <= free[k] < n
    ensures |free| <= n
    decreases n
  {
    if free != [] {
      assert 0 <= free[0] < n;
      if k :| 0 <= k < |free| && free[k] == n - 1 {
        Pigeonhole(RemoveAt(free, k), n - 1);
      } else {
        Pigeonhole(free, n - 1);
      }
    }
  }

  /** With one active slot the free stack is not full, so a push cannot fail. */
  lemma PushCannotFail(ss: seq<Session>, free: seq<int>, i: nat)
    requires FreeInv(ss, free) && i < |ss| && ss[i].Active()
    ensures |free| < |ss|
  {
    FreePush(ss, free, i, ss[i].(fd := -1));
    Pigeonhole(free + [i], |ss|);
  }

  /* Counting */

  lemma {:induction false} BitsHeldUpdate(ss: seq<Session>, i: nat, s: Session)
    requires i < |ss|
    ensures BitsHeld(ss[i := s]) + Bit(ss[i].reading) + Bit(ss[i].writing) + Bit(ss[i].closing)
         == BitsHeld(ss) + Bit(s.reading) + Bit(s.writing) + Bit(s.closing)
    decreases |ss|
  {
    var last := |ss| - 1;
    if i == last {
      assert ss[i := s][..last] == ss[..last];
    } else {
      BitsHeldUpdate(ss[..last], i, s);
      assert ss[i := s][..last] == ss[..last][i := s];
    }
  }

  lemma {:induction false} BitsHeldFresh(n: nat)
    ensures BitsHeld(FreshSessions(n)) == 0
  {
    if n > 0 {
      BitsHeldFresh(n - 1);
      assert FreshSessions(n)[..n - 1] == FreshSessions(n - 1);
    }
  }

  /* Moving operations */

  lemma OpsOfAppend(cqes: seq<Cqe>, c: Cqe)
    ensures OpsOf(cqes + [c]) == OpsOf(cqes) + [c.op]
  {
  }

  lemma OpsOfRemove(cqes: seq<Cqe>, i: nat)
    requires i < |cqes|
    ensures OpsOf(RemoveAt(cqes, i)) == RemoveAt(OpsOf(cqes), i)
    ensures multiset(OpsOf(cqes)) == multiset(OpsOf(RemoveAt(cqes, i))) + multiset{cqes[i].op}
  {
    RemoveAtOne(OpsOf(cqes), i);
  }

  lemma OpsOfTail(cqes: seq<Cqe>)
    requires cqes != []
    ensures multiset(OpsOf(cqes)) == multiset(OpsOf(cqes[1..])) + multiset{cqes[0].op}
    ensures multiset(cqes) == multiset(cqes[1..]) + multiset{cqes[0]}
  {
    OpsOfRemove(cqes, 0);
    RemoveAtOne(cqes, 0);
    assert RemoveAt(cqes, 0) == cqes[1..];
  }

  /* The log */

  lemma CountTookAppend(log: seq<Obs>, o: Obs, i: int, kind: Kind)
    ensures CountTook(log + [o], i, kind)
         == CountTook(log, i, kind) + Bit(o.Took? && o.session == i && o.kind == kind)
  {
    assert (log + [o])[..|log|] == log;
  }

  lemma CountToldAppend(log: seq<Obs>, o: Obs, i: int, etype: EventType)
    ensures CountTold(log + [o], i, etype)
         == CountTold(log, i, etype) + Bit(o.Told? && o.event.session == i && o.event.etype == etype)
  {
    assert (log + [o])[..|log|] == log;
  }

  lemma HangupsSinceAppend(log: seq<Obs>, o: Obs, i: int)
    ensures HangupsSince(log + [o], i)
         == if o.Told? && o.note.Opened? && o.event.session == i then 0
            else HangupsSince(log, i) + Bit(o.Told? && o.event.session == i && o.event.etype == RemoteHangup)
  {
    assert (log + [o])[..|log|] == log;
  }
}
