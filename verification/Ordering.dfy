/** The order in which operations leave the queue: close, drain, write, read, accept,
    and among operations of one kind the order in which they were taken on. */
module Ordering {
  import opened Types
  import opened Pipeline
  import opened World
  import opened Reachability

  /* What each group holds */

  predicate AllOf(ops: seq<Op>, kind: Kind) { forall k :: 0 <= k < |ops| ==> ops[k].kind == kind }

  /** The groups in the order they are emptied. */
  predicate GroupsAreKinds(q: Queue) {
    AllOf(q[0], Close) && AllOf(q[1], Drain) && AllOf(q[2], Write) && AllOf(q[3], Read) && AllOf(q[4], Accept)
  }

  lemma EnqueueKeepsGroups(q: Queue, op: Op)
    requires GroupsAreKinds(q)
    ensures GroupsAreKinds(Enqueue(q, op))
  {
  }

  lemma DropKeepsGroup(q: Queue, n: nat, g: nat, kind: Kind)
    requires g < GROUPS && AllOf(q[g], kind)
    ensures AllOf(DropFirst(q, n)[g], kind)
  {
    DropFirstIsPrioritised(q, n, g, g);
  }

  lemma DropKeepsGroups(q: Queue, n: nat)
    requires GroupsAreKinds(q)
    ensures GroupsAreKinds(DropFirst(q, n))
  {
    DropKeepsGroup(q, n, 0, Close);
    DropKeepsGroup(q, n, 1, Drain);
    DropKeepsGroup(q, n, 2, Write);
    DropKeepsGroup(q, n, 3, Read);
    DropKeepsGroup(q, n, 4, Accept);
  }
  lemma AcceptsKeepGroups(lib: Lib, n: nat)
    requires GroupsAreKinds(lib.queue)
    ensures GroupsAreKinds(WithAccepts(lib, n).queue)
  {
  }

  lemma SubmitKeepsGroups(w: World, ret: int)
    requires GroupsAreKinds(w.lib.queue) && ret <= |Staged(w).ker.sq|
    ensures GroupsAreKinds(DoSubmit(w, ret).lib.queue)
  {
    var lib1 := WithAccepts(w.lib, AcceptQuota(w.cfg, w.lib));
    AcceptsKeepGroups(w.lib, AcceptQuota(w.cfg, w.lib));
    DropKeepsGroups(lib1.queue, MovedBySubmit(w));
  }

  lemma OthersLeaveQueue(w: World, step: Step)
    requires !step.Submit? && !step.SessionIo?
    ensures Apply(w, step).lib.queue == w.lib.queue
  {
  }

  lemma StepKeepsGroups(w: World, step: Step)
    requires GroupsAreKinds(w.lib.queue)
    ensures GroupsAreKinds(Apply(w, step).lib.queue)
  {
    if step.Submit? {
      if Enabled(w, step) { SubmitKeepsGroups(w, step.ret); }
    } else if step.SessionIo? {
      IoKeepsGroups(w, step.i, step.kind);
    } else {
      OthersLeaveQueue(w, step);
    }
  }

  lemma IoKeepsGroups(w: World, i: nat, kind: Kind)
    requires GroupsAreKinds(w.lib.queue)
    ensures GroupsAreKinds(Apply(w, SessionIo(i, kind)).lib.queue)
  {
    var w' := Apply(w, SessionIo(i, kind));
    if w'.lib.queue != w.lib.queue { EnqueueKeepsGroups(w.lib.queue, OpAt(w.lib.sessions[i], i, kind)); }
  }

  /** In every reachable state the most urgent group holds closes only, then come drains,
      writes and reads, and the last one holds accepts only. */
  lemma {:induction false} GroupsHoldOneKind(cfg: Config, steps: seq<Step>)
    ensures GroupsAreKinds(After(cfg, steps).lib.queue)
  {
    if steps != [] {
      GroupsHoldOneKind(cfg, steps[..|steps| - 1]);
      StepKeepsGroups(After(cfg, steps[..|steps| - 1]), steps[|steps| - 1]);
    }
  }

  /* The order of the whole */

  /** Closing comes first, then draining, writing, reading and accepting. */
  predicate MoreUrgent(a: Kind, b: Kind) {
    match a
    case Close => b in {Drain, Write, Read, Accept}
    case Drain => b in {Write, Read, Accept}
    case Write => b in {Read, Accept}
    case Read => b == Accept
    case Accept => false
  }

  /** No later operation is more urgent than an earlier one. */
  predicate InOrder(ops: seq<Op>) {
    forall i, j :: 0 <= i < j < |ops| ==> !MoreUrgent(ops[j].kind, ops[i].kind)
  }

  predicate NoneMoreUrgent(ops: seq<Op>, kind: Kind) {
    forall k :: 0 <= k < |ops| ==> !MoreUrgent(ops[k].kind, kind)
  }

  lemma OneKindFirst(first: seq<Op>, rest: seq<Op>, kind: Kind)
    requires AllOf(first, kind) && InOrder(rest) && NoneMoreUrgent(rest, kind)
    ensures InOrder(first + rest)
  {
  }

  lemma GroupsAreInOrder(q: Queue)
    requires GroupsAreKinds(q)
    ensures InOrder(Flat(q))
  {
    var a, b, c, d, e := q[0], q[1], q[2], q[3], q[4];
    assert q == [a, b, c, d, e];
    FlatOf(a, b, c, d, e);
    OneKindFirst(d, e, Read);
    OneKindFirst(c, d + e, Write);
    OneKindFirst(b, c + (d + e), Drain);
    OneKindFirst(a, b + (c + (d + e)), Close);
    assert a + b + c + d + e == a + (b + (c + (d + e)));
  }

  /** What is queued leaves in the order of urgency. */
  lemma QueueIsInOrder(cfg: Config, steps: seq<Step>)
    ensures InOrder(Flat(After(cfg, steps).lib.queue))
  {
    GroupsHoldOneKind(cfg, steps);
    GroupsAreInOrder(After(cfg, steps).lib.queue);
  }

  /** What a submit moves is in the order of urgency, and nothing it leaves is more urgent than anything it moves. */
  lemma SubmitMovesTheMostUrgent(cfg: Config, steps: seq<Step>)
    ensures var w := After(cfg, steps);
      var moved, left := Staged(w).ker.sq[|w.ker.sq|..], Flat(Staged(w).lib.queue);
      && |w.ker.sq| <= |Staged(w).ker.sq| && Staged(w).ker.sq[..|w.ker.sq|] == w.ker.sq
      && InOrder(moved) && InOrder(left)
      && forall i, j :: 0 <= i < |moved| && 0 <= j < |left| ==> !MoreUrgent(left[j].kind, moved[i].kind)
  {
    var w := After(cfg, steps);
    GroupsHoldOneKind(cfg, steps);
    AcceptsKeepGroups(w.lib, AcceptQuota(w.cfg, w.lib));
    MovedFirst(w);
  }

  lemma MovedFirst(w: World)
    requires GroupsAreKinds(WithAccepts(w.lib, AcceptQuota(w.cfg, w.lib)).queue)
    ensures var moved, left := Staged(w).ker.sq[|w.ker.sq|..], Flat(Staged(w).lib.queue);
      && |w.ker.sq| <= |Staged(w).ker.sq| && Staged(w).ker.sq[..|w.ker.sq|] == w.ker.sq
      && InOrder(moved) && InOrder(left)
      && forall i, j :: 0 <= i < |moved| && 0 <= j < |left| ==> !MoreUrgent(left[j].kind, moved[i].kind)
  {
    var q, n := WithAccepts(w.lib, AcceptQuota(w.cfg, w.lib)).queue, MovedBySubmit(w);
    GroupsAreInOrder(q);
    DropFirstIsSuffix(q, n);
    CutInOrder(Flat(q), n);
    assert Staged(w).ker.sq == w.ker.sq + Flat(q)[..n];
    assert Staged(w).ker.sq[|w.ker.sq|..] == Flat(q)[..n];
  }

  lemma CutInOrder(ops: seq<Op>, n: nat)
    requires InOrder(ops) && n <= |ops|
    ensures InOrder(ops[..n]) && InOrder(ops[n..])
    ensures forall i, j :: 0 <= i < n && 0 <= j < |ops| - n ==> !MoreUrgent(ops[n..][j].kind, ops[..n][i].kind)
  {
    forall i, j | 0 <= i < n && 0 <= j < |ops| - n ensures !MoreUrgent(ops[n..][j].kind, ops[..n][i].kind) {
      assert ops[n..][j] == ops[n + j];
    }
  }

  /* First come, first served */

  /** The operations of one kind, in order. */
  function OfKind(ops: seq<Op>, kind: Kind): seq<Op> {
    if ops == [] then []
    else OfKind(ops[..|ops| - 1], kind) + (if ops[|ops| - 1].kind == kind then [ops[|ops| - 1]] else [])
  }

  lemma {:induction false} OfKindConcat(xs: seq<Op>, ys: seq<Op>, kind: Kind)
    ensures OfKind(xs + ys, kind) == OfKind(xs, kind) + OfKind(ys, kind)
  {
    if ys == [] {
      assert xs + ys == xs;
    } else {
      OfKindConcat(xs, ys[..|ys| - 1], kind);
      assert (xs + ys)[..|xs + ys| - 1] == xs + ys[..|ys| - 1];
    }
  }

  lemma {:induction false} OfOneKind(ops: seq<Op>, all: Kind, kind: Kind)
    requires AllOf(ops, all)
    ensures OfKind(ops, kind) == if kind == all then ops else []
  {
    if ops != [] {
      OfOneKind(ops[..|ops| - 1], all, kind);
      assert ops == ops[..|ops| - 1] + [ops[|ops| - 1]];
    }
  }

  lemma OfKindFive(a: seq<Op>, b: seq<Op>, c: seq<Op>, d: seq<Op>, e: seq<Op>, kind: Kind)
    ensures OfKind(a + b + c + d + e, kind)
         == OfKind(a, kind) + OfKind(b, kind) + OfKind(c, kind) + OfKind(d, kind) + OfKind(e, kind)
  {
    OfKindConcat(a + b + c + d, e, kind);
    OfKindConcat(a + b + c, d, kind);
    OfKindConcat(a + b, c, kind);
    OfKindConcat(a, b, kind);
  }

  lemma NothingBeside(s: seq<Op>)
    ensures s + [] + [] + [] + [] == s && [] + s + [] + [] + [] == s && [] + [] + s + [] + [] == s
    ensures [] + [] + [] + s + [] == s && [] + [] + [] + [] + s == s
  {
  }

  lemma OfFiveKinds(a: seq<Op>, b: seq<Op>, c: seq<Op>, d: seq<Op>, e: seq<Op>, kind: Kind)
    requires AllOf(a, Close) && AllOf(b, Drain) && AllOf(c, Write) && AllOf(d, Read) && AllOf(e, Accept)
    ensures OfKind(a + b + c + d + e, kind)
         == if kind == Close then a else if kind == Drain then b else if kind == Write then c
            else if kind == Read then d else e
  {
    OfKindFive(a, b, c, d, e, kind);
    OfOneKind(a, Close, kind);
    OfOneKind(b, Drain, kind);
    OfOneKind(c, Write, kind);
    OfOneKind(d, Read, kind);
    OfOneKind(e, Accept, kind);
    match kind
    case Close => NothingBeside(a);
    case Drain => NothingBeside(b);
    case Write => NothingBeside(c);
    case Read => NothingBeside(d);
    case Accept => NothingBeside(e);
  }
  lemma OfKindIsGroup(q: Queue, kind: Kind)
    requires GroupsAreKinds(q)
    ensures OfKind(Flat(q), kind)
         == if kind == Close then q[0] else if kind == Drain then q[1] else if kind == Write then q[2]
            else if kind == Read then q[3] else q[4]
  {
    assert q == [q[0], q[1], q[2], q[3], q[4]];
    FlatOf(q[0], q[1], q[2], q[3], q[4]);
    OfFiveKinds(q[0], q[1], q[2], q[3], q[4], kind);
  }
  /** An operation queues up behind those of its kind, and no other kind is affected. */
  lemma FirstComeFirstServed(q: Queue, op: Op, kind: Kind)
    requires GroupsAreKinds(q)
    ensures OfKind(Flat(Enqueue(q, op)), kind)
         == OfKind(Flat(q), kind) + (if kind == op.kind then [op] else [])
  {
    EnqueueKeepsGroups(q, op);
    OfKindIsGroup(q, kind);
    OfKindIsGroup(Enqueue(q, op), kind);
  }

  /** So do the operations of sessions: each is last of its kind, whatever else is queued. */
  lemma OperationsQueueUp(cfg: Config, steps: seq<Step>, i: nat, kind: Kind, other: Kind)
    requires kind != Accept && DoSessionIo(After(cfg, steps), i, kind).1 == Ok
    ensures var w := After(cfg, steps); var q := DoSessionIo(w, i, kind).0.lib.queue;
      && i < |w.lib.sessions|
      && var s := w.lib.sessions[i];
      OfKind(Flat(q), other)
        == OfKind(Flat(w.lib.queue), other) + (if other == kind then [Op(kind, s.fd, i, s.epoch, s.conn)] else [])
  {
    var w := After(cfg, steps);
    GroupsHoldOneKind(cfg, steps);
    FirstComeFirstServed(w.lib.queue, OpAt(w.lib.sessions[i], i, kind), other);
  }
}
