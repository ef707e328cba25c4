/** The stack of free slots, the io_queue and the kernel's side of the rings, as objects.
    The stack is a bounded LIFO and the queue k FIFO groups that share one capacity. */
module Containers {
  import opened Types
  import opened Pipeline
  import opened World

  /** ctools/stack.h, as index_stack.h instantiates it. */
  class IdxStack {
    var items: seq<int>
    const capacity: nat

    constructor (capacity: nat)
      ensures this.capacity == capacity && items == []
    {
      this.capacity := capacity;
      items := [];
    }

    method Push(x: int) returns (failed: bool)
      modifies this
      ensures failed <==> old(|items|) >= capacity
      ensures items == if failed then old(items) else old(items) + [x]
    {
      failed := |items| >= capacity;
      if !failed { items := items + [x]; }
    }

    method Pop() returns (failed: bool, x: int)
      modifies this
      ensures failed <==> old(items) == []
      ensures failed ==> items == old(items)
      ensures !failed ==> items == old(items)[..old(|items|) - 1] && x == old(items)[old(|items|) - 1]
    {
      failed, x := items == [], 0;
      if !failed {
        x := items[|items| - 1];
        items := items[..|items| - 1];
      }
    }
  }

  /** The kernel and the rings it shares with mcon. */
  class Os {
    var ker: Kernel
    const cfg: Config

    constructor (cfg: Config)
      ensures this.cfg == cfg && ker == Init(cfg).ker
    {
      this.cfg := cfg;
      ker := Init(cfg).ker;
    }

    /** io_uring_get_sqe, and the assignment through the pointer it returns. */
    method Stage(op: Op) returns (full: bool)
      modifies this
      ensures full <==> |old(ker).sq| >= cfg.sqEntries
      ensures ker == if full then old(ker) else old(ker).(sq := old(ker).sq + [op])
    {
      full := |ker.sq| >= cfg.sqEntries;
      if !full { ker := ker.(sq := ker.sq + [op]); }
    }
  }

  /** struct io_queue. */
  class IoQueue {
    var groups: Queue
    const capacity: nat

    constructor (capacity: nat)
      ensures this.capacity == capacity && groups == EMPTY_QUEUE
    {
      this.capacity := capacity;
      groups := EMPTY_QUEUE;
    }

    /** kqueue_push. */
    method PushTo(group: nat, op: Op) returns (failed: bool)
      requires group < GROUPS
      modifies this
      ensures failed <==> Size(old(groups)) >= capacity
      ensures groups == if failed then old(groups) else old(groups)[group := old(groups)[group] + [op]]
    {
      failed := Size(groups) >= capacity;
      if !failed { groups := groups[group := groups[group] + [op]]; }
    }

    /** kqueue_pop. */
    method PopFrom(group: nat) returns (failed: bool, op: Op)
      requires group < GROUPS
      modifies this
      ensures failed <==> old(groups)[group] == []
      ensures failed ==> groups == old(groups)
      ensures !failed ==> op == old(groups)[group][0] && groups == old(groups)[group := old(groups)[group][1..]]
    {
      failed, op := groups[group] == [], AcceptOp(-1);
      if !failed {
        op := groups[group][0];
        groups := groups[group := groups[group][1..]];
      }
    }

    /** io_queue_push. */
    method Push(op: Op) returns (failed: bool)
      modifies this
      ensures failed <==> Size(old(groups)) >= capacity
      ensures groups == if failed then old(groups) else Enqueue(old(groups), op)
      ensures !failed && op.kind == Kind.Close ==> groups == old(groups)[0 := old(groups)[0] + [op]]
      ensures !failed && op.kind == Kind.Drain ==> groups == old(groups)[1 := old(groups)[1] + [op]]
      ensures !failed && op.kind == Kind.Write ==> groups == old(groups)[2 := old(groups)[2] + [op]]
      ensures !failed && op.kind == Kind.Read ==> groups == old(groups)[3 := old(groups)[3] + [op]]
      ensures !failed && op.kind == Kind.Accept ==> groups == old(groups)[4 := old(groups)[4] + [op]]
    {
      var priority: nat;
      match op.kind {
        case Close => priority := 0;
        case Drain => priority := 1;
        case Write => priority := 2;
        case Read => priority := 3;
        case Accept => priority := 4;
      }
      failed := PushTo(priority, op);
    }

    /** The first `n` operations of the queue as it was have moved to the end of the SQ as it was. */
    ghost predicate Moved(os: Os, was: Queue, ker: Kernel, n: nat)
      requires n <= Size(was)
      reads this, os
    {
      groups == DropFirst(was, n) && os.ker == ker.(sq := ker.sq + Flat(was)[..n])
    }

    /** io_queue_pop_into_ring: moves the first operations of the queue, in the order of priority,
        as many as there are, as the ring has room for, and as the caller allows. */
    method PopIntoRing(os: Os, count: nat) returns (enqueued: nat)
      requires |os.ker.sq| <= os.cfg.sqEntries
      modifies this, os
      ensures enqueued == Min(count, Min(os.cfg.sqEntries - |old(os.ker).sq|, Size(old(groups))))
      ensures groups == DropFirst(old(groups), enqueued)
      ensures os.ker == old(os.ker).(sq := old(os.ker).sq + Flat(old(groups))[..enqueued])
    {
      var ringSpace := os.cfg.sqEntries - |os.ker.sq|;
      var space := Min(ringSpace, Size(groups));
      var limit := Min(count, space);
      ghost var all, ker0 := groups, os.ker;
      enqueued := 0;
      DropNone(all);
      var group := 0;
      while group < GROUPS
        invariant 0 <= group <= GROUPS && 0 <= enqueued <= limit
        invariant Moved(os, all, ker0, enqueued)
        invariant enqueued == limit || EmptyBefore(groups, group)
      {
        var empty := false;
        while enqueued < limit && !empty
          invariant 0 <= enqueued <= limit
          invariant Moved(os, all, ker0, enqueued)
          invariant enqueued == limit || EmptyBefore(groups, group)
          invariant empty ==> groups[group] == []
          decreases limit - enqueued, if empty then 0 else 1
        {
          var sqe: Op;
          empty, sqe := PopFrom(group);
          if !empty {
            DropOneMore(all, enqueued, group);
            var full := os.Stage(sqe);
            assert !full;
            assert Flat(all)[..enqueued + 1] == Flat(all)[..enqueued] + [sqe];
            enqueued := enqueued + 1;
          }
        }
        group := group + 1;
      }
      if enqueued < limit {
        AllTaken(all, enqueued);
      }
    }
  }

  predicate EmptyBefore(groups: seq<seq<Op>>, n: nat)
    requires n <= |groups|
  {
    forall g :: 0 <= g < n ==> groups[g] == []
  }

  lemma {:induction false} DropNone(groups: seq<seq<Op>>)
    ensures DropFirst(groups, 0) == groups
  {
  }

  lemma {:induction false} NothingLeft(groups: seq<seq<Op>>)
    requires EmptyBefore(groups, |groups|)
    ensures Flat(groups) == []
  {
    if groups != [] { NothingLeft(groups[1..]); }
  }

  lemma AllTaken(groups: seq<seq<Op>>, n: nat)
    requires n <= Size(groups) && EmptyBefore(DropFirst(groups, n), |groups|)
    ensures n == Size(groups)
  {
    NothingLeft(DropFirst(groups, n));
    DropFirstIsSuffix(groups, n);
  }

  /** Taking one more operation takes the first one of the first group that has any. */
  lemma {:induction false} DropOneMore(groups: seq<seq<Op>>, n: nat, g: nat)
    requires n < Size(groups) && g < |groups|
    requires EmptyBefore(DropFirst(groups, n), g) && DropFirst(groups, n)[g] != []
    ensures DropFirst(groups, n + 1) == DropFirst(groups, n)[g := DropFirst(groups, n)[g][1..]]
    ensures Flat(groups)[n] == DropFirst(groups, n)[g][0]
  {
    var rest := DropFirst(groups, n);
    if n < |groups[0]| {
      assert rest[0] != [];
      assert g == 0;
      assert groups[0][n..][1..] == groups[0][n + 1..];
    } else {
      var m := n - |groups[0]|;
      if m == 0 {
        DropNone(groups[1..]);
        assert rest == [[]] + DropFirst(groups[1..], 0);
      }
      assert rest[0] == [] && g > 0;
      assert rest[1..] == DropFirst(groups[1..], m);
      forall h | 0 <= h < g - 1 ensures DropFirst(groups[1..], m)[h] == [] {
        assert rest[h + 1] == [];
      }
      DropOneMore(groups[1..], m, g - 1);
    }
  }
}
