/** The prioritised queue of pending operations: its five FIFO groups seen as one list. */
module Pipeline {
  import opened Types

  const GROUPS: nat := 5

  /** The groups of the queue, the most urgent first. */
  type Queue = q: seq<seq<Op>> | |q| == GROUPS witness [[], [], [], [], []]

  const EMPTY_QUEUE: Queue := [[], [], [], [], []]

  function Priority(kind: Kind): (p: nat)
    ensures p < GROUPS
  {
    match kind
    case Close => 0
    case Drain => 1
    case Write => 2
    case Read => 3
    case Accept => 4
  }

  /** The groups one after the other: the order in which operations leave the queue. */
  function Flat(groups: seq<seq<Op>>): seq<Op> {
    if groups == [] then [] else groups[0] + Flat(groups[1..])
  }

  function Size(q: seq<seq<Op>>): nat { |Flat(q)| }

  function Enqueue(q: Queue, op: Op): Queue {
    var p := Priority(op.kind);
    q[p := q[p] + [op]]
  }

  /** What is left once the first `n` operations have been taken. */
  function DropFirst(groups: seq<seq<Op>>, n: nat): (r: seq<seq<Op>>)
    ensures |r| == |groups|
  {
    if groups == [] then []
    else if n <= |groups[0]| then [groups[0][n..]] + groups[1..]
    else [[]] + DropFirst(groups[1..], n - |groups[0]|)
  }

  lemma {:induction false} DropFirstIsSuffix(groups: seq<seq<Op>>, n: nat)
    requires n <= Size(groups)
    ensures Flat(DropFirst(groups, n)) == Flat(groups)[n..]
  {
    if groups != [] {
      var rest := DropFirst(groups, n);
      if n <= |groups[0]| {
        assert rest[1..] == groups[1..];
      } else {
        DropFirstIsSuffix(groups[1..], n - |groups[0]|);
        assert rest[1..] == DropFirst(groups[1..], n - |groups[0]|);
      }
    }
  }

  function Empties(n: nat): seq<seq<Op>> { seq(n, _ => []) }

  lemma {:induction false} DropAll(groups: seq<seq<Op>>)
    ensures DropFirst(groups, Size(groups)) == Empties(|groups|)
  {
    if groups != [] {
      DropAll(groups[1..]);
      if Size(groups) <= |groups[0]| {
        AllEmpty(groups[1..]);
        assert groups[0][Size(groups)..] == [];
      }
      assert Empties(|groups|) == [[]] + Empties(|groups| - 1);
    }
  }

  lemma {:induction false} AllEmpty(groups: seq<seq<Op>>)
    requires Flat(groups) == []
    ensures groups == Empties(|groups|)
  {
    if groups != [] { AllEmpty(groups[1..]); }
  }

  /** Each group gives up a prefix, and a later group gives something up only once all the
      more urgent ones are empty: the order of priority together with FIFO inside a group. */
  lemma {:induction false} DropFirstIsPrioritised(groups: seq<seq<Op>>, n: nat, g: nat, h: nat)
    requires g < |groups| && h < |groups|
    ensures |DropFirst(groups, n)[g]| <= |groups[g]|
    ensures DropFirst(groups, n)[g] == groups[g][|groups[g]| - |DropFirst(groups, n)[g]|..]
    ensures g < h && DropFirst(groups, n)[h] != groups[h] ==> DropFirst(groups, n)[g] == []
  {
    if n > |groups[0]| {
      if g > 0 {
        DropFirstIsPrioritised(groups[1..], n - |groups[0]|, g - 1, if h > 0 then h - 1 else 0);
      }
    }
  }

  /** Adding to the back of one group adds exactly that operation to the whole. */
  lemma {:induction false} FlatGrows(groups: seq<seq<Op>>, p: nat, ops: seq<Op>)
    requires p < |groups|
    ensures multiset(Flat(groups[p := groups[p] + ops])) == multiset(Flat(groups)) + multiset(ops)
    ensures Size(groups[p := groups[p] + ops]) == Size(groups) + |ops|
  {
    var grown := groups[p := groups[p] + ops];
    if p == 0 {
      assert grown[1..] == groups[1..];
    } else {
      FlatGrows(groups[1..], p - 1, ops);
      assert grown[1..] == groups[1..][p - 1 := groups[1..][p - 1] + ops];
    }
  }

  lemma EmptyIsEmpty()
    ensures Flat(EMPTY_QUEUE) == []
  {
    assert EMPTY_QUEUE[1..] == [[], [], [], []];
    assert EMPTY_QUEUE[1..][1..] == [[], [], []];
    assert EMPTY_QUEUE[1..][1..][1..] == [[], []];
    assert EMPTY_QUEUE[1..][1..][1..][1..] == [[]];
  }

  lemma FlatOf(a: seq<Op>, b: seq<Op>, c: seq<Op>, d: seq<Op>, e: seq<Op>)
    ensures Flat([a, b, c, d, e]) == a + b + c + d + e
  {
    var q0, q1, q2, q3, q4 := [a, b, c, d, e], [b, c, d, e], [c, d, e], [d, e], [e];
    assert q0[1..] == q1 && q1[1..] == q2 && q2[1..] == q3 && q3[1..] == q4 && q4[1..] == [];
    assert Flat(q4) == e;
    assert Flat(q3) == d + Flat(q4);
    assert Flat(q2) == c + Flat(q3);
    assert Flat(q1) == b + Flat(q2);
  }


  /** Calls that take `counts[0]`, `counts[1]`, ... operations, with no push between them. */
  function Batches(groups: seq<seq<Op>>, counts: seq<nat>): seq<Op>
    decreases counts
  {
    if counts == [] then []
    else
      var n := Min(counts[0], Size(groups));
      Flat(groups)[..n] + Batches(DropFirst(groups, n), counts[1..])
  }

  function Sum(counts: seq<nat>): nat {
    if counts == [] then 0 else counts[0] + Sum(counts[1..])
  }

  /** However the transfer is cut into calls, what comes out is the list in priority order. */
  lemma {:induction false} BatchesDrain(groups: seq<seq<Op>>, counts: seq<nat>)
    ensures Batches(groups, counts) == Flat(groups)[..Min(Sum(counts), Size(groups))]
    decreases counts
  {
    if counts != [] {
      var n := Min(counts[0], Size(groups));
      var rest := DropFirst(groups, n);
      DropFirstIsSuffix(groups, n);
      BatchesDrain(rest, counts[1..]);
    }
  }

  /** Removing one element from the middle of a sequence. */
  function RemoveAt<T>(s: seq<T>, i: nat): seq<T>
    requires i < |s|
  {
    s[..i] + s[i + 1..]
  }

  lemma RemoveAtOne<T>(s: seq<T>, i: nat)
    requires i < |s|
    ensures multiset(s) == multiset(RemoveAt(s, i)) + multiset{s[i]}
  {
    assert s == s[..i] + [s[i]] + s[i + 1..];
  }

  lemma SplitBag<T>(s: seq<T>, n: nat)
    requires n <= |s|
    ensures multiset(s) == multiset(s[..n]) + multiset(s[n..])
  {
    assert s == s[..n] + s[n..];
  }
}
