// The ring buffer behind the command queue, for every capacity N >= 2 and with
// the full check both as written and as intended.
module CommandRing {
  import opened Options

  // q[tail] is the slot dequeued last, q[head] the one enqueued last.
  datatype Ring<T> = Ring(q: seq<T>, head: nat, tail: nat) {

    predicate Valid() { 2 <= |q| && head < |q| && tail < |q| }

    function Size(): nat
      requires Valid()
    {
      if head >= tail then head - tail else |q| - tail + head
    }

    // Queued item number `i`, counted from the slot after tail.
    function At(i: nat): T
      requires Valid() && i < Size()
    {
      if tail + 1 + i < |q| then q[tail + 1 + i] else q[tail + 1 + i - |q|]
    }

    // The queued items, oldest first.
    function Contents(): seq<T>
      requires Valid()
    {
      seq(Size(), i requires 0 <= i < Size() => At(i))
    }

    // The source tests head + 1 % CMDQ_LEN, where % binds tighter than +.
    predicate FullAsWritten()
      requires Valid()
    {
      head + 1 % |q| == tail
    }

    predicate FullAsIntended()
      requires Valid()
    {
      (head + 1) % |q| == tail
    }

    // The one state in which the two checks disagree.
    predicate Overflows()
      requires Valid()
    {
      head == |q| - 1 && tail == 0
    }

    function Push(x: T): Ring<T>
      requires Valid()
    {
      var h := (head + 1) % |q|;
      Ring(q[h := x], h, tail)
    }

    // The new ring and whether the item was accepted.
    function Enqueue(x: T): (Ring<T>, bool)
      requires Valid()
    {
      if FullAsWritten() then (this, false) else (Push(x), true)
    }

    function EnqueueIntended(x: T): (Ring<T>, bool)
      requires Valid()
    {
      if FullAsIntended() then (this, false) else (Push(x), true)
    }

    function Dequeue(): (Ring<T>, Option<T>)
      requires Valid()
    {
      if head == tail then (this, None)
      else
        var t := (tail + 1) % |q|;
        (this.(tail := t), Some(q[t]))
    }

    function DropAll(): (Ring<T>, nat)
      requires Valid()
    {
      (this.(tail := head), Size())
    }
  }

  lemma Advance(i: nat, n: nat)
    requires i < n
    ensures (i + 1) % n == if i + 1 == n then 0 else i + 1
  {
  }

  lemma OneModulo(n: nat)
    requires 2 <= n
    ensures 1 % n == 1
  {
  }

  lemma SizeIsLength<T>(r: Ring<T>)
    requires r.Valid()
    ensures r.Size() == |r.Contents()| <= |r.q| - 1
  {
  }

  // The two checks differ exactly in the overflowing state.
  lemma GuardsDiffer<T>(r: Ring<T>)
    requires r.Valid()
    ensures r.FullAsIntended() <==> |r.Contents()| == |r.q| - 1
    ensures r.FullAsWritten() <==> r.FullAsIntended() && !r.Overflows()
  {
    Advance(r.head, |r.q|);
    OneModulo(|r.q|);
    SizeIsLength(r);
  }

  // Writing the next slot of a ring that is not full appends.
  lemma PushAppends<T>(r: Ring<T>, x: T)
    requires r.Valid() && |r.Contents()| < |r.q| - 1
    ensures r.Push(x).Valid() && r.Push(x).Contents() == r.Contents() + [x]
  {
    Advance(r.head, |r.q|);
    var p := r.Push(x);
    assert p.Size() == r.Size() + 1;
    forall i | 0 <= i < p.Size() ensures p.At(i) == if i < r.Size() then r.At(i) else x {
    }
  }

  // Writing one slot too many makes head catch up with tail: everything queued,
  // and the new item, is gone.
  lemma PushCollapses<T>(r: Ring<T>, x: T)
    requires r.Valid() && r.Overflows()
    ensures |r.Contents()| == |r.q| - 1 && !r.FullAsWritten()
    ensures r.Push(x).Valid() && r.Push(x).Contents() == []
  {
    Advance(r.head, |r.q|);
    OneModulo(|r.q|);
    SizeIsLength(r);
  }

  lemma EnqueueIntendedIsFifo<T>(r: Ring<T>, x: T)
    requires r.Valid()
    ensures var (r', ok) := r.EnqueueIntended(x);
            && r'.Valid() && |r'.q| == |r.q|
            && ok == (|r.Contents()| < |r.q| - 1)
            && r'.Contents() == if ok then r.Contents() + [x] else r.Contents()
  {
    GuardsDiffer(r);
    SizeIsLength(r);
    if !r.FullAsIntended() {
      PushAppends(r, x);
    }
  }

  lemma EnqueueIsFifoUnlessOverflow<T>(r: Ring<T>, x: T)
    requires r.Valid()
    ensures r.Enqueue(x).0.Valid() && |r.Enqueue(x).0.q| == |r.q|
    ensures !r.Overflows() ==> r.Enqueue(x) == r.EnqueueIntended(x)
    ensures r.Overflows() ==>
              r.Enqueue(x).1 && r.Enqueue(x).0.Contents() == [] && !r.EnqueueIntended(x).1
  {
    GuardsDiffer(r);
    EnqueueIntendedIsFifo(r, x);
    if r.Overflows() {
      PushCollapses(r, x);
    }
  }

  lemma DequeueIsFifo<T>(r: Ring<T>)
    requires r.Valid()
    ensures var (r', x) := r.Dequeue();
            && r'.Valid() && r'.q == r.q && r'.head == r.head
            && (r.Contents() == [] ==> x.None? && r' == r)
            && (r.Contents() != [] ==> x == Some(r.Contents()[0]) && r'.Contents() == r.Contents()[1..])
  {
    if r.head != r.tail {
      Advance(r.tail, |r.q|);
      var r' := r.Dequeue().0;
      assert r'.Size() + 1 == r.Size();
      forall i | 0 <= i < r'.Size() ensures r'.At(i) == r.At(i + 1) {
      }
    }
  }

  lemma DropAllEmpties<T>(r: Ring<T>)
    requires r.Valid()
    ensures var (r', n) := r.DropAll();
            r'.Valid() && r'.q == r.q && r'.Contents() == [] && n == |r.Contents()|
  {
  }

  // Whole runs: what a client of the queue sees.

  datatype Op<T> = Put(x: T) | Get | Drop | Count

  datatype Answer<T> = Accepted(ok: bool) | Got(x: Option<T>) | Number(n: nat)

  function RingOp<T>(r: Ring<T>, op: Op<T>, asWritten: bool): (res: (Ring<T>, Answer<T>))
    requires r.Valid()
    ensures res.0.Valid() && |res.0.q| == |r.q|
  {
    Advance(r.head, |r.q|);
    Advance(r.tail, |r.q|);
    match op
    case Put(x) =>
      var (r', ok) := if asWritten then r.Enqueue(x) else r.EnqueueIntended(x);
      (r', Accepted(ok))
    case Get =>
      var (r', x) := r.Dequeue();
      (r', Got(x))
    case Drop =>
      var (r', n) := r.DropAll();
      (r', Number(n))
    case Count => (r, Number(r.Size()))
  }

  // The reference: a sequence of at most `cap` items.
  function FifoOp<T>(s: seq<T>, cap: nat, op: Op<T>): (seq<T>, Answer<T>) {
    match op
    case Put(x) => if |s| < cap then (s + [x], Accepted(true)) else (s, Accepted(false))
    case Get => if s == [] then (s, Got(None)) else (s[1..], Got(Some(s[0])))
    case Drop => ([], Number(|s|))
    case Count => (s, Number(|s|))
  }

  lemma RingOpIsFifoOp<T>(r: Ring<T>, op: Op<T>, asWritten: bool)
    requires r.Valid()
    ensures !(asWritten && op.Put? && r.Overflows()) ==>
              var (r', a) := RingOp(r, op, asWritten);
              (r'.Contents(), a) == FifoOp(r.Contents(), |r.q| - 1, op)
    ensures asWritten && op.Put? && r.Overflows() ==>
              RingOp(r, op, asWritten).1 != FifoOp(r.Contents(), |r.q| - 1, op).1
  {
    SizeIsLength(r);
    match op {
      case Put(x) =>
        EnqueueIntendedIsFifo(r, x);
        EnqueueIsFifoUnlessOverflow(r, x);
        if r.Overflows() {
          PushCollapses(r, x);
        }
      case Get => DequeueIsFifo(r);
      case Drop => DropAllEmpties(r);
      case Count =>
    }
  }

  function RingRun<T>(r: Ring<T>, ops: seq<Op<T>>, asWritten: bool): seq<Answer<T>>
    requires r.Valid()
    decreases |ops|
  {
    if ops == [] then []
    else
      var (r', a) := RingOp(r, ops[0], asWritten);
      [a] + RingRun(r', ops[1..], asWritten)
  }

  function FifoRun<T>(s: seq<T>, cap: nat, ops: seq<Op<T>>): seq<Answer<T>>
    decreases |ops|
  {
    if ops == [] then []
    else
      var (s', a) := FifoOp(s, cap, ops[0]);
      [a] + FifoRun(s', cap, ops[1..])
  }

  // Some enqueue of the run is made in the overflowing state.
  predicate RunOverflows<T>(r: Ring<T>, ops: seq<Op<T>>)
    requires r.Valid()
    decreases |ops|
  {
    && ops != []
    && ((ops[0].Put? && r.Overflows()) || RunOverflows(RingOp(r, ops[0], true).0, ops[1..]))
  }

  // With the intended check the ring is a FIFO of at most N - 1 items.
  lemma {:induction false} IntendedRingIsFifo<T>(r: Ring<T>, ops: seq<Op<T>>)
    requires r.Valid()
    ensures RingRun(r, ops, false) == FifoRun(r.Contents(), |r.q| - 1, ops)
    decreases |ops|
  {
    if ops != [] {
      RingOpIsFifoOp(r, ops[0], false);
      var (r', a) := RingOp(r, ops[0], false);
      var (s', b) := FifoOp(r.Contents(), |r.q| - 1, ops[0]);
      assert a == b && r'.Contents() == s' && |r'.q| == |r.q|;
      IntendedRingIsFifo(r', ops[1..]);
    }
  }

  // With the check as written it is one on exactly the runs that never enqueue
  // in the overflowing state.
  lemma {:induction false} RingIsFifoIffNoOverflow<T>(r: Ring<T>, ops: seq<Op<T>>)
    requires r.Valid()
    ensures RingRun(r, ops, true) == FifoRun(r.Contents(), |r.q| - 1, ops) <==> !RunOverflows(r, ops)
    decreases |ops|
  {
    if ops != [] {
      RingOpIsFifoOp(r, ops[0], true);
      var (r', a) := RingOp(r, ops[0], true);
      var (s', b) := FifoOp(r.Contents(), |r.q| - 1, ops[0]);
      var rs, ss := RingRun(r', ops[1..], true), FifoRun(s', |r.q| - 1, ops[1..]);
      assert RingRun(r, ops, true) == [a] + rs && FifoRun(r.Contents(), |r.q| - 1, ops) == [b] + ss;
      if a == b {
        RingIsFifoIffNoOverflow(r', ops[1..]);
        assert [a] + rs == [b] + ss <==> rs == ss by {
          assert ([a] + rs)[1..] == rs && ([b] + ss)[1..] == ss;
        }
      } else {
        assert ([a] + rs)[0] != ([b] + ss)[0];
      }
    }
  }

  // The overflowing enqueue is within reach of every ring that starts empty at
  // index 0, as the static queue does: N enqueues in a row get there.
  lemma {:induction false} FillFromZero<T>(r: Ring<T>, x: T, k: nat)
    requires r.Valid() && r.tail == 0 && r.head + k == |r.q| - 1
    ensures RunOverflows(r, seq(k + 1, _ => Put(x)))
    decreases k
  {
    var ops := seq(k + 1, _ => Put(x));
    if k > 0 {
      GuardsDiffer(r);
      Advance(r.head, |r.q|);
      assert ops[1..] == seq(k, _ => Put(x));
      FillFromZero(r.Push(x), x, k - 1);
    }
  }
}
