// What overruns the server: as many clients as the queue has slots, over any transport
// that can be driven, or a single client that does not wait for its replies.
module RequestRuns {
  import opened CommandRing
  import opened ExchangeOver
  import opened Messages
  import opened Options
  import opened RequestSystem
  import opened Runs
  import opened SlotChannel
  import opened Transport

  // The queue is full and a further command is in its receive callback: its enqueue
  // panics or, where the full check misses, empties the queue.
  predicate Overrun(x: Layer, l: nat) {
    && CanLocal(x, Enqueue(l)) && |x.ring.Contents()| == |x.ring.q| - 1
    && var z := DoLocal(x, Enqueue(l));
       if x.ring.Overflows() then !z.panicked && z.ring.Valid() && z.ring.Contents() == [] else z.panicked
  }

  lemma FullIsOverrun(x: Layer, l: nat)
    requires CanLocal(x, Enqueue(l)) && |x.ring.Contents()| == |x.ring.q| - 1
    ensures Overrun(x, l)
  {
    var cmd := Cmd(l, x.clients[l].recv.value);
    GuardsDiffer(x.ring);
    EnqueueIsFifoUnlessOverflow(x.ring, cmd);
    EnqueueIntendedIsFifo(x.ring, cmd);
  }

  lemma EnqueueFits(x: Layer, l: nat)
    requires CanLocal(x, Enqueue(l)) && |x.ring.Contents()| < |x.ring.q| - 1
    ensures var z := DoLocal(x, Enqueue(l));
            && !z.panicked && z.ring.Valid() && |z.ring.q| == |x.ring.q| && z.handler == x.handler
            && |z.ring.Contents()| == |x.ring.Contents()| + 1
            && z.clients == x.clients[l := x.clients[l].(recv := None)]
  {
    var cmd := Cmd(l, x.clients[l].recv.value);
    GuardsDiffer(x.ring);
    EnqueueIsFifoUnlessOverflow(x.ring, cmd);
    EnqueueIntendedIsFifo(x.ring, cmd);
  }

  // Clients `k` and later have not asked anything yet.
  ghost predicate Waiting<C>(x: System<C>, k: nat, inv: C -> bool, abs: C -> Slot, good: (C, Event) -> bool) {
    && Shaped(x) && x.layer.ring.Valid() && !x.layer.panicked
    && forall j :: k <= j < |x.outs| ==>
         Ready(x.outs[j], Empty, inv, abs, good) && x.layer.clients[j].phase.Idle? && x.layer.clients[j].recv.None?
  }

  // Client `k` asks as well, and its command is queued if there is room.
  lemma OneMore<C(!new), A(!new)>(m: Machine<C, A, Event>, inv: C -> bool, abs: C -> Slot,
      good: (C, Event) -> bool, toward: (C, Event) -> A, dist: (C, Event) -> nat,
      s: System<C>, x: System<C>, k: nat, msg: seq<byte>)
    returns (y: System<C>)
    requires Drives(m, inv, abs, good, toward, dist) && Reaches(Over(m), s, [], x)
    requires Waiting(x, k, inv, abs, good) && k < |x.outs| && |msg| <= MSG_SIZE
    ensures Reaches(Over(m), s, [], y) && Waiting(y, k + 1, inv, abs, good) && |y.outs| == |x.outs|
    ensures y.layer.ring == x.layer.ring && y.layer.clients[k].recv.Some?
  {
    y := Ask(m, inv, abs, good, toward, dist, s, x, k, x.layer.clients[k], x.layer.handler, msg);
  }

  // The command is queued if there is room, and nothing else changes for those waiting.
  lemma QueueOne<C(!new), A(!new)>(m: Machine<C, A, Event>, inv: C -> bool, abs: C -> Slot, good: (C, Event) -> bool,
                                   s: System<C>, x: System<C>, k: nat)
    returns (y: System<C>)
    requires Reaches(Over(m), s, [], x) && Waiting(x, k + 1, inv, abs, good) && k < |x.outs|
    requires x.layer.clients[k].recv.Some? && |x.layer.ring.Contents()| < |x.layer.ring.q| - 1
    ensures Reaches(Over(m), s, [], y) && Waiting(y, k + 1, inv, abs, good) && |y.outs| == |x.outs|
    ensures |y.layer.ring.q| == |x.layer.ring.q| && |y.layer.ring.Contents()| == |x.layer.ring.Contents()| + 1
  {
    EnqueueFits(x.layer, k);
    StepAbove(m, s, x, Enqueue(k));
    y := x.(layer := DoLocal(x.layer, Enqueue(k)));
  }

  lemma {:induction false} FillUp<C(!new), A(!new)>(m: Machine<C, A, Event>, inv: C -> bool, abs: C -> Slot,
      good: (C, Event) -> bool, toward: (C, Event) -> A, dist: (C, Event) -> nat,
      s: System<C>, x: System<C>, k: nat, n: nat, msg: seq<byte>)
    returns (y: System<C>)
    requires Drives(m, inv, abs, good, toward, dist) && Reaches(Over(m), s, [], x)
    requires Waiting(x, k, inv, abs, good) && |x.layer.ring.Contents()| == k < n == |x.layer.ring.q| <= |x.outs|
    requires |msg| <= MSG_SIZE
    ensures Reaches(Over(m), s, [], y) && Overrun(y.layer, n - 1)
    decreases n - k
  {
    y := OneMore(m, inv, abs, good, toward, dist, s, x, k, msg);
    if k == n - 1 {
      assert CanLocal(y.layer, Enqueue(k)) && |y.layer.ring.Contents()| == n - 1;
      FullIsOverrun(y.layer, k);
    } else {
      var z := QueueOne(m, inv, abs, good, s, y, k);
      assert |z.layer.ring.Contents()| == k + 1 && |z.layer.ring.q| == n;
      y := FillUp(m, inv, abs, good, toward, dist, s, z, k + 1, n, msg);
    }
  }

  // With as many clients as the queue has slots, though each asks once and waits, the
  // server can be overrun: one client fewer is the most it can serve.
  lemma TooManyClients<C(!new), A(!new)>(m: Machine<C, A, Event>, inv: C -> bool, abs: C -> Slot,
      good: (C, Event) -> bool, toward: (C, Event) -> A, dist: (C, Event) -> nat, s: System<C>, msg: seq<byte>)
    returns (y: System<C>)
    requires Drives(m, inv, abs, good, toward, dist) && Waiting(s, 0, inv, abs, good)
    requires s.layer.ring.Contents() == [] && |s.layer.ring.q| <= |s.outs| && |msg| <= MSG_SIZE
    ensures Reaches(Over(m), s, [], y) && Overrun(y.layer, |s.layer.ring.q| - 1)
  {
    var n := |s.layer.ring.q|;
    ReachesSelf(Over(m), s);
    assert |s.layer.ring.Contents()| == 0 < n;
    y := FillUp(m, inv, abs, good, toward, dist, s, s, 0, n, msg);
  }

  // One client that does not wait, over one-slot channels: it may give up at any time.

  predicate CanQuit(x: Layer, l: nat) { l < |x.clients| && x.clients[l].phase.Asked? && !x.panicked }

  function Quit(x: Layer, l: nat): Layer
    requires CanQuit(x, l)
  {
    x.(clients := x.clients[l := x.clients[l].(phase := Idle)])
  }

  datatype Step = Patient(v: Move<Event>) | Quits(l: nat)

  predicate May(s: System<Slot>, a: Step) {
    match a case Patient(v) => CanMove(SLOT, s, v) case Quits(l) => Shaped(s) && CanQuit(s.layer, l)
  }

  function Next(s: System<Slot>, a: Step): System<Slot> {
    if !May(s, a) then s
    else match a case Patient(v) => DoMove(SLOT, s, v) case Quits(l) => s.(layer := Quit(s.layer, l))
  }

  const IMPATIENT: Machine<System<Slot>, Step, ()> := Machine(May, Next, (s, a) => [])

  lemma Then(s: System<Slot>, x: System<Slot>, a: Step) returns (y: System<Slot>)
    requires Reaches(IMPATIENT, s, [], x) && May(x, a)
    ensures Reaches(IMPATIENT, s, [], y) && y == Next(x, a)
  {
    ReachesSilently(IMPATIENT, s, [], x, a);
    y := Next(x, a);
  }

  // The state as one link sees it.
  predicate LinkIs(x: System<Slot>, l: nat, out: Slot, c: Client) {
    && Shaped(x) && l < |x.outs| && x.outs[l] == out && x.layer.clients[l] == c
    && x.layer.ring.Valid() && !x.layer.panicked
  }

  lemma ChannelStep(s: System<Slot>, x: System<Slot>, l: nat, out: Slot, c: Client, e: Event) returns (y: System<Slot>)
    requires Reaches(IMPATIENT, s, [], x) && LinkIs(x, l, out, c) && CanDo(out, e) && Accepts(x.layer, l, Out, e)
    ensures Reaches(IMPATIENT, s, [], y) && y.layer == React(x.layer, l, Out, e)
    ensures LinkIs(y, l, After(out, e), y.layer.clients[l])
  {
    var v: Move<Event> := Move.Transport(l, Out, e);
    y := Then(s, x, Patient(v));
  }

  // The client calls, and the message gets into the server's hand.
  lemma Arrive(s: System<Slot>, x: System<Slot>, l: nat, c: Client, msg: seq<byte>) returns (y: System<Slot>)
    requires Reaches(IMPATIENT, s, [], x) && LinkIs(x, l, Empty, c)
    requires |msg| <= MSG_SIZE && c.phase.Idle? && c.recv.None?
    ensures Reaches(IMPATIENT, s, [], y) && y.layer.ring == x.layer.ring
    ensures LinkIs(y, l, Taken, Carrying(c, Image(msg)))
  {
    var img := Image(msg);
    y := Then(s, x, Patient(Above(Call(l, msg))));
    y := ChannelStep(s, y, l, Empty, y.layer.clients[l], Send(img));
    y := ChannelStep(s, y, l, Full(img), y.layer.clients[l], Deliver(img));
  }

  // A client that stops waiting leaves its command in the queue.
  lemma Abandon(s: System<Slot>, x: System<Slot>, l: nat, c: Client, msg: seq<byte>)
    returns (y: System<Slot>, d: Client)
    requires Reaches(IMPATIENT, s, [], x) && LinkIs(x, l, Empty, c)
    requires |msg| <= MSG_SIZE && c.phase.Idle? && c.recv.None? && |x.layer.ring.Contents()| < |x.layer.ring.q| - 1
    ensures Reaches(IMPATIENT, s, [], y) && LinkIs(y, l, Empty, d) && d.phase.Idle? && d.recv.None?
    ensures |y.layer.ring.q| == |x.layer.ring.q| && |y.layer.ring.Contents()| == |x.layer.ring.Contents()| + 1
  {
    y := Arrive(s, x, l, c, msg);
    EnqueueFits(y.layer, l);
    y := Then(s, y, Patient(Above(Enqueue(l))));
    y := ChannelStep(s, y, l, Taken, y.layer.clients[l], Acked);
    y := Then(s, y, Quits(l));
    d := y.layer.clients[l];
  }

  lemma {:induction false} FillAlone(s: System<Slot>, x: System<Slot>, l: nat, c: Client, msg: seq<byte>)
    returns (y: System<Slot>)
    requires Reaches(IMPATIENT, s, [], x) && LinkIs(x, l, Empty, c)
    requires |msg| <= MSG_SIZE && c.phase.Idle? && c.recv.None?
    ensures Reaches(IMPATIENT, s, [], y) && Overrun(y.layer, l)
    decreases |x.layer.ring.q| - |x.layer.ring.Contents()|
  {
    SizeIsLength(x.layer.ring);
    if |x.layer.ring.Contents()| == |x.layer.ring.q| - 1 {
      y := Arrive(s, x, l, c, msg);
      FullIsOverrun(y.layer, l);
    } else {
      var d;
      y, d := Abandon(s, x, l, c, msg);
      y := FillAlone(s, y, l, d, msg);
    }
  }

  // So a single client that does not wait overruns the server, whatever its capacity.
  lemma OneImpatientClientIsEnough(s: System<Slot>, l: nat, c: Client, msg: seq<byte>)
    requires LinkIs(s, l, Empty, c) && c.phase.Idle? && c.recv.None? && |msg| <= MSG_SIZE
    ensures exists y :: Reaches(IMPATIENT, s, [], y) && Overrun(y.layer, l)
  {
    ReachesSelf(IMPATIENT, s);
    var y := FillAlone(s, s, l, c, msg);
  }
}
