// Several clients and one server: each client has a link, that is one channel to the
// server and one back, and uses it only through link_request, waiting for its reply.
// The link layer, the command queue with its real ring, and the handler task are
// here; the channels are one-slot channels, or any transport that is one.
module RequestSystem {
  import opened CommandRing
  import opened HpscMsg
  import opened Messages
  import opened Options
  import opened Runs
  import opened SlotChannel
  import opened Transport

  // Where a client's link_request is: the message as it will arrive at the server. A
  // client whose assertion failed does nothing any more.
  datatype Phase = Idle | Calling(req: seq<byte>) | Asked(req: seq<byte>) | Failed

  datatype Exchange = Exchange(req: seq<byte>, reply: seq<byte>)

  // `acked` is tx_acked, which a write clears and link_ack sets; `rbuf` is the client's
  // reply buffer, `got` that link_recv_reply has filled it since the request began;
  // `ignored` that the server has dealt with the request without a reply; `recv` is what
  // link_recv_cmd has read at the server and not enqueued yet; `done` are the requests
  // that returned a reply.
  datatype Client = Client(phase: Phase, acked: bool, rbuf: seq<byte>, got: bool, ignored: bool,
                           recv: Option<seq<byte>>, done: seq<Exchange>)

  // A client whose message `m` the server's receive callback has just read.
  function Carrying(c: Client, m: seq<byte>): Client {
    c.(phase := Asked(m), acked := false, got := false, ignored := false, recv := Some(m))
  }

  datatype Cmd = Cmd(link: nat, msg: seq<byte>)

  // The handler task: a command in hand, then its reply being sent.
  datatype Handler = Resting | Handling(cmd: Cmd) | Sending(cmd: Cmd) | Awaiting(link: nat)

  // Everything above the channels. `panicked`: link_recv_cmd could not enqueue.
  datatype Layer = Layer(clients: seq<Client>, ring: Ring<Cmd>, handler: Handler, panicked: bool)

  datatype System<C> = System(outs: seq<C>, backs: seq<C>, layer: Layer)

  datatype Dir = Out | Back

  datatype Local =
    | Call(l: nat, msg: seq<byte>) | Return(l: nat) | AssertFails(l: nat) | GiveUp(l: nat)
    | Enqueue(l: nat) | Dequeue | Handle | Finish

  datatype Action = Channel(l: nat, dir: Dir, e: Event) | Step(act: Local)

  // The link layer's part in what happens on a channel

  // A client announces what it was called with, the handler the reply it computed;
  // link_recv_cmd reads a message only when it is done with the one before.
  predicate Accepts(x: Layer, l: nat, dir: Dir, e: Event) {
    && l < |x.clients| && !x.panicked
    && match e
       case Send(m) =>
         if dir.Out? then x.clients[l].phase == Calling(m)
         else x.handler.Sending? && x.handler.cmd.link == l && |x.handler.cmd.msg| == MSG_SIZE
              && m == Reply(x.handler.cmd.msg)
       case Deliver(_) => dir.Out? ==> x.clients[l].recv.None?
       case Acked => true
  }

  function React(x: Layer, l: nat, dir: Dir, e: Event): Layer
    requires Accepts(x, l, dir, e)
  {
    var c := x.clients[l];
    match e
    case Send(m) =>
      if dir.Out? then x.(clients := x.clients[l := c.(phase := Asked(m), acked := false)])
      else x.(handler := Awaiting(l))
    case Deliver(m) =>
      x.(clients := x.clients[l := if dir.Out? then c.(recv := Some(m)) else c.(rbuf := m, got := true)])
    case Acked => if dir.Out? then x.(clients := x.clients[l := c.(acked := true)]) else x
  }

  // The link layer's own steps. A request returns its reply only after both waits: the
  // first one ends with the ACK's event, and if it is the reply's that comes first, the
  // assertion fails. A client gives up waiting only if nothing more will come: its
  // timeout is long enough.
  predicate CanLocal(x: Layer, act: Local) {
    && !x.panicked && x.ring.Valid()
    && match act
       case Call(l, msg) => l < |x.clients| && x.clients[l].phase.Idle? && |msg| <= MSG_SIZE
       case Enqueue(l) => l < |x.clients| && x.clients[l].recv.Some?
       case Dequeue => x.handler.Resting? && x.ring.Dequeue().1.Some?
       case Handle => x.handler.Handling? && |x.handler.cmd.msg| == MSG_SIZE && x.handler.cmd.link < |x.clients|
       case Finish => x.handler.Awaiting?
       case Return(l) => l < |x.clients| && x.clients[l].phase.Asked? && x.clients[l].acked && x.clients[l].got
       case AssertFails(l) => l < |x.clients| && x.clients[l].phase.Asked? && !x.clients[l].acked && x.clients[l].got
       case GiveUp(l) =>
         && l < |x.clients| && x.clients[l].phase.Asked?
         && (x.clients[l].ignored || (x.clients[l].acked && x.clients[l].got))
  }

  function DoLocal(x: Layer, act: Local): Layer
    requires CanLocal(x, act)
  {
    match act
    case Call(l, msg) =>
      x.(clients := x.clients[l := x.clients[l].(phase := Calling(Image(msg)), got := false, ignored := false)])
    case Enqueue(l) =>
      var (ring, ok) := x.ring.Enqueue(Cmd(l, x.clients[l].recv.value));
      x.(ring := ring, panicked := !ok, clients := x.clients[l := x.clients[l].(recv := None)])
    case Dequeue =>
      var (ring, cmd) := x.ring.Dequeue();
      x.(ring := ring, handler := Handling(cmd.value))
    case Handle =>
      var cmd := x.handler.cmd;
      if ReplySize(cmd.msg) > 0 then x.(handler := Sending(cmd))
      else x.(handler := Resting, clients := x.clients[cmd.link := x.clients[cmd.link].(ignored := true)])
    // the reply's ACK arrived, or its timeout
    case Finish => x.(handler := Resting)
    case Return(l) =>
      var c := x.clients[l];
      x.(clients := x.clients[l := c.(phase := Idle, done := c.done + [Exchange(c.phase.req, c.rbuf)])])
    case AssertFails(l) => x.(clients := x.clients[l := x.clients[l].(phase := Failed)])
    // nothing came, or the reply's event had merged with the ACK's
    case GiveUp(l) => x.(clients := x.clients[l := x.clients[l].(phase := Idle)])
  }

  // The system over one-slot channels

  predicate Shaped<C>(s: System<C>) { |s.outs| == |s.backs| == |s.layer.clients| }

  function Chan<C>(s: System<C>, l: nat, dir: Dir): C
    requires Shaped(s) && l < |s.outs|
  {
    if dir.Out? then s.outs[l] else s.backs[l]
  }

  function WithChan<C>(s: System<C>, l: nat, dir: Dir, c: C): (s': System<C>)
    requires Shaped(s) && l < |s.outs|
    ensures Shaped(s') && s'.layer == s.layer
  {
    if dir.Out? then s.(outs := s.outs[l := c]) else s.(backs := s.backs[l := c])
  }

  predicate Enabled(s: System<Slot>, a: Action) {
    && Shaped(s)
    && match a
       case Channel(l, dir, e) => Accepts(s.layer, l, dir, e) && CanDo(Chan(s, l, dir), e)
       case Step(act) => CanLocal(s.layer, act)
  }

  function Do(s: System<Slot>, a: Action): System<Slot>
    requires Enabled(s, a)
  {
    match a
    case Channel(l, dir, e) =>
      WithChan(s, l, dir, After(Chan(s, l, dir), e)).(layer := React(s.layer, l, dir, e))
    case Step(act) => s.(layer := DoLocal(s.layer, act))
  }

  // Where a request can be

  function CountOf(cmds: seq<Cmd>, l: nat): nat {
    if cmds == [] then 0 else CountOf(cmds[..|cmds| - 1], l) + if cmds[|cmds| - 1].link == l then 1 else 0
  }

  // What the handler holds for link `l`.
  function Held(h: Handler, l: nat): Option<seq<byte>> {
    if (h.Handling? || h.Sending?) && h.cmd.link == l then Some(h.cmd.msg) else None
  }

  function One(b: bool): nat { if b then 1 else 0 }

  // In how many places of the system the link's request, or its outcome, is.
  function Places(c: Client, out: Slot, back: Slot, queued: nat, held: Option<seq<byte>>): nat {
    One(out.Full?) + One(c.recv.Some?) + queued + One(held.Some?) + One(back.Full?) +
    One(c.phase.Asked? && c.got) + One(c.phase.Asked? && c.ignored)
  }

  // A request that was sent is in exactly one place, unaltered or as its own reply;
  // before and after that there is nothing of the link anywhere.
  predicate LinkInv(c: Client, out: Slot, back: Slot, queued: nat, held: Option<seq<byte>>) {
    && Places(c, out, back, queued, held) == One(c.phase.Asked?)
    && (c.phase.Calling? || c.phase.Asked? ==> |c.phase.req| == MSG_SIZE)
    && (c.phase.Calling? ==> !c.got && !c.ignored)
    && (c.phase.Asked? ==>
          && (c.acked <==> out.Empty?)
          && (out.Full? ==> out.m == c.phase.req)
          && (c.recv.Some? ==> c.recv.value == c.phase.req)
          && (held.Some? ==> held.value == c.phase.req)
          && (back.Full? ==> Answers(back.m, c.phase.req))
          && (c.got ==> Answers(c.rbuf, c.phase.req)))
    && forall k :: 0 <= k < |c.done| ==> Answers(c.done[k].reply, c.done[k].req)
  }

  predicate Answers(reply: seq<byte>, req: seq<byte>) {
    |req| == MSG_SIZE && ReplySize(req) == MSG_SIZE && reply == Reply(req)
  }

  predicate QueueInv(clients: seq<Client>, cmds: seq<Cmd>) {
    forall k :: 0 <= k < |cmds| ==>
      cmds[k].link < |clients| && clients[cmds[k].link].phase == Asked(cmds[k].msg)
  }

  predicate HandlerInv(x: Layer) {
    && (x.handler.Handling? || x.handler.Sending? ==> x.handler.cmd.link < |x.clients|)
    && (x.handler.Sending? ==> |x.handler.cmd.msg| == MSG_SIZE && ReplySize(x.handler.cmd.msg) == MSG_SIZE)
  }

  predicate LinkInvAt(s: System<Slot>, l: nat)
    requires Shaped(s) && s.layer.ring.Valid() && l < |s.outs|
  {
    LinkInv(s.layer.clients[l], s.outs[l], s.backs[l], CountOf(s.layer.ring.Contents(), l), Held(s.layer.handler, l))
  }

  // There are at most N - 1 links.
  predicate Inv(s: System<Slot>) {
    && Shaped(s) && s.layer.ring.Valid() && |s.outs| < |s.layer.ring.q| && !s.layer.panicked
    && QueueInv(s.layer.clients, s.layer.ring.Contents()) && HandlerInv(s.layer)
    && forall l :: 0 <= l < |s.outs| ==> LinkInvAt(s, l)
  }

  lemma CountUpdates(cmds: seq<Cmd>, cmd: Cmd, l: nat)
    ensures CountOf(cmds + [cmd], l) == CountOf(cmds, l) + One(cmd.link == l)
  {
  }

  lemma {:induction false} CountTail(cmds: seq<Cmd>, l: nat)
    requires cmds != []
    ensures CountOf(cmds, l) == One(cmds[0].link == l) + CountOf(cmds[1..], l)
    decreases |cmds|
  {
    if |cmds| > 1 {
      CountTail(cmds[..|cmds| - 1], l);
      assert cmds[..|cmds| - 1][1..] == cmds[1..][..|cmds[1..]| - 1];
    }
  }

  lemma {:induction false} CountOfMember(cmds: seq<Cmd>, k: nat)
    requires k < |cmds|
    ensures CountOf(cmds, cmds[k].link) > 0
    decreases |cmds|
  {
    if k < |cmds| - 1 {
      CountOfMember(cmds[..|cmds| - 1], k);
    }
  }

  // If no link below n occurs twice, there are no more commands than links; and one
  // fewer if some link does not occur.
  lemma {:induction false} FewCommands(cmds: seq<Cmd>, n: nat)
    requires forall k :: 0 <= k < |cmds| ==> cmds[k].link < n
    requires forall l :: 0 <= l < n ==> CountOf(cmds, l) <= 1
    ensures |cmds| <= n
    ensures forall l :: 0 <= l < n && CountOf(cmds, l) == 0 ==> |cmds| < n
  {
    Sum(cmds, n);
    SumBound(cmds, n);
  }

  // Every command is counted at exactly one link.
  function SumOf(cmds: seq<Cmd>, n: nat): nat {
    if n == 0 then 0 else SumOf(cmds, n - 1) + CountOf(cmds, n - 1)
  }

  lemma {:induction false} Sum(cmds: seq<Cmd>, n: nat)
    requires forall k :: 0 <= k < |cmds| ==> cmds[k].link < n
    ensures SumOf(cmds, n) == |cmds|
    decreases |cmds|
  {
    if cmds == [] {
      SumEmpty(n);
    } else {
      Sum(cmds[..|cmds| - 1], n);
      SumPush(cmds[..|cmds| - 1], cmds[|cmds| - 1], n);
      assert cmds == cmds[..|cmds| - 1] + [cmds[|cmds| - 1]];
    }
  }

  lemma {:induction false} SumEmpty(n: nat)
    ensures SumOf([], n) == 0
  {
    if n > 0 {
      SumEmpty(n - 1);
    }
  }

  lemma {:induction false} SumPush(cmds: seq<Cmd>, cmd: Cmd, n: nat)
    ensures SumOf(cmds + [cmd], n) == SumOf(cmds, n) + One(cmd.link < n)
  {
    if n > 0 {
      SumPush(cmds, cmd, n - 1);
      CountUpdates(cmds, cmd, n - 1);
    }
  }

  lemma {:induction false} SumBound(cmds: seq<Cmd>, n: nat)
    requires forall l :: 0 <= l < n ==> CountOf(cmds, l) <= 1
    ensures SumOf(cmds, n) <= n
    ensures forall l :: 0 <= l < n && CountOf(cmds, l) == 0 ==> SumOf(cmds, n) < n
  {
    if n > 0 {
      SumBound(cmds, n - 1);
    }
  }

  // Every step keeps the invariant

  lemma OutStep(s: System<Slot>, l: nat, e: Event)
    requires Inv(s) && Enabled(s, Channel(l, Out, e))
    ensures Inv(Do(s, Channel(l, Out, e)))
  {
    var s' := Do(s, Channel(l, Out, e));
    assert LinkInvAt(s, l);
    forall j | 0 <= j < |s'.outs| ensures LinkInvAt(s', j) {
      assert LinkInvAt(s, j);
    }
    forall k | 0 <= k < |s.layer.ring.Contents()|
      ensures s'.layer.clients[s.layer.ring.Contents()[k].link].phase == Asked(s.layer.ring.Contents()[k].msg)
    {
      CountOfMember(s.layer.ring.Contents(), k);
    }
  }

  lemma ReplyStep(s: System<Slot>, l: nat, e: Event)
    requires Inv(s) && Enabled(s, Channel(l, Back, e)) && e.Send?
    ensures Inv(Do(s, Channel(l, Back, e)))
  {
    var s' := Do(s, Channel(l, Back, e));
    assert s'.layer == s.layer.(handler := Awaiting(l)) && s'.outs == s.outs;
    forall j | 0 <= j < |s'.outs| ensures LinkInvAt(s', j) {
      assert LinkInvAt(s, j);
    }
  }

  lemma BackStep(s: System<Slot>, l: nat, e: Event)
    requires Inv(s) && Enabled(s, Channel(l, Back, e)) && !e.Send?
    ensures Inv(Do(s, Channel(l, Back, e)))
  {
    var s' := Do(s, Channel(l, Back, e));
    assert s'.layer.ring == s.layer.ring && s'.layer.handler == s.layer.handler && s'.outs == s.outs;
    forall j | 0 <= j < |s'.outs| ensures LinkInvAt(s', j) {
      assert LinkInvAt(s, j);
    }
  }

  // A client of its own: the queue, the handler and the other links stay as they are.
  lemma ClientStep(s: System<Slot>, act: Local)
    requires Inv(s) && Enabled(s, Step(act)) && (act.Call? || act.Return? || act.AssertFails? || act.GiveUp?)
    ensures Inv(Do(s, Step(act)))
  {
    var s' := Do(s, Step(act));
    assert LinkInvAt(s, act.l);
    forall j | 0 <= j < |s'.outs| ensures LinkInvAt(s', j) {
      assert LinkInvAt(s, j);
    }
    forall k | 0 <= k < |s.layer.ring.Contents()|
      ensures s'.layer.clients[s.layer.ring.Contents()[k].link].phase == Asked(s.layer.ring.Contents()[k].msg)
    {
      CountOfMember(s.layer.ring.Contents(), k);
    }
  }

  // Before an enqueue there is room for it, whichever full check is used.
  lemma RoomToEnqueue(s: System<Slot>, l: nat)
    requires Inv(s) && l < |s.outs| && s.layer.clients[l].recv.Some?
    ensures CountOf(s.layer.ring.Contents(), l) == 0
    ensures |s.layer.ring.Contents()| < |s.layer.ring.q| - 1 && !s.layer.ring.Overflows()
  {
    var cmds := s.layer.ring.Contents();
    assert LinkInvAt(s, l);
    forall j | 0 <= j < |s.outs| ensures CountOf(cmds, j) <= 1 {
      assert LinkInvAt(s, j);
    }
    FewCommands(cmds, |s.outs|);
    SizeIsLength(s.layer.ring);
  }

  lemma EnqueueStep(s: System<Slot>, l: nat)
    requires Inv(s) && Enabled(s, Step(Enqueue(l)))
    ensures Inv(Do(s, Step(Enqueue(l))))
  {
    var ring, c := s.layer.ring, s.layer.clients[l];
    var cmd := Cmd(l, c.recv.value);
    RoomToEnqueue(s, l);
    EnqueueIsFifoUnlessOverflow(ring, cmd);
    EnqueueIntendedIsFifo(ring, cmd);
    var s' := Do(s, Step(Enqueue(l)));
    assert s'.layer.ring.Contents() == ring.Contents() + [cmd] && !s'.layer.panicked;
    assert LinkInvAt(s, l);
    forall j | 0 <= j < |s'.outs| ensures LinkInvAt(s', j) {
      assert LinkInvAt(s, j);
      CountUpdates(ring.Contents(), cmd, j);
    }
  }

  lemma DequeueStep(s: System<Slot>)
    requires Inv(s) && Enabled(s, Step(Dequeue))
    ensures Inv(Do(s, Step(Dequeue)))
  {
    var ring := s.layer.ring;
    DequeueIsFifo(ring);
    var cmds, s' := ring.Contents(), Do(s, Step(Dequeue));
    assert s'.layer.ring.Contents() == cmds[1..] && s'.layer.handler == Handling(cmds[0]);
    forall j | 0 <= j < |s'.outs| ensures LinkInvAt(s', j) {
      assert LinkInvAt(s, j);
      CountTail(cmds, j);
    }
  }

  lemma HandlerStep(s: System<Slot>, act: Local)
    requires Inv(s) && Enabled(s, Step(act)) && (act.Handle? || act.Finish?)
    ensures Inv(Do(s, Step(act)))
  {
    var s' := Do(s, Step(act));
    if act.Handle? {
      assert LinkInvAt(s, s.layer.handler.cmd.link);
    }
    forall j | 0 <= j < |s'.outs| ensures LinkInvAt(s', j) {
      assert LinkInvAt(s, j);
    }
  }

  lemma StepKeepsInv(s: System<Slot>, a: Action)
    requires Inv(s) && Enabled(s, a)
    ensures Inv(Do(s, a))
  {
    match a
    case Channel(l, Out, e) => OutStep(s, l, e);
    case Channel(l, Back, e) => if e.Send? { ReplyStep(s, l, e); } else { BackStep(s, l, e); }
    case Step(Call(_, _)) => ClientStep(s, a.act);
    case Step(Return(_)) => ClientStep(s, a.act);
    case Step(AssertFails(_)) => ClientStep(s, a.act);
    case Step(GiveUp(_)) => ClientStep(s, a.act);
    case Step(Enqueue(l)) => EnqueueStep(s, l);
    case Step(Dequeue) => DequeueStep(s);
    case Step(Handle) => HandlerStep(s, a.act);
    case Step(Finish) => HandlerStep(s, a.act);
  }

  // How a request can end, by what is in the channel: it returns its reply if its message
  // has been acknowledged, and fails its assertion if the reply came first; it gives up only
  // when nothing more will come.
  lemma RequestEnds(s: System<Slot>, l: nat)
    requires Inv(s) && l < |s.outs|
    ensures var c, acked := s.layer.clients[l], s.outs[l].Empty?;
            && (Enabled(s, Step(Return(l))) <==> c.phase.Asked? && c.got && acked)
            && (Enabled(s, Step(AssertFails(l))) <==> c.phase.Asked? && c.got && !acked)
            && (Enabled(s, Step(GiveUp(l))) <==> c.phase.Asked? && (c.ignored || (c.got && acked)))
  {
    assert LinkInvAt(s, l);
  }

  // And what that leaves behind.
  lemma EndsOnce(s: System<Slot>, l: nat, act: Local)
    requires Inv(s) && l < |s.outs| && act in {Return(l), AssertFails(l), GiveUp(l)} && Enabled(s, Step(act))
    ensures var c, c' := s.layer.clients[l], Do(s, Step(act)).layer.clients[l];
            && c'.phase == (if act.AssertFails? then Failed else Idle)
            && c'.done == if act.Return? then c.done + [Exchange(c.phase.req, c.rbuf)] else c.done
  {
  }

  // Over any transport that is a one-slot channel

  datatype Move<A> = Transport(l: nat, dir: Dir, a: A) | Above(act: Local)

  // The events a transport step shows are the ones the link layer takes part in.
  predicate CanMove<C, A>(m: Machine<C, A, Event>, s: System<C>, v: Move<A>) {
    && Shaped(s)
    && match v
       case Transport(l, dir, a) =>
         && l < |s.outs| && m.can(Chan(s, l, dir), a)
         && var t := m.show(Chan(s, l, dir), a);
            t != [] ==> Accepts(s.layer, l, dir, t[0])
       case Above(act) => CanLocal(s.layer, act)
  }

  function DoMove<C, A>(m: Machine<C, A, Event>, s: System<C>, v: Move<A>): System<C>
    requires CanMove(m, s, v)
  {
    match v
    case Transport(l, dir, a) =>
      var c := Chan(s, l, dir);
      var t := m.show(c, a);
      WithChan(s, l, dir, m.next(c, a)).(layer := if t == [] then s.layer else React(s.layer, l, dir, t[0]))
    case Above(act) => s.(layer := DoLocal(s.layer, act))
  }

  function Over<C, A>(m: Machine<C, A, Event>): Machine<System<C>, Move<A>, ()> {
    Machine((s, v) => CanMove(m, s, v), (s, v) => if CanMove(m, s, v) then DoMove(m, s, v) else s, (s, v) => [])
  }

  function AbsOf<C>(s: System<C>, abs: C -> Slot): (t: System<Slot>)
    ensures Shaped(s) ==> Shaped(t)
  {
    System(seq(|s.outs|, i requires 0 <= i < |s.outs| => abs(s.outs[i])),
           seq(|s.backs|, i requires 0 <= i < |s.backs| => abs(s.backs[i])), s.layer)
  }

  predicate ChannelsHold<C>(s: System<C>, inv: C -> bool) {
    && (forall l :: 0 <= l < |s.outs| ==> inv(s.outs[l]))
    && (forall l :: 0 <= l < |s.backs| ==> inv(s.backs[l]))
  }

  predicate SystemInv<C>(s: System<C>, inv: C -> bool, abs: C -> Slot) {
    Shaped(s) && ChannelsHold(s, inv) && Inv(AbsOf(s, abs))
  }

  // A transport step is a step of the one-slot system, or none.
  lemma MoveIsStep<C(!new), A(!new)>(m: Machine<C, A, Event>, inv: C -> bool, abs: C -> Slot, s: System<C>, v: Move<A>)
    requires SystemInv(s, inv, abs) && CanMove(m, s, v)
    requires v.Transport? ==> RefinesAt(m, inv, abs, Chan(s, v.l, v.dir), v.a)
    ensures SystemInv(DoMove(m, s, v), inv, abs)
  {
    var b, b' := AbsOf(s, abs), AbsOf(DoMove(m, s, v), abs);
    match v {
      case Above(act) =>
        StepKeepsInv(b, Step(act));
        assert b' == Do(b, Step(act));
      case Transport(l, dir, a) =>
        var c := Chan(s, l, dir);
        var t := m.show(c, a);
        assert Chan(b, l, dir) == abs(c);
        if t == [] {
          assert b' == b;
        } else {
          StepKeepsInv(b, Channel(l, dir, t[0]));
          assert b' == Do(b, Channel(l, dir, t[0]));
        }
    }
  }

  // At the start all channels are quiet, nobody has asked, and the queue is empty.
  predicate Starts<C>(s: System<C>, inv: C -> bool, abs: C -> Slot) {
    && Shaped(s) && ChannelsHold(s, inv)
    && s.layer.ring.Valid() && s.layer.ring.Contents() == [] && |s.outs| < |s.layer.ring.q|
    && s.layer.handler.Resting? && !s.layer.panicked
    && forall l :: 0 <= l < |s.outs| ==>
         && abs(s.outs[l]) == Empty && abs(s.backs[l]) == Empty
         && s.layer.clients[l].phase.Idle? && s.layer.clients[l].recv.None? && s.layer.clients[l].done == []
  }

  lemma StartKeeps<C>(s: System<C>, inv: C -> bool, abs: C -> Slot)
    requires Starts(s, inv, abs)
    ensures SystemInv(s, inv, abs)
  {
  }

  lemma Holds<C(!new), A(!new)>(m: Machine<C, A, Event>, inv: C -> bool, abs: C -> Slot,
                                s: System<C>, moves: seq<Move<A>>)
    requires forall x, a :: inv(x) && m.can(x, a) ==> RefinesAt(m, inv, abs, x, a)
    requires Starts(s, inv, abs) && Run(Over(m), s, moves)
    ensures SystemInv(Final(Over(m), s, moves), inv, abs)
  {
    StartKeeps(s, inv, abs);
    var all := (x: System<C>) => SystemInv(x, inv, abs);
    forall x, v | all(x) && Over(m).can(x, v) ensures all(Over(m).next(x, v)) {
      MoveIsStep(m, inv, abs, x, v);
    }
    Invariance(Over(m), all, s, moves);
  }

  // What the invariant says in the end

  // Nobody panicked, no link has two commands queued, and whenever a message waits to
  // be enqueued the queue, of any capacity above the number of links, has room.
  predicate QueueBounded<C>(s: System<C>) {
    && s.layer.ring.Valid() && Shaped(s) && !s.layer.panicked
    && var cmds := s.layer.ring.Contents();
       && |cmds| <= |s.outs| < |s.layer.ring.q|
       && (forall l :: 0 <= l < |s.outs| ==> CountOf(cmds, l) <= 1)
       && (forall l :: 0 <= l < |s.outs| && s.layer.clients[l].recv.Some? ==>
             && !DoLocal(s.layer, Enqueue(l)).panicked
             && DoLocal(s.layer, Enqueue(l)).ring.Valid()
             && DoLocal(s.layer, Enqueue(l)).ring.Contents() == cmds + [Cmd(l, s.layer.clients[l].recv.value)])
  }

  // Every request that returned a reply has the reply the server computes for it, and
  // so a PING came back as a PONG with its own payload.
  predicate Echoes<C>(s: System<C>) {
    forall l, k :: 0 <= l < |s.layer.clients| && 0 <= k < |s.layer.clients[l].done| ==>
      var x := s.layer.clients[l].done[k];
      && Answers(x.reply, x.req)
      && (x.req[0] == PING ==> x.reply == [PONG, 0, 0, 0] + x.req[PAYLOAD_OFFSET..])
  }

  lemma InvSaysBounded(s: System<Slot>)
    requires Inv(s)
    ensures QueueBounded(s)
  {
    var cmds := s.layer.ring.Contents();
    forall l | 0 <= l < |s.outs| ensures CountOf(cmds, l) <= 1 {
      assert LinkInvAt(s, l);
    }
    FewCommands(cmds, |s.outs|);
    forall l | 0 <= l < |s.outs| && s.layer.clients[l].recv.Some?
      ensures !DoLocal(s.layer, Enqueue(l)).panicked
      ensures DoLocal(s.layer, Enqueue(l)).ring.Valid()
      ensures DoLocal(s.layer, Enqueue(l)).ring.Contents() == cmds + [Cmd(l, s.layer.clients[l].recv.value)]
    {
      RoomToEnqueue(s, l);
      EnqueueIsFifoUnlessOverflow(s.layer.ring, Cmd(l, s.layer.clients[l].recv.value));
      EnqueueIntendedIsFifo(s.layer.ring, Cmd(l, s.layer.clients[l].recv.value));
    }
  }

  lemma AnswerEchoes(reply: seq<byte>, req: seq<byte>)
    requires Answers(reply, req) && req[0] == PING
    ensures reply == [PONG, 0, 0, 0] + req[PAYLOAD_OFFSET..]
  {
  }

  lemma InvSaysEchoes(s: System<Slot>)
    requires Inv(s)
    ensures Echoes(s)
  {
    forall l, k | 0 <= l < |s.layer.clients| && 0 <= k < |s.layer.clients[l].done|
      ensures var x := s.layer.clients[l].done[k];
              Answers(x.reply, x.req) && (x.req[0] == PING ==> x.reply == [PONG, 0, 0, 0] + x.req[PAYLOAD_OFFSET..])
    {
      assert LinkInvAt(s, l);
      var x := s.layer.clients[l].done[k];
      if x.req[0] == PING {
        AnswerEchoes(x.reply, x.req);
      }
    }
  }

  // Main result, for every transport that is a one-slot channel, every number of
  // clients, every ring with room for one command of each, and every run.
  lemma ServesEveryClient<C(!new), A(!new)>(m: Machine<C, A, Event>, inv: C -> bool, abs: C -> Slot,
                                            s: System<C>, moves: seq<Move<A>>)
    requires forall x, a :: inv(x) && m.can(x, a) ==> RefinesAt(m, inv, abs, x, a)
    requires Starts(s, inv, abs) && Run(Over(m), s, moves)
    ensures QueueBounded(Final(Over(m), s, moves)) && Echoes(Final(Over(m), s, moves))
  {
    Holds(m, inv, abs, s, moves);
    InvSaysBounded(AbsOf(Final(Over(m), s, moves), abs));
    InvSaysEchoes(AbsOf(Final(Over(m), s, moves), abs));
  }
}
