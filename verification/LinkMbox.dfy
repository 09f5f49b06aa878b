// Links over mailbox channels, and the interrupt scans of the driver, whose callbacks
// are the functions of these links.
module LinkMbox {
  import opened Messages
  import opened MboxDriver
  import MboxRegs

  // Interrupt scans

  // Active, with the event raised, and mapped to the interrupt's bit.
  predicate Subscribed(c: Chan, r: Regs, event: bv32, bit: bv32) {
    c.active && event in r.status && bit in r.enable
  }

  function HandlerFor(c: Chan, event: bv32): Handler { if event == RCV then c.intA else c.intB }

  // A channel once its handler, or the driver for want of one, has dealt with the
  // event: receiving clears RCV and raises ACK.
  function Served(r: Regs, h: Handler, event: bv32): Regs {
    r.(status := if event == RCV && h != NoHandler then r.status - {RCV} + {ACK} else r.status - {event})
  }

  function After(c: Chan, r: Regs, event: bv32, bit: bv32): Regs {
    if Subscribed(c, r, event, bit) then Served(r, HandlerFor(c, event), event) else r
  }

  // A callback: its channel, itself, and the message it reads.
  datatype Call = Called(chan: nat, h: Handler, msg: seq<byte>)

  function CallOf(i: nat, h: Handler, r: Regs): Call { Called(i, h, if h.AckOf? then [] else Bytes(r.data)) }

  function CallsOn(i: nat, c: Chan, r: Regs, event: bv32, bit: bv32): seq<Call> {
    var h := HandlerFor(c, event);
    if Subscribed(c, r, event, bit) && h != NoHandler then [CallOf(i, h, r)] else []
  }

  // The calls of a scan of the first `n` channels, in order.
  function Dispatched(chans: seq<Chan>, regs: seq<Regs>, event: bv32, bit: bv32, n: nat): seq<Call>
    requires |chans| == |regs| && n <= |chans|
  {
    if n == 0 then []
    else Dispatched(chans, regs, event, bit, n - 1) + CallsOn(n - 1, chans[n - 1], regs[n - 1], event, bit)
  }

  // Calls on channels below `n`, in index order.
  predicate Ordered(calls: seq<Call>, n: nat) {
    && (forall k :: 0 <= k < |calls| ==> calls[k].chan < n)
    && (forall j, k :: 0 <= j < k < |calls| ==> calls[j].chan < calls[k].chan)
  }

  lemma OrderedNext(calls: seq<Call>, last: seq<Call>, n: nat)
    requires Ordered(calls, n) && |last| <= 1 && (last != [] ==> last[0].chan == n)
    ensures Ordered(calls + last, n + 1)
  {
  }

  // The calls come in index order, so each channel is called at most once.
  lemma {:induction false} DispatchIsOrdered(chans: seq<Chan>, regs: seq<Regs>, event: bv32, bit: bv32, n: nat)
    requires |chans| == |regs| && n <= |chans|
    ensures Ordered(Dispatched(chans, regs, event, bit, n), n)
    decreases n
  {
    if n > 0 {
      DispatchIsOrdered(chans, regs, event, bit, n - 1);
      OrderedNext(Dispatched(chans, regs, event, bit, n - 1),
                  CallsOn(n - 1, chans[n - 1], regs[n - 1], event, bit), n - 1);
    }
  }

  lemma DispatchNext(before: seq<Call>, chans: seq<Chan>, regs: seq<Regs>, event: bv32, bit: bv32, n: nat)
    requires |chans| == |regs| && n < |chans|
    ensures before + Dispatched(chans, regs, event, bit, n) + CallsOn(n, chans[n], regs[n], event, bit) ==
            before + Dispatched(chans, regs, event, bit, n + 1)
  {
  }

  predicate CallIs(call: Call, i: nat, c: Chan, r: Regs, event: bv32, bit: bv32) {
    var h := if event == RCV then c.intA else c.intB;
    && c.active && event in r.status && bit in r.enable && h != NoHandler
    && call.chan == i && call.h == h && call.msg == if h.AckOf? then [] else Bytes(r.data)
  }

  lemma CallsOnExact(i: nat, c: Chan, r: Regs, event: bv32, bit: bv32, call: Call)
    ensures call in CallsOn(i, c, r, event, bit) <==> CallIs(call, i, c, r, event, bit)
    ensures CallIs(call, i, c, r, event, bit) ==> call.chan == i
  {
  }

  // A call is made exactly if it is the handler of its channel, the channel is
  // subscribed, and the message is the one in the channel's registers.
  lemma {:induction false} DispatchIsExact(chans: seq<Chan>, regs: seq<Regs>, event: bv32, bit: bv32, n: nat,
                                           call: Call)
    requires |chans| == |regs| && n <= |chans|
    ensures call in Dispatched(chans, regs, event, bit, n) <==>
            call.chan < n && CallIs(call, call.chan, chans[call.chan], regs[call.chan], event, bit)
    decreases n
  {
    if n > 0 {
      DispatchIsExact(chans, regs, event, bit, n - 1, call);
      CallsOnExact(n - 1, chans[n - 1], regs[n - 1], event, bit, call);
    }
  }

  // Opening and closing a link

  datatype Ends = Ends(l: LinkId, chanFrom: nat, chanTo: nat, server: bv8, client: bv8)

  function RequestFrom(e: Ends): Request {
    Request(e.server, e.client, e.server, if e.server != 0 then RecvCmd(e.l) else RecvReply(e.l), NoHandler)
  }

  function RequestTo(e: Ends): Request { Request(e.server, e.server, e.client, NoHandler, AckOf(e.l)) }

  datatype Board = Board(chans: seq<Chan>, regs: seq<Regs>)

  predicate Fits(b: Board, e: Ends) {
    |b.chans| == |b.regs| == CHANNELS && e.chanFrom < CHANNELS && e.chanTo < CHANNELS
  }

  function ClaimOn(b: Board, i: nat, q: Request, d: Device): (Board, Code)
    requires |b.chans| == |b.regs| == CHANNELS && i < CHANNELS
  {
    var (c, r, code) := Claim(b.chans[i], b.regs[i], q, d);
    (Board(b.chans[i := c], b.regs[i := r]), code)
  }

  function ReleaseOn(b: Board, i: nat, d: Device): Board
    requires |b.chans| == |b.regs| == CHANNELS && i < CHANNELS
  {
    var (c, r) := Release(b.chans[i], b.regs[i], d);
    Board(b.chans[i := c], b.regs[i := r])
  }

  // Claim one channel, then the other, and give the first back if the second fails.
  function Connect(b: Board, e: Ends, d: Device): (Board, bool)
    requires Fits(b, e)
  {
    var (first, code) := ClaimOn(b, e.chanFrom, RequestFrom(e), d);
    if code != Successful then (first, false)
    else
      var (both, code') := ClaimOn(first, e.chanTo, RequestTo(e), d);
      if code' == Successful then (both, true) else (ReleaseOn(both, e.chanFrom, d), false)
  }

  function Close(b: Board, e: Ends, d: Device): Board
    requires Fits(b, e)
  {
    ReleaseOn(ReleaseOn(b, e.chanFrom, d), e.chanTo, d)
  }

  // Whether the device takes the configuration a server writes to a channel.
  predicate Grants(r: Regs, q: Request, d: Device) {
    var cfg := MboxRegs.Config(MboxRegs.UNSECURE, q.owner, q.src, q.dest);
    q.owner != 0 ==> d.accept(r.config, cfg) == cfg
  }

  // A connection is made exactly if the two channels are different and inactive and,
  // for a server, the device grants it both.
  lemma ConnectsIffFree(b: Board, e: Ends, d: Device)
    requires Fits(b, e)
    ensures Connect(b, e, d).1 <==>
            && e.chanFrom != e.chanTo && !b.chans[e.chanFrom].active && !b.chans[e.chanTo].active
            && Grants(b.regs[e.chanFrom], RequestFrom(e), d) && Grants(b.regs[e.chanTo], RequestTo(e), d)
  {
  }

  // The enable bits that are not this device's.
  function Foreign(r: Regs, d: Device): set<bv32> { r.enable - {d.bitA, d.bitB} }

  predicate SameElsewhere(b: Board, b': Board, e: Ends, d: Device)
    requires Fits(b, e) && Fits(b', e)
  {
    && (forall i :: 0 <= i < CHANNELS && i != e.chanFrom && i != e.chanTo ==>
          b'.chans[i] == b.chans[i] && b'.regs[i] == b.regs[i])
    && (forall i :: 0 <= i < CHANNELS ==> Foreign(b'.regs[i], d) == Foreign(b.regs[i], d))
  }

  // A failed connection rolls back: its channels are inactive and without callbacks,
  // except a second channel that was never tried; only those two are touched.
  lemma FailedConnectRollsBack(b: Board, e: Ends, d: Device)
    requires Fits(b, e) && !Connect(b, e, d).1
    ensures var b' := Connect(b, e, d).0;
            && Fits(b', e) && SameElsewhere(b, b', e, d)
            && !b'.chans[e.chanFrom].active && b'.chans[e.chanFrom].intA == NoHandler
            && (!b'.chans[e.chanTo].active || (b'.chans[e.chanTo] == b.chans[e.chanTo]
                                               && b'.regs[e.chanTo] == b.regs[e.chanTo]))
            && (b'.chans[e.chanTo].active ==> ClaimOn(b, e.chanFrom, RequestFrom(e), d).1 != Successful)
  {
  }

  // A connected link's channels call exactly its own callbacks: an arriving message goes
  // to the server's queue or to the client's request, by whether there is a server, and
  // the acknowledgement of a written one to link_ack.
  predicate CallsLink(b: Board, e: Ends, d: Device)
    requires Fits(b, e)
  {
    var from, to := b.chans[e.chanFrom], b.chans[e.chanTo];
    && from.active && d.bitA in b.regs[e.chanFrom].enable && from.intB == NoHandler
    && from.intA == (if e.server != 0 then RecvCmd(e.l) else RecvReply(e.l))
    && to.active && d.bitB in b.regs[e.chanTo].enable && to.intA == NoHandler && to.intB == AckOf(e.l)
  }

  // What connecting does to the two channels' registers: the interrupt is enabled and,
  // by a server, the channel is configured for it in its direction.
  lemma ConnectConfigures(b: Board, e: Ends, d: Device)
    requires Fits(b, e) && Connect(b, e, d).1
    ensures var b', from, to := Connect(b, e, d).0, b.regs[e.chanFrom], b.regs[e.chanTo];
            && Fits(b', e) && SameElsewhere(b, b', e, d) && CallsLink(b', e, d)
            && b'.regs[e.chanFrom] ==
               from.(enable := from.enable + {d.bitA},
                     config := if e.server == 0 then from.config
                               else MboxRegs.Config(MboxRegs.UNSECURE, e.server, e.client, e.server))
            && b'.regs[e.chanTo] ==
               to.(enable := to.enable + {d.bitB},
                   config := if e.server == 0 then to.config
                             else MboxRegs.Config(MboxRegs.UNSECURE, e.server, e.server, e.client))
  {
    ConnectsIffFree(b, e, d);
  }

  // A scan of this device's A interrupt makes the one call that is the receive callback's
  // on the channel read from, and one of its B interrupt that of link_ack on the channel
  // written to; each exactly if the event is raised there, and no other.
  predicate IsCalledExactly(b: Board, e: Ends, d: Device, call: Call)
    requires Fits(b, e)
  {
    var onA := Dispatched(b.chans, b.regs, RCV, d.bitA, CHANNELS);
    var onB := Dispatched(b.chans, b.regs, ACK, d.bitB, CHANNELS);
    var from, to := b.regs[e.chanFrom], b.regs[e.chanTo];
    && (call.chan == e.chanFrom ==>
          && call !in onB
          && (call in onA <==>
                && RCV in from.status && call.msg == Bytes(from.data)
                && call.h == if e.server != 0 then RecvCmd(e.l) else RecvReply(e.l)))
    && (call.chan == e.chanTo ==>
          && call !in onA
          && (call in onB <==> ACK in to.status && call.msg == [] && call.h == AckOf(e.l)))
  }

  lemma LinkIsCalled(b: Board, e: Ends, d: Device, call: Call)
    requires Fits(b, e) && CallsLink(b, e, d)
    ensures IsCalledExactly(b, e, d, call)
  {
    DispatchIsExact(b.chans, b.regs, RCV, d.bitA, CHANNELS, call);
    DispatchIsExact(b.chans, b.regs, ACK, d.bitB, CHANNELS, call);
  }

  // So from a successful connection on, whatever events and messages come and go.
  lemma ConnectedLinkIsCalled(b: Board, e: Ends, d: Device, now: Board, call: Call)
    requires Fits(b, e) && Connect(b, e, d).1
    requires Fits(now, e) && now.chans == Connect(b, e, d).0.chans
    requires forall i :: i in {e.chanFrom, e.chanTo} ==> now.regs[i].enable == Connect(b, e, d).0.regs[i].enable
    ensures IsCalledExactly(now, e, d, call)
  {
    ConnectConfigures(b, e, d);
    LinkIsCalled(now, e, d, call);
  }

  // CONFIG after a failed connection. A client changes none. A server's first channel
  // has what the device made of the request, or of the reset that takes it back; only if
  // both channels are the same is there no reset, because the second claim has already
  // forgotten the owner.
  lemma FailedConnectConfig(b: Board, e: Ends, d: Device)
    requires Fits(b, e) && !Connect(b, e, d).1
    ensures var b', was := Connect(b, e, d).0, b.regs[e.chanFrom].config;
            var cfg := MboxRegs.Config(MboxRegs.UNSECURE, e.server, e.client, e.server);
            && (e.server == 0 ==> forall i :: 0 <= i < CHANNELS ==> b'.regs[i].config == b.regs[i].config)
            && (e.server != 0 ==>
                  b'.regs[e.chanFrom].config ==
                  if b.chans[e.chanFrom].active then was
                  else if d.accept(was, cfg) != cfg then d.accept(was, cfg)
                  else if e.chanFrom == e.chanTo then cfg
                  else d.accept(cfg, ZERO_CONFIG))
            && b'.regs[e.chanFrom].enable <= b.regs[e.chanFrom].enable
            && b'.regs[e.chanTo].enable <= b.regs[e.chanTo].enable
  {
  }

  // A connection that succeeded and is closed again leaves both channels inactive, no
  // interrupt of this device enabled on them, and everything else as it was.
  lemma ConnectThenClose(b: Board, e: Ends, d: Device)
    requires Fits(b, e) && Connect(b, e, d).1
    ensures var b' := Close(Connect(b, e, d).0, e, d);
            && Fits(b', e) && SameElsewhere(b, b', e, d)
            && !b'.chans[e.chanFrom].active && !b'.chans[e.chanTo].active
            && b'.regs[e.chanFrom].enable == Foreign(b.regs[e.chanFrom], d)
            && b'.regs[e.chanTo].enable == Foreign(b.regs[e.chanTo], d)
            && (e.server == 0 ==> b'.regs[e.chanFrom].config == b.regs[e.chanFrom].config
                                  && b'.regs[e.chanTo].config == b.regs[e.chanTo].config)
            && (e.server != 0 ==>
                  && b'.regs[e.chanFrom].config ==
                     d.accept(MboxRegs.Config(MboxRegs.UNSECURE, e.server, e.client, e.server), ZERO_CONFIG)
                  && b'.regs[e.chanTo].config ==
                     d.accept(MboxRegs.Config(MboxRegs.UNSECURE, e.server, e.server, e.client), ZERO_CONFIG))
  {
    ConnectsIffFree(b, e, d);
  }

  // The callbacks of active channels belong to open links, each on its own channel;
  // `ends` are the open links' channels.
  predicate Wired(chans: seq<Chan>, ends: map<LinkId, (nat, nat)>) {
    && (forall l :: l in ends ==> ends[l].0 < |chans| && ends[l].1 < |chans|)
    && (forall l :: l in ends ==> chans[ends[l].0].mapped && chans[ends[l].1].mapped)
    && (forall i :: 0 <= i < |chans| && chans[i].active ==> WiredChan(chans[i], i, ends))
  }

  predicate WiredChan(c: Chan, i: nat, ends: map<LinkId, (nat, nat)>) {
    && c.mapped && !c.intA.AckOf? && (c.intA != NoHandler ==> c.intA.l in ends && ends[c.intA.l].0 == i)
    && (c.intB == NoHandler || (c.intB.AckOf? && c.intB.l in ends && ends[c.intB.l].1 == i))
  }

  lemma ConnectKeepsWired(b: Board, e: Ends, d: Device, ends: map<LinkId, (nat, nat)>)
    requires Fits(b, e) && Wired(b.chans, ends) && e.l !in ends
    ensures var (b', ok) := Connect(b, e, d);
            Wired(b'.chans, if ok then ends[e.l := (e.chanFrom, e.chanTo)] else ends)
  {
    ConnectsIffFree(b, e, d);
    var (b', ok) := Connect(b, e, d);
    if ok {
      var c, c' := Claimed(RequestFrom(e)), Claimed(RequestTo(e));
      assert b'.chans == b.chans[e.chanFrom := c][e.chanTo := c'];
      NewLinkKeepsWired(b.chans, e, c, c', ends);
    } else {
      FailedConnectRollsBack(b, e, d);
      RollbackKeepsWired(b, e, d, ends);
    }
  }

  lemma NewLinkKeepsWired(chans: seq<Chan>, e: Ends, c: Chan, c': Chan, ends: map<LinkId, (nat, nat)>)
    requires Wired(chans, ends) && e.l !in ends && e.chanFrom < |chans| && e.chanTo < |chans| && e.chanFrom != e.chanTo
    requires c == Claimed(RequestFrom(e)) && c' == Claimed(RequestTo(e))
    ensures Wired(chans[e.chanFrom := c][e.chanTo := c'], ends[e.l := (e.chanFrom, e.chanTo)])
  {
  }

  lemma RollbackKeepsWired(b: Board, e: Ends, d: Device, ends: map<LinkId, (nat, nat)>)
    requires Fits(b, e) && Wired(b.chans, ends) && !Connect(b, e, d).1
    ensures Wired(Connect(b, e, d).0.chans, ends)
  {
    var b' := Connect(b, e, d).0;
    ConnectKeepsMapped(b, e, d);
    forall i | 0 <= i < CHANNELS && b'.chans[i].active ensures b'.chans[i] == b.chans[i] {
      RollbackActivatesNothing(b, e, d, i);
    }
    FewerActive(b.chans, b'.chans, ends);
  }

  lemma ConnectKeepsMapped(b: Board, e: Ends, d: Device)
    requires Fits(b, e)
    ensures var b' := Connect(b, e, d).0;
            |b'.chans| == CHANNELS && forall i :: 0 <= i < CHANNELS && b.chans[i].mapped ==> b'.chans[i].mapped
  {
  }

  lemma RollbackActivatesNothing(b: Board, e: Ends, d: Device, i: nat)
    requires Fits(b, e) && !Connect(b, e, d).1 && i < CHANNELS
    requires |Connect(b, e, d).0.chans| == CHANNELS && Connect(b, e, d).0.chans[i].active
    ensures Connect(b, e, d).0.chans[i] == b.chans[i]
  {
    FailedConnectRollsBack(b, e, d);
  }

  lemma FewerActive(chans: seq<Chan>, fewer: seq<Chan>, ends: map<LinkId, (nat, nat)>)
    requires Wired(chans, ends) && |fewer| == |chans|
    requires forall i :: 0 <= i < |chans| && chans[i].mapped ==> fewer[i].mapped
    requires forall i :: 0 <= i < |chans| && fewer[i].active ==> fewer[i] == chans[i]
    ensures Wired(fewer, ends)
  {
  }

  lemma CloseKeepsWired(b: Board, e: Ends, d: Device, ends: map<LinkId, (nat, nat)>)
    requires Fits(b, e) && Wired(b.chans, ends) && e.l in ends && ends[e.l] == (e.chanFrom, e.chanTo)
    ensures Wired(Close(b, e, d).chans, ends - {e.l})
  {
  }

  // Serving a channel withdraws the event there, and acknowledges a message that a callback
  // has read; nothing is left for another scan. On any other channel nothing happens.
  lemma NothingLeft(c: Chan, r: Regs, event: bv32, bit: bv32)
    requires event == RCV || event == ACK
    ensures var r' := After(c, r, event, bit);
            && !Subscribed(c, r', event, bit)
            && if c.active && event in r.status && bit in r.enable
               then event !in r'.status && r' == r.(status := r'.status)
                    && (forall k :: k != event && k != ACK ==> (k in r'.status <==> k in r.status))
                    && (event == RCV ==> (ACK in r'.status <==> ACK in r.status || c.intA != NoHandler))
               else r' == r && CallsOn(0, c, r, event, bit) == []
  {
  }

  class Links {
    const mbox: Mbox
    // the channels each open link reads from and writes to
    var ends: map<LinkId, (nat, nat)>
    // the callbacks interrupts have made so far
    var calls: seq<Call>

    ghost predicate Valid()
      reads this, mbox
    {
      mbox.Valid() && Wired(mbox.chans, ends)
    }

    function Now(): Board
      reads mbox
    {
      Board(mbox.chans, mbox.regs)
    }

    constructor (mbox: Mbox)
      requires mbox.Valid() && forall i :: 0 <= i < CHANNELS ==> !mbox.chans[i].active
      ensures Valid() && this.mbox == mbox && ends == map[] && calls == []
    {
      this.mbox := mbox;
      ends, calls := map[], [];
    }

    // A message is stored in the channel written to, and then announced.
    method Write(l: LinkId, buf: array<byte>, sz: nat, over: seq<byte>) returns (rc: nat)
      requires Valid() && l in ends && sz <= MSG_SIZE && sz <= buf.Length && |over| == WordBytes(sz) - sz
      modifies mbox`regs
      ensures Valid() && rc == sz
      ensures var i, r := ends[l].1, old(mbox.regs)[ends[l].1];
              mbox.regs ==
              old(mbox.regs)[i := r.(data := Written(buf[..sz] + over), status := r.status + {RCV})]
    {
      var fault;
      fault, rc := mbox.ChanWrite(ends[l].1, buf, sz, over);
      fault := mbox.EventSet(ends[l].1, RCV);
    }

    // The message is read, then RCV is cleared, and only then ACK is raised.
    method Read(l: LinkId, buf: array<byte>, sz: nat) returns (rc: nat)
      requires Valid() && l in ends && ReadBytes(sz) <= buf.Length
      modifies mbox`regs, buf
      ensures Valid() && rc == ReadBytes(sz)
      ensures var i, r := ends[l].0, old(mbox.regs)[ends[l].0];
              && buf[..] == Bytes(r.data)[..rc] + old(buf[..])[rc..]
              && mbox.regs == old(mbox.regs)[i := Served(r, RecvCmd(l), RCV)]
    {
      var fault;
      fault, rc := mbox.ChanRead(ends[l].0, buf, sz);
      fault := mbox.EventClear(ends[l].0, RCV);
      fault := mbox.EventSet(ends[l].0, ACK);
    }

    // What link_recv_cmd and link_recv_reply do to the channel.
    method Receive(i: nat, h: Handler)
      requires Valid() && h != NoHandler && !h.AckOf? && h.l in ends && i == ends[h.l].0
      modifies mbox`regs, this`calls
      ensures Valid()
      ensures var r := old(mbox.regs)[i];
              mbox.regs == old(mbox.regs)[i := Served(r, h, RCV)] && calls == old(calls) + [CallOf(i, h, r)]
    {
      var msg := new byte[MSG_SIZE];
      var rc := Read(h.l, msg, MSG_SIZE);
      ghost var all := Bytes(old(mbox.regs)[i].data);
      assert msg[..] == all[..rc] == all;
      calls := calls + [Called(i, h, msg[..])];
    }

    // One channel of a scan, under its lock.
    method ScanChan(i: nat, event: bv32, bit: bv32)
      requires Valid() && i < CHANNELS && (event == RCV || event == ACK)
      modifies mbox`regs, this`calls
      ensures Valid()
      ensures var c, r := mbox.chans[i], old(mbox.regs)[i];
              && mbox.regs == old(mbox.regs)[i := After(c, r, event, bit)]
              && calls == old(calls) + CallsOn(i, c, r, event, bit)
    {
      if !Subscribed(mbox.chans[i], mbox.regs[i], event, bit) {
        return;
      }
      var h := HandlerFor(mbox.chans[i], event);
      assert WiredChan(mbox.chans[i], i, ends);
      if h == NoHandler {
        var _ := mbox.EventClear(i, event);
      } else if h.AckOf? {
        calls := calls + [Called(i, h, [])];
        var _ := mbox.EventClear(ends[h.l].1, ACK);
      } else {
        Receive(i, h);
      }
    }

    // One interrupt: every subscribed channel is served and no other channel changes.
    method Scan(event: bv32, bit: bv32)
      requires Valid() && (event == RCV || event == ACK)
      modifies mbox`regs, this`calls
      ensures Valid()
      ensures calls == old(calls) + Dispatched(mbox.chans, old(mbox.regs), event, bit, CHANNELS)
      ensures forall i :: 0 <= i < CHANNELS ==> mbox.regs[i] == After(mbox.chans[i], old(mbox.regs)[i], event, bit)
    {
      for k := 0 to CHANNELS
        invariant Valid()
        invariant calls == old(calls) + Dispatched(mbox.chans, old(mbox.regs), event, bit, k)
        invariant forall i :: k <= i < CHANNELS ==> mbox.regs[i] == old(mbox.regs)[i]
        invariant forall i :: 0 <= i < k ==> mbox.regs[i] == After(mbox.chans[i], old(mbox.regs)[i], event, bit)
      {
        DispatchNext(old(calls), mbox.chans, old(mbox.regs), event, bit, k);
        ScanChan(k, event, bit);
      }
    }

    // The two interrupt handlers of the device.

    method IsrA()
      requires Valid()
      modifies mbox`regs, this`calls
      ensures Valid()
      ensures calls == old(calls) + Dispatched(mbox.chans, old(mbox.regs), RCV, mbox.device.bitA, CHANNELS)
      ensures forall i :: 0 <= i < CHANNELS ==>
                mbox.regs[i] == After(mbox.chans[i], old(mbox.regs)[i], RCV, mbox.device.bitA)
    {
      Scan(RCV, mbox.device.bitA);
    }

    method IsrB()
      requires Valid()
      modifies mbox`regs, this`calls
      ensures Valid()
      ensures calls == old(calls) + Dispatched(mbox.chans, old(mbox.regs), ACK, mbox.device.bitB, CHANNELS)
      ensures forall i :: 0 <= i < CHANNELS ==>
                mbox.regs[i] == After(mbox.chans[i], old(mbox.regs)[i], ACK, mbox.device.bitB)
    {
      Scan(ACK, mbox.device.bitB);
    }

    // `memory` says whether the link could be allocated; `e.l` is then a new link.
    method Open(e: Ends, memory: bool, inInterrupt: bool) returns (ok: bool)
      requires Valid() && Fits(Now(), e) && e.l !in ends
      modifies this, mbox
      ensures Valid() && calls == old(calls)
      ensures if memory && !inInterrupt then (Now(), ok) == Connect(old(Now()), e, mbox.device)
              else Now() == old(Now()) && !ok
      ensures ends == if ok then old(ends)[e.l := (e.chanFrom, e.chanTo)] else old(ends)
    {
      if !memory {
        return false;
      }
      ConnectKeepsWired(Now(), e, mbox.device, ends);
      var code := mbox.ClaimChan(e.chanFrom, RequestFrom(e), inInterrupt);
      if code != Successful {
        return false;
      }
      code := mbox.ClaimChan(e.chanTo, RequestTo(e), inInterrupt);
      if code != Successful {
        var _ := mbox.ReleaseChan(e.chanFrom, inInterrupt);
        return false;
      }
      ends := ends[e.l := (e.chanFrom, e.chanTo)];
      ok := true;
    }

    // The link is freed whatever the releases return: closed in an interrupt, its
    // callbacks stay where they are and validity is lost.
    method Shut(e: Ends, inInterrupt: bool) returns (rc: nat)
      requires Valid() && e.l in ends && ends[e.l] == (e.chanFrom, e.chanTo)
      modifies this, mbox
      ensures ends == old(ends) - {e.l} && calls == old(calls)
      ensures if inInterrupt then rc == 1 && Now() == old(Now())
              else Valid() && rc == 0 && Now() == Close(old(Now()), e, mbox.device)
    {
      CloseKeepsWired(Now(), e, mbox.device, ends);
      rc := 0;
      var code := mbox.ReleaseChan(e.chanFrom, inInterrupt);
      if code != Successful {
        rc := 1;
      }
      code := mbox.ReleaseChan(e.chanTo, inInterrupt);
      if code != Successful {
        rc := 1;
      }
      ends := ends - {e.l};
    }
  }
}
