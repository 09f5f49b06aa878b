// Why the discipline is needed: link_shmem_ack wakes the requester before it
// clears ACK, and a requester that writes again at once can lose its message.
module ShmemEarlyWrite {
  import opened Messages
  import opened Runs
  import opened SlotChannel
  import opened ShmemProtocol
  import opened Transport

  // A message is announced nowhere and every process is back at its poll.
  predicate Lost(s: State) {
    && !s.status.isNew && !s.status.isAck
    && s.acker.PollingAck? && s.rcv.PollingNew? && (s.req.Idle? || s.req.Waiting?)
  }

  // What can follow while no further write begins.
  const SETTLING: Machine<State, Action, Event> := Machine((s, a) => Enabled(s, a) && !a.StartWrite?, Next, Show)

  // Reachability without the discipline, one step at a time.
  ghost predicate Can(settling: bool, s: State, t: seq<Event>, x: State) {
    if settling then Reaches(SETTLING, s, t, x) else Reaches(UNDISCIPLINED, s, t, x)
  }

  lemma Then(settling: bool, s: State, t: seq<Event>, x: State, a: Action)
    requires Can(settling, s, t, x) && Enabled(x, a) && (settling ==> !a.StartWrite?)
    ensures Can(settling, s, t + Observe(x, a), Do(x, a))
  {
    if settling {
      ReachesNext(SETTLING, s, t, x, a);
    } else {
      ReachesNext(UNDISCIPLINED, s, t, x, a);
    }
  }

  lemma ThenSilently(settling: bool, s: State, t: seq<Event>, x: State, a: Action)
    requires Can(settling, s, t, x) && Enabled(x, a) && (settling ==> !a.StartWrite?) && Observe(x, a) == []
    ensures Can(settling, s, t, Do(x, a))
  {
    Then(settling, s, t, x, a);
    assert t + [] == t;
  }

  lemma {:induction false} StoreAll(settling: bool, s: State, t: seq<Event>, x: State) returns (y: State)
    requires Can(settling, s, t, x) && |x.data| == MSG_SIZE
    requires x.req.Storing? && |x.req.msg| <= MSG_SIZE && x.req.off < MSG_SIZE
    ensures Can(settling, s, t, y) && |y.data| == MSG_SIZE && y == x.(data := y.data, req := LoadingNew(x.req.msg))
    decreases MSG_SIZE - x.req.off
  {
    ThenSilently(settling, s, t, x, StoreData);
    y := Do(x, StoreData);
    if y.req.Storing? {
      y := StoreAll(settling, s, t, y);
    }
  }

  // The rest of a write, up to the store of NEW.
  lemma Announce(settling: bool, s: State, t: seq<Event>, x: State) returns (y: State)
    requires Can(settling, s, t, x) && |x.data| == MSG_SIZE
    requires x.req.Storing? && |x.req.msg| <= MSG_SIZE && x.req.off < MSG_SIZE
    ensures Can(settling, s, t + [Send(Image(x.req.msg))], y) && |y.data| == MSG_SIZE
    ensures y == x.(data := y.data, status := x.status.(isNew := true), req := Waiting)
  {
    y := StoreAll(settling, s, t, x);
    ThenSilently(settling, s, t, y, LoadNew);
    y := Do(y, LoadNew);
    Then(settling, s, t, y, StoreNew);
    y := Do(y, StoreNew);
  }

  lemma {:induction false} ReadAll(s: State, t: seq<Event>, x: State, left: nat) returns (got: seq<byte>)
    requires Can(false, s, t, x) && |x.data| == MSG_SIZE
    requires x.rcv.Reading? && 0 < left && |x.rcv.buf| + WORD_SIZE * left == MSG_SIZE
    ensures Can(false, s, t, x.(rcv := LoadingNewClear(got)))
    decreases left
  {
    var y := Do(x, ReadWord);
    ThenSilently(false, s, t, x, ReadWord);
    if left > 1 {
      got := ReadAll(s, t, y, left - 1);
      assert x.(rcv := LoadingNewClear(got)) == y.(rcv := LoadingNewClear(got));
    } else {
      got := y.rcv.buf;
    }
  }

  // Any write by an idle requester, up to the store of NEW.
  lemma WriteAndAnnounce(s: State, t: seq<Event>, x: State, m: seq<byte>) returns (y: State)
    requires Can(false, s, t, x) && |x.data| == MSG_SIZE && x.req.Idle? && |m| <= MSG_SIZE
    ensures Can(false, s, t + [Send(Image(m))], y) && |y.data| == MSG_SIZE
    ensures y == x.(data := y.data, status := x.status.(isNew := true), req := Waiting, busy := true, woken := false)
  {
    ThenSilently(false, s, t, x, StartWrite(m));
    y := Announce(false, s, t, Do(x, StartWrite(m)));
  }

  // The receiver copies an announced message.
  lemma Copy(s: State, t: seq<Event>, x: State) returns (got: seq<byte>)
    requires Can(false, s, t, x) && |x.data| == MSG_SIZE && x.status.isNew && x.rcv.PollingNew?
    ensures Can(false, s, t, x.(rcv := LoadingNewClear(got)))
  {
    ThenSilently(false, s, t, x, PollNew);
    got := ReadAll(s, t, Do(x, PollNew), MSG_SIZE / WORD_SIZE);
    assert Do(x, PollNew).(rcv := LoadingNewClear(got)) == x.(rcv := LoadingNewClear(got));
  }

  // It then clears NEW and raises ACK, and its read returns.
  lemma RaiseAck(s: State, t: seq<Event>, x: State, got: seq<byte>) returns (y: State)
    requires Can(false, s, t, x) && |x.data| == MSG_SIZE && x.rcv == LoadingNewClear(got)
    ensures Can(false, s, t + [Deliver(got)], y)
    ensures y == x.(rcv := PollingNew, status := x.status.(isNew := false, isAck := true))
  {
    ThenSilently(false, s, t, x, LoadNewClear);
    y := Do(x, LoadNewClear);
    ThenSilently(false, s, t, y, StoreNewClear);
    y := Do(y, StoreNewClear);
    ThenSilently(false, s, t, y, LoadAckSet);
    y := Do(y, LoadAckSet);
    Then(false, s, t, y, StoreAckSet);
    y := Do(y, StoreAckSet);
  }

  // The sender's poller wakes the requester, which returns, and loads the status
  // word that it is about to store back.
  lemma WakeRequester(s: State, t: seq<Event>, x: State) returns (y: State)
    requires Can(false, s, t, x) && |x.data| == MSG_SIZE && x.status.isAck && x.req.Waiting? && x.acker.PollingAck?
    ensures Can(false, s, t + [Acked], y)
    ensures y == x.(req := Idle, woken := false, acker := StoringAckClear(x.status.(isAck := false)))
  {
    ThenSilently(false, s, t, x, PollAck);
    y := Do(x, PollAck);
    Then(false, s, t, y, Wake);
    y := Do(y, Wake);
    ThenSilently(false, s, t + [Acked], y, LoadAckClear);
    y := Do(y, LoadAckClear);
    ThenSilently(false, s, t + [Acked], y, Return);
    y := Do(y, Return);
  }

  lemma LostStep(s: State, a: Action)
    requires Lost(s) && Enabled(s, a) && !a.StartWrite?
    ensures Lost(Do(s, a)) && Observe(s, a) == []
  {
  }

  // Once lost, a message stays lost: without a further write nothing is ever
  // delivered or acknowledged again.
  lemma LostForever(s: State, acts: seq<Action>)
    requires Lost(s) && Run(UNDISCIPLINED, s, acts)
    requires forall k :: 0 <= k < |acts| ==> !acts[k].StartWrite?
    ensures Lost(Final(UNDISCIPLINED, s, acts)) && Trace(UNDISCIPLINED, s, acts) == []
  {
    var starts := (a: Action) => a.StartWrite?;
    forall x, a | Lost(x) && Enabled(x, a) && !starts(a) ensures Lost(Next(x, a)) && Show(x, a) == [] {
      LostStep(x, a);
    }
    Silence(UNDISCIPLINED, Lost, starts, s, acts);
  }

  // If the requester writes again between its wake-up and the store that clears
  // ACK, that store erases the NEW flag of the second message.
  lemma EarlyWriteIsLost(s: State, m1: seq<byte>, m2: seq<byte>)
    requires Init(s) && |m1| <= MSG_SIZE && |m2| <= MSG_SIZE
    ensures exists t, x :: Reaches(UNDISCIPLINED, s, t, x) && Lost(x) &&
                           Sent(t) == [Image(m1), Image(m2)] && |Delivered(t)| == 1
  {
    ReachesSelf(UNDISCIPLINED, s);
    var x := WriteAndAnnounce(s, [], s, m1);
    var t := [] + [Send(Image(m1))];
    var got := Copy(s, t, x);
    x := RaiseAck(s, t, x.(rcv := LoadingNewClear(got)), got);
    x := WakeRequester(s, t + [Deliver(got)], x);
    x := WriteAndAnnounce(s, t + [Deliver(got)] + [Acked], x, m2);
    t := t + [Deliver(got)] + [Acked] + [Send(Image(m2))];
    ThenSilently(false, s, t, x, StoreAckClear);
    FourEvents(Image(m1), got, Image(m2));
    assert t == [Send(Image(m1)), Deliver(got), Acked, Send(Image(m2))];
    assert Lost(Do(x, StoreAckClear));
  }

  // When it is safe to write again

  // The history is none of a one-slot channel's, or everybody waits for a message
  // that is nowhere.
  predicate GoesWrong(slot: Slot, t: seq<Event>, x: State) {
    !IsTrace(slot, t) || (Lost(x) && EndOf(slot, t) != Empty)
  }

  // A write that begins before the previous one's ACK callback has returned can always
  // go wrong.
  lemma EarlyWriteGoesWrong(s: State, m: seq<byte>)
    requires Inv(s) && s.req.Idle? && s.busy && |m| <= MSG_SIZE
    ensures exists t, x :: Reaches(SETTLING, Do(s, StartWrite(m)), t, x) && GoesWrong(Abs(s), t, x)
  {
    var y, t := Do(s, StartWrite(m)), [Send(Image(m))];
    assert [] + t == t && t[..0] == [];
    ReachesSelf(SETTLING, y);
    if Abs(s) != Empty {
      var x := Announce(true, y, [], y);
      assert !CanDo(Abs(s), t[0]) && !IsTrace(Abs(s), t);
      assert Reaches(SETTLING, y, t, x);
    } else {
      var x := y;
      if x.acker.LoadingAckClear? {
        ThenSilently(true, y, [], x, LoadAckClear);
        x := Do(x, LoadAckClear);
      }
      x := Announce(true, y, [], x);
      ThenSilently(true, y, t, x, StoreAckClear);
      x := Do(x, StoreAckClear);
      assert Lost(x) && EndOf(Empty, t) == Full(Image(m));
      assert Reaches(SETTLING, y, t, x);
    }
  }

  lemma QuietMeansEmpty(x: State)
    requires Inv(x) && Lost(x)
    ensures Abs(x) == Empty
  {
  }

  // Any other write cannot: the discipline is exact.
  lemma DisciplineIsExact(s: State, m: seq<byte>)
    requires Inv(s) && s.req.Idle? && |m| <= MSG_SIZE
    ensures s.busy <==>
            exists t, x :: Reaches(SETTLING, Do(s, StartWrite(m)), t, x) && GoesWrong(Abs(s), t, x)
  {
    if s.busy {
      EarlyWriteGoesWrong(s, m);
    } else {
      var y := Do(s, StartWrite(m));
      Step(s, StartWrite(m));
      forall x, a | Inv(x) && SETTLING.can(x, a) ensures RefinesAt(SETTLING, Inv, Abs, x, a) {
        Refines(x, a);
        assert RefinesAt(DISCIPLINED, Inv, Abs, x, a);
      }
      forall acts | Run(SETTLING, y, acts)
        ensures !GoesWrong(Abs(s), Trace(SETTLING, y, acts), Final(SETTLING, y, acts))
      {
        RunIsSlotTrace(SETTLING, Inv, Abs, y, acts);
        if Lost(Final(SETTLING, y, acts)) {
          QuietMeansEmpty(Final(SETTLING, y, acts));
        }
      }
    }
  }
}
