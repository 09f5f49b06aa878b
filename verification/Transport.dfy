// What it takes for a transport, given as a machine in small steps, to be a
// one-slot channel: nothing else can happen, everything else can happen, and it
// neither blocks nor spins.
module Transport {
  import opened Runs
  import opened SlotChannel

  // A step shows at most one event, and the slot follows it.
  predicate RefinesAt<S, A>(m: Machine<S, A, Event>, inv: S -> bool, abs: S -> Slot, x: S, a: A) {
    var y, t := m.next(x, a), m.show(x, a);
    && inv(y)
    && |t| <= 1
    && (t == [] ==> abs(y) == abs(x))
    && (t != [] ==> CanDo(abs(x), t[0]) && After(abs(x), t[0]) == abs(y))
  }

  // Safety: every run shows a history of the one-slot channel.
  lemma {:induction false} RunIsSlotTrace<S(!new), A(!new)>(m: Machine<S, A, Event>, inv: S -> bool, abs: S -> Slot,
                                                            s: S, acts: seq<A>)
    requires forall x, a :: inv(x) && m.can(x, a) ==> RefinesAt(m, inv, abs, x, a)
    requires inv(s) && abs(s) == Empty && Run(m, s, acts)
    ensures inv(Final(m, s, acts))
    ensures IsTrace(Empty, Trace(m, s, acts)) && EndOf(Empty, Trace(m, s, acts)) == abs(Final(m, s, acts))
    decreases |acts|
  {
    if acts != [] {
      var before, a := acts[..|acts| - 1], acts[|acts| - 1];
      RunIsSlotTrace(m, inv, abs, s, before);
      var mid := Final(m, s, before);
      assert RefinesAt(m, inv, abs, mid, a);
      var t, e := Trace(m, s, before), m.show(mid, a);
      if e == [] {
        assert t + e == t;
      } else {
        assert (t + e)[..|t + e| - 1] == t;
      }
    }
  }

  // A state from which `e` can be made the next event: `toward` says how, `dist`
  // how long it takes, and afterwards the same is true of every possible event.
  ghost predicate Drivable<S(!new), A>(m: Machine<S, A, Event>, abs: S -> Slot,
                                 good: (S, Event) -> bool, toward: (S, Event) -> A, dist: (S, Event) -> nat,
                                 x: S, e: Event)
  {
    var a := toward(x, e);
    && m.can(x, a)
    && var y, t := m.next(x, a), m.show(x, a);
       if t == [] then good(y, e) && dist(y, e) < dist(x, e)
       else t == [e] && forall f :: CanDo(abs(y), f) ==> good(y, f)
  }

  // Liveness of behaviour: a drivable machine really shows each possible event.
  lemma {:induction false} ReachEvent<S(!new), A(!new)>(m: Machine<S, A, Event>, abs: S -> Slot,
      good: (S, Event) -> bool, toward: (S, Event) -> A, dist: (S, Event) -> nat, s: S, e: Event)
    returns (acts: seq<A>)
    requires forall x, f :: good(x, f) ==> Drivable(m, abs, good, toward, dist, x, f)
    requires good(s, e)
    ensures Run(m, s, acts) && Trace(m, s, acts) == [e]
    ensures forall f :: CanDo(abs(Final(m, s, acts)), f) ==> good(Final(m, s, acts), f)
    decreases dist(s, e)
  {
    assert Drivable(m, abs, good, toward, dist, s, e);
    var a := toward(s, e);
    RunOne(m, s, a);
    if m.show(s, a) == [] {
      var rest := ReachEvent(m, abs, good, toward, dist, m.next(s, a), e);
      RunAppend(m, s, [a], rest);
      acts := [a] + rest;
    } else {
      acts := [a];
    }
  }

  lemma {:induction false} ReachTrace<S(!new), A(!new)>(m: Machine<S, A, Event>, inv: S -> bool, abs: S -> Slot,
      good: (S, Event) -> bool, toward: (S, Event) -> A, dist: (S, Event) -> nat, s: S, t: seq<Event>)
    returns (acts: seq<A>)
    requires forall x, a :: inv(x) && m.can(x, a) ==> RefinesAt(m, inv, abs, x, a)
    requires forall x, f :: good(x, f) ==> Drivable(m, abs, good, toward, dist, x, f)
    requires inv(s) && abs(s) == Empty && IsTrace(Empty, t)
    requires forall f :: CanDo(abs(s), f) ==> good(s, f)
    ensures Run(m, s, acts) && Trace(m, s, acts) == t
    ensures forall f :: CanDo(abs(Final(m, s, acts)), f) ==> good(Final(m, s, acts), f)
    decreases |t|
  {
    if t == [] {
      acts := [];
    } else {
      var u, e := t[..|t| - 1], t[|t| - 1];
      var before := ReachTrace(m, inv, abs, good, toward, dist, s, u);
      RunIsSlotTrace(m, inv, abs, s, before);
      var mid := Final(m, s, before);
      assert good(mid, e) by { assert CanDo(abs(mid), e); }
      var last := ReachEvent(m, abs, good, toward, dist, mid, e);
      RunAppend(m, s, before, last);
      assert t == u + [e];
      acts := before + last;
    }
  }

  // Both together: the histories of a machine's runs are exactly those of the
  // one-slot channel.
  lemma HistoriesAreSlotHistories<S(!new), A(!new)>(m: Machine<S, A, Event>, inv: S -> bool, abs: S -> Slot,
      good: (S, Event) -> bool, toward: (S, Event) -> A, dist: (S, Event) -> nat, s: S, t: seq<Event>)
    requires forall x, a :: inv(x) && m.can(x, a) ==> RefinesAt(m, inv, abs, x, a)
    requires forall x, f :: good(x, f) ==> Drivable(m, abs, good, toward, dist, x, f)
    requires inv(s) && abs(s) == Empty && forall f :: CanDo(Empty, f) ==> good(s, f)
    ensures IsTrace(Empty, t) <==> exists acts :: Run(m, s, acts) && Trace(m, s, acts) == t
  {
    forall acts | Run(m, s, acts) && Trace(m, s, acts) == t ensures IsTrace(Empty, t) {
      RunIsSlotTrace(m, inv, abs, s, acts);
    }
    if IsTrace(Empty, t) {
      var acts := ReachTrace(m, inv, abs, good, toward, dist, s, t);
    }
  }

  // The steps of a run that are not idle.
  function Progress<S, A, E>(m: Machine<S, A, E>, idle: (S, A) -> bool, s: S, acts: seq<A>): nat
    requires Run(m, s, acts)
    decreases |acts|
  {
    if acts == [] then 0
    else
      var before, a := acts[..|acts| - 1], acts[|acts| - 1];
      Progress(m, idle, s, before) + if idle(Final(m, s, before), a) then 0 else 1
  }

  // A step that starts nothing new either idles or brings the end closer.
  predicate ProgressesAt<S, A, E>(m: Machine<S, A, E>, idle: (S, A) -> bool, rank: S -> nat, x: S, a: A) {
    if idle(x, a) then rank(m.next(x, a)) == rank(x) else rank(m.next(x, a)) < rank(x)
  }

  lemma {:induction false} ProgressIsBounded<S(!new), A(!new), E>(m: Machine<S, A, E>, inv: S -> bool,
      idle: (S, A) -> bool, starts: A -> bool, rank: S -> nat, s: S, acts: seq<A>)
    requires forall x, a :: inv(x) && m.can(x, a) ==>
               inv(m.next(x, a)) && (!starts(a) ==> ProgressesAt(m, idle, rank, x, a))
    requires inv(s) && Run(m, s, acts)
    requires forall k :: 0 <= k < |acts| ==> !starts(acts[k])
    ensures inv(Final(m, s, acts)) && Progress(m, idle, s, acts) + rank(Final(m, s, acts)) <= rank(s)
    decreases |acts|
  {
    if acts != [] {
      var before, a := acts[..|acts| - 1], acts[|acts| - 1];
      ProgressIsBounded(m, inv, idle, starts, rank, s, before);
      assert !starts(a);
      assert inv(Final(m, s, before)) && m.can(Final(m, s, before), a);
    }
  }
}
