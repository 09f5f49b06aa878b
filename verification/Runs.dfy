// Transition systems given by the steps that are possible, what a step does and
// what it shows to the outside, and the runs they have.
module Runs {

  datatype Machine<!S, !A, +E> = Machine(can: (S, A) -> bool, next: (S, A) -> S, show: (S, A) -> seq<E>)

  // `acts` can be performed one after the other from `s`.
  predicate Run<S, A, E>(m: Machine<S, A, E>, s: S, acts: seq<A>)
    decreases |acts|, 0
  {
    acts == [] ||
    (Run(m, s, acts[..|acts| - 1]) && m.can(Final(m, s, acts[..|acts| - 1]), acts[|acts| - 1]))
  }

  function Final<S, A, E>(m: Machine<S, A, E>, s: S, acts: seq<A>): S
    requires Run(m, s, acts)
    decreases |acts|, 1
  {
    if acts == [] then s
    else m.next(Final(m, s, acts[..|acts| - 1]), acts[|acts| - 1])
  }

  function Trace<S, A, E>(m: Machine<S, A, E>, s: S, acts: seq<A>): seq<E>
    requires Run(m, s, acts)
    decreases |acts|, 1
  {
    if acts == [] then []
    else Trace(m, s, acts[..|acts| - 1]) + m.show(Final(m, s, acts[..|acts| - 1]), acts[|acts| - 1])
  }

  lemma RunOne<S, A, E>(m: Machine<S, A, E>, s: S, a: A)
    requires m.can(s, a)
    ensures Run(m, s, [a]) && Final(m, s, [a]) == m.next(s, a) && Trace(m, s, [a]) == m.show(s, a)
  {
  }

  lemma RunSnoc<S, A, E>(m: Machine<S, A, E>, s: S, acts: seq<A>, a: A)
    requires Run(m, s, acts) && m.can(Final(m, s, acts), a)
    ensures Run(m, s, acts + [a])
    ensures Final(m, s, acts + [a]) == m.next(Final(m, s, acts), a)
    ensures Trace(m, s, acts + [a]) == Trace(m, s, acts) + m.show(Final(m, s, acts), a)
  {
  }

  // Runs compose.
  lemma {:induction false} RunAppend<S, A, E>(m: Machine<S, A, E>, s: S, a: seq<A>, b: seq<A>)
    requires Run(m, s, a) && Run(m, Final(m, s, a), b)
    ensures Run(m, s, a + b) && Final(m, s, a + b) == Final(m, Final(m, s, a), b)
    ensures Trace(m, s, a + b) == Trace(m, s, a) + Trace(m, Final(m, s, a), b)
    decreases |b|
  {
    if b == [] {
      assert a + b == a;
    } else {
      var ab, c := a + b, b[..|b| - 1];
      assert ab[..|ab| - 1] == a + c && ab[|ab| - 1] == b[|b| - 1];
      RunAppend(m, s, a, c);
    }
  }

  // Some run leads from `s` to `x` and shows `t` on the way.
  ghost predicate Reaches<S, A(!new), E>(m: Machine<S, A, E>, s: S, t: seq<E>, x: S) {
    exists acts: seq<A> :: Run(m, s, acts) && Trace(m, s, acts) == t && Final(m, s, acts) == x
  }

  lemma ReachesSelf<S, A(!new), E>(m: Machine<S, A, E>, s: S)
    ensures Reaches(m, s, [], s)
  {
    var none: seq<A> := [];
    assert Run(m, s, none) && Trace(m, s, none) == [] && Final(m, s, none) == s;
  }

  lemma ReachesNext<S, A(!new), E>(m: Machine<S, A, E>, s: S, t: seq<E>, x: S, a: A)
    requires Reaches(m, s, t, x) && m.can(x, a)
    ensures Reaches(m, s, t + m.show(x, a), m.next(x, a))
  {
    var acts: seq<A> :| Run(m, s, acts) && Trace(m, s, acts) == t && Final(m, s, acts) == x;
    RunSnoc(m, s, acts, a);
  }

  lemma ReachesSilently<S, A(!new), E>(m: Machine<S, A, E>, s: S, t: seq<E>, x: S, a: A)
    requires Reaches(m, s, t, x) && m.can(x, a) && m.show(x, a) == []
    ensures Reaches(m, s, t, m.next(x, a))
  {
    ReachesNext(m, s, t, x, a);
    assert t + [] == t;
  }

  lemma ReachesOn<S, A(!new), E>(m: Machine<S, A, E>, s: S, t: seq<E>, x: S, u: seq<E>, y: S)
    requires Reaches(m, s, t, x) && Reaches(m, x, u, y)
    ensures Reaches(m, s, t + u, y)
  {
    var a: seq<A> :| Run(m, s, a) && Trace(m, s, a) == t && Final(m, s, a) == x;
    var b: seq<A> :| Run(m, x, b) && Trace(m, x, b) == u && Final(m, x, b) == y;
    RunAppend(m, s, a, b);
  }

  // Invariants hold in every state a run reaches.
  lemma {:induction false} Invariance<S(!new), A(!new), E>(m: Machine<S, A, E>, inv: S -> bool, s: S, acts: seq<A>)
    requires inv(s) && Run(m, s, acts)
    requires forall x, a :: inv(x) && m.can(x, a) ==> inv(m.next(x, a))
    ensures inv(Final(m, s, acts))
    decreases |acts|
  {
    if acts != [] {
      Invariance(m, inv, s, acts[..|acts| - 1]);
    }
  }

  // A part of the state space that is left only by the steps in `leaves`, and in
  // which the others show nothing.
  lemma {:induction false} Silence<S(!new), A(!new), E>(m: Machine<S, A, E>, within: S -> bool, leaves: A -> bool,
                                                       s: S, acts: seq<A>)
    requires within(s) && Run(m, s, acts)
    requires forall x, a :: within(x) && m.can(x, a) && !leaves(a) ==> within(m.next(x, a)) && m.show(x, a) == []
    requires forall k :: 0 <= k < |acts| ==> !leaves(acts[k])
    ensures within(Final(m, s, acts)) && Trace(m, s, acts) == []
    decreases |acts|
  {
    if acts != [] {
      assert !leaves(acts[|acts| - 1]);
      Silence(m, within, leaves, s, acts[..|acts| - 1]);
    }
  }
}
