// When an open link keeps its channels, and at which steps it loses one.
module MboxOwnership {
  import opened MboxLifetime
  import opened Runs

  // Some link that has not been freed has been given this channel.
  predicate InUse(s: State, i: nat) {
    exists l :: l in s.links && Allocated(s, l) && (s.links[l].from == i || s.links[l].to == i)
  }

  // Whoever connects names two different channels that are not in use.
  predicate Careful(s: State, a: Action) {
    Proper(s, a) && (a.Connect? ==> a.from != a.to && !InUse(s, a.from) && !InUse(s, a.to))
  }

  const CAREFUL: Machine<State, Action, ()> := Machine(Careful, Next, (s, a) => [])

  predicate Holds(s: State, l: LinkId, i: nat) { i < |s.chans| && s.chans[i].active && s.chans[i].arg == l }

  predicate Ends(k: Link, i: nat) { i == k.from || i == k.to }

  predicate Disjoint(k: Link, j: Link) { !Ends(k, j.from) && !Ends(k, j.to) }

  // The links share no channels, and each holds what its progress says it may use.
  predicate Apart(s: State) {
    forall l, m :: l in s.links && m in s.links && l != m && Allocated(s, l) && Allocated(s, m) ==>
      Disjoint(s.links[l], s.links[m])
  }

  predicate Owns(s: State, l: LinkId)
    requires l in s.links
  {
    && (Allocated(s, l) ==> s.links[l].from != s.links[l].to)
    && (forall i :: 0 <= i < CHANNELS && MayUse(s.links[l], i) ==> Holds(s, l, i))
  }

  predicate OwnInv(s: State) {
    Inv(s) && Apart(s) && forall l :: l in s.links ==> Owns(s, l)
  }

  lemma NotOnItsEnds(s: State, l: LinkId, i: nat)
    requires l in s.links && Allocated(s, l) && !InUse(s, i)
    ensures !Ends(s.links[l], i)
  {
  }

  lemma ConnectKeepsApart(s: State, a: Action)
    requires OwnInv(s) && Careful(s, a) && a.Connect?
    ensures Apart(Do(s, a))
  {
    forall m | m in s.links && Allocated(s, m)
      ensures !Ends(s.links[m], a.from) && !Ends(s.links[m], a.to)
    {
      NotOnItsEnds(s, m, a.from);
      NotOnItsEnds(s, m, a.to);
    }
  }

  // No link's channels or allocation change otherwise, but for links that are freed.
  lemma OthersKeepApart(s: State, a: Action)
    requires OwnInv(s) && Proper(s, a) && !a.Connect?
    ensures Apart(Do(s, a))
  {
    var s' := Do(s, a);
    forall l | l in s'.links && Allocated(s', l)
      ensures l in s.links && Allocated(s, l) && s'.links[l].from == s.links[l].from && s'.links[l].to == s.links[l].to
    {
    }
  }

  // A claim finds its channel free, so the link gets it unless the hardware refuses.
  lemma CheckFindsFree(s: State, l: LinkId)
    requires OwnInv(s) && l in s.links && s.links[l].phase.Claiming? && s.links[l].phase.claim.Check?
    ensures Target(s.links[l]) < CHANNELS && !s.chans[Target(s.links[l])].active
  {
    var k := s.links[l];
    var i := Target(k);
    if s.chans[i].active {
      var m := s.chans[i].arg;
      assert MayUse(s.links[m], i);
      assert Ends(s.links[m], i) && Ends(k, i);
      if m != l {
        assert Allocated(s, l) && Allocated(s, m);
      }
    }
  }

  lemma ProceedKeepsOwn(s: State, a: Action)
    requires OwnInv(s) && Proper(s, a) && a.Proceed?
    ensures Owns(Do(s, a), a.l)
  {
    var s', k := Do(s, a), s.links[a.l];
    if k.phase.Claiming? && k.phase.claim.Check? {
      CheckFindsFree(s, a.l);
    }
    assert Owns(s, a.l) && s'.links[a.l].from == k.from && s'.links[a.l].to == k.to;
    forall i | 0 <= i < CHANNELS && MayUse(s'.links[a.l], i) ensures Holds(s', a.l, i) {
      if MayUse(k, i) {
        assert Holds(s, a.l, i);
      }
    }
  }

  lemma ProceedKeepsOthers(s: State, a: Action, m: LinkId)
    requires OwnInv(s) && Proper(s, a) && a.Proceed? && m in s.links && m != a.l
    ensures Owns(Do(s, a), m)
  {
    var s', i := Do(s, a), Target(s.links[a.l]);
    assert Allocated(s, a.l) && Ends(s.links[a.l], i);
    forall j | 0 <= j < CHANNELS && MayUse(s'.links[m], j) ensures Holds(s', m, j) {
      assert Holds(s, m, j) && Allocated(s, m) && Ends(s.links[m], j);
      assert j != i;
    }
  }

  lemma OthersKeepOwn(s: State, a: Action)
    requires OwnInv(s) && Careful(s, a) && !a.Proceed?
    ensures forall l :: l in Do(s, a).links ==> Owns(Do(s, a), l)
  {
    var s' := Do(s, a);
    forall l | l in s'.links ensures Owns(s', l) {
      forall i | 0 <= i < CHANNELS && MayUse(s'.links[l], i) ensures Holds(s', l, i) {
        assert l in s.links && MayUse(s.links[l], i);
        assert Owns(s, l) && Holds(s, l, i);
      }
      if l in s.links { assert Owns(s, l); }
    }
  }

  lemma OwnStep(s: State, a: Action)
    requires OwnInv(s) && Careful(s, a)
    ensures OwnInv(Do(s, a))
  {
    StepKeepsInv(s, a);
    if a.Connect? { ConnectKeepsApart(s, a); } else { OthersKeepApart(s, a); }
    if a.Proceed? {
      ProceedKeepsOwn(s, a);
      forall m | m in Do(s, a).links ensures Owns(Do(s, a), m) {
        if m != a.l { ProceedKeepsOthers(s, a, m); }
      }
    } else {
      OthersKeepOwn(s, a);
    }
  }

  lemma OwnRun(s: State, acts: seq<Action>)
    requires Init(s) && Run(CAREFUL, s, acts)
    ensures OwnInv(Final(CAREFUL, s, acts))
  {
    forall x, a | OwnInv(x) && Careful(x, a) ensures OwnInv(Next(x, a)) {
      OwnStep(x, a);
    }
    Invariance(CAREFUL, OwnInv, s, acts);
  }

  // As long as nobody asks for a channel in use, every open link holds both of its
  // channels, whatever else is connected, closed or scanned.
  lemma OpenLinkKeepsChannels(s: State, acts: seq<Action>, l: LinkId)
    requires Init(s) && Run(CAREFUL, s, acts)
    requires l in Final(CAREFUL, s, acts).links && Final(CAREFUL, s, acts).links[l].phase.Open?
    ensures var f := Final(CAREFUL, s, acts);
            f.links[l].from != f.links[l].to && Holds(f, l, f.links[l].from) && Holds(f, l, f.links[l].to)
  {
    OwnRun(s, acts);
    var f := Final(CAREFUL, s, acts);
    assert Owns(f, l);
    assert MayUse(f.links[l], f.links[l].from) && MayUse(f.links[l], f.links[l].to);
  }

  // So closing any open link in an interrupt then breaks the promise.
  lemma CloseInInterruptAlwaysUnsafe(s: State, acts: seq<Action>, l: LinkId)
    requires Init(s) && Run(CAREFUL, s, acts) && Enabled(Final(CAREFUL, s, acts), CloseInInterrupt(l))
    ensures !Promise(Do(Final(CAREFUL, s, acts), CloseInInterrupt(l)))
  {
    OpenLinkKeepsChannels(s, acts, l);
    var f := Final(CAREFUL, s, acts);
    var i := f.links[l].from;
    assert f.chans[i].active && !Allocated(Do(f, CloseInInterrupt(l)), l);
  }

  // Without that care

  // A link that has claimed a channel and still has its lock is the one on it.
  predicate ClaimsOk(s: State) {
    forall l :: l in s.links && s.links[l].phase.Claiming? && s.links[l].phase.claim.Configure? ==>
      Holds(s, l, Target(s.links[l]))
  }

  lemma ClaimsStay(s: State, a: Action)
    requires Inv(s) && ClaimsOk(s) && Proper(s, a)
    ensures ClaimsOk(Do(s, a))
  {
    if a.Proceed? {
      ProceedKeepsClaims(s, a);
    }
  }

  lemma ProceedKeepsClaims(s: State, a: Action)
    requires Inv(s) && ClaimsOk(s) && Enabled(s, a) && a.Proceed?
    ensures ClaimsOk(Do(s, a))
  {
    var s' := Do(s, a);
    forall l | l in s'.links && s'.links[l].phase.Claiming? && s'.links[l].phase.claim.Configure?
      ensures Holds(s', l, Target(s'.links[l]))
    {
      if a.l != l {
        assert s.links[l] == s'.links[l] && Inside(s.links[l].phase);
        assert s.chans[Target(s.links[l])].holder == ByLink(l);
        assert Target(s.links[a.l]) != Target(s.links[l]);
      }
    }
  }

  lemma ClaimsRun(s: State, acts: seq<Action>)
    requires Init(s) && Run(GOOD, s, acts)
    ensures Inv(Final(GOOD, s, acts)) && ClaimsOk(Final(GOOD, s, acts))
  {
    var inv := (x: State) => Inv(x) && ClaimsOk(x);
    forall x, a | inv(x) && Proper(x, a) ensures inv(Next(x, a)) {
      StepKeepsInv(x, a);
      ClaimsStay(x, a);
    }
    Invariance(GOOD, inv, s, acts);
  }

  // Another link's owner is about to look at the channel for a claim, or to release it.
  predicate Takes(s: State, a: Action, l: LinkId, i: nat) {
    && a.Proceed? && a.l in s.links && a.l != l && Target(s.links[a.l]) == i
    && var p := s.links[a.l].phase;
       (p.Claiming? && p.claim.Check?) || ((p.Closing? || p.RollingBack?) && p.release.Clear?)
  }

  // In any run an open link loses a channel it holds exactly at such a step: when
  // another link's claim finds the channel taken, or when a link that lost the channel
  // to this one releases it.
  lemma ChannelLostExactly(s: State, acts: seq<Action>, a: Action, l: LinkId, i: nat)
    requires Init(s) && Run(GOOD, s, acts) && Proper(Final(GOOD, s, acts), a)
    requires var f := Final(GOOD, s, acts); l in f.links && f.links[l].phase.Open? && Holds(f, l, i)
    ensures !Holds(Do(Final(GOOD, s, acts), a), l, i) <==> Takes(Final(GOOD, s, acts), a, l, i)
  {
    ClaimsRun(s, acts);
  }
}
