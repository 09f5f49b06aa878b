// Mailbox channels, their locks and the links that use them: any number of tasks
// connecting and closing links and any number of interrupt scans, interleaved at
// every step outside a channel's lock and at every step inside it.
module MboxLifetime {
  import opened Runs

  const CHANNELS: nat := 32

  type LinkId = nat
  type IsrId = nat

  datatype Holder = Nobody | ByLink(l: LinkId) | ByIsr(t: IsrId)

  // A channel as the driver sees it: claimed or not, the callback's argument, and
  // who holds its lock.
  datatype Chan = Chan(active: bool, arg: LinkId, holder: Holder)

  datatype End = From | To
  datatype ClaimStep = Acquire | Check | Configure | Unlock(ok: bool)
  datatype ReleaseStep = Lock | Clear | Free

  // Where the task that owns a link is in connect or close.
  datatype Phase =
    | Claiming(end: End, claim: ClaimStep)
    | Open
    | Closing(end: End, release: ReleaseStep)
    | RollingBack(release: ReleaseStep)          // release of the first channel after the second failed
    | Freed

  datatype Link = Link(from: nat, to: nat, phase: Phase)

  // A scan of hpsc_mbox_isr.
  datatype Isr =
    | At(i: nat)                                 // about to lock channel i
    | Locked(i: nat)                             // about to test the channel
    | InCallback(i: nat, arg: LinkId)
    | Unlocking(i: nat)

  datatype State = State(chans: seq<Chan>, links: map<LinkId, Link>, isrs: map<IsrId, Isr>)

  datatype Action =
    | Connect(l: LinkId, from: nat, to: nat)
    | Close(l: LinkId)
    | CloseInInterrupt(l: LinkId)
    | Proceed(l: LinkId, granted: bool)
    | Interrupt(t: IsrId)
    | Scan(t: IsrId, pending: bool)

  predicate Init(s: State) {
    && |s.chans| == CHANNELS && s.links == map[] && s.isrs == map[]
    && forall i :: 0 <= i < CHANNELS ==> !s.chans[i].active && s.chans[i].holder.Nobody?
  }

  // The channel a link is working on.
  function Target(k: Link): nat {
    match k.phase
    case Claiming(end, _) => if end.From? then k.from else k.to
    case Closing(end, _) => if end.From? then k.from else k.to
    case _ => k.from
  }

  // Inside a lock, or about to enter one.
  predicate Inside(p: Phase) {
    || (p.Claiming? && !p.claim.Acquire?)
    || (p.Closing? && !p.release.Lock?)
    || (p.RollingBack? && !p.release.Lock?)
  }

  predicate Entering(p: Phase) {
    || (p.Claiming? && p.claim.Acquire?)
    || (p.Closing? && p.release.Lock?)
    || (p.RollingBack? && p.release.Lock?)
  }

  predicate Enabled(s: State, a: Action) {
    && |s.chans| == CHANNELS
    && match a
       case Connect(l, from, to) => (l !in s.links || s.links[l].phase.Freed?) && from < CHANNELS && to < CHANNELS
       case Close(l) => l in s.links && s.links[l].phase.Open?
       case CloseInInterrupt(l) => l in s.links && s.links[l].phase.Open?
       case Proceed(l, _) =>
         && l in s.links && Target(s.links[l]) < CHANNELS
         && (Inside(s.links[l].phase) ||
             (Entering(s.links[l].phase) && s.chans[Target(s.links[l])].holder.Nobody?))
       case Interrupt(t) => t !in s.isrs
       case Scan(t, _) =>
         && t in s.isrs && s.isrs[t].i < CHANNELS
         && (s.isrs[t].At? ==> s.chans[s.isrs[t].i].holder.Nobody?)
  }

  // What the owner of link `l` does to its channel and where it goes next.
  // `granted` is what the hardware answers to the configuration.
  function ClaimOf(l: LinkId, c: Chan, end: End, step: ClaimStep, granted: bool): (Chan, Phase) {
    match step
    case Acquire => (c.(holder := ByLink(l)), Claiming(end, Check))
    case Check =>
      // an active channel is destroyed on the way out, whoever claimed it
      if c.active then (c.(active := false), Claiming(end, Unlock(false)))
      else (c.(active := true, arg := l), Claiming(end, Configure))
    case Configure =>
      if granted then (c, Claiming(end, Unlock(true))) else (c.(active := false), Claiming(end, Unlock(false)))
    case Unlock(ok) =>
      (c.(holder := Nobody),
       if ok then (if end.From? then Claiming(To, Acquire) else Open)
       else if end.From? then Freed else RollingBack(Lock))
  }

  function ReleaseOf(l: LinkId, c: Chan, p: Phase): (Chan, Phase)
    requires p.Closing? || p.RollingBack?
  {
    match p.release
    case Lock => (c.(holder := ByLink(l)), p.(release := Clear))
    case Clear => (c.(active := false), p.(release := Free))
    case Free =>
      (c.(holder := Nobody), if p.Closing? && p.end.From? then Closing(To, Lock) else Freed)
  }

  function Local(l: LinkId, c: Chan, p: Phase, granted: bool): (Chan, Phase)
    requires Inside(p) || Entering(p)
  {
    if p.Claiming? then ClaimOf(l, c, p.end, p.claim, granted) else ReleaseOf(l, c, p)
  }

  function Do(s: State, a: Action): State
    requires Enabled(s, a)
  {
    match a
    case Connect(l, from, to) => s.(links := s.links[l := Link(from, to, Claiming(From, Acquire))])
    case Close(l) => s.(links := s.links[l := s.links[l].(phase := Closing(From, Lock))])
    case CloseInInterrupt(l) => s.(links := s.links[l := s.links[l].(phase := Freed)])
    case Proceed(l, granted) =>
      var k := s.links[l];
      var i := Target(k);
      var (c, p) := Local(l, s.chans[i], k.phase, granted);
      s.(chans := s.chans[i := c], links := s.links[l := k.(phase := p)])
    case Interrupt(t) => s.(isrs := s.isrs[t := At(0)])
    case Scan(t, pending) =>
      var i := s.isrs[t].i;
      match s.isrs[t]
      case At(_) => s.(chans := s.chans[i := s.chans[i].(holder := ByIsr(t))], isrs := s.isrs[t := Locked(i)])
      case Locked(_) =>
        s.(isrs := s.isrs[t := if s.chans[i].active && pending then InCallback(i, s.chans[i].arg) else Unlocking(i)])
      case InCallback(_, _) => s.(isrs := s.isrs[t := Unlocking(i)])
      case Unlocking(_) =>
        s.(chans := s.chans[i := s.chans[i].(holder := Nobody)],
           isrs := if i + 1 < CHANNELS then s.isrs[t := At(i + 1)] else s.isrs - {t})
  }

  // Closing succeeds: release is never called from an interrupt, where it refuses.
  predicate Proper(s: State, a: Action) { Enabled(s, a) && !a.CloseInInterrupt? }

  const ANY: Machine<State, Action, ()> := Machine(Enabled, Next, (s, a) => [])
  const GOOD: Machine<State, Action, ()> := Machine(Proper, Next, (s, a) => [])

  function Next(s: State, a: Action): State { if Enabled(s, a) then Do(s, a) else s }

  // The channels that may be active on behalf of a link, by its owner's progress.
  predicate MayUse(k: Link, i: nat) {
    match k.phase
    case Claiming(From, step) => i == k.from && (step.Configure? || step == Unlock(true))
    case Claiming(To, step) => i == k.from || (i == k.to && (step.Configure? || step == Unlock(true)))
    case Open => i == k.from || i == k.to
    case Closing(From, step) => i == k.to || (i == k.from && !step.Free?)
    case Closing(To, step) => i == k.to && !step.Free?
    case RollingBack(step) => i == k.from && !step.Free?
    case Freed => false
  }

  predicate ChansOk(s: State) {
    && |s.chans| == CHANNELS
    && forall i :: 0 <= i < CHANNELS && s.chans[i].active ==>
         s.chans[i].arg in s.links && MayUse(s.links[s.chans[i].arg], i)
  }

  predicate LinksOk(s: State)
    requires |s.chans| == CHANNELS
  {
    forall l :: l in s.links ==>
      && s.links[l].from < CHANNELS && s.links[l].to < CHANNELS
      && (Inside(s.links[l].phase) ==> s.chans[Target(s.links[l])].holder == ByLink(l))
  }

  predicate IsrOk(s: State, t: IsrId)
    requires |s.chans| == CHANNELS && t in s.isrs
  {
    var r := s.isrs[t];
    && r.i < CHANNELS
    && (!r.At? ==> s.chans[r.i].holder == ByIsr(t))
    && (r.InCallback? ==> s.chans[r.i].active && s.chans[r.i].arg == r.arg)
  }

  // A link or a scan that holds a lock is inside it.
  predicate HoldersOk(s: State) { LinkHoldersOk(s) && ScanHoldersOk(s) }

  predicate LinkHoldersOk(s: State) {
    forall i :: 0 <= i < |s.chans| && s.chans[i].holder.ByLink? ==>
      var l := s.chans[i].holder.l;
      l in s.links && Inside(s.links[l].phase) && Target(s.links[l]) == i
  }

  predicate ScanHoldersOk(s: State) {
    forall i :: 0 <= i < |s.chans| && s.chans[i].holder.ByIsr? ==>
      var t := s.chans[i].holder.t;
      t in s.isrs && !s.isrs[t].At? && s.isrs[t].i == i
  }

  predicate Inv(s: State) {
    ChansOk(s) && LinksOk(s) && HoldersOk(s) && forall t :: t in s.isrs ==> IsrOk(s, t)
  }

  // One step of a link's owner on its channel: the lock is held exactly inside,
  // what ends up active is the owner's, and its other channel stays usable.
  lemma LocalStep(l: LinkId, c: Chan, k: Link, granted: bool)
    requires Inside(k.phase) || Entering(k.phase)
    requires Inside(k.phase) ==> c.holder == ByLink(l)
    requires c.active && c.arg == l ==> MayUse(k, Target(k))
    ensures var (c', p') := Local(l, c, k.phase, granted);
            var k' := k.(phase := p');
            && (Inside(p') ==> c'.holder == ByLink(l) && Target(k') == Target(k))
            && (c'.active ==> (c.active && c'.arg == c.arg) || c'.arg == l)
            && (c'.active && c'.arg == l ==> MayUse(k', Target(k)))
            && forall j :: j != Target(k) && MayUse(k, j) ==> MayUse(k', j)
  {
  }

  lemma ProceedKeepsLocks(s: State, a: Action)
    requires Inv(s) && Enabled(s, a) && a.Proceed?
    ensures |Do(s, a).chans| == CHANNELS && LinksOk(Do(s, a))
    ensures forall t :: t in Do(s, a).isrs ==> IsrOk(Do(s, a), t)
  {
    var s', k := Do(s, a), s.links[a.l];
    var i := Target(k);
    LocalStep(a.l, s.chans[i], k, a.granted);
    forall t | t in s'.isrs ensures IsrOk(s', t) {
      assert IsrOk(s, t);
      assert s.isrs[t].i == i ==> s.isrs[t].At?;
    }
  }

  lemma ProceedKeepsUsers(s: State, a: Action)
    requires Inv(s) && Enabled(s, a) && a.Proceed?
    ensures ChansOk(Do(s, a))
  {
    var s', k := Do(s, a), s.links[a.l];
    var i := Target(k);
    LocalStep(a.l, s.chans[i], k, a.granted);
    forall j | 0 <= j < CHANNELS && s'.chans[j].active
      ensures s'.chans[j].arg in s'.links && MayUse(s'.links[s'.chans[j].arg], j)
    {
      if j != i {
        assert s'.chans[j] == s.chans[j];
      }
    }
  }

  lemma ScanKeepsHolders(s: State, a: Action)
    requires Inv(s) && Enabled(s, a) && a.Scan?
    ensures HoldersOk(Do(s, a))
  {
    assert IsrOk(s, a.t);
  }

  lemma ScanStep(s: State, a: Action)
    requires Inv(s) && Enabled(s, a) && a.Scan?
    ensures Inv(Do(s, a))
  {
    var s' := Do(s, a);
    ScanKeepsHolders(s, a);
    assert IsrOk(s, a.t);
    forall t | t in s'.isrs ensures IsrOk(s', t) {
      assert t in s.isrs && IsrOk(s, t);
    }
  }

  lemma OtherStep(s: State, a: Action)
    requires Inv(s) && Proper(s, a) && !a.Proceed? && !a.Scan?
    ensures Inv(Do(s, a))
  {
    var s' := Do(s, a);
    forall t | t in s'.isrs ensures IsrOk(s', t) {
      if t in s.isrs { assert IsrOk(s, t); }
    }
  }

  // The memory of a link is there from connect until it is freed.
  predicate Allocated(s: State, l: LinkId) { l in s.links && !s.links[l].phase.Freed? }

  // The links of active channels, of held locks and of running callbacks are allocated.
  predicate Promise(s: State) {
    && |s.chans| == CHANNELS
    && (forall i :: 0 <= i < CHANNELS && s.chans[i].active ==> Allocated(s, s.chans[i].arg))
    && (forall i :: 0 <= i < CHANNELS && s.chans[i].holder.ByLink? ==> Allocated(s, s.chans[i].holder.l))
    && (forall t :: t in s.isrs && s.isrs[t].InCallback? ==> Allocated(s, s.isrs[t].arg))
  }

  // In every interleaving of scans with connects, rollbacks and successful closes,
  // an active channel's argument and every callback's argument is allocated.
  lemma NoCallbackOnFreedLink(s: State, acts: seq<Action>)
    requires Init(s) && Run(GOOD, s, acts)
    ensures Promise(Final(GOOD, s, acts))
  {
    InvHolds(s, acts);
    InvKeepsPromise(Final(GOOD, s, acts));
  }

  lemma ProceedKeepsScans(s: State, a: Action)
    requires Inv(s) && Enabled(s, a) && a.Proceed?
    ensures ScanHoldersOk(Do(s, a))
  {
    LocalStep(a.l, s.chans[Target(s.links[a.l])], s.links[a.l], a.granted);
  }

  lemma ProceedKeepsHolders(s: State, a: Action)
    requires Inv(s) && Enabled(s, a) && a.Proceed?
    ensures LinkHoldersOk(Do(s, a))
  {
    var s', k := Do(s, a), s.links[a.l];
    LocalStep(a.l, s.chans[Target(k)], k, a.granted);
    forall i | 0 <= i < |s'.chans| && s'.chans[i].holder.ByLink?
      ensures var l := s'.chans[i].holder.l;
              l in s'.links && Inside(s'.links[l].phase) && Target(s'.links[l]) == i
    {
      if i != Target(k) {
        assert s'.chans[i] == s.chans[i];
      }
    }
  }

  lemma StepKeepsInv(s: State, a: Action)
    requires Inv(s) && Proper(s, a)
    ensures Inv(Do(s, a))
  {
    if a.Proceed? {
      ProceedKeepsScans(s, a);
      ProceedKeepsHolders(s, a);
      ProceedKeepsLocks(s, a);
      ProceedKeepsUsers(s, a);
    } else if a.Scan? {
      ScanStep(s, a);
    } else {
      OtherStep(s, a);
    }
  }

  lemma InvHolds(s: State, acts: seq<Action>)
    requires Init(s) && Run(GOOD, s, acts)
    ensures Inv(Final(GOOD, s, acts))
  {
    forall x, a | Inv(x) && Proper(x, a) ensures Inv(Next(x, a)) {
      StepKeepsInv(x, a);
    }
    Invariance(GOOD, Inv, s, acts);
  }

  lemma InvKeepsPromise(s: State)
    requires Inv(s)
    ensures Promise(s)
  {
    forall t | t in s.isrs && s.isrs[t].InCallback? ensures Allocated(s, s.isrs[t].arg) {
      assert IsrOk(s, t);
    }
  }

  // Progress

  // Steps until a link is open or freed.
  function LinkSteps(p: Phase): nat {
    match p
    case Claiming(end, claim) =>
      (if end.From? then 11 else 7) -
      (match claim case Acquire => 0 case Check => 1 case Configure => 2 case Unlock(_) => 3)
    case Closing(end, release) =>
      (if end.From? then 6 else 3) - (match release case Lock => 0 case Clear => 1 case Free => 2)
    case RollingBack(release) => 3 - (match release case Lock => 0 case Clear => 1 case Free => 2)
    case Open => 0
    case Freed => 0
  }

  // Steps until a scan is over.
  function ScanSteps(r: Isr): nat
    requires r.i < CHANNELS
  {
    4 * (CHANNELS - r.i) + match r case At(_) => 3 case Locked(_) => 2 case InCallback(_, _) => 1 case Unlocking(_) => 0
  }

  lemma LinkAdvances(s: State, l: LinkId, granted: bool)
    requires Inv(s) && Enabled(s, Proceed(l, granted))
    ensures var p := Do(s, Proceed(l, granted)).links[l].phase;
            LinkSteps(p) < LinkSteps(s.links[l].phase) && (s.links[l].phase.Closing? ==> p.Closing? || p.Freed?)
  {
  }

  lemma ScanAdvances(s: State, t: IsrId, pending: bool)
    requires Inv(s) && Enabled(s, Scan(t, pending))
    ensures var s' := Do(s, Scan(t, pending));
            t in s'.isrs ==> s'.isrs[t].i < CHANNELS && ScanSteps(s'.isrs[t]) < ScanSteps(s.isrs[t])
  {
  }

  ghost predicate Leads(s: State, x: State) { Reaches(GOOD, s, [], x) && Inv(x) }

  lemma Goes(s: State, x: State, a: Action) returns (y: State)
    requires Leads(s, x) && Proper(x, a)
    ensures Leads(s, y) && y == Do(x, a)
  {
    StepKeepsInv(x, a);
    ReachesSilently(GOOD, s, [], x, a);
    y := Do(x, a);
  }

  // Whoever holds a lock can go on until it lets it go.
  lemma {:induction false} LinkLetsGo(s: State, x: State, i: nat) returns (y: State)
    requires Leads(s, x) && i < CHANNELS && x.chans[i].holder.ByLink?
    ensures Leads(s, y) && y.chans[i].holder.Nobody? && y.isrs == x.isrs
    ensures forall l :: l in x.links && l != x.chans[i].holder.l ==> l in y.links && y.links[l] == x.links[l]
    decreases LinkSteps(x.links[x.chans[i].holder.l].phase)
  {
    var l := x.chans[i].holder.l;
    LinkAdvances(x, l, true);
    y := Goes(s, x, Proceed(l, true));
    if y.chans[i].holder.ByLink? {
      y := LinkLetsGo(s, y, i);
    }
  }

  lemma {:induction false} ScanLetsGo(s: State, x: State, i: nat) returns (y: State)
    requires Leads(s, x) && i < CHANNELS && x.chans[i].holder.ByIsr?
    ensures Leads(s, y) && y.chans[i].holder.Nobody? && y.links == x.links
    ensures forall t :: t in x.isrs && t != x.chans[i].holder.t ==> t in y.isrs && y.isrs[t] == x.isrs[t]
    decreases ScanSteps(x.isrs[x.chans[i].holder.t])
  {
    var t := x.chans[i].holder.t;
    ScanAdvances(x, t, false);
    y := Goes(s, x, Scan(t, false));
    if y.chans[i].holder.ByIsr? {
      y := ScanLetsGo(s, y, i);
    }
  }

  lemma LockComesFree(s: State, x: State, i: nat) returns (y: State)
    requires Leads(s, x) && i < CHANNELS
    ensures Leads(s, y) && y.chans[i].holder.Nobody?
    ensures forall l :: l in x.links && x.chans[i].holder != ByLink(l) ==> l in y.links && y.links[l] == x.links[l]
    ensures forall t :: t in x.isrs && x.chans[i].holder != ByIsr(t) ==> t in y.isrs && y.isrs[t] == x.isrs[t]
  {
    match x.chans[i].holder
    case Nobody => y := x;
    case ByLink(_) => y := LinkLetsGo(s, x, i);
    case ByIsr(_) => y := ScanLetsGo(s, x, i);
  }

  // No deadlock: after any run each link that is being connected or closed, and each scan,
  // can come to its end, whatever locks the others hold.

  predicate Underway(p: Phase) { Inside(p) || Entering(p) }

  lemma LinkGoes(s: State, x: State, l: LinkId) returns (y: State)
    requires Leads(s, x) && l in x.links && Underway(x.links[l].phase)
    ensures Leads(s, y) && l in y.links && LinkSteps(y.links[l].phase) < LinkSteps(x.links[l].phase)
    ensures x.links[l].phase.Closing? ==> y.links[l].phase.Closing? || y.links[l].phase.Freed?
  {
    y := x;
    if Entering(x.links[l].phase) {
      y := LockComesFree(s, x, Target(x.links[l]));
    }
    LinkAdvances(y, l, true);
    y := Goes(s, y, Proceed(l, true));
  }

  lemma {:induction false} LinkFinishes(s: State, x: State, l: LinkId) returns (y: State)
    requires Leads(s, x) && l in x.links
    ensures Leads(s, y) && l in y.links && (y.links[l].phase.Open? || y.links[l].phase.Freed?)
    ensures x.links[l].phase.Closing? || x.links[l].phase.Freed? ==> y.links[l].phase.Freed?
    decreases LinkSteps(x.links[l].phase)
  {
    y := x;
    if Underway(x.links[l].phase) {
      y := LinkGoes(s, x, l);
      y := LinkFinishes(s, y, l);
    }
  }

  lemma {:induction false} ScanFinishes(s: State, x: State, t: IsrId) returns (y: State)
    requires Leads(s, x) && t in x.isrs && x.isrs[t].i < CHANNELS
    ensures Leads(s, y) && t !in y.isrs
    decreases ScanSteps(x.isrs[t])
  {
    y := x;
    if x.isrs[t].At? {
      y := LockComesFree(s, x, x.isrs[t].i);
    }
    ScanAdvances(y, t, false);
    y := Goes(s, y, Scan(t, false));
    if t in y.isrs {
      y := ScanFinishes(s, y, t);
    }
  }

  lemma NobodyBlocks(s: State, acts: seq<Action>)
    requires Init(s) && Run(GOOD, s, acts)
    ensures var f := Final(GOOD, s, acts);
            && (forall l :: l in f.links ==>
                  exists z :: Reaches(GOOD, f, [], z) && l in z.links && z.links[l].phase.Freed?)
            && (forall t :: t in f.isrs ==> exists z :: Reaches(GOOD, f, [], z) && t !in z.isrs)
  {
    InvHolds(s, acts);
    var f := Final(GOOD, s, acts);
    ReachesSelf(GOOD, f);
    forall l | l in f.links ensures exists z :: Reaches(GOOD, f, [], z) && l in z.links && z.links[l].phase.Freed? {
      var z := LinkFinishes(f, f, l);
      if z.links[l].phase.Open? {
        z := Goes(f, z, Close(l));
        z := LinkFinishes(f, z, l);
      }
    }
    forall t | t in f.isrs ensures exists z :: Reaches(GOOD, f, [], z) && t !in z.isrs {
      assert IsrOk(f, t);
      var z := ScanFinishes(f, f, t);
    }
  }

  // A close in an interrupt is harmless exactly if the link's callback is on no channel
  // any more.
  lemma CloseInInterruptSafeIff(s: State, acts: seq<Action>, l: LinkId)
    requires Init(s) && Run(GOOD, s, acts) && Enabled(Final(GOOD, s, acts), CloseInInterrupt(l))
    ensures var f := Final(GOOD, s, acts);
            Promise(Do(f, CloseInInterrupt(l))) <==>
            forall i :: 0 <= i < CHANNELS && f.chans[i].active ==> f.chans[i].arg != l
  {
    InvHolds(s, acts);
    var f := Final(GOOD, s, acts);
    forall t | t in f.isrs && f.isrs[t].InCallback? ensures f.chans[f.isrs[t].i].arg == f.isrs[t].arg {
      assert IsrOk(f, t);
    }
    forall t | t in f.isrs ensures IsrOk(f, t) {
    }
    InvKeepsPromise(f);
    var g := Do(f, CloseInInterrupt(l));
    assert forall i :: 0 <= i < CHANNELS && f.chans[i].active ==> Allocated(f, f.chans[i].arg);
  }

  // Two ways in which a promise is lost

  ghost predicate Can(s: State, x: State, proper: bool) {
    if proper then Reaches(GOOD, s, [], x) else Reaches(ANY, s, [], x)
  }

  lemma Then(s: State, x: State, proper: bool, a: Action) returns (y: State)
    requires Can(s, x, proper) && Enabled(x, a) && (proper ==> Proper(x, a))
    ensures Can(s, y, proper) && y == Do(x, a)
  {
    if proper {
      ReachesSilently(GOOD, s, [], x, a);
    } else {
      ReachesSilently(ANY, s, [], x, a);
    }
    y := Do(x, a);
  }

  // The state in which link `l` has got to `p` and its channel is `c`.
  function With(x: State, l: LinkId, c: Chan, p: Phase): State
    requires l in x.links && Target(x.links[l]) < |x.chans|
  {
    x.(chans := x.chans[Target(x.links[l]) := c], links := x.links[l := x.links[l].(phase := p)])
  }

  lemma ProceedTo(s: State, x: State, proper: bool, l: LinkId, c: Chan, p: Phase, c': Chan, p': Phase)
    requires |x.chans| == CHANNELS && l in x.links && Target(x.links[l]) < CHANNELS
    requires Can(s, With(x, l, c, p), proper)
    requires (Inside(p) || (Entering(p) && c.holder.Nobody?)) && Local(l, c, p, true) == (c', p')
    requires Target(x.links[l].(phase := p)) == Target(x.links[l])
    ensures Can(s, With(x, l, c', p'), proper)
  {
    var y := Then(s, With(x, l, c, p), proper, Proceed(l, true));
    assert y == With(x, l, c', p');
  }

  // Claiming a free channel takes four steps.
  lemma ClaimChannel(s: State, x: State, proper: bool, l: LinkId, end: End) returns (y: State)
    requires Can(s, x, proper) && |x.chans| == CHANNELS && l in x.links
    requires x.links[l].phase == Claiming(end, Acquire) && Target(x.links[l]) < CHANNELS
    requires !x.chans[Target(x.links[l])].active && x.chans[Target(x.links[l])].holder.Nobody?
    ensures Can(s, y, proper)
    ensures y == With(x, l, Chan(true, l, Nobody), if end.From? then Claiming(To, Acquire) else Open)
  {
    var c := x.chans[Target(x.links[l])];
    assert x == With(x, l, c, Claiming(end, Acquire));
    ProceedTo(s, x, proper, l, c, Claiming(end, Acquire), c.(holder := ByLink(l)), Claiming(end, Check));
    var mine := Chan(true, l, ByLink(l));
    ProceedTo(s, x, proper, l, c.(holder := ByLink(l)), Claiming(end, Check), mine, Claiming(end, Configure));
    ProceedTo(s, x, proper, l, mine, Claiming(end, Configure), mine, Claiming(end, Unlock(true)));
    var after := if end.From? then Claiming(To, Acquire) else Open;
    ProceedTo(s, x, proper, l, mine, Claiming(end, Unlock(true)), Chan(true, l, Nobody), after);
    y := With(x, l, Chan(true, l, Nobody), after);
  }

  lemma OpenLink(s: State, proper: bool, l: LinkId) returns (y: State)
    requires Init(s)
    ensures Can(s, y, proper) && |y.chans| == CHANNELS && y.isrs == map[]
    ensures y.links == map[l := Link(0, 1, Open)]
    ensures y.chans[0] == Chan(true, l, Nobody) && y.chans[1] == Chan(true, l, Nobody)
  {
    ReachesSelf(ANY, s);
    ReachesSelf(GOOD, s);
    y := Then(s, s, proper, Connect(l, 0, 1));
    y := ClaimChannel(s, y, proper, l, From);
    y := ClaimChannel(s, y, proper, l, To);
  }

  // A close called from an interrupt frees the link although both releases refuse:
  // the next scan calls back into freed memory.
  lemma CloseInInterruptIsUnsafe(s: State, l: LinkId)
    requires Init(s)
    ensures exists x :: Reaches(ANY, s, [], x) && 0 in x.isrs && x.isrs[0] == InCallback(0, l) && !Allocated(x, l)
  {
    var x := OpenLink(s, false, l);
    x := Then(s, x, false, CloseInInterrupt(l));
    x := Then(s, x, false, Interrupt(0));
    x := Then(s, x, false, Scan(0, true));
    x := Then(s, x, false, Scan(0, true));
  }

  // A connect that asks for a channel in use is refused, and on its way out destroys
  // the claim of the link that uses it: an open link goes deaf.
  lemma FailedClaimSilencesOwner(s: State, l: LinkId, other: LinkId)
    requires Init(s) && l != other
    ensures exists x :: Reaches(GOOD, s, [], x) && l in x.links && x.links[l] == Link(0, 1, Open) &&
                        other in x.links && x.links[other].phase.Freed? &&
                        |x.chans| == CHANNELS && !x.chans[0].active
  {
    var x := OpenLink(s, true, l);
    x := Then(s, x, true, Connect(other, 0, 2));
    x := Then(s, x, true, Proceed(other, true));
    x := Then(s, x, true, Proceed(other, true));
    x := Then(s, x, true, Proceed(other, true));
  }
}
