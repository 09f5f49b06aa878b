// The mailbox device: 32 channels with their registers, claimed and released by
// tasks, written and read by links, and scanned by two interrupt handlers.
module MboxDriver {
  import opened Messages
  import opened MboxRegs
  import opened Words

  const CHANNELS: nat := 32
  const DATA_REGS: nat := 16

  // Bit numbers in EVENT_STATUS and EVENT_CAUSE.
  const RCV: bv32 := 0
  const ACK: bv32 := 1

  type LinkId = nat

  // The callbacks a link registers; each carries its link.
  datatype Handler = NoHandler | RecvCmd(l: LinkId) | RecvReply(l: LinkId) | AckOf(l: LinkId)

  // `mapped` says that `base` has been set, which the first claim does.
  datatype Chan = Chan(mapped: bool, active: bool, intA: Handler, intB: Handler, owner: bv8, src: bv8, dest: bv8)

  type Data = d: seq<bv32> | |d| == DATA_REGS witness seq(DATA_REGS, _ => 0)

  // A channel's registers; the event registers as the sets of their set bits.
  datatype Regs = Regs(config: Config, status: set<bv32>, enable: set<bv32>, data: Data)

  // `Faulted` is an access through a register pointer that was never set.
  datatype Code = Successful | CalledFromIsr | ResourceInUse | NotOwner | Unsatisfied | Faulted

  datatype Request = Request(owner: bv8, src: bv8, dest: bv8, intA: Handler, intB: Handler)

  // The two interrupt bits of this device, and what CONFIG holds after a write,
  // given what it held before.
  datatype Device = Device(bitA: bv32, bitB: bv32, accept: (Config, Config) -> Config)

  const ZERO_CONFIG: Config := Config(0, 0, 0, 0)

  function Destroyed(c: Chan): Chan {
    c.(active := false, intA := NoHandler, intB := NoHandler, owner := 0, src := 0, dest := 0)
  }

  function Claimed(q: Request): Chan { Chan(true, true, q.intA, q.intB, q.owner, q.src, q.dest) }

  function Wanted(q: Request, d: Device): set<bv32> {
    (if q.intA != NoHandler then {d.bitA} else {}) + (if q.intB != NoHandler then {d.bitB} else {})
  }

  // What claiming does to a channel, its registers and the caller.
  function Claim(c: Chan, r: Regs, q: Request, d: Device): (Chan, Regs, Code) {
    if c.active then (Destroyed(c), r, ResourceInUse)
    else
      var failed := Destroyed(Claimed(q));
      var enabled := r.(enable := r.enable + Wanted(q, d));
      if q.owner != 0 then
        var cfg := Config(UNSECURE, q.owner, q.src, q.dest);
        var now := d.accept(r.config, cfg);
        if now != cfg then (failed, r.(config := now), NotOwner)
        else (Claimed(q), enabled.(config := now), Successful)
      else if q.intB != NoHandler && q.src != 0 && r.config.src != q.src then (failed, r, Unsatisfied)
      // the destination in the register is compared with the requested source
      else if q.intA != NoHandler && q.dest != 0 && r.config.dest != q.src then (failed, r, Unsatisfied)
      else (Claimed(q), enabled, Successful)
  }

  function Release(c: Chan, r: Regs, d: Device): (Chan, Regs) {
    (Destroyed(c), r.(enable := r.enable - {d.bitA, d.bitB},
                      config := if c.owner != 0 then d.accept(r.config, ZERO_CONFIG) else r.config))
  }

  // The registers after a write: whole words of the buffer, then zeros.
  function Written(buf: seq<byte>): Data
    requires |buf| % WORD_SIZE == 0 && |buf| <= MSG_SIZE
  {
    seq(DATA_REGS, i requires 0 <= i < DATA_REGS =>
      if WORD_SIZE * i + WORD_SIZE <= |buf| then Pack(buf[WORD_SIZE * i..WORD_SIZE * i + WORD_SIZE]) else 0)
  }

  // The bytes held by the registers, in order.
  function Bytes(data: seq<bv32>): (b: seq<byte>)
    ensures |b| == WORD_SIZE * |data|
  {
    if data == [] then [] else Bytes(data[..|data| - 1]) + Unpack(data[|data| - 1])
  }

  // The bytes a read of `sz` bytes moves.
  function ReadBytes(sz: nat): nat { if WordBytes(sz) < MSG_SIZE then WordBytes(sz) else MSG_SIZE }

  lemma ReadBytesFits(sz: nat)
    ensures var n := ReadBytes(sz);
            n % WORD_SIZE == 0 && if sz < MSG_SIZE then sz <= n < sz + WORD_SIZE && n <= MSG_SIZE else n == MSG_SIZE
  {
  }

  // Register k holds bytes 4k to 4k + 3.
  lemma {:induction false} BytesAt(data: seq<bv32>, k: nat)
    requires k < |data|
    ensures WORD_SIZE * k + WORD_SIZE <= |Bytes(data)|
    ensures Bytes(data)[WORD_SIZE * k..WORD_SIZE * k + WORD_SIZE] == Unpack(data[k])
    decreases |data|
  {
    var rest := data[..|data| - 1];
    if k < |rest| {
      BytesAt(rest, k);
    }
  }

  // Register k of a written message holds the image's bytes 4k to 4k + 3.
  lemma WordOfImage(buf: seq<byte>, k: nat)
    requires |buf| % WORD_SIZE == 0 && |buf| <= MSG_SIZE && k < DATA_REGS
    ensures Unpack(Written(buf)[k]) == Image(buf)[WORD_SIZE * k..WORD_SIZE * k + WORD_SIZE]
  {
    var at := WORD_SIZE * k;
    if at + WORD_SIZE <= |buf| {
      UnpackPack(buf[at..at + WORD_SIZE]);
      assert Image(buf)[at..at + WORD_SIZE] == buf[at..at + WORD_SIZE];
    } else {
      assert |buf| <= at;
      ZeroWord();
      assert Image(buf)[at..at + WORD_SIZE] == [0, 0, 0, 0];
    }
  }

  lemma {:induction false} BytesOfWritten(buf: seq<byte>, n: nat)
    requires |buf| % WORD_SIZE == 0 && |buf| <= MSG_SIZE && n <= DATA_REGS
    ensures Bytes(Written(buf)[..n]) == Image(buf)[..WORD_SIZE * n]
    decreases n
  {
    if n > 0 {
      BytesOfWritten(buf, n - 1);
      WordOfImage(buf, n - 1);
      BytesNext(Written(buf), n - 1);
      PrefixGrows(Image(buf), WORD_SIZE * (n - 1), WORD_SIZE * n);
    }
  }

  lemma BytesNext(data: seq<bv32>, k: nat)
    requires k < |data|
    ensures Bytes(data[..k + 1]) == Bytes(data[..k]) + Unpack(data[k])
  {
    assert data[..k + 1][..k] == data[..k];
  }

  // On a mailbox as in shared memory, a message of whole words that is written and
  // then read in full comes back as its 64-byte image.
  lemma WriteThenRead(buf: seq<byte>)
    requires |buf| % WORD_SIZE == 0 && |buf| <= MSG_SIZE
    ensures Bytes(Written(buf)) == Image(buf)
  {
    BytesOfWritten(buf, DATA_REGS);
    assert Written(buf)[..DATA_REGS] == Written(buf);
    assert Image(buf)[..MSG_SIZE] == Image(buf);
  }

  // Claims and releases

  // A claim succeeds exactly when it leaves the channel active; a failed one enables
  // nothing, and it also takes down the live claim that made it fail.
  lemma FailedClaimLeavesInactive(c: Chan, r: Regs, q: Request, d: Device)
    ensures var (c', r', code) := Claim(c, r, q, d);
            && (code == Successful <==> c'.active)
            && (code != Successful ==> r'.enable == r.enable && c'.intA == NoHandler == c'.intB)
            && (c.active ==> code == ResourceInUse)
  {
  }

  predicate Granted(c: Chan, r: Regs, q: Request, d: Device) { Claim(c, r, q, d).2 == Successful }

  // What claiming a channel of another owner is meant to check: that the registers hold
  // the source and the destination asked for, where one is asked for.
  predicate HoldsRequest(r: Regs, q: Request) {
    && (q.intB != NoHandler && q.src != 0 ==> r.config.src == q.src)
    && (q.intA != NoHandler && q.dest != 0 ==> r.config.dest == q.dest)
  }

  // The check made agrees with it on all register contents if and only if no
  // destination is checked or the request names the same source and destination.
  lemma DestinationCheck(c: Chan, q: Request, d: Device)
    requires !c.active && q.owner == 0
    ensures (forall r: Regs :: Granted(c, r, q, d) == HoldsRequest(r, q)) <==>
            (q.intA == NoHandler || q.dest == 0 || q.src == q.dest)
  {
    if q.intA != NoHandler && q.dest != 0 && q.src != q.dest {
      var r := Regs(Config(UNSECURE, 0, q.src, q.dest), {}, {}, seq(DATA_REGS, _ => 0));
      MatchingClaimIsRefused(c, r, q, d);
      assert HoldsRequest(r, q) && !Granted(c, r, q, d);
    }
  }

  // Every other request with a destination is refused on just the channels it is meant
  // for, and granted on one whose destination is the requested source.
  lemma MatchingClaimIsRefused(c: Chan, r: Regs, q: Request, d: Device)
    requires !c.active && q.owner == 0 && q.intA != NoHandler && q.dest != 0 && q.src != q.dest
    requires r.config.src == q.src
    ensures r.config.dest == q.dest ==> Claim(c, r, q, d).2 == Unsatisfied
    ensures r.config.dest == q.src ==> Claim(c, r, q, d).2 == Successful
  {
  }

  // For instance, a receiver for messages from 1 to 2.
  lemma ReceiverIsRefused(c: Chan, r: Regs, l: LinkId, d: Device)
    requires !c.active && r.config == Config(UNSECURE, 3, 1, 2)
    ensures var q := Request(0, 1, 2, RecvReply(l), NoHandler);
            HoldsRequest(r, q) && Claim(c, r, q, d) == (Destroyed(Claimed(q)), r, Unsatisfied)
  {
  }

  // A client of link_mbox_connect passes zero for the server: neither check applies
  // and every inactive channel is granted.
  lemma ClientClaimsAreGranted(c: Chan, r: Regs, q: Request, d: Device)
    requires q.owner == 0 && ((q.dest == 0 && q.intB == NoHandler) || (q.src == 0 && q.intA == NoHandler))
    ensures Claim(c, r, q, d).2 == if c.active then ResourceInUse else Successful
  {
  }

  datatype Op = DoClaim(q: Request) | DoRelease

  function Apply(c: Chan, r: Regs, op: Op, d: Device): (Chan, Regs) {
    match op
    case DoClaim(q) => var (c', r', code) := Claim(c, r, q, d); (c', r')
    case DoRelease => if c.mapped then Release(c, r, d) else (c, r)
  }

  function ApplyAll(c: Chan, r: Regs, ops: seq<Op>, d: Device): (Chan, Regs)
    decreases |ops|
  {
    if ops == [] then (c, r)
    else
      var (c', r') := ApplyAll(c, r, ops[..|ops| - 1], d);
      Apply(c', r', ops[|ops| - 1], d)
  }

  predicate Silent(c: Chan) { !c.active ==> c.intA == NoHandler == c.intB }

  // Over any sequence of claims and releases, successful or not, the enable bits of
  // other devices keep their values, a release that does not fault leaves both own bits
  // clear, and an inactive channel never has a callback.
  lemma {:induction false} ForeignBitsUntouched(c: Chan, r: Regs, ops: seq<Op>, d: Device)
    ensures var own, (c', r') := {d.bitA, d.bitB}, ApplyAll(c, r, ops, d);
            && r'.enable - own == r.enable - own
            && (ops != [] && ops[|ops| - 1].DoRelease? && c'.mapped ==> r'.enable * own == {})
            && (Silent(c) ==> Silent(c'))
    decreases |ops|
  {
    if ops != [] {
      ForeignBitsUntouched(c, r, ops[..|ops| - 1], d);
    }
  }

  // The same on the register itself, where `a` and `b` are the words
  // HPSC_MBOX_INT_A and HPSC_MBOX_INT_B make.

  function WantedWord(q: Request, a: bv32, b: bv32): bv32 {
    var val := if q.intA != NoHandler then 0 | a else 0;
    if q.intB != NoHandler then val | b else val
  }

  // Whether an operation gets as far as EVENT_ENABLE, and what it does to the set of
  // bits and to the word.

  predicate Effective(c: Chan, r: Regs, op: Op, d: Device) {
    if op.DoClaim? then Granted(c, r, op.q, d) else c.mapped
  }

  function OpSet(op: Op, effective: bool, s: set<bv32>, d: Device): set<bv32> {
    if !effective then s else if op.DoClaim? then s + Wanted(op.q, d) else s - {d.bitA, d.bitB}
  }

  function OpWord(op: Op, effective: bool, w: bv32, a: bv32, b: bv32): bv32 {
    if !effective then w else if op.DoClaim? then w | WantedWord(op.q, a, b) else w & !(a | b)
  }

  function ApplyAllWord(c: Chan, r: Regs, w: bv32, ops: seq<Op>, d: Device, a: bv32, b: bv32): bv32
    decreases |ops|
  {
    if ops == [] then w
    else
      var before := ops[..|ops| - 1];
      var (c', r') := ApplyAll(c, r, before, d);
      OpWord(ops[|ops| - 1], Effective(c', r', ops[|ops| - 1], d), ApplyAllWord(c, r, w, before, d, a, b), a, b)
  }

  predicate OwnWords(d: Device, a: bv32, b: bv32) {
    d.bitA < 32 && d.bitB < 32 && a == 1 << d.bitA && b == 1 << d.bitB
  }

  lemma WantedIsRepresented(q: Request, d: Device, a: bv32, b: bv32)
    requires Represents({d.bitA}, a) && Represents({d.bitB}, b)
    ensures Represents(Wanted(q, d), WantedWord(q, a, b))
  {
    NothingIsZero();
    var valA, setA := if q.intA != NoHandler then 0 | a else 0, if q.intA != NoHandler then {d.bitA} else {};
    RaiseIsUnion({}, 0, {d.bitA}, a);
    assert {} + {d.bitA} == {d.bitA};
    RaiseIsUnion(setA, valA, {d.bitB}, b);
    assert setA + {} == setA;
  }

  lemma SetStep(c: Chan, r: Regs, op: Op, d: Device)
    ensures Apply(c, r, op, d).1.enable == OpSet(op, Effective(c, r, op, d), r.enable, d)
  {
  }

  lemma WordStep(op: Op, effective: bool, s: set<bv32>, w: bv32, d: Device, a: bv32, b: bv32)
    requires Represents({d.bitA}, a) && Represents({d.bitB}, b) && Represents(s, w)
    ensures Represents(OpSet(op, effective, s, d), OpWord(op, effective, w, a, b))
  {
    match op
    case DoClaim(q) =>
      WantedIsRepresented(q, d, a, b);
      RaiseIsUnion(s, w, Wanted(q, d), WantedWord(q, a, b));
    case DoRelease =>
      RaiseIsUnion({d.bitA}, a, {d.bitB}, b);
      assert {d.bitA} + {d.bitB} == {d.bitA, d.bitB};
      ClearIsDifference(s, w, {d.bitA, d.bitB}, a | b);
  }

  lemma {:induction false} WordFollowsSet(c: Chan, r: Regs, w: bv32, ops: seq<Op>, d: Device, a: bv32, b: bv32)
    requires Represents({d.bitA}, a) && Represents({d.bitB}, b) && Represents(r.enable, w)
    ensures Represents(ApplyAll(c, r, ops, d).1.enable, ApplyAllWord(c, r, w, ops, d, a, b))
    decreases |ops|
  {
    if ops != [] {
      var before, op := ops[..|ops| - 1], ops[|ops| - 1];
      WordFollowsSet(c, r, w, before, d, a, b);
      var (c', r') := ApplyAll(c, r, before, d);
      SetStep(c', r', op, d);
      WordStep(op, Effective(c', r', op, d), r'.enable, ApplyAllWord(c, r, w, before, d, a, b), d, a, b);
    }
  }

  // Over any sequence of claims and releases no bit of EVENT_ENABLE but this device's
  // two ever changes, and both are clear after a release.
  lemma ForeignWordUntouched(c: Chan, r: Regs, w: bv32, ops: seq<Op>, d: Device, a: bv32, b: bv32, k: bv32)
    requires OwnWords(d, a, b) && Represents(r.enable, w) && k < 32
    ensures var w' := ApplyAllWord(c, r, w, ops, d, a, b);
            && (k != d.bitA && k != d.bitB ==> Bit(w', k) == Bit(w, k))
            && (ops != [] && ops[|ops| - 1].DoRelease? && ApplyAll(c, r, ops, d).0.mapped ==>
                  !Bit(w', d.bitA) && !Bit(w', d.bitB))
  {
    ShiftIsSingleton(d.bitA);
    ShiftIsSingleton(d.bitB);
    WordFollowsSet(c, r, w, ops, d, a, b);
    ForeignBitsUntouched(c, r, ops, d);
    BitsFollow(r.enable, w, ApplyAll(c, r, ops, d).1.enable, ApplyAllWord(c, r, w, ops, d, a, b), {d.bitA, d.bitB}, k);
    BitsFollow(r.enable, w, ApplyAll(c, r, ops, d).1.enable, ApplyAllWord(c, r, w, ops, d, a, b), {d.bitA, d.bitB},
               d.bitA);
    BitsFollow(r.enable, w, ApplyAll(c, r, ops, d).1.enable, ApplyAllWord(c, r, w, ops, d, a, b), {d.bitA, d.bitB},
               d.bitB);
  }

  // Word k of what a write reads: the buffer's first `sz` bytes and, where the last word
  // goes past them, what memory holds behind them.
  method LoadWord(buf: array<byte>, sz: nat, over: seq<byte>, k: nat) returns (w: bv32)
    requires sz <= MSG_SIZE && sz <= buf.Length && |over| == WordBytes(sz) - sz && WORD_SIZE * k < sz
    ensures w == Written(buf[..sz] + over)[k]
  {
    var at, msg := WORD_SIZE * k, buf[..sz] + over;
    w := Pack(msg[at..at + WORD_SIZE]);
  }

  method StoreWord(buf: array<byte>, k: nat, w: bv32)
    requires WORD_SIZE * k + WORD_SIZE <= buf.Length
    modifies buf
    ensures buf[..] == Store(old(buf[..]), WORD_SIZE * k, Unpack(w))
  {
    var at, b := WORD_SIZE * k, Unpack(w);
    buf[at], buf[at + 1], buf[at + 2], buf[at + 3] := b[0], b[1], b[2], b[3];
  }

  lemma NextWord(was: seq<byte>, data: Data, k: nat)
    requires k < DATA_REGS && WORD_SIZE * k + WORD_SIZE <= |was|
    ensures var all, at := Bytes(data), WORD_SIZE * k;
            Store(all[..at] + was[at..], at, Unpack(data[k])) == all[..at + WORD_SIZE] + was[at + WORD_SIZE..]
  {
    BytesAt(data, k);
    PrefixGrows(Bytes(data), WORD_SIZE * k, WORD_SIZE * k + WORD_SIZE);
  }

  // Word k of a read, after the words before it.
  method ReadWord(buf: array<byte>, k: nat, ghost was: seq<byte>, data: Data)
    requires k < DATA_REGS && WORD_SIZE * k + WORD_SIZE <= buf.Length == |was|
    requires buf[..] == Bytes(data)[..WORD_SIZE * k] + was[WORD_SIZE * k..]
    modifies buf
    ensures buf[..] == Bytes(data)[..WORD_SIZE * (k + 1)] + was[WORD_SIZE * (k + 1)..]
  {
    NextWord(was, data, k);
    StoreWord(buf, k, data[k]);
  }

  lemma PrefixSet(data: Data, target: Data, k: nat)
    requires k < DATA_REGS && data[..k] == target[..k]
    ensures data[k := target[k]][..k + 1] == target[..k + 1]
  {
  }

  class Mbox {
    var chans: seq<Chan>
    var regs: seq<Regs>
    const device: Device

    ghost predicate Valid()
      reads this
    {
      && |chans| == CHANNELS == |regs|
      && exists a, b :: a < 16 && b < 16 && device.bitA == BitA(a) && device.bitB == BitB(b)
    }

    constructor (idxA: bv32, idxB: bv32, accept: (Config, Config) -> Config, regs: seq<Regs>)
      requires idxA < 16 && idxB < 16 && |regs| == CHANNELS
      ensures Valid() && this.regs == regs && device == Device(BitA(idxA), BitB(idxB), accept)
      ensures forall i :: 0 <= i < CHANNELS ==> !chans[i].mapped && !chans[i].active
    {
      device := Device(BitA(idxA), BitB(idxB), accept);
      chans := seq(CHANNELS, _ => Chan(false, false, NoHandler, NoHandler, 0, 0, 0));
      this.regs := regs;
    }

    method ClaimChan(i: nat, q: Request, inInterrupt: bool) returns (code: Code)
      requires Valid() && i < CHANNELS
      modifies this
      ensures Valid()
      ensures if inInterrupt then code == CalledFromIsr && chans == old(chans) && regs == old(regs)
              else var (c, r, result) := Claim(old(chans)[i], old(regs)[i], q, device);
                chans == old(chans)[i := c] && regs == old(regs)[i := r] && code == result
    {
      if inInterrupt {
        return CalledFromIsr;
      }
      if chans[i].active {
        chans := chans[i := Destroyed(chans[i])];
        return ResourceInUse;
      }
      chans := chans[i := Claimed(q)];
      if chans[i].owner != 0 {
        var cfg := Config(UNSECURE, q.owner, q.src, q.dest);
        regs := regs[i := regs[i].(config := device.accept(regs[i].config, cfg))];
        if regs[i].config != cfg {
          chans := chans[i := Destroyed(chans[i])];
          return NotOwner;
        }
      } else {
        if q.intB != NoHandler && q.src != 0 && regs[i].config.src != q.src {
          chans := chans[i := Destroyed(chans[i])];
          return Unsatisfied;
        }
        if q.intA != NoHandler && q.dest != 0 && regs[i].config.dest != q.src {
          chans := chans[i := Destroyed(chans[i])];
          return Unsatisfied;
        }
      }
      var val: set<bv32> := {};
      if chans[i].intA != NoHandler {
        val := val + {device.bitA};
      }
      if chans[i].intB != NoHandler {
        val := val + {device.bitB};
      }
      assert val == Wanted(q, device);
      regs := regs[i := regs[i].(enable := regs[i].enable + val)];
      code := Successful;
    }

    // Faults on a channel whose registers no claim has located.
    method ReleaseChan(i: nat, inInterrupt: bool) returns (code: Code)
      requires Valid() && i < CHANNELS
      modifies this
      ensures Valid()
      ensures code == if inInterrupt then CalledFromIsr else if !old(chans)[i].mapped then Faulted else Successful
      ensures if code != Successful then chans == old(chans) && regs == old(regs)
              else var (c, r) := Release(old(chans)[i], old(regs)[i], device);
                chans == old(chans)[i := c] && regs == old(regs)[i := r]
    {
      if inInterrupt {
        return CalledFromIsr;
      }
      if !chans[i].mapped {
        return Faulted;
      }
      regs := regs[i := regs[i].(enable := regs[i].enable - {device.bitA, device.bitB})];
      if chans[i].owner != 0 {
        regs := regs[i := regs[i].(config := device.accept(regs[i].config, ZERO_CONFIG))];
      }
      chans := chans[i := Destroyed(chans[i])];
      code := Successful;
    }

    method StoreReg(i: nat, k: nat, w: bv32, ghost was: seq<Regs>, ghost data: Data)
      requires Valid() && i < CHANNELS && k < DATA_REGS && |was| == CHANNELS
      requires regs == was[i := was[i].(data := data)]
      modifies this`regs
      ensures Valid() && regs == was[i := was[i].(data := data[k := w])]
    {
      regs := regs[i := regs[i].(data := regs[i].data[k := w])];
    }

    // Stores whole words. Where the last of them goes past the `sz` bytes given, `over`
    // is what memory holds there. Like all register accesses it faults on a channel
    // that was never claimed.
    method ChanWrite(i: nat, buf: array<byte>, sz: nat, over: seq<byte>) returns (fault: bool, rc: nat)
      requires Valid() && i < CHANNELS && sz <= MSG_SIZE && sz <= buf.Length && |over| == WordBytes(sz) - sz
      modifies this`regs
      ensures Valid() && fault == !chans[i].mapped && rc == sz
      ensures regs == if fault then old(regs)
                      else old(regs)[i := old(regs)[i].(data := Written(buf[..sz] + over))]
    {
      if !chans[i].mapped {
        return true, sz;
      }
      var len := sz / WORD_SIZE;
      if sz % WORD_SIZE != 0 {
        len := len + 1;
      }
      ghost var msg, was, data := buf[..sz] + over, regs, regs[i].data;
      var k := 0;
      while k < len
        invariant 0 <= k <= len <= DATA_REGS && Valid()
        invariant regs == was[i := was[i].(data := data)] && data[..k] == Written(msg)[..k]
      {
        var w := LoadWord(buf, sz, over, k);
        StoreReg(i, k, w, was, data);
        PrefixSet(data, Written(msg), k);
        data := data[k := w];
        k := k + 1;
      }
      while k < DATA_REGS
        invariant len <= k <= DATA_REGS && Valid()
        invariant regs == was[i := was[i].(data := data)] && data[..k] == Written(msg)[..k]
      {
        StoreReg(i, k, 0, was, data);
        PrefixSet(data, Written(msg), k);
        data := data[k := 0];
        k := k + 1;
      }
      assert data == Written(msg);
      fault, rc := false, sz;
    }

    // Fills whole words of the buffer, up to what the registers hold.
    method ChanRead(i: nat, buf: array<byte>, sz: nat) returns (fault: bool, rc: nat)
      requires Valid() && i < CHANNELS && ReadBytes(sz) <= buf.Length
      modifies buf
      ensures fault == (!chans[i].mapped && sz > 0)
      ensures if fault then buf[..] == old(buf[..])
              else rc == ReadBytes(sz) && buf[..] == Bytes(regs[i].data)[..rc] + old(buf[..])[rc..]
    {
      if !chans[i].mapped && sz > 0 {
        return true, 0;
      }
      var len := sz / WORD_SIZE;
      if sz % WORD_SIZE != 0 {
        len := len + 1;
      }
      ghost var was := buf[..];
      var data, k := regs[i].data, 0;
      while k < len && k < DATA_REGS
        invariant 0 <= k <= len && k <= DATA_REGS
        invariant buf[..] == Bytes(data)[..WORD_SIZE * k] + was[WORD_SIZE * k..]
      {
        ReadWord(buf, k, was, data);
        k := k + 1;
      }
      fault, rc := false, k * WORD_SIZE;
    }

    method EventSet(i: nat, event: bv32) returns (fault: bool)
      requires Valid() && i < CHANNELS
      modifies this`regs
      ensures Valid() && fault == !chans[i].mapped
      ensures regs == if fault then old(regs)
                      else old(regs)[i := old(regs)[i].(status := old(regs)[i].status + {event})]
    {
      if !chans[i].mapped {
        return true;
      }
      regs := regs[i := regs[i].(status := regs[i].status + {event})];
      fault := false;
    }

    method EventClear(i: nat, event: bv32) returns (fault: bool)
      requires Valid() && i < CHANNELS
      modifies this`regs
      ensures Valid() && fault == !chans[i].mapped
      ensures regs == if fault then old(regs)
                      else old(regs)[i := old(regs)[i].(status := old(regs)[i].status - {event})]
    {
      if !chans[i].mapped {
        return true;
      }
      regs := regs[i := regs[i].(status := regs[i].status - {event})];
      fault := false;
    }

    // Releases the channels in order. This faults if and only if some channel has never
    // been claimed; the channels before the first such one are released by then.
    method Remove(inInterrupt: bool) returns (fault: bool)
      requires Valid()
      modifies this
      ensures Valid()
      ensures fault <==> !inInterrupt && exists i :: 0 <= i < CHANNELS && !old(chans)[i].mapped
      ensures forall i :: 0 <= i < CHANNELS ==>
                (chans[i], regs[i]) ==
                if inInterrupt || (exists j :: 0 <= j <= i && !old(chans)[j].mapped) then (old(chans)[i], old(regs)[i])
                else Release(old(chans)[i], old(regs)[i], device)
    {
      for k := 0 to CHANNELS
        invariant Valid()
        invariant inInterrupt || forall i :: 0 <= i < k ==> old(chans)[i].mapped
        invariant forall i :: k <= i < CHANNELS ==> chans[i] == old(chans)[i] && regs[i] == old(regs)[i]
        invariant forall i :: 0 <= i < k ==>
                    (chans[i], regs[i]) == if inInterrupt then (old(chans)[i], old(regs)[i])
                                           else Release(old(chans)[i], old(regs)[i], device)
      {
        var code := ReleaseChan(k, inInterrupt);
        if code == Faulted {
          return true;
        }
      }
      fault := false;
    }
  }
}
