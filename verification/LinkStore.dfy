// The store of open links: a chain that is appended to, searched by name, and
// drained from the front. A link's name may be missing.
module LinkStore {
  import opened Options

  datatype LinkRef = LinkRef(id: nat, name: Option<string>)

  // The position of the first link with this name, or the length of the chain.
  function FirstMatch(chain: seq<LinkRef>, name: Option<string>): (k: nat)
    ensures k <= |chain|
    ensures k < |chain| ==> chain[k].name == name
    ensures forall i :: 0 <= i < k ==> chain[i].name != name
  {
    if chain == [] || chain[0].name == name then 0 else 1 + FirstMatch(chain[1..], name)
  }

  class Store {
    var chain: seq<LinkRef>

    constructor ()
      ensures chain == []
    {
      chain := [];
    }

    // Names are compared as strings, and two missing names match. `k` is the
    // length of the chain when no link matches.
    method NodeGet(name: Option<string>) returns (k: nat)
      ensures k == FirstMatch(chain, name)
    {
      k := 0;
      while k < |chain|
        invariant 0 <= k <= |chain|
        invariant forall i :: 0 <= i < k ==> chain[i].name != name
      {
        var other := chain[k].name;
        if (name.Some? && other.None?) || (name.None? && other.Some?) {
          k := k + 1;
          continue;
        }
        if (name.None? && other.None?) || name.value == other.value {
          FirstMatchUnique(chain, name, k);
          return;
        }
        k := k + 1;
      }
      FirstMatchUnique(chain, name, k);
    }

    // `memory` says whether a node could be allocated.
    method Append(l: LinkRef, memory: bool) returns (ok: bool)
      modifies this
      ensures ok == memory && chain == if ok then old(chain) + [l] else old(chain)
    {
      if !memory {
        return false;
      }
      chain := chain + [l];
      ok := true;
    }

    method Contains(name: Option<string>) returns (b: bool)
      ensures b <==> exists l :: l in chain && l.name == name
    {
      var k := NodeGet(name);
      b := k < |chain|;
      assert b ==> chain[k] in chain && chain[k].name == name;
    }

    method IsEmpty() returns (b: bool)
      ensures b <==> chain == []
    {
      b := |chain| == 0;
    }

    method Get(name: Option<string>) returns (l: Option<LinkRef>)
      ensures var k := FirstMatch(chain, name);
              l == if k < |chain| then Some(chain[k]) else None
    {
      var k := NodeGet(name);
      l := if k < |chain| then Some(chain[k]) else None;
    }

    // Removes the first link with this name and no other.
    method Extract(name: Option<string>) returns (l: Option<LinkRef>)
      modifies this
      ensures var k := FirstMatch(old(chain), name);
              if k < |old(chain)|
              then l == Some(old(chain)[k]) && chain == old(chain)[..k] + old(chain)[k + 1..]
              else l == None && chain == old(chain)
    {
      var k := NodeGet(name);
      if k < |chain| {
        l := Some(chain[k]);
        chain := chain[..k] + chain[k + 1..];
      } else {
        l := None;
      }
    }

    method ExtractFirst() returns (l: Option<LinkRef>)
      modifies this
      ensures if old(chain) == [] then l == None && chain == []
              else l == Some(old(chain)[0]) && chain == old(chain)[1..]
    {
      if chain == [] {
        return None;
      }
      l := Some(chain[0]);
      chain := chain[1..];
    }

    // The drain of shutdown: every stored link is closed once, in the order in
    // which the links were appended, and the store ends up empty.
    method Drain() returns (closed: seq<LinkRef>)
      modifies this
      ensures closed == old(chain) && chain == []
    {
      closed := [];
      var l := ExtractFirst();
      while l.Some?
        invariant l.Some? ==> old(chain) == closed + [l.value] + chain
        invariant l.None? ==> old(chain) == closed && chain == []
        decreases l.Some?, |chain|
      {
        closed := closed + [l.value];
        assert old(chain) == closed + chain;
        l := ExtractFirst();
      }
    }
  }

  lemma FirstMatchUnique(chain: seq<LinkRef>, name: Option<string>, k: nat)
    requires k <= |chain| && (k < |chain| ==> chain[k].name == name)
    requires forall i :: 0 <= i < k ==> chain[i].name != name
    ensures k == FirstMatch(chain, name)
  {
  }

  // What was appended is found again: at its own place when no earlier link has
  // the name, and extracting it restores the store.
  lemma AppendThenFind(chain: seq<LinkRef>, l: LinkRef)
    requires forall i :: 0 <= i < |chain| ==> chain[i].name != l.name
    ensures FirstMatch(chain + [l], l.name) == |chain|
    ensures var k := FirstMatch(chain + [l], l.name); (chain + [l])[..k] + (chain + [l])[k + 1..] == chain
  {
    FirstMatchUnique(chain + [l], l.name, |chain|);
  }

  // With duplicate names the oldest wins, whatever is appended later.
  lemma OldestWins(chain: seq<LinkRef>, l: LinkRef, name: Option<string>)
    requires exists i :: 0 <= i < |chain| && chain[i].name == name
    ensures FirstMatch(chain + [l], name) == FirstMatch(chain, name) < |chain|
  {
    FirstMatchUnique(chain + [l], name, FirstMatch(chain, name));
  }
}
