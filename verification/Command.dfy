// command.c as its one static object: the queue, the registered callbacks, and
// what handling a command does.
module Command {
  import opened CommandRing
  import opened Options

  // A queued command: what it carries, and whether it has its own callback.
  datatype Item<T> = Item(cmd: T, hasCallback: bool)

  datatype Status = Success | HandlerFailed | ReplyFailed | Unknown

  // A call of the command's own callback or of the registered global one.
  datatype Call<T> = Own(cmd: T, status: Status) | Global(cmd: T, status: Status)

  // What a status tells a callback: whether the server failed, and if it did not and
  // produced a reply, whether that could be sent.
  predicate Reports(status: Status, replySize: int, sent: nat) {
    && (status == HandlerFailed <==> replySize < 0)
    && (status == ReplyFailed <==> replySize > 0 && sent == 0)
    && (status == Success <==> replySize == 0 || (replySize > 0 && sent != 0))
    && status != Unknown
  }

  // `replySize` is what the server callback returns; `sent` what link_request_send
  // returns, asked for only when there is a reply.
  function StatusOf(replySize: int, sent: nat): (status: Status)
    ensures Reports(status, replySize, sent)
  {
    if replySize < 0 then HandlerFailed
    else if replySize == 0 then Success
    else if sent == 0 then ReplyFailed
    else Success
  }

  function OwnCalls<T>(item: Item<T>, status: Status): seq<Call<T>> {
    if item.hasCallback then [Own(item.cmd, status)] else []
  }

  function GlobalCalls<T>(item: Item<T>, status: Status, hasGlobal: bool): seq<Call<T>> {
    if hasGlobal then [Global(item.cmd, status)] else []
  }

  // The calls made when a command completes: its own callback first.
  function Completion<T>(item: Item<T>, status: Status, hasGlobal: bool): seq<Call<T>> {
    OwnCalls(item, status) + GlobalCalls(item, status, hasGlobal)
  }

  // The calls made once the items have completed in order, after `calls`.
  function Made<T>(calls: seq<Call<T>>, items: seq<Item<T>>, server: T -> int, send: T -> nat, hasGlobal: bool):
    seq<Call<T>>
    decreases |items|
  {
    if items == [] then calls
    else
      var status := StatusOf(server(items[0].cmd), send(items[0].cmd));
      Made(calls + Completion(items[0], status, hasGlobal), items[1..], server, send, hasGlobal)
  }

  lemma MadeNext<T>(calls: seq<Call<T>>, item: Item<T>, rest: seq<Item<T>>,
                    server: T -> int, send: T -> nat, hasGlobal: bool)
    ensures Made(calls, [item] + rest, server, send, hasGlobal) ==
            Made(calls + Completion(item, StatusOf(server(item.cmd), send(item.cmd)), hasGlobal),
                 rest, server, send, hasGlobal)
  {
    assert ([item] + rest)[1..] == rest;
  }

  // How often `call` occurs among the calls made.
  function Count<T(==)>(calls: seq<Call<T>>, call: Call<T>): nat {
    if calls == [] then 0
    else Count(calls[..|calls| - 1], call) + if calls[|calls| - 1] == call then 1 else 0
  }

  lemma {:induction false} CountAppend<T>(a: seq<Call<T>>, b: seq<Call<T>>, call: Call<T>)
    ensures Count(a + b, call) == Count(a, call) + Count(b, call)
    decreases |b|
  {
    if b == [] {
      assert a + b == a;
    } else {
      assert (a + b)[..|a + b| - 1] == a + b[..|b| - 1];
      CountAppend(a, b[..|b| - 1], call);
    }
  }

  // The calls of one completion: its own callback if it has one, the global one if
  // there is one, each once and with the same status.
  lemma CompletionCount<T>(item: Item<T>, status: Status, hasGlobal: bool, call: Call<T>)
    ensures Count(Completion(item, status, hasGlobal), call) ==
            if call.Own? then (if item.hasCallback && call == Own(item.cmd, status) then 1 else 0)
            else (if hasGlobal && call == Global(item.cmd, status) then 1 else 0)
  {
    var own, glob := OwnCalls(item, status), GlobalCalls(item, status, hasGlobal);
    CountAppend(own, glob, call);
    assert own != [] ==> own[..|own| - 1] == [];
    assert glob != [] ==> glob[..|glob| - 1] == [];
  }

  // Whether a command owes this call when it completes.
  predicate Owes<T(==)>(item: Item<T>, replySize: int, sent: nat, hasGlobal: bool, call: Call<T>) {
    call.cmd == item.cmd && Reports(call.status, replySize, sent) && if call.Own? then item.hasCallback else hasGlobal
  }

  // How many of the commands owe it.
  function Owing<T(==)>(items: seq<Item<T>>, server: T -> int, send: T -> nat, hasGlobal: bool, call: Call<T>): nat {
    if items == [] then 0
    else
      (if Owes(items[0], server(items[0].cmd), send(items[0].cmd), hasGlobal, call) then 1 else 0) +
      Owing(items[1..], server, send, hasGlobal, call)
  }

  // Over a whole flush every call is made exactly as often as it is owed, so with the
  // status that reports what happened to its command.
  lemma {:induction false} CompletedOnce<T>(calls: seq<Call<T>>, items: seq<Item<T>>,
                                            server: T -> int, send: T -> nat, hasGlobal: bool, call: Call<T>)
    ensures Count(Made(calls, items, server, send, hasGlobal), call) ==
            Count(calls, call) + Owing(items, server, send, hasGlobal, call)
    decreases |items|
  {
    if items != [] {
      var status := StatusOf(server(items[0].cmd), send(items[0].cmd));
      var more := Completion(items[0], status, hasGlobal);
      CompletedOnce(calls + more, items[1..], server, send, hasGlobal, call);
      CompletionCount(items[0], status, hasGlobal, call);
      CountAppend(calls, more, call);
    }
  }

  // The calls of a command queued later come later, and its own callback comes first.
  lemma {:induction false} LastComesLast<T>(calls: seq<Call<T>>, items: seq<Item<T>>, last: Item<T>,
                                            server: T -> int, send: T -> nat, hasGlobal: bool) returns (status: Status)
    ensures Reports(status, server(last.cmd), send(last.cmd))
    ensures Made(calls, items + [last], server, send, hasGlobal) ==
            Made(calls, items, server, send, hasGlobal)
            + (if last.hasCallback then [Own(last.cmd, status)] else [])
            + (if hasGlobal then [Global(last.cmd, status)] else [])
    decreases |items|
  {
    if items == [] {
      status := StatusOf(server(last.cmd), send(last.cmd));
      assert [] + [last] == [last];
      assert calls + Completion(last, status, hasGlobal) ==
             calls + OwnCalls(last, status) + GlobalCalls(last, status, hasGlobal);
    } else {
      var first := StatusOf(server(items[0].cmd), send(items[0].cmd));
      assert (items + [last])[1..] == items[1..] + [last];
      var more := calls + Completion(items[0], first, hasGlobal);
      status := LastComesLast(more, items[1..], last, server, send, hasGlobal);
    }
  }

  function Front<T>(x: Option<Item<T>>): seq<Item<T>> { if x.Some? then [x.value] else [] }

  class CmdQueue<T(0)> {
    const q: array<Item<T>>
    var head: nat
    var tail: nat
    var hasGlobal: bool
    var calls: seq<Call<T>>      // the callbacks run so far

    ghost predicate Valid()
      reads this`head, this`tail
    {
      2 <= q.Length && head < q.Length && tail < q.Length
    }

    ghost function View(): (r: Ring<Item<T>>)
      requires Valid()
      reads this`head, this`tail, q
      ensures r.Valid() && |r.q| == q.Length
    {
      Ring(q[..], head, tail)
    }

    constructor (n: nat, zero: Item<T>)
      requires 2 <= n
      ensures Valid() && q.Length == n && fresh(q)
      ensures View().Contents() == [] && calls == [] && !hasGlobal
    {
      q := new Item<T>[n](_ => zero);
      head, tail, hasGlobal, calls := 0, 0, false, [];
    }

    method SizeUnsafe() returns (n: nat)
      requires Valid()
      ensures n == |View().Contents()|
    {
      SizeIsLength(View());
      n := if head >= tail then head - tail else q.Length - tail + head;
    }

    // Returns 1 and changes nothing when the check as written reports a full queue.
    method EnqueueUnsafe(x: Item<T>) returns (rc: int)
      requires Valid()
      modifies this`head, q
      ensures Valid()
      ensures (View(), rc == 0) == old(View()).Enqueue(x) && rc in {0, 1}
    {
      if head + 1 % q.Length == tail {
        return 1;
      }
      Advance(head, q.Length);
      head := (head + 1) % q.Length;
      q[head] := x;
      rc := 0;
    }

    method DequeueUnsafe() returns (x: Option<Item<T>>)
      requires Valid()
      modifies this`tail
      ensures Valid() && (View(), x) == old(View()).Dequeue()
    {
      if head == tail {
        return None;
      }
      Advance(tail, q.Length);
      tail := (tail + 1) % q.Length;
      x := Some(q[tail]);
    }

    // The same under the queue's lock, in terms of the queued items.
    method Dequeue() returns (x: Option<Item<T>>)
      requires Valid()
      modifies this`tail
      ensures Valid()
      ensures old(View().Contents()) == Front(x) + View().Contents()
      ensures x.None? ==> View().Contents() == []
    {
      DequeueIsFifo(View());
      x := DequeueUnsafe();
    }

    method DropAll() returns (n: nat)
      requires Valid()
      modifies this`tail
      ensures Valid() && (View(), n) == old(View()).DropAll()
      ensures View().Contents() == [] && n == |old(View().Contents())|
    {
      DropAllEmpties(View());
      n := SizeUnsafe();
      tail := head;
    }

    method RegisterGlobal()
      modifies this`hasGlobal
      ensures hasGlobal
    {
      hasGlobal := true;
    }

    method UnregisterGlobal()
      modifies this`hasGlobal
      ensures !hasGlobal
    {
      hasGlobal := false;
    }

    // The server callback and the reply's send are code outside this file.
    method Handle(item: Item<T>, server: T -> int, send: T -> nat)
      modifies this`calls
      ensures calls == old(calls) + Completion(item, StatusOf(server(item.cmd), send(item.cmd)), hasGlobal)
      ensures forall status :: Reports(status, server(item.cmd), send(item.cmd)) ==>
                calls == old(calls) + (if item.hasCallback then [Own(item.cmd, status)] else [])
                         + (if hasGlobal then [Global(item.cmd, status)] else [])
    {
      var status := Success;
      var replySize := server(item.cmd);
      if replySize < 0 {
        status := HandlerFailed;
      } else if replySize != 0 {
        var sent := send(item.cmd);
        if sent == 0 {
          status := ReplyFailed;
        }
      }
      if item.hasCallback {
        calls := calls + [Own(item.cmd, status)];
      }
      if hasGlobal {
        calls := calls + [Global(item.cmd, status)];
      }
    }

    // Handles what is queued, oldest first, until the queue is empty.
    method Flush(server: T -> int, send: T -> nat) returns (n: nat)
      requires Valid()
      modifies this`tail, this`calls
      ensures Valid() && View().Contents() == []
      ensures n == |old(View().Contents())|
      ensures calls == Made(old(calls), old(View().Contents()), server, send, hasGlobal)
    {
      ghost var goal := Made(calls, View().Contents(), server, send, hasGlobal);
      ghost var size := |View().Contents()|;
      n := 0;
      var x := Dequeue();
      while x.Some?
        invariant Valid() && (x.None? ==> View().Contents() == [])
        invariant Made(calls, Front(x) + View().Contents(), server, send, hasGlobal) == goal
        invariant n + |Front(x) + View().Contents()| == size
        decreases size - n
      {
        MadeNext(calls, x.value, View().Contents(), server, send, hasGlobal);
        Handle(x.value, server, send);
        n := n + 1;
        x := Dequeue();
      }
    }
  }
}
