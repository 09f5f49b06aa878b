// Building messages in place, and the server that answers them.
module HpscMsg {
  import opened Messages

  const NOP: byte := 0
  const PING: byte := 1
  const PONG: byte := 2

  // A buffer after its type byte and payload have been filled in: bytes 1 to 3 and
  // everything behind the payload keep what they held.
  function Filled(buf: seq<byte>, kind: byte, payload: seq<byte>): (b: seq<byte>)
    requires |buf| == MSG_SIZE && |payload| <= PAYLOAD_SIZE
    ensures |b| == MSG_SIZE
  {
    [kind] + buf[1..PAYLOAD_OFFSET] + payload + buf[PAYLOAD_OFFSET + |payload|..]
  }

  lemma FilledAt(buf: seq<byte>, kind: byte, payload: seq<byte>, k: nat)
    requires |buf| == MSG_SIZE && |payload| <= PAYLOAD_SIZE && k < MSG_SIZE
    ensures Filled(buf, kind, payload)[k] ==
            if k == 0 then kind else if 4 <= k < 4 + |payload| then payload[k - 4] else buf[k]
  {
  }

  // `src` is the array the payload pointer points into, at `at`; null for no payload.
  method MsgFill(buf: array<byte>, kind: byte, src: array?<byte>, at: nat, psz: nat)
    requires buf.Length == MSG_SIZE && psz <= PAYLOAD_SIZE
    requires src != null ==> src != buf && at + psz <= src.Length
    modifies buf
    ensures buf[..] == Filled(old(buf[..]), kind, if src == null then [] else src[at..at + psz])
  {
    buf[0] := kind;
    if src != null {
      forall i | 0 <= i < psz {
        buf[PAYLOAD_OFFSET + i] := src[at + i];
      }
    }
  }

  method Ping(buf: array<byte>, sz: nat, src: array?<byte>, at: nat, psz: nat)
    requires sz == MSG_SIZE == buf.Length && psz <= PAYLOAD_SIZE
    requires src != null ==> src != buf && at + psz <= src.Length
    modifies buf
    ensures buf[..] == Filled(old(buf[..]), PING, if src == null then [] else src[at..at + psz])
  {
    MsgFill(buf, PING, src, at, psz);
  }

  method Pong(buf: array<byte>, sz: nat, src: array?<byte>, at: nat, psz: nat)
    requires sz == MSG_SIZE == buf.Length && psz <= PAYLOAD_SIZE
    requires src != null ==> src != buf && at + psz <= src.Length
    modifies buf
    ensures buf[..] == Filled(old(buf[..]), PONG, if src == null then [] else src[at..at + psz])
  {
    MsgFill(buf, PONG, src, at, psz);
  }

  // The server callback: bytes of reply produced, 0 for none, -1 for an unknown
  // command. The reply buffer changes only for a PING.
  method ServerProcess(msg: array<byte>, reply: array<byte>, replySz: nat) returns (rc: int)
    requires msg.Length == MSG_SIZE && replySz == MSG_SIZE == reply.Length && msg != reply
    modifies reply
    ensures rc == ReplySize(msg[..])
    ensures reply[..] == ReplyBuffer(msg[..], old(reply[..]))
  {
    if msg[0] == NOP {
      rc := 0;
    } else if msg[0] == PING {
      Pong(reply, replySz, msg, PAYLOAD_OFFSET, PAYLOAD_SIZE);
      rc := replySz;
    } else if msg[0] == PONG {
      rc := 0;
    } else {
      rc := -1;
    }
  }

  function ReplySize(msg: seq<byte>): int
    requires |msg| == MSG_SIZE
  {
    if msg[0] == PING then MSG_SIZE else if msg[0] == NOP || msg[0] == PONG then 0 else -1
  }

  function ReplyBuffer(msg: seq<byte>, reply: seq<byte>): (r: seq<byte>)
    requires |msg| == MSG_SIZE == |reply|
    ensures |r| == MSG_SIZE
  {
    if msg[0] == PING then Filled(reply, PONG, msg[PAYLOAD_OFFSET..]) else reply
  }

  // The reply as the handler sends it: its buffer starts out all zero.
  function Reply(msg: seq<byte>): (r: seq<byte>)
    requires |msg| == MSG_SIZE
    ensures |r| == MSG_SIZE
  {
    ReplyBuffer(msg, Zeros(MSG_SIZE))
  }

  // Only an unknown command is a failure, and only a PING is answered; otherwise the reply
  // buffer is left alone.
  lemma AnswersByType(msg: seq<byte>, reply: seq<byte>)
    requires |msg| == MSG_SIZE == |reply|
    ensures msg[0] != 1 ==> ReplyBuffer(msg, reply) == reply
    ensures ReplySize(msg) < 0 <==> msg[0] !in {0, 1, 2}
    ensures ReplySize(msg) > 0 <==> msg[0] == 1
    ensures ReplySize(msg) >= 0 ==> ReplySize(msg) in {0, 64}
  {
  }

  // A PING is answered by a PONG with the same payload and zero bytes 1 to 3.
  lemma PingIsEchoed(buf: seq<byte>, payload: seq<byte>)
    requires |buf| == MSG_SIZE && |payload| == PAYLOAD_SIZE
    ensures var ping := Filled(buf, PING, payload);
            && ReplySize(ping) == MSG_SIZE
            && Reply(ping) == [PONG, 0, 0, 0] + payload
  {
  }

  // A PONG is never answered, so two servers cannot keep each other busy.
  lemma PongIsNotAnswered(msg: seq<byte>)
    requires |msg| == MSG_SIZE && ReplySize(msg) > 0
    ensures ReplySize(Reply(msg)) == 0
  {
  }
}
