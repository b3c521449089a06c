/**
  The request-body limiter: it buffers the body while counting it, rejects a body
  over the limit, and otherwise replays what it buffered so that the application
  downstream sees the stream as if nothing had been in the way.
*/
module BodyLimit {

  newtype Byte = x: int | 0 <= x < 256

  datatype Message =
    | Request(body: seq<Byte>, moreBody: bool)  // absent fields are the empty body and `false`
    | Disconnect

  /** The Content-Length header: absent, not an integer, or a number. */
  datatype Declared = Absent | Malformed | Length(n: int)

  datatype Decision = Forward | Reject | StillWaiting

  function Size(m: Message): nat { if m.Request? then |m.body| else 0 }

  function Total(ms: seq<Message>): nat {
    if ms == [] then 0 else Total(ms[..|ms| - 1]) + Size(ms[|ms| - 1])
  }

  lemma TotalNothing(maxBytes: int)
    ensures Total([]) == 0 && Modest([], maxBytes)
  {
  }

  lemma TotalSnoc(ms: seq<Message>, m: Message)
    ensures Total(ms + [m]) == Total(ms) + Size(m)
  {
    assert (ms + [m])[..|ms|] == ms;
  }

  /** All but the last buffered message stay within the limit. */
  ghost predicate Modest(buffered: seq<Message>, maxBytes: int) {
    buffered != [] && maxBytes >= 0 ==> Total(buffered[..|buffered| - 1]) <= maxBytes
  }

  lemma StaysModest(buffered: seq<Message>, m: Message, maxBytes: int)
    requires buffered != [] ==> Total(buffered) <= maxBytes
    ensures Modest(buffered + [m], maxBytes)
  {
    assert (buffered + [m])[..|buffered|] == buffered;
  }

  /** The bytes of a body, however it is split. */
  function Bytes(ms: seq<Message>): seq<Byte> {
    if ms == [] then [] else Bytes(ms[..|ms| - 1]) + (if ms[|ms| - 1].Request? then ms[|ms| - 1].body else [])
  }

  lemma {:induction false} TotalIsByteCount(ms: seq<Message>)
    ensures Total(ms) == |Bytes(ms)|
  {
    if ms != [] { TotalIsByteCount(ms[..|ms| - 1]); }
  }

  /** One complete request body: every message but the last announces more. */
  ghost predicate CompleteBody(ms: seq<Message>) {
    && ms != []
    && (forall i :: 0 <= i < |ms| ==> ms[i].Request? && (ms[i].moreBody <==> i < |ms| - 1))
  }

  /** A piece of the body that announces another one. */
  predicate Continues(m: Message) { m.Request? && m.moreBody }

  /** The messages the client has sent so far, and how many were received. */
  class Receiver {
    const arrived: seq<Message>
    var pos: nat

    ghost predicate Valid() reads this { pos <= |arrived| }

    function Pending(): seq<Message>
      requires Valid()
      reads this
    {
      arrived[pos..]
    }

    constructor (arrived: seq<Message>)
      ensures Valid() && Pending() == arrived
    {
      this.arrived, pos := arrived, 0;
    }

    /** Receives the next message; when none has arrived yet the call stays pending. */
    method Receive() returns (ok: bool, m: Message)
      requires Valid()
      modifies this`pos
      ensures Valid() && ok == (old(Pending()) != [])
      ensures ok ==> m == old(Pending())[0] && Pending() == old(Pending())[1..] && pos == old(pos) + 1
      ensures !ok ==> pos == old(pos)
    {
      if pos == |arrived| {
        return false, Disconnect;
      }
      ok, m := true, arrived[pos];
      pos := pos + 1;
    }
  }

  /** The middleware's buffering loop, without its header shortcut. */
  method Buffer(receiver: Receiver, maxBytes: int) returns (decision: Decision, buffered: seq<Message>)
    requires receiver.Valid()
    modifies receiver`pos
    ensures receiver.Valid()
    ensures old(receiver.pos) <= receiver.pos && buffered == receiver.arrived[old(receiver.pos)..receiver.pos]
    ensures decision == Decide(old(receiver.Pending()), maxBytes, 0)
    ensures Modest(buffered, maxBytes)
    ensures decision == Reject <==> buffered != [] && buffered[|buffered| - 1].Request? && Total(buffered) > maxBytes
    // It stops at the first message that ends the body or that exceeds the limit, and otherwise waits for more.
    ensures forall i :: 0 <= i < |buffered| - 1 ==> Continues(buffered[i])
    ensures decision == Forward ==>
              && buffered != [] && !Continues(buffered[|buffered| - 1])
              && (buffered[|buffered| - 1].Request? ==> Total(buffered) <= maxBytes)
    ensures decision == StillWaiting ==>
              && receiver.pos == |receiver.arrived| && (buffered != [] ==> Continues(buffered[|buffered| - 1]))
              && (buffered != [] ==> Total(buffered) <= maxBytes)
  {
    hide Decide, Total, Modest;
    TotalNothing(maxBytes);
    buffered := [];
    var total := 0;
    var moreBody := true;
    ghost var stream := receiver.Pending();
    while moreBody
      invariant receiver.Valid()
      invariant old(receiver.pos) <= receiver.pos && buffered == receiver.arrived[old(receiver.pos)..receiver.pos]
      invariant total == Total(buffered)
      invariant Modest(buffered, maxBytes) && (buffered != [] ==> total <= maxBytes)
      invariant forall i :: 0 <= i < |buffered| - 1 ==> Continues(buffered[i])
      invariant buffered == [] ==> moreBody
      invariant buffered != [] ==>
                  buffered[|buffered| - 1].Request? && (moreBody <==> buffered[|buffered| - 1].moreBody)
      invariant if moreBody then Decide(stream, maxBytes, 0) == Decide(receiver.Pending(), maxBytes, total)
                            else Decide(stream, maxBytes, 0) == Forward
      decreases moreBody, |receiver.Pending()|
    {
      ghost var pending := receiver.Pending();
      DecideStep(pending, maxBytes, total);
      var ok, message := receiver.Receive();
      if !ok {
        return StillWaiting, buffered;
      }
      TotalSnoc(buffered, message);
      StaysModest(buffered, message, maxBytes);
      buffered := buffered + [message];
      if message.Disconnect? {
        return Forward, buffered;
      }
      total := total + |message.body|;
      if total > maxBytes {
        return Reject, buffered;
      }
      moreBody := message.moreBody;
    }
    return Forward, buffered;
  }

  /** What becomes of a stream when `total` bytes were counted before it. */
  function Decide(ms: seq<Message>, maxBytes: int, total: nat): Decision {
    if ms == [] then StillWaiting
    else match ms[0]
      case Disconnect => Forward
      case Request(body, moreBody) =>
        if total + |body| > maxBytes then Reject
        else if moreBody then Decide(ms[1..], maxBytes, total + |body|)
        else Forward
  }

  lemma DecideStep(ms: seq<Message>, maxBytes: int, total: nat)
    ensures Decide(ms, maxBytes, total) ==
      if ms == [] then StillWaiting
      else match ms[0]
        case Disconnect => Forward
        case Request(body, moreBody) =>
          if total + |body| > maxBytes then Reject
          else if moreBody then Decide(ms[1..], maxBytes, total + |body|)
          else Forward
  {
  }

  // ---------------------------------------------------------------- the decision

  lemma {:induction false} TotalCons(ms: seq<Message>)
    requires ms != []
    ensures Total(ms) == Size(ms[0]) + Total(ms[1..])
  {
    if |ms| > 1 {
      TotalCons(ms[..|ms| - 1]);
      assert ms[..|ms| - 1][1..] == ms[1..][..|ms| - 2];
      assert ms[1..][|ms| - 2] == ms[|ms| - 1];
    } else {
      assert ms[..0] == [] && ms[1..] == [];
    }
  }

  lemma {:induction false} DecideBySize(body: seq<Message>, later: seq<Message>, maxBytes: int, total: nat)
    requires CompleteBody(body)
    ensures Decide(body + later, maxBytes, total) == if total + Total(body) > maxBytes then Reject else Forward
  {
    TotalCons(body);
    assert (body + later)[0] == body[0] && body[0].Request?;
    if |body| == 1 {
      assert Total(body[1..]) == 0;
    } else {
      assert (body + later)[1..] == body[1..] + later;
      forall i | 0 <= i < |body[1..]|
        ensures body[1..][i].Request? && (body[1..][i].moreBody <==> i < |body[1..]| - 1)
      {
        assert body[1..][i] == body[i + 1];
      }
      assert body[0].moreBody;
      if total + |body[0].body| <= maxBytes {
        DecideBySize(body[1..], later, maxBytes, total + |body[0].body|);
      }
    }
  }

  /** Any two splits of the same bytes get the same decision, and it depends on their number only. */
  lemma DecisionIgnoresSplit(body: seq<Message>, later: seq<Message>, body': seq<Message>, later': seq<Message>,
                             maxBytes: int)
    requires CompleteBody(body) && CompleteBody(body') && Bytes(body) == Bytes(body')
    ensures Decide(body + later, maxBytes, 0) == Decide(body' + later', maxBytes, 0)
    ensures Decide(body + later, maxBytes, 0) == if |Bytes(body)| > maxBytes then Reject else Forward
  {
    TotalIsByteCount(body);
    TotalIsByteCount(body');
    DecideBySize(body, later, maxBytes, 0);
    DecideBySize(body', later', maxBytes, 0);
  }

  // ---------------------------------------------------------------- the replay

  /** The receive callable handed downstream: first the buffered messages, then the client. */
  class Replay {
    const messages: seq<Message>
    var next: nat
    const downstream: Receiver

    ghost predicate Valid() reads this, downstream { next <= |messages| && downstream.Valid() }

    /** Everything this callable will still deliver of what has arrived. */
    ghost function Pending(): seq<Message>
      requires Valid()
      reads this, downstream
    {
      messages[next..] + downstream.Pending()
    }

    constructor (messages: seq<Message>, downstream: Receiver)
      requires downstream.Valid()
      ensures Valid() && Pending() == messages + downstream.Pending() && this.downstream == downstream
    {
      this.messages, next, this.downstream := messages, 0, downstream;
    }

    method Receive() returns (ok: bool, m: Message)
      requires Valid()
      modifies this`next, downstream`pos
      ensures Valid() && ok == (old(Pending()) != [])
      ensures ok ==> m == old(Pending())[0] && Pending() == old(Pending())[1..]
      ensures !ok ==> Pending() == old(Pending())
    {
      if next < |messages| {
        ok, m := true, messages[next];
        next := next + 1;
      } else {
        ok, m := downstream.Receive();
      }
    }

    /** Any number of receive calls, as the application makes them. */
    method ReceiveMany(n: nat) returns (got: seq<Message>)
      requires Valid()
      modifies this`next, downstream`pos
      ensures Valid()
      ensures got + Pending() == old(Pending())
      ensures |got| == if n <= |old(Pending())| then n else |old(Pending())|
    {
      got := [];
      ghost var stream := Pending();
      for i := 0 to n
        invariant Valid() && got + Pending() == stream
        invariant |got| == if i <= |stream| then i else |stream|
      {
        ghost var was := Pending();
        var ok, m := Receive();
        if ok {
          assert was == [m] + Pending();
          got := got + [m];
        }
      }
    }
  }

  /**
    The middleware in front of an application that makes `calls` receive calls.
    If it forwards, the application gets exactly the stream the client sent; the
    body of a rejected or still incomplete request never reaches it.
  */
  method Handle(stream: seq<Message>, declared: Declared, maxBytes: int, calls: nat)
    returns (decision: Decision, seen: seq<Message>)
    ensures declared.Length? && declared.n > maxBytes ==> decision == Reject
    ensures !(declared.Length? && declared.n > maxBytes) ==> decision == Decide(stream, maxBytes, 0)
    ensures decision == Forward ==> seen == if calls <= |stream| then stream[..calls] else stream
    ensures decision != Forward ==> seen == []
  {
    seen := [];
    if declared.Length? && declared.n > maxBytes {
      return Reject, seen;
    }
    var receiver := new Receiver(stream);
    var buffered;
    decision, buffered := Buffer(receiver, maxBytes);
    assert buffered + receiver.Pending() == stream;
    if decision == Forward {
      var replay := new Replay(buffered, receiver);
      seen := replay.ReceiveMany(calls);
      assert seen + replay.Pending() == stream;
      assert seen == stream[..|seen|];
    }
  }
}
