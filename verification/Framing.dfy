/**
 * Length-prefixed messages over a byte stream: the talker's frames and the listener's inverse
 * (berkeley_socket_interface.py:83-98, 170-184). A send may write only a part of a frame; a receive
 * returns all the bytes it asks for that the stream still holds.
 */
module Framing {
  import opened Options
  import opened Bytes

  /** The largest length that two bytes hold; `to_bytes` raises above it. */
  const MAX_LENGTH := 65535

  /** `int.from_bytes(head, "big")` */
  function BigEndian(head: seq<Byte>): nat {
    if head == [] then 0
    else
      var high: nat, low: nat := BigEndian(head[..|head| - 1]), head[|head| - 1];
      high * 256 + low
  }

  /** A frame, or the OverflowError of a payload that is too long. */
  function Frame(payload: seq<Byte>): (r: Option<seq<Byte>>)
    ensures r.Some? <==> |payload| <= MAX_LENGTH
    ensures r.Some? ==>
              && |r.value| == |payload| + 2
              && BigEndian(r.value[..2]) == |payload| && r.value[2..] == payload
  {
    var length: int := |payload|;
    if length > MAX_LENGTH then None
    else
      FrameLength(length);
      var head: seq<Byte> := [length / 256, length % 256];
      assert (head + payload)[..2] == head && (head + payload)[2..] == payload;
      Some(head + payload)
  }

  predicate AllFit(payloads: seq<seq<Byte>>) {
    forall i :: 0 <= i < |payloads| ==> |payloads[i]| <= MAX_LENGTH
  }

  /** How many payloads can be framed before one is too long. */
  function Framable(payloads: seq<seq<Byte>>): (k: nat)
    ensures k <= |payloads|
    ensures forall i :: 0 <= i < k ==> |payloads[i]| <= MAX_LENGTH
    ensures k < |payloads| ==> |payloads[k]| > MAX_LENGTH
  {
    if payloads == [] || |payloads[0]| > MAX_LENGTH then 0 else 1 + Framable(payloads[1..])
  }

  /** The first `n` bytes of a stream, or all it holds. */
  function Received(stream: seq<Byte>, n: nat): (r: seq<Byte>)
    ensures r <= stream
  {
    if |stream| < n then stream else stream[..n]
  }

  /** The concatenated frames of payloads that are short enough. */
  function Frames(payloads: seq<seq<Byte>>): seq<Byte>
    requires AllFit(payloads)
  {
    if payloads == [] then []
    else Frames(payloads[..|payloads| - 1]) + Frame(payloads[|payloads| - 1]).value
  }

  /** What a connection is sent of them, if its send number `k` writes at most `room(k)` bytes. */
  function Sent(payloads: seq<seq<Byte>>, room: nat -> nat): seq<Byte>
    requires AllFit(payloads)
  {
    if payloads == [] then []
    else
      var front := payloads[..|payloads| - 1];
      Sent(front, room) + Received(Frame(payloads[|front|]).value, room(|front|))
  }

  /**
   * The talker's loop: each queued message to each connection; a message too long ends it. Send
   * number `k` on connection `c` writes at most `room(c)(k)` bytes, and its result is not looked at.
   */
  method Publish(queue: seq<seq<Byte>>, connections: nat, room: nat -> nat -> nat)
    returns (streams: seq<seq<Byte>>, failed: bool)
    ensures |streams| == connections
    ensures failed <==> connections > 0 && Framable(queue) < |queue|
    ensures AllFit(queue[..Framable(queue)])
    ensures forall c :: 0 <= c < connections ==> streams[c] == Sent(queue[..Framable(queue)], room(c))
  {
    streams := seq(connections, c => []);
    failed := false;
    var k := 0;
    while k < |queue| && !failed
      invariant k <= |queue| && |streams| == connections
      invariant failed ==> connections > 0 && k == Framable(queue) < |queue|
      invariant connections > 0 ==> k <= Framable(queue)
      invariant AllFit(queue[..Framable(queue)])
      invariant forall c :: 0 <= c < connections ==> streams[c] == Sent(queue[..k], room(c))
      decreases |queue| - k, !failed
    {
      ghost var before := streams;
      var c := 0;
      while c < connections && !failed
        invariant c <= connections && |streams| == connections
        invariant failed ==> c == 0 && |queue[k]| > MAX_LENGTH && connections > 0
        invariant c > 0 ==> |queue[k]| <= MAX_LENGTH
        invariant forall d :: c <= d < connections ==> streams[d] == before[d]
        invariant forall d :: 0 <= d < c ==> streams[d] == before[d] + Received(Frame(queue[k]).value, room(d)(k))
        decreases connections - c, !failed
      {
        var frame := Frame(queue[k]);
        if frame.None? {
          failed := true;
        } else {
          streams := streams[c := streams[c] + Received(frame.value, room(c)(k))];
          c := c + 1;
        }
      }
      if !failed {
        assert queue[..k + 1][..k] == queue[..k];
        k := k + 1;
      }
    }
  }

  /** The payload that the first two bytes announce. */
  function FirstPayload(stream: seq<Byte>): (payload: seq<Byte>)
    ensures |Received(stream, 2)| + |payload| <= |stream|
  {
    var head := Received(stream, 2);
    Received(stream[|head|..], BigEndian(head))
  }

  function AfterFirst(stream: seq<Byte>): (rest: seq<Byte>)
    ensures stream != [] ==> |rest| < |stream|
  {
    stream[|Received(stream, 2)| + |FirstPayload(stream)|..]
  }

  /** The payloads a listener cuts out of a stream; the last may be cut short by the stream's end. */
  function Split(stream: seq<Byte>): seq<seq<Byte>> {
    if stream == [] then [] else [FirstPayload(stream)] + Split(AfterFirst(stream))
  }

  /**
   * What `json.loads(bytes.decode())` makes of a payload; what is not UTF-8 raises an exception that
   * nothing catches.
   */
  datatype Decoded<M> = Good(message: M) | NotJson | NotText

  function Heard<M>(payload: seq<Byte>, decode: seq<Byte> -> Decoded<M>): seq<M> {
    match decode(payload)
    case Good(m) => [m]
    case _ => []
  }

  /** The decoded messages among payloads, in order; what is not JSON is dropped, what is not text ends it. */
  function Collect<M>(payloads: seq<seq<Byte>>, decode: seq<Byte> -> Decoded<M>): seq<M> {
    if payloads == [] || decode(payloads[0]).NotText? then []
    else Heard(payloads[0], decode) + Collect(payloads[1..], decode)
  }

  /** Some payload is not text. */
  predicate Breaks<M>(payloads: seq<seq<Byte>>, decode: seq<Byte> -> Decoded<M>) {
    exists i :: 0 <= i < |payloads| && decode(payloads[i]).NotText?
  }

  lemma CollectOne<M>(payload: seq<Byte>, rest: seq<seq<Byte>>, decode: seq<Byte> -> Decoded<M>)
    ensures decode(payload).NotText? ==> Collect([payload] + rest, decode) == [] && Breaks([payload] + rest, decode)
    ensures !decode(payload).NotText? ==>
              && Collect([payload] + rest, decode) == Heard(payload, decode) + Collect(rest, decode)
              && (Breaks([payload] + rest, decode) <==> Breaks(rest, decode))
  {
    var all := [payload] + rest;
    assert all[1..] == rest;
    if decode(payload).NotText? {
      assert decode(all[0]).NotText?;
    }
    if Breaks(rest, decode) {
      var i :| 0 <= i < |rest| && decode(rest[i]).NotText?;
      assert all[i + 1] == rest[i];
    }
  }

  /** The two receives of one turn of the loop. */
  method ReceiveOne(stream: seq<Byte>) returns (payload: seq<Byte>, rest: seq<Byte>)
    ensures payload == FirstPayload(stream) && rest == AfterFirst(stream)
  {
    var head := Received(stream, 2);
    rest := stream[|head|..];
    payload := Received(rest, BigEndian(head));
    rest := rest[|payload|..];
  }

  /** The listener's loop over one connection, until the stream holds no more or is not text. */
  method HandleSocket<M>(stream: seq<Byte>, decode: seq<Byte> -> Decoded<M>) returns (messages: seq<M>, crashed: bool)
    ensures messages == Collect(Split(stream), decode)
    ensures crashed <==> Breaks(Split(stream), decode)
  {
    messages, crashed := [], false;
    var rest := stream;
    while rest != []
      invariant messages + Collect(Split(rest), decode) == Collect(Split(stream), decode)
      invariant Breaks(Split(rest), decode) <==> Breaks(Split(stream), decode)
      decreases |rest|
    {
      CollectOne(FirstPayload(rest), Split(AfterFirst(rest)), decode);
      SameAfter(messages, Heard(FirstPayload(rest), decode), Collect(Split(AfterFirst(rest)), decode));
      ghost var before := messages;
      var payload, after := ReceiveOne(rest);
      match decode(payload) {
        case Good(m) =>
          messages := messages + [m];
        case NotJson =>
        case NotText =>
          return messages, true;
      }
      assert messages == before + Heard(payload, decode);
      rest := after;
    }
  }

  // ---- the listener undoes the talker ----

  lemma FrameLength(length: nat)
    requires length <= MAX_LENGTH
    ensures BigEndian([length / 256, length % 256]) == length
  {
    var head: seq<Byte> := [length / 256, length % 256];
    assert head[..1] == [length / 256];
    assert head[..1][..0] == [];
    assert BigEndian(head[..1]) == length / 256;
  }

  /** One frame at the front of a stream is read as its payload, whatever follows. */
  lemma SplitFrame(payload: seq<Byte>, tail: seq<Byte>)
    requires |payload| <= MAX_LENGTH
    ensures Split(Frame(payload).value + tail) == [payload] + Split(tail)
  {
    var stream := Frame(payload).value + tail;
    FrameLength(|payload|);
    assert Received(stream, 2) == [|payload| / 256, |payload| % 256];
    assert stream[2..] == payload + tail;
    assert FirstPayload(stream) == payload;
    assert AfterFirst(stream) == tail;
  }

  lemma FramesAppend(front: seq<seq<Byte>>, last: seq<Byte>)
    requires AllFit(front + [last])
    ensures AllFit(front) && |last| <= MAX_LENGTH && Frames(front + [last]) == Frames(front) + Frame(last).value
  {
    var all := front + [last];
    assert all[..|front|] == front && all[|front|] == last;
    assert forall i :: 0 <= i < |front| ==> front[i] == all[i];
  }

  /** What holds of some frames before any tail holds of one frame more. */
  lemma SplitOneMore(front: seq<seq<Byte>>, last: seq<Byte>, tail: seq<Byte>)
    requires AllFit(front + [last]) && AllFit(front) && |last| <= MAX_LENGTH
    requires Split(Frames(front) + (Frame(last).value + tail)) == front + Split(Frame(last).value + tail)
    ensures Split(Frames(front + [last]) + tail) == (front + [last]) + Split(tail)
  {
    FramesAppend(front, last);
    SameAfter(Frames(front), Frame(last).value, tail);
    SplitFrame(last, tail);
    SameAfter(front, [last], Split(tail));
  }

  /**
   * Reading the concatenated frames of any messages returns exactly those messages, empty ones
   * included, and goes on with whatever follows them.
   */
  lemma {:induction false} SplitUndoesFrames(payloads: seq<seq<Byte>>, tail: seq<Byte>)
    requires AllFit(payloads)
    ensures Split(Frames(payloads) + tail) == payloads + Split(tail)
  {
    if payloads == [] {
      assert Frames(payloads) + tail == tail;
    } else {
      var front, last := payloads[..|payloads| - 1], payloads[|payloads| - 1];
      assert payloads == front + [last];
      FramesAppend(front, last);
      SplitUndoesFrames(front, Frame(last).value + tail);
      SplitOneMore(front, last, tail);
    }
  }

  lemma SameAfter<T>(a: seq<T>, b: seq<T>, c: seq<T>)
    ensures (a + b) + c == a + (b + c)
  {
  }

  /** The payloads of some messages. */
  function Encoded<M>(messages: seq<M>, encode: M -> seq<Byte>): seq<seq<Byte>> {
    seq(|messages|, i requires 0 <= i < |messages| => encode(messages[i]))
  }

  lemma {:induction false} CollectUndoesEncode<M>(messages: seq<M>, encode: M -> seq<Byte>,
                                                  decode: seq<Byte> -> Decoded<M>)
    requires forall m :: m in messages ==> decode(encode(m)) == Good(m)
    ensures Collect(Encoded(messages, encode), decode) == messages
  {
    if messages != [] {
      CollectUndoesEncode(messages[1..], encode, decode);
      assert Encoded(messages, encode)[1..] == Encoded(messages[1..], encode);
    }
  }

  /**
   * End to end: if messages survive their own encoding and none is too long, every listener
   * receives exactly the talker's messages in order, and then what a later stream holds.
   */
  lemma ListenerHearsTalker<M>(messages: seq<M>, tail: seq<Byte>, encode: M -> seq<Byte>,
                               decode: seq<Byte> -> Decoded<M>)
    requires forall m :: m in messages ==> decode(encode(m)) == Good(m) && |encode(m)| <= MAX_LENGTH
    ensures AllFit(Encoded(messages, encode))
    ensures Collect(Split(Frames(Encoded(messages, encode)) + tail), decode) ==
            messages + Collect(Split(tail), decode)
  {
    var payloads := Encoded(messages, encode);
    SplitUndoesFrames(payloads, tail);
    CollectUndoesEncode(messages, encode, decode);
    CollectAppends(payloads, Split(tail), decode);
  }

  lemma {:induction false} CollectAppends<M>(a: seq<seq<Byte>>, b: seq<seq<Byte>>, decode: seq<Byte> -> Decoded<M>)
    requires forall i :: 0 <= i < |a| ==> !decode(a[i]).NotText?
    ensures Collect(a + b, decode) == Collect(a, decode) + Collect(b, decode)
  {
    if a == [] {
      assert a + b == b;
    } else {
      calc {
        Collect(a + b, decode);
      ==  { assert a + b == [a[0]] + (a[1..] + b); CollectOne(a[0], a[1..] + b, decode); }
        Heard(a[0], decode) + Collect(a[1..] + b, decode);
      ==  { CollectAppends(a[1..], b, decode); }
        Collect(a, decode) + Collect(b, decode);
      }
    }
  }

  // ---- sends that write only a part ----

  /** Every send writes its whole frame. */
  predicate Complete(payloads: seq<seq<Byte>>, room: nat -> nat) {
    forall k :: 0 <= k < |payloads| ==> room(k) >= |payloads[k]| + 2
  }

  /** The bytes that frames for some payloads take. */
  function Total(payloads: seq<seq<Byte>>): nat {
    if payloads == [] then 0 else Total(payloads[..|payloads| - 1]) + |payloads[|payloads| - 1]| + 2
  }

  lemma {:induction false} TotalCons(payload: seq<Byte>, rest: seq<seq<Byte>>)
    ensures Total([payload] + rest) == |payload| + 2 + Total(rest)
  {
    var all := [payload] + rest;
    if rest == [] {
      assert all == [payload] && all[..0] == [];
    } else {
      TotalCons(payload, rest[..|rest| - 1]);
      assert all[..|all| - 1] == [payload] + rest[..|rest| - 1];
    }
  }

  /** How much of a frame one send writes. */
  lemma WrittenOf(payload: seq<Byte>, n: nat)
    requires |payload| <= MAX_LENGTH
    ensures var frame, written := Frame(payload).value, Received(Frame(payload).value, n);
            && |written| <= |payload| + 2
            && (|written| == |payload| + 2 <==> n >= |payload| + 2)
            && (n >= |payload| + 2 ==> written == frame)
  {
  }

  lemma CompleteOneMore(front: seq<seq<Byte>>, last: seq<Byte>, room: nat -> nat)
    ensures Complete(front + [last], room) <==> Complete(front, room) && room(|front|) >= |last| + 2
  {
    var all := front + [last];
    assert all[|front|] == last;
    assert forall k :: 0 <= k < |front| ==> all[k] == front[k];
  }

  /** A connection is sent all the frames or, with one incomplete send, fewer bytes. */
  lemma {:induction false} SentLength(payloads: seq<seq<Byte>>, room: nat -> nat)
    requires AllFit(payloads)
    ensures |Sent(payloads, room)| <= Total(payloads)
    ensures |Sent(payloads, room)| == Total(payloads) <==> Complete(payloads, room)
    ensures Complete(payloads, room) ==> Sent(payloads, room) == Frames(payloads)
  {
    if payloads != [] {
      var front, last := payloads[..|payloads| - 1], payloads[|payloads| - 1];
      assert payloads == front + [last];
      SentLength(front, room);
      CompleteOneMore(front, last, room);
      WrittenOf(last, room(|front|));
    }
  }

  /** Where no payload that a listener cuts out is empty, it has read whole frames. */
  lemma {:induction false} SplitLength(stream: seq<Byte>)
    requires forall i :: 0 <= i < |Split(stream)| ==> Split(stream)[i] != []
    ensures |stream| == Total(Split(stream))
    decreases |stream|
  {
    if stream != [] {
      var rest := Split(AfterFirst(stream));
      assert Split(stream) == [FirstPayload(stream)] + rest;
      assert Split(stream)[0] != [];
      assert forall i :: 0 <= i < |rest| ==> rest[i] == Split(stream)[i + 1];
      SplitLength(AfterFirst(stream));
      TotalCons(FirstPayload(stream), rest);
    }
  }

  /**
   * The talker ignores how much a send has written (line 91). A listener cuts out exactly the
   * messages sent, none of which is empty, exactly if every send was complete.
   */
  lemma HeardIffComplete(payloads: seq<seq<Byte>>, room: nat -> nat)
    requires AllFit(payloads) && forall i :: 0 <= i < |payloads| ==> payloads[i] != []
    ensures Split(Sent(payloads, room)) == payloads <==> Complete(payloads, room)
  {
    SentLength(payloads, room);
    if Complete(payloads, room) {
      SplitUndoesFrames(payloads, []);
      assert Frames(payloads) + [] == Frames(payloads) && payloads + Split([]) == payloads;
    } else if Split(Sent(payloads, room)) == payloads {
      SplitLength(Sent(payloads, room));
    }
  }
}
