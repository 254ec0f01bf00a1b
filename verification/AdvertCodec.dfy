/** The advertisement's wire format (peer_node.cpp:129-199). */
module AdvertCodec {
  import opened Options
  import opened Bytes

  const ADVERT: Byte := 0

  datatype AdvertMessage = AdvertMessage(senderId: Word, ipv4Address: Word,
                                         elements: seq<Byte>, versions: seq<Byte>, rounds: seq<Byte>)

  /** Every element has a version and a round; the indexing at lines 168-169 throws otherwise. */
  predicate HasRows(m: AdvertMessage) {
    |m.versions| >= |m.elements| && |m.rounds| >= |m.elements|
  }

  /** As built from a node's nearby elements, or by `deserialize`. */
  predicate Aligned(m: AdvertMessage) {
    |m.elements| == |m.versions| == |m.rounds|
  }

  /** A header of nine bytes, and then whole rows. */
  predicate WellFormed(buf: seq<Byte>) {
    |buf| >= 9 && (|buf| - 9) % 3 == 0
  }

  /** Byte `i` of the message, counted as the format comment counts (peer_node.cpp:121-128). */
  function ByteAt(m: AdvertMessage, i: nat): Byte
    requires HasRows(m) && i < 9 + 3 * |m.elements|
  {
    if i == 0 then ADVERT
    else if i < 5 then FourByteToOne(m.senderId)[i - 1]
    else if i < 9 then FourByteToOne(m.ipv4Address)[i - 5]
    else if (i - 9) % 3 == 0 then m.elements[(i - 9) / 3]
    else if (i - 9) % 3 == 1 then m.versions[(i - 9) / 3]
    else m.rounds[(i - 9) / 3]
  }

  /** The wire form, by byte positions. */
  function Wire(m: AdvertMessage): (buf: seq<Byte>)
    requires HasRows(m)
    ensures WellFormed(buf)
  {
    seq(9 + 3 * |m.elements|, i requires 0 <= i < 9 + 3 * |m.elements| => ByteAt(m, i))
  }

  /** The message of a well-formed buffer, by row numbers. The type byte is not looked at. */
  function Parse(buf: seq<Byte>): (m: AdvertMessage)
    requires WellFormed(buf)
    ensures Aligned(m)
  {
    var rows := (|buf| - 9) / 3;
    AdvertMessage(OneByteToFour(buf[1..5]), OneByteToFour(buf[5..9]),
                  seq(rows, k requires 0 <= k < rows => buf[9 + 3 * k]),
                  seq(rows, k requires 0 <= k < rows => buf[9 + 3 * k + 1]),
                  seq(rows, k requires 0 <= k < rows => buf[9 + 3 * k + 2]))
  }

  /** The first `n` rows of a message. */
  function FirstRows(m: AdvertMessage, n: nat): AdvertMessage
    requires n <= |m.elements| && n <= |m.versions| && n <= |m.rounds|
  {
    m.(elements := m.elements[..n], versions := m.versions[..n], rounds := m.rounds[..n])
  }

  method Serialize(m: AdvertMessage) returns (r: Option<seq<Byte>>)
    ensures r.Some? <==> HasRows(m)
    ensures r.Some? ==> r.value == Wire(m)
  {
    var mesg: seq<Byte> := [ADVERT];
    mesg := mesg + FourByteToOne(m.senderId);
    mesg := mesg + FourByteToOne(m.ipv4Address);
    for idx := 0 to |m.elements|
      invariant idx <= |m.versions| && idx <= |m.rounds|
      invariant |mesg| == 9 + 3 * idx
      invariant forall i :: 0 <= i < |mesg| ==>
                  mesg[i] == ByteAt(FirstRows(m, idx), i)
    {
      if idx >= |m.versions| || idx >= |m.rounds| {
        return None;
      }
      mesg := mesg + [m.elements[idx]];
      mesg := mesg + [m.versions[idx]];
      mesg := mesg + [m.rounds[idx]];
    }
    return Some(mesg);
  }

  /** None is the out_of_range that reading a cut row throws (lines 195-196). */
  method Deserialize(buf: seq<Byte>) returns (r: Option<AdvertMessage>)
    requires |buf| >= 9
    ensures r.Some? <==> WellFormed(buf)
    ensures r.Some? ==> r.value == Parse(buf)
  {
    var id, ip := OneByteToFour(buf[1..5]), OneByteToFour(buf[5..9]);
    var elements: seq<Byte>, versions: seq<Byte>, rounds: seq<Byte> := [], [], [];
    var idx := 9;
    while idx < |buf|
      invariant idx == 9 + 3 * |elements| && |elements| == |versions| == |rounds|
      invariant idx <= |buf|
      invariant forall k :: 0 <= k < |elements| ==>
                  elements[k] == buf[9 + 3 * k] && versions[k] == buf[9 + 3 * k + 1] && rounds[k] == buf[9 + 3 * k + 2]
    {
      elements := elements + [buf[idx]];
      if idx + 1 >= |buf| {
        return None;
      }
      versions := versions + [buf[idx + 1]];
      if idx + 2 >= |buf| {
        return None;
      }
      rounds := rounds + [buf[idx + 2]];
      idx := idx + 3;
    }
    return Some(AdvertMessage(id, ip, elements, versions, rounds));
  }

  /** The header survives. */
  lemma HeaderBack(m: AdvertMessage)
    requires Aligned(m)
    ensures Parse(Wire(m)).senderId == m.senderId && Parse(Wire(m)).ipv4Address == m.ipv4Address
  {
    var buf := Wire(m);
    UnpackingPacks(m.senderId);
    UnpackingPacks(m.ipv4Address);
    assert buf[1..5] == FourByteToOne(m.senderId);
    assert buf[5..9] == FourByteToOne(m.ipv4Address);
  }

  /** Row `k` survives. */
  lemma RowBack(m: AdvertMessage, k: nat)
    requires Aligned(m) && k < |m.elements|
    ensures Wire(m)[9 + 3 * k] == m.elements[k]
    ensures Wire(m)[9 + 3 * k + 1] == m.versions[k]
    ensures Wire(m)[9 + 3 * k + 2] == m.rounds[k]
  {
    assert (9 + 3 * k - 9) / 3 == k && (9 + 3 * k + 1 - 9) / 3 == k && (9 + 3 * k + 2 - 9) / 3 == k;
  }

  /** Reading what was written gives the message back, for any id, address and rows. */
  lemma ParseAfterWire(m: AdvertMessage)
    requires Aligned(m)
    ensures Parse(Wire(m)) == m
  {
    HeaderBack(m);
    forall k | 0 <= k < |m.elements|
      ensures Parse(Wire(m)).elements[k] == m.elements[k]
      ensures Parse(Wire(m)).versions[k] == m.versions[k]
      ensures Parse(Wire(m)).rounds[k] == m.rounds[k]
    {
      RowBack(m, k);
    }
    assert Parse(Wire(m)).elements == m.elements;
    assert Parse(Wire(m)).versions == m.versions;
    assert Parse(Wire(m)).rounds == m.rounds;
  }

  /** Writing what was read gives the buffer back, for any well-formed buffer with the ADVERT tag. */
  lemma WireAfterParse(buf: seq<Byte>)
    requires WellFormed(buf) && buf[0] == ADVERT
    ensures Wire(Parse(buf)) == buf
  {
    PackingUnpacks(buf[1..5]);
    PackingUnpacks(buf[5..9]);
    var m := Parse(buf);
    forall i | 0 <= i < |buf|
      ensures ByteAt(m, i) == buf[i]
    {
      assert i >= 9 ==> i == 9 + 3 * ((i - 9) / 3) + (i - 9) % 3;
    }
  }

}
