/** The wire format of an element's data, with its variable tail of node ids (peer_node.cpp:259-341). */
module SendDataCodec {
  import opened Bytes
  import opened AscendingSets

  const SEND_DATA: Byte := 2

  /** Locations are carried as the bit patterns of their floats. */
  datatype SendDataMessage = SendDataMessage(senderId: Word, elementId: Byte, xpos: Word, ypos: Word,
                                             version: Byte, round: Byte, syncGroup: set<Word>)

  /** A header of sixteen bytes, and then whole ids; the iterators of lines 306-325 need no less. */
  predicate WellFormed(buf: seq<Byte>) {
    |buf| >= 16 && (|buf| - 16) % 4 == 0
  }

  /** The packed ids of a list, one after the other. */
  function Packed(ids: seq<Word>): (r: seq<Byte>)
    ensures |r| == 4 * |ids|
  {
    if ids == [] then [] else Packed(ids[..|ids| - 1]) + FourByteToOne(ids[|ids| - 1])
  }

  /** The ids of a tail of whole ids. */
  function Unpacked(tail: seq<Byte>): (ids: seq<Word>)
    requires |tail| % 4 == 0
    ensures |ids| == |tail| / 4
  {
    if tail == [] then [] else Unpacked(tail[..|tail| - 4]) + [OneByteToFour(tail[|tail| - 4..])]
  }

  function Header(m: SendDataMessage): (r: seq<Byte>)
    ensures |r| == 16
  {
    [SEND_DATA] + FourByteToOne(m.senderId) + [m.elementId] + FourByteToOne(m.xpos) + FourByteToOne(m.ypos)
    + [m.version, m.round]
  }

  /** The wire form: the header, and the ids of the set in ascending order. */
  function Wire(m: SendDataMessage): (buf: seq<Byte>)
    ensures WellFormed(buf)
  {
    Header(m) + Packed(Ascending(m.syncGroup))
  }

  function Parse(buf: seq<Byte>): SendDataMessage
    requires WellFormed(buf)
  {
    SendDataMessage(OneByteToFour(buf[1..5]), buf[5], OneByteToFour(buf[6..10]), OneByteToFour(buf[10..14]),
                    buf[14], buf[15], Elements(Unpacked(buf[16..])))
  }

  method Serialize(m: SendDataMessage) returns (mesg: seq<Byte>)
    ensures mesg == Wire(m)
  {
    mesg := [SEND_DATA];
    mesg := mesg + FourByteToOne(m.senderId);
    mesg := mesg + [m.elementId];
    mesg := mesg + FourByteToOne(m.xpos);
    mesg := mesg + FourByteToOne(m.ypos);
    mesg := mesg + [m.version];
    mesg := mesg + [m.round];
    assert mesg == Header(m);
    var ids := Ascending(m.syncGroup);
    for k := 0 to |ids|
      invariant mesg == Header(m) + Packed(ids[..k])
    {
      assert ids[..k + 1][..k] == ids[..k];
      mesg := mesg + FourByteToOne(ids[k]);
    }
    assert ids[..|ids|] == ids;
  }

  lemma OneMoreId(buf: seq<Byte>, idx: nat)
    requires 16 <= idx && idx + 4 <= |buf| && (idx - 16) % 4 == 0
    ensures Elements(Unpacked(buf[16..idx + 4])) ==
            Elements(Unpacked(buf[16..idx])) + {OneByteToFour(buf[idx..idx + 4])}
  {
    var tail := buf[16..idx + 4];
    assert tail[..|tail| - 4] == buf[16..idx];
    assert tail[|tail| - 4..] == buf[idx..idx + 4];
  }

  method Deserialize(buf: seq<Byte>) returns (m: SendDataMessage)
    requires WellFormed(buf)
    ensures m == Parse(buf)
  {
    var group: set<Word> := {};
    var idx := 16;
    while idx < |buf|
      invariant 16 <= idx <= |buf| && (idx - 16) % 4 == 0
      invariant group == Elements(Unpacked(buf[16..idx]))
    {
      OneMoreId(buf, idx);
      group := group + {OneByteToFour(buf[idx..idx + 4])};
      idx := idx + 4;
    }
    assert idx == |buf| && buf[16..idx] == buf[16..];
    m := SendDataMessage(OneByteToFour(buf[1..5]), buf[5], OneByteToFour(buf[6..10]), OneByteToFour(buf[10..14]),
                         buf[14], buf[15], group);
  }

  lemma {:induction false} UnpackedPacked(ids: seq<Word>)
    ensures Unpacked(Packed(ids)) == ids
  {
    if ids != [] {
      var front, last := ids[..|ids| - 1], ids[|ids| - 1];
      UnpackedPacked(front);
      UnpackingPacks(last);
      var tail := Packed(ids);
      assert tail[..|tail| - 4] == Packed(front) && tail[|tail| - 4..] == FourByteToOne(last);
    }
  }

  /** Header fields survive any tail. */
  lemma HeaderBack(m: SendDataMessage, tail: seq<Byte>)
    requires |tail| % 4 == 0
    ensures var r := Parse(Header(m) + tail);
            r == m.(syncGroup := r.syncGroup)
  {
    var buf := Header(m) + tail;
    UnpackingPacks(m.senderId);
    UnpackingPacks(m.xpos);
    UnpackingPacks(m.ypos);
    assert buf[1..5] == FourByteToOne(m.senderId);
    assert buf[6..10] == FourByteToOne(m.xpos);
    assert buf[10..14] == FourByteToOne(m.ypos);
  }

  /** Reading what was written gives the message back, for any set of ids and any location bits. */
  lemma ParseAfterWire(m: SendDataMessage)
    ensures Parse(Wire(m)) == m
  {
    var ids := Ascending(m.syncGroup);
    HeaderBack(m, Packed(ids));
    assert Wire(m)[16..] == Packed(ids);
    UnpackedPacked(ids);
  }

  /** The header of a buffer is that of the message read from it, up to the type byte. */
  lemma HeaderKept(buf: seq<Byte>)
    requires WellFormed(buf)
    ensures Header(Parse(buf)) == buf[..16][0 := SEND_DATA]
  {
    PackingUnpacks(buf[1..5]);
    PackingUnpacks(buf[6..10]);
    PackingUnpacks(buf[10..14]);
  }

  /**
   * Writing what was read normalises a buffer: the header is kept, the tail lists the ids that were
   * there, ascending and each once, whatever their order and number was.
   */
  lemma Normalises(buf: seq<Byte>)
    requires WellFormed(buf) && buf[0] == SEND_DATA
    ensures var again := Wire(Parse(buf));
            && WellFormed(again) && again[..16] == buf[..16]
            && IsAscending(Unpacked(again[16..]))
            && Elements(Unpacked(again[16..])) == Elements(Unpacked(buf[16..]))
  {
    HeaderKept(buf);
    var m := Parse(buf);
    var ids := Ascending(m.syncGroup);
    UnpackedPacked(ids);
    assert Wire(m)[16..] == Packed(ids) && Wire(m)[..16] == Header(m);
  }

  /** Normalising twice changes nothing more. */
  lemma NormalisesOnce(buf: seq<Byte>)
    requires WellFormed(buf)
    ensures Wire(Parse(Wire(Parse(buf)))) == Wire(Parse(buf))
  {
    ParseAfterWire(Parse(buf));
  }

  /** A buffer that lists its ids in ascending order is already normal. */
  lemma AscendingIsNormal(buf: seq<Byte>)
    requires WellFormed(buf) && buf[0] == SEND_DATA
    ensures Wire(Parse(buf)) == buf <==> IsAscending(Unpacked(buf[16..]))
  {
    HeaderKept(buf);
    var m, ids := Parse(buf), Unpacked(buf[16..]);
    UnpackedPacked(Ascending(m.syncGroup));
    assert Wire(m)[16..] == Packed(Ascending(m.syncGroup)) && Wire(m)[..16] == Header(m);
    if IsAscending(ids) {
      AscendingIsUnique(ids, Ascending(m.syncGroup));
      PackedUnpacked(buf[16..]);
      assert buf == buf[..16] + buf[16..];
    }
  }

  lemma PackedAppends(ids: seq<Word>, id: Word)
    ensures Packed(ids + [id]) == Packed(ids) + FourByteToOne(id)
  {
    assert (ids + [id])[..|ids|] == ids;
  }

  lemma {:induction false} PackedUnpacked(tail: seq<Byte>)
    requires |tail| % 4 == 0
    ensures Packed(Unpacked(tail)) == tail
  {
    if tail != [] {
      var front, last := tail[..|tail| - 4], tail[|tail| - 4..];
      PackedUnpacked(front);
      PackedAppends(Unpacked(front), OneByteToFour(last));
      PackingUnpacks(last);
      assert tail == front + last;
    }
  }
}
