/** The state of an edge-aware peer and what its handlers compute (peer_node.cpp:37-100, 436-645). */
module PeerSpec {
  import opened Options
  import opened Bytes
  import opened AscendingSets
  import opened AdvertCodec
  import opened SendDataCodec

  /** Elements a node knows (peer_node.cpp:400-406); also the rows of a `nodeEntry` (line 89). */
  const ELEMENTS: nat := 5

  /** peer_node.cpp:37-81. The location is the bits of two floats. */
  datatype Agreement = Agreement(version: Byte, round: Byte, x: Word, y: Word, agreeing: set<Word>)

  /** peer_node.cpp:83-91 */
  datatype NodeEntry = NodeEntry(address: Word, recentTime: int, seen: seq<(Byte, Byte)>)

  datatype Peer = Peer(id: Word, address: Word, records: seq<Agreement>,
                       nearby: set<Word>, localGroup: map<Word, NodeEntry>)

  datatype Message =
    | Advert(advert: AdvertMessage)
    | RequestData(senderId: Word, elementId: Byte)
    | SendData(data: SendDataMessage)
    | Ack(senderId: Word, elementId: Byte)

  /** A message and the address it is sent to; an advertisement is broadcast. */
  datatype Packet = Packet(to: Option<Word>, message: Message)

  /** What a handler leaves, and whether an out_of_range escaped from it (`vector::at`, `map::at`). */
  datatype Outcome = Outcome(peer: Peer, out: seq<Packet>, threw: bool)

  /** Every known node has a row per element. */
  predicate GroupOk(group: map<Word, NodeEntry>) {
    forall k :: k in group ==> |group[k].seen| == ELEMENTS
  }

  predicate PeerOk(p: Peer) {
    && |p.records| == ELEMENTS
    && (forall e :: e in p.nearby ==> e < ELEMENTS)
    && GroupOk(p.localGroup)
  }

  /** peer_node.cpp:392-413 */
  function Start(id: Word, address: Word, locations: seq<(Word, Word)>): (p: Peer)
    requires |locations| == ELEMENTS
    ensures PeerOk(p)
  {
    Peer(id, address,
         seq(ELEMENTS, e requires 0 <= e < ELEMENTS => Agreement(0, 0, locations[e].0, locations[e].1, {id})),
         {}, map[])
  }

  /** The sum of a byte and one, as a `uint8_t` holds it. */
  function Increment(b: Byte): Byte {
    var sum: int := b;
    (sum + 1) % 256
  }

  // ---- records (peer_node.cpp:37-64) ----

  /** peer_node.cpp:567-578: take over the sender's record, and join its agreeing nodes. */
  function Join(data: SendDataMessage, me: Word): Agreement {
    Agreement(data.version, if me in data.syncGroup then data.round else Increment(data.round),
              data.xpos, data.ypos, data.syncGroup + {me})
  }

  /** peer_node.cpp:588-591: an acknowledgement adds its sender once. */
  function Acknowledge(r: Agreement, sender: Word): Agreement {
    if sender in r.agreeing then r
    else r.(round := Increment(r.round), agreeing := r.agreeing + {sender})
  }

  /** peer_node.cpp:485-487, 493-495: a record nobody has touched starts from the node's own id. */
  function Initialise(r: Agreement, id: Word): Agreement {
    var round: int := id;
    if r.round == 0 then r.(round := (round + 1) % 256) else r
  }

  /** peer_node.cpp:621-632 */
  function DataOf(p: Peer, e: Byte): SendDataMessage
    requires e < |p.records|
  {
    var r := p.records[e];
    SendDataMessage(p.id, e, r.x, r.y, r.version, r.round, r.agreeing)
  }

  // ---- choosing a neighbour (peer_node.cpp:459-498) ----

  /** The order of lines 473 and 479: by version, and then by round. */
  predicate Less(a: (Byte, Byte), b: (Byte, Byte)) {
    a.0 < b.0 || (a.0 == b.0 && a.1 < b.1)
  }

  /** The best pair met so far, and at which node; UINT32_MAX while there is none. */
  datatype Best = Best(pair: (Byte, Byte), node: Word)

  const NO_NODE: Word := 0xFFFF_FFFF

  /** The scan over the local group, in the order of its keys. */
  function Scan(keys: seq<Word>, group: map<Word, NodeEntry>, e: Byte): Best
    requires e < ELEMENTS && GroupOk(group) && forall i :: 0 <= i < |keys| ==> keys[i] in group
  {
    if keys == [] then Best((0, 0), NO_NODE)
    else
      var best, k := Scan(keys[..|keys| - 1], group, e), keys[|keys| - 1];
      if Less(best.pair, group[k].seen[e]) then Best(group[k].seen[e], k) else best
  }

  function BestOf(group: map<Word, NodeEntry>, e: Byte): Best
    requires e < ELEMENTS && GroupOk(group)
  {
    Scan(Ascending(group.Keys), group, e)
  }

  function PairOf(r: Agreement): (Byte, Byte) {
    (r.version, r.round)
  }

  /** Whether the scan finds a pair above our own. */
  predicate Wants(p: Peer, e: Byte)
    requires PeerOk(p) && e < ELEMENTS
  {
    p.localGroup != map[] && Less(PairOf(p.records[e]), BestOf(p.localGroup, e).pair)
  }

  /** What the scan has found in the keys it has passed. */
  lemma {:induction false} ScanFinds(keys: seq<Word>, group: map<Word, NodeEntry>, e: Byte)
    requires e < ELEMENTS && GroupOk(group) && forall i :: 0 <= i < |keys| ==> keys[i] in group
    requires IsAscending(keys)
    ensures var best := Scan(keys, group, e);
            && (forall k :: k in keys ==> !Less(best.pair, group[k].seen[e]))
            && (best.pair == (0, 0) ==> best.node == NO_NODE)
            && (best.pair != (0, 0) ==>
                  && best.node in keys && group[best.node].seen[e] == best.pair
                  && forall k :: k in keys && group[k].seen[e] == best.pair ==> best.node <= k)
  {
    if keys != [] {
      var front, last := keys[..|keys| - 1], keys[|keys| - 1];
      ScanFinds(front, group, e);
      assert forall k :: k in keys ==> k in front || k == last;
      assert forall k :: k in front ==> k < last;
    }
  }

  /**
   * Neighbour selection: the scan finds the greatest (version, round) of the local group and, when
   * that exceeds (0, 0), the smallest id that shows it.
   */
  lemma BestIsGreatest(group: map<Word, NodeEntry>, e: Byte)
    requires e < ELEMENTS && GroupOk(group)
    ensures var best := BestOf(group, e);
            && (forall k :: k in group ==> !Less(best.pair, group[k].seen[e]))
            && (best.pair != (0, 0) ==>
                  && best.node in group && group[best.node].seen[e] == best.pair
                  && forall k :: k in group && group[k].seen[e] == best.pair ==> best.node <= k)
  {
    ScanFinds(Ascending(group.Keys), group, e);
  }

  /** A request is wanted exactly when some neighbour shows more than our own pair, and then its node is known. */
  lemma WantsIffBetter(p: Peer, e: Byte)
    requires PeerOk(p) && e < ELEMENTS
    ensures Wants(p, e) <==> exists k :: k in p.localGroup && Less(PairOf(p.records[e]), p.localGroup[k].seen[e])
    ensures Wants(p, e) ==>
              var best := BestOf(p.localGroup, e);
              best.node in p.localGroup && p.localGroup[best.node].seen[e] == best.pair
  {
    BestIsGreatest(p.localGroup, e);
  }

  /** peer_node.cpp:459-498: ask the best neighbour, or else see to it that the record has a round. */
  function BeginAgreement(p: Peer, e: Byte): (o: Outcome)
    requires PeerOk(p) && e < ELEMENTS
    ensures PeerOk(o.peer) && !o.threw
  {
    WantsIffBetter(p, e);
    if Wants(p, e) then
      Outcome(p, [Packet(Some(p.localGroup[BestOf(p.localGroup, e).node].address), RequestData(p.id, e))], false)
    else
      Outcome(p.(records := p.records[e := Initialise(p.records[e], p.id)]), [], false)
  }

  function BeginAll(p: Peer, elements: seq<Byte>): (o: Outcome)
    requires PeerOk(p) && forall i :: 0 <= i < |elements| ==> elements[i] < ELEMENTS
    ensures PeerOk(o.peer) && !o.threw
  {
    if elements == [] then Outcome(p, [], false)
    else
      var front := BeginAll(p, elements[..|elements| - 1]);
      var last := BeginAgreement(front.peer, elements[|elements| - 1]);
      Outcome(last.peer, front.out + last.out, false)
  }

  lemma BeginNext(p: Peer, elements: seq<Byte>, k: nat)
    requires PeerOk(p) && k < |elements| && forall i :: 0 <= i < |elements| ==> elements[i] < ELEMENTS
    ensures var front := BeginAll(p, elements[..k]);
            var last := BeginAgreement(front.peer, elements[k]);
            BeginAll(p, elements[..k + 1]) == Outcome(last.peer, front.out + last.out, false)
  {
    assert elements[..k + 1][..k] == elements[..k];
  }

  // ---- handlers (peer_node.cpp:517-596) ----

  /** The rows an advertisement fills in, over the zeros of a fresh entry (lines 89, 548). */
  function SeenBy(info: AdvertMessage, n: nat): (seen: seq<(Byte, Byte)>)
    requires Aligned(info) && n <= |info.elements|
    requires forall i :: 0 <= i < n ==> info.elements[i] < ELEMENTS
    ensures |seen| == ELEMENTS
  {
    if n == 0 then seq(ELEMENTS, _ => (0, 0))
    else SeenBy(info, n - 1)[info.elements[n - 1] := (info.versions[n - 1], info.rounds[n - 1])]
  }

  /** The nearby elements among the first `n` rows for which the sender is better (lines 541-547). */
  function Queued(p: Peer, info: AdvertMessage, n: nat): (agree: seq<Byte>)
    requires PeerOk(p) && Aligned(info) && n <= |info.elements|
    requires forall i :: 0 <= i < n ==> info.elements[i] < ELEMENTS
    ensures forall i :: 0 <= i < |agree| ==> agree[i] < ELEMENTS
  {
    if n == 0 then []
    else
      var e := info.elements[n - 1];
      Queued(p, info, n - 1) +
      if e in p.nearby && Less(PairOf(p.records[e]), (info.versions[n - 1], info.rounds[n - 1])) then [e] else []
  }

  /** Every row names an element we know; `vector::at` at lines 538-548 throws otherwise. */
  predicate KnownElements(info: AdvertMessage) {
    forall i :: 0 <= i < |info.elements| ==> info.elements[i] < ELEMENTS
  }

  function ReceiveAdvert(p: Peer, info: AdvertMessage, now: int): (o: Outcome)
    requires PeerOk(p) && Aligned(info)
    ensures PeerOk(o.peer)
  {
    if !KnownElements(info) then Outcome(p, [], true)
    else
      var n := |info.elements|;
      BeginAll(p.(localGroup := p.localGroup[info.senderId := NodeEntry(info.ipv4Address, now, SeenBy(info, n))]),
               Queued(p, info, n))
  }

  function ReceiveRequest(p: Peer, sender: Word, e: Byte): Outcome
    requires PeerOk(p)
  {
    if sender !in p.localGroup || e >= ELEMENTS then Outcome(p, [], true)
    else Outcome(p, [Packet(Some(p.localGroup[sender].address), SendData(DataOf(p, e)))], false)
  }

  /** The record is replaced before the sender is looked up, so it stays replaced if that throws. */
  function ReceiveSendData(p: Peer, data: SendDataMessage): (o: Outcome)
    requires PeerOk(p)
    ensures PeerOk(o.peer)
  {
    if data.elementId >= ELEMENTS then Outcome(p, [], true)
    else
      var p' := p.(records := p.records[data.elementId := Join(data, p.id)]);
      if data.senderId !in p.localGroup then Outcome(p', [], true)
      else Outcome(p', [Packet(Some(p.localGroup[data.senderId].address), Ack(p.id, data.elementId))], false)
  }

  function ReceiveAck(p: Peer, sender: Word, e: Byte): (o: Outcome)
    requires PeerOk(p)
    ensures PeerOk(o.peer)
  {
    if e >= ELEMENTS then Outcome(p, [], true)
    else Outcome(p.(records := p.records[e := Acknowledge(p.records[e], sender)]), [], false)
  }

  function Receive(p: Peer, m: Message, now: int): (o: Outcome)
    requires PeerOk(p) && (m.Advert? ==> Aligned(m.advert))
    ensures PeerOk(o.peer)
  {
    match m
    case Advert(info) => ReceiveAdvert(p, info, now)
    case RequestData(sender, e) => ReceiveRequest(p, sender, e)
    case SendData(data) => ReceiveSendData(p, data)
    case Ack(sender, e) => ReceiveAck(p, sender, e)
  }

  // ---- timers ----

  /** The elements below `n` turn by turn (peer_node.cpp:443-455); `near` is the distance test. */
  function Move(p: Peer, near: set<Word>, n: nat): (o: Outcome)
    requires PeerOk(p) && n <= ELEMENTS
    ensures PeerOk(o.peer) && !o.threw
  {
    if n == 0 then Outcome(p, [], false)
    else
      var front := Move(p, near, n - 1);
      var e: Word := n - 1;
      if e !in near then front.(peer := front.peer.(nearby := front.peer.nearby - {e}))
      else
        var begun := if e in front.peer.nearby then Outcome(front.peer, [], false) else BeginAgreement(front.peer, e);
        Outcome(begun.peer.(nearby := begun.peer.nearby + {e}), front.out + begun.out, false)
  }

  const HEARTBEAT_TIMEOUT := 10000

  /** peer_node.cpp:502-515 */
  function CheckHeartbeats(p: Peer, now: int): (p': Peer)
    requires PeerOk(p)
    ensures PeerOk(p')
  {
    p.(localGroup :=
         map k | k in p.localGroup && now - p.localGroup[k].recentTime < HEARTBEAT_TIMEOUT :: p.localGroup[k])
  }

  /** peer_node.cpp:137-149, 599-610 */
  function Advertise(p: Peer): (m: AdvertMessage)
    requires PeerOk(p)
    ensures Aligned(m) && KnownElements(m)
  {
    var elements := Ascending(p.nearby);
    assert forall i :: 0 <= i < |elements| ==> elements[i] in p.nearby;
    AdvertMessage(p.id, p.address,
                  seq(|elements|, i requires 0 <= i < |elements| => elements[i]),
                  seq(|elements|, i requires 0 <= i < |elements| => p.records[elements[i]].version),
                  seq(|elements|, i requires 0 <= i < |elements| => p.records[elements[i]].round))
  }
}
