/**
 * The peer as the object it is in peer_node.cpp: a vector of `AgreementInformation` objects and a
 * map of known nodes, changed in place by the handlers. Each method is proved to do what
 * `PeerSpec` says of the peer's state.
 */
module PeerNodes {
  import opened Options
  import opened Bytes
  import opened AscendingSets
  import opened AdvertCodec
  import opened SendDataCodec
  import opened PeerSpec

  /** peer_node.cpp:37-81 */
  class AgreementInformation {
    var versionNumber: Byte
    var roundNumber: Byte
    var xpos: Word
    var ypos: Word
    var agreeingNodes: set<Word>

    ghost function Value(): Agreement
      reads this
    {
      Agreement(versionNumber, roundNumber, xpos, ypos, agreeingNodes)
    }

    constructor (location: (Word, Word), id: Word)
      ensures Value() == Agreement(0, 0, location.0, location.1, {id})
    {
      versionNumber, roundNumber := 0, 0;
      xpos, ypos := location.0, location.1;
      agreeingNodes := {id};
    }

    method SetVersion(v: Byte)
      modifies this`versionNumber
      ensures versionNumber == v
    {
      versionNumber := v;
    }

    /** The parameter is a `uint8_t`, so an int argument is truncated. */
    method SetRound(r: nat)
      modifies this`roundNumber
      ensures roundNumber == r % 256
    {
      roundNumber := r % 256;
    }

    method SetFineLocation(x: Word, y: Word)
      modifies this`xpos, this`ypos
      ensures xpos == x && ypos == y
    {
      xpos, ypos := x, y;
    }

    method SetAgreeingNodes(group: set<Word>)
      modifies this`agreeingNodes
      ensures agreeingNodes == group
    {
      agreeingNodes := {};
      agreeingNodes := agreeingNodes + group;
    }

    method AddAgreeingNode(n: Word) returns (isNew: bool)
      modifies this`agreeingNodes
      ensures agreeingNodes == old(agreeingNodes) + {n}
      ensures isNew <==> n !in old(agreeingNodes)
    {
      isNew := n !in agreeingNodes;
      agreeingNodes := agreeingNodes + {n};
    }

    /** The record after a SEND_DATA (lines 567-578). */
    method TakeOver(data: SendDataMessage, me: Word)
      modifies this
      ensures Value() == Join(data, me)
    {
      var group := data.syncGroup;
      SetVersion(data.version);
      SetRound(data.round);
      if me !in group {
        var round: int := roundNumber;
        SetRound(round + 1);
      }
      group := group + {me};
      SetAgreeingNodes(group);
      SetFineLocation(data.xpos, data.ypos);
    }

    /** The record after an ACK (lines 588-591). */
    method Confirm(sender: Word)
      modifies this
      ensures Value() == Acknowledge(old(Value()), sender)
    {
      if sender !in agreeingNodes {
        var round: int := roundNumber;
        SetRound(round + 1);
        var _ := AddAgreeingNode(sender);
      }
    }
  }

  class PeerNode {
    const nodeId: Word
    const address: Word
    var records: seq<AgreementInformation>
    var nearbyElements: set<Word>
    var localGroup: map<Word, NodeEntry>
    /** What was handed to the sockets. */
    var sent: seq<Packet>

    ghost function State(): Peer
      reads this, records
    {
      Peer(nodeId, address,
           seq(|records|, i requires 0 <= i < |records| reads this, records => records[i].Value()),
           nearbyElements, localGroup)
    }

    ghost predicate Valid()
      reads this, records
    {
      && PeerOk(State())
      && |records| == ELEMENTS
      && forall i, j :: 0 <= i < j < |records| ==> records[i] != records[j]
    }

    /** The state, the packets sent since `before` and the escape of an exception are those of `o`. */
    ghost predicate Did(o: Outcome, before: seq<Packet>, threw: bool)
      reads this, records
    {
      Valid() && State() == o.peer && sent == before + o.out && threw == o.threw
    }

    constructor (id: Word, ip: Word, locations: seq<(Word, Word)>)
      requires |locations| == ELEMENTS
      ensures Valid() && State() == Start(id, ip, locations) && sent == []
      ensures fresh(records)
    {
      nodeId, address := id, ip;
      records, nearbyElements, localGroup, sent := [], {}, map[], [];
      new;
      for e := 0 to ELEMENTS
        invariant |records| == e && nearbyElements == {} && localGroup == map[] && sent == []
        invariant fresh(records)
        invariant forall i :: 0 <= i < e ==> records[i].Value() == Agreement(0, 0, locations[i].0, locations[i].1, {id})
        invariant forall i, j :: 0 <= i < j < e ==> records[i] != records[j]
      {
        var r := new AgreementInformation(locations[e], id);
        records := records + [r];
      }
    }

    method Send(to: Option<Word>, m: Message)
      modifies this`sent
      ensures sent == old(sent) + [Packet(to, m)]
    {
      sent := sent + [Packet(to, m)];
    }

    /** The scan over the local group. */
    method FindBest(e: Byte) returns (best: Best)
      requires GroupOk(localGroup) && e < ELEMENTS
      ensures best == BestOf(localGroup, e)
    {
      best := Best((0, 0), NO_NODE);
      var keys := Ascending(localGroup.Keys);
      for k := 0 to |keys|
        invariant best == Scan(keys[..k], localGroup, e)
      {
        assert keys[..k + 1][..k] == keys[..k];
        var theirs := localGroup[keys[k]].seen[e];
        if theirs.0 > best.pair.0 || (theirs.0 == best.pair.0 && theirs.1 > best.pair.1) {
          best := Best(theirs, keys[k]);
        }
      }
      assert keys[..|keys|] == keys;
    }

    /** A record nobody has touched starts from the node's own id. */
    method InitialiseRound(e: Byte)
      requires Valid() && e < ELEMENTS
      modifies records[e]
      ensures Valid()
      ensures var p := old(State()); State() == p.(records := p.records[e := Initialise(p.records[e], nodeId)])
    {
      if records[e].roundNumber == 0 {
        var round: int := nodeId;
        records[e].SetRound(round + 1);
      }
    }

    /** Choose a neighbour by a scan over the local group, or see to it that the record has a round. */
    method StartAgreement(e: Byte)
      requires Valid() && e < ELEMENTS
      modifies this`sent, records[e]
      ensures Did(BeginAgreement(old(State()), e), old(sent), false)
    {
      var best := FindBest(e);
      WantsIffBetter(State(), e);
      if localGroup != map[] && Less((records[e].versionNumber, records[e].roundNumber), best.pair) {
        Send(Some(localGroup[best.node].address), RequestData(nodeId, e));
      } else {
        InitialiseRound(e);
      }
    }

    method OnRequest(sender: Word, e: Byte) returns (threw: bool)
      requires Valid()
      modifies this`sent
      ensures Did(ReceiveRequest(old(State()), sender, e), old(sent), threw)
    {
      if sender !in localGroup || e >= ELEMENTS {
        return true;
      }
      var r := records[e];
      Send(Some(localGroup[sender].address),
           SendData(SendDataMessage(nodeId, e, r.xpos, r.ypos, r.versionNumber, r.roundNumber, r.agreeingNodes)));
      return false;
    }

    method OnSendData(data: SendDataMessage) returns (threw: bool)
      requires Valid()
      modifies this`sent, records
      ensures Did(ReceiveSendData(old(State()), data), old(sent), threw)
    {
      if data.elementId >= ELEMENTS {
        return true;
      }
      records[data.elementId].TakeOver(data, nodeId);
      if data.senderId !in localGroup {
        return true;
      }
      Send(Some(localGroup[data.senderId].address), Ack(nodeId, data.elementId));
      return false;
    }

    method OnAck(sender: Word, e: Byte) returns (threw: bool)
      requires Valid()
      modifies records
      ensures Did(ReceiveAck(old(State()), sender, e), old(sent), threw)
    {
      if e >= ELEMENTS {
        return true;
      }
      records[e].Confirm(sender);
      return false;
    }

    /** The sender's pairs, and the nearby elements for which it is better; None if a row throws. */
    method ReadAdvert(info: AdvertMessage) returns (r: Option<(seq<(Byte, Byte)>, seq<Byte>)>)
      requires Valid() && Aligned(info)
      ensures r.Some? <==> KnownElements(info)
      ensures r.Some? ==>
                r.value.0 == SeenBy(info, |info.elements|) && r.value.1 == Queued(State(), info, |info.elements|)
    {
      var seen: seq<(Byte, Byte)> := seq(ELEMENTS, _ => (0, 0));
      var agree: seq<Byte> := [];
      for idx := 0 to |info.elements|
        invariant forall i :: 0 <= i < idx ==> info.elements[i] < ELEMENTS
        invariant seen == SeenBy(info, idx)
        invariant agree == Queued(State(), info, idx)
      {
        var e := info.elements[idx];
        if e >= ELEMENTS {
          return None;
        }
        var theirs := (info.versions[idx], info.rounds[idx]);
        if e in nearbyElements && Less((records[e].versionNumber, records[e].roundNumber), theirs) {
          agree := agree + [e];
        }
        seen := seen[e := theirs];
      }
      return Some((seen, agree));
    }

    method StartAll(agree: seq<Byte>)
      requires Valid() && forall i :: 0 <= i < |agree| ==> agree[i] < ELEMENTS
      modifies this`sent, records
      ensures Did(BeginAll(old(State()), agree), old(sent), false)
    {
      ghost var p := State();
      for k := 0 to |agree|
        invariant Did(BeginAll(p, agree[..k]), old(sent), false)
      {
        ghost var front, begun := BeginAll(p, agree[..k]), BeginAgreement(State(), agree[k]);
        BeginNext(p, agree, k);
        StartAgreement(agree[k]);
        assert sent == old(sent) + (front.out + begun.out);
      }
      assert agree[..|agree|] == agree;
    }

    /** File the sender's pairs, and begin agreement on the nearby elements for which it is better. */
    method OnAdvert(info: AdvertMessage, now: int) returns (threw: bool)
      requires Valid() && Aligned(info)
      modifies this`localGroup, this`sent, records
      ensures Did(ReceiveAdvert(old(State()), info, now), old(sent), threw)
    {
      var read := ReadAdvert(info);
      if read.None? {
        return true;
      }
      localGroup := localGroup[info.senderId := NodeEntry(info.ipv4Address, now, read.value.0)];
      assert State() == old(State()).(localGroup := localGroup);
      StartAll(read.value.1);
      return false;
    }

    /** One packet (lines 517-596). */
    method ReceiveData(m: Message, now: int) returns (threw: bool)
      requires Valid() && (m.Advert? ==> Aligned(m.advert))
      modifies this, records
      ensures Did(Receive(old(State()), m, now), old(sent), threw)
    {
      match m
      case Advert(info) => threw := OnAdvert(info, now);
      case RequestData(sender, e) => threw := OnRequest(sender, e);
      case SendData(data) => threw := OnSendData(data);
      case Ack(sender, e) => threw := OnAck(sender, e);
    }

    /** Enter and leave the neighbourhoods of elements (lines 443-455). */
    method GetNearbyElements(near: set<Word>)
      requires Valid()
      modifies this`sent, this`nearbyElements, records
      ensures Did(Move(old(State()), near, ELEMENTS), old(sent), false)
    {
      for idx := 0 to ELEMENTS
        invariant Did(Move(old(State()), near, idx), old(sent), false)
        invariant records == old(records)
      {
        if idx in near {
          if idx !in nearbyElements {
            StartAgreement(idx);
          }
          nearbyElements := nearbyElements + {idx};
        } else {
          nearbyElements := nearbyElements - {idx};
        }
      }
    }

    /** The known nodes that have been silent for too long. */
    method Silent(now: int) returns (deletionSet: seq<Word>)
      ensures forall x :: x in deletionSet <==>
                x in localGroup && now - localGroup[x].recentTime >= HEARTBEAT_TIMEOUT
    {
      deletionSet := [];
      var keys := Ascending(localGroup.Keys);
      for k := 0 to |keys|
        invariant forall x :: x in deletionSet <==>
                    x in keys[..k] && now - localGroup[x].recentTime >= HEARTBEAT_TIMEOUT
      {
        assert keys[..k + 1] == keys[..k] + [keys[k]];
        if now - localGroup[keys[k]].recentTime >= HEARTBEAT_TIMEOUT {
          deletionSet := deletionSet + [keys[k]];
        }
      }
      assert keys[..|keys|] == keys;
    }

    /** Forget them (lines 502-515). */
    method Prune(now: int)
      requires Valid()
      modifies this`localGroup
      ensures Valid() && State() == CheckHeartbeats(old(State()), now)
    {
      var deletionSet := Silent(now);
      for k := 0 to |deletionSet|
        invariant localGroup == old(localGroup) - Elements(deletionSet[..k])
      {
        assert deletionSet[..k + 1] == deletionSet[..k] + [deletionSet[k]];
        localGroup := localGroup - {deletionSet[k]};
      }
      assert deletionSet[..|deletionSet|] == deletionSet;
      assert localGroup == CheckHeartbeats(old(State()), now).localGroup;
    }
  }
}
