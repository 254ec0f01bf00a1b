/**
 * One request/data/ack exchange of two peers, with no other message for the element in between
 * (peer_node.cpp:557-592, 621-645).
 */
module PeerExchange {
  import opened Bytes
  import opened PeerSpec
  import opened PeerSystem

  /** The requester and the responder know each other, so that no lookup throws. */
  predicate Mutual(p: Peer, q: Peer) {
    p.id in q.localGroup && q.id in p.localGroup
  }

  /** The two peers after the request of `p` for element `e` was answered by `q` and acknowledged. */
  function Exchange(p: Peer, q: Peer, e: Byte): (r: (Peer, Peer))
    requires PeerOk(p) && PeerOk(q) && e < ELEMENTS
    ensures PeerOk(r.0) && PeerOk(r.1)
  {
    (ReceiveSendData(p, DataOf(q, e)).peer, ReceiveAck(q, p.id, e).peer)
  }

  /**
   * The exchange synchronises: both end with the same version, round, location bits and agreeing
   * nodes, whether or not the requester was already among them, and even if the round wraps; and
   * nothing else of either changes.
   */
  lemma ExchangeSynchronises(p: Peer, q: Peer, e: Byte)
    requires PeerOk(p) && PeerOk(q) && e < ELEMENTS
    ensures var (p', q') := Exchange(p, q, e);
            && p'.records[e] == q'.records[e]
            && p'.records[e].agreeing == q.records[e].agreeing + {p.id}
            && p' == p.(records := p.records[e := p'.records[e]])
            && q' == q.(records := q.records[e := q'.records[e]])
  {
    if p.id in q.records[e].agreeing {
      assert q.records[e].agreeing + {p.id} == q.records[e].agreeing;
    }
  }

  /** The three deliveries that make up the exchange of the request at position `i`. */
  ghost function Complete(s: Sys, i: nat, v: nat, w: nat): (s': Sys)
    requires SysOk(s) && v < |s.nodes| && w < |s.nodes| && v != w && i < |s.net|
    requires s.net[i].message.RequestData? && s.net[i].message.senderId == v && s.net[i].message.elementId < ELEMENTS
    requires Mutual(s.nodes[v], s.nodes[w])
    ensures var r := Exchange(s.nodes[v], s.nodes[w], s.net[i].message.elementId);
            && s'.nodes == s.nodes[v := r.0][w := r.1]
            && s.net <= s'.net && s'.initialised == s.initialised
            && forall k :: |s.net| <= k < |s'.net| ==> !s'.net[k].message.Advert?
    ensures SysOk(s')
  {
    var e := s.net[i].message.elementId;
    var s1 := Step(s, Deliver(w, i, 0));
    StepKeepsSysOk(s, Deliver(w, i, 0));
    assert s1.net[|s.net|].message == SendData(DataOf(s.nodes[w], e));
    assert s1.nodes == s.nodes;
    var s2 := Step(s1, Deliver(v, |s.net|, 0));
    StepKeepsSysOk(s1, Deliver(v, |s.net|, 0));
    assert s2.net[|s.net| + 1].message == Ack(v, e);
    assert s2.nodes[w] == s.nodes[w];
    StepKeepsSysOk(s2, Deliver(w, |s.net| + 1, 0));
    Step(s2, Deliver(w, |s.net| + 1, 0))
  }

  /** The exchange is three steps of the system, so it keeps what every step keeps. */
  lemma CompleteKeepsInv(s: Sys, i: nat, v: nat, w: nat)
    requires Inv(s) && |s.nodes| <= 128 && v < |s.nodes| && w < |s.nodes| && v != w && i < |s.net|
    requires s.net[i].message.RequestData? && s.net[i].message.senderId == v && s.net[i].message.elementId < ELEMENTS
    requires Mutual(s.nodes[v], s.nodes[w])
    ensures Inv(Complete(s, i, v, w))
  {
    var s1 := Step(s, Deliver(w, i, 0));
    StepKeepsInv(s, Deliver(w, i, 0));
    var s2 := Step(s1, Deliver(v, |s.net|, 0));
    StepKeepsInv(s1, Deliver(v, |s.net|, 0));
    StepKeepsInv(s2, Deliver(w, |s.net| + 1, 0));
  }

  /** A node with a smaller round strictly gains, and its neighbour does not lose. */
  lemma ExchangeRaises(size: nat, initialised: set<(nat, nat)>, p: Peer, q: Peer, e: Byte)
    requires PeerOk(p) && PeerOk(q) && e < ELEMENTS && size <= 128 && p.id < size
    requires RecordsBalanced(size, initialised, q)
    requires p.records[e].round < q.records[e].round
    ensures var (p', q') := Exchange(p, q, e);
            p'.records[e].round > p.records[e].round && q'.records[e].round >= q.records[e].round
  {
    JoinBalances(size, initialised, DataOf(q, e), p.id);
    ExchangeSynchronises(p, q, e);
  }
}
