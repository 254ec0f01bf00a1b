/**
 * Quiescence is not agreement (peer_node.cpp:459-498): rounds decide who asks, and two groups of nodes
 * that were started apart may come to the same round with different locations.
 */
module PeerDisagreement {
  import opened Options
  import opened Bytes
  import opened AscendingSets
  import opened AdvertCodec
  import opened SendDataCodec
  import opened PeerSpec
  import opened PeerSystem
  import opened PeerRuns
  import V = PeerConvergence

  /** Node `v` as it starts; its guess for every element is the point (v, v). */
  function Starting(v: Word): (p: Peer)
    ensures PeerOk(p)
  {
    Start(v, v, seq(ELEMENTS, _ => (v, v)))
  }

  /** Nobody that the node has heard of is beyond round 2. */
  predicate HeardNoMore(p: Peer)
    requires PeerOk(p)
  {
    forall k :: k in p.localGroup ==> !Less((0, 2), p.localGroup[k].seen[0])
  }

  /** The first record of a node that looks after element 0. */
  predicate Shows(p: Peer, v: Word, round: Byte, guess: Word, agreeing: set<Word>) {
    && PeerOk(p) && p.id == v == p.address && p.nearby == {0} && HeardNoMore(p)
    && p.records[0] == Agreement(0, round, guess, guess, agreeing)
  }

  /** The row that an advertisement of element 0 fills in. */
  function Row(round: Byte): (r: seq<(Byte, Byte)>)
    ensures |r| == ELEMENTS
  {
    seq(ELEMENTS, e => if e == 0 then (0, round) else (0, 0))
  }

  function AdvertOf(v: Word, round: Byte): AdvertMessage {
    AdvertMessage(v, v, [0], [0], [round])
  }

  lemma Advertises(p: Peer, v: Word, round: Byte, guess: Word, agreeing: set<Word>)
    requires Shows(p, v, round, guess, agreeing)
    ensures Advertise(p) == AdvertOf(v, round)
  {
    AscendingIsUnique([0], Ascending({0}));
  }

  /** An advertisement that shows nothing better is only filed. */
  lemma Files(p: Peer, w: Word, round: Byte)
    requires PeerOk(p) && (0 !in p.nearby || !Less(PairOf(p.records[0]), (0, round)))
    ensures ReceiveAdvert(p, AdvertOf(w, round), 0) ==
            Outcome(p.(localGroup := p.localGroup[w := NodeEntry(w, 0, Row(round))]), [], false)
  {
    var info := AdvertOf(w, round);
    assert SeenBy(info, 0) == seq(ELEMENTS, _ => (0, 0));
    assert SeenBy(info, 1) == Row(round);
    assert Queued(p, info, 0) == [];
    assert Queued(p, info, 1) == [];
  }

  /** A node that knows nobody looks at element 0 and starts its record. */
  lemma LooksAlone(p: Peer, v: Word)
    requires v < 128 && p == Starting(v)
    ensures var o := Move(p, {0}, ELEMENTS);
            o.out == [] && Shows(o.peer, v, v + 1, v, {v}) && o.peer.localGroup == map[]
  {
    OnlyZeroNear(p, ELEMENTS);
  }

  // ---- node 1 alone, node 0 with node 2 ----

  /** Nodes 0 and 1 start their records. */
  lemma TwoStart() returns (s: Sys)
    ensures s in Reached() && |s.nodes| == 3 && s.net == []
    ensures Shows(s.nodes[0], 0, 1, 0, {0}) && Shows(s.nodes[1], 1, 2, 1, {1}) && s.nodes[2] == Starting(2)
    ensures s.nodes[0].localGroup == s.nodes[1].localGroup == map[]
  {
    s := Sys([Starting(0), Starting(1), Starting(2)], [], {});
    forall v | 0 <= v < 3
      ensures IsStarted(s.nodes[v], v)
    {
      assert s.nodes[v] == Start(v, v, seq(ELEMENTS, _ => (v, v)));
    }
    assert EndsIn([s], [], s);
    LooksAlone(s.nodes[0], 0);
    s := Go(s, Look(0, {0}), Move(s.nodes[0], {0}, ELEMENTS));
    LooksAlone(s.nodes[1], 1);
    s := Go(s, Look(1, {0}), Move(s.nodes[1], {0}, ELEMENTS));
  }

  /** Nodes 0 and 2 hear each other. */
  lemma Meet() returns (s: Sys)
    ensures s in Reached() && |s.nodes| == 3 && |s.net| == 2
    ensures Shows(s.nodes[0], 0, 1, 0, {0}) && Shows(s.nodes[1], 1, 2, 1, {1})
    ensures s.nodes[1].localGroup == map[]
    ensures s.nodes[2] == Starting(2).(localGroup := map[0 := NodeEntry(0, 0, Row(1))])
    ensures s.nodes[0].localGroup == map[2 := NodeEntry(2, 0, seq(ELEMENTS, _ => (0, 0)))]
  {
    s := TwoStart();
    var p, q, r := s.nodes[0], s.nodes[2], AdvertMessage(2, 2, [], [], []);
    Advertises(p, 0, 1, 0, {0});
    s := Go(s, Announce(0), Outcome(p, [Packet(None, Advert(AdvertOf(0, 1)))], false));
    assert s.nodes[2] == q;
    Files(q, 0, 1);
    s := Go(s, Deliver(2, 0, 0), Outcome(q.(localGroup := q.localGroup[0 := NodeEntry(0, 0, Row(1))]), [], false));
    q := s.nodes[2];
    assert Advertise(q) == r;
    s := Go(s, Announce(2), Outcome(q, [Packet(None, Advert(r))], false));
    assert s.nodes[0] == p;
    s := Go(s, Deliver(0, 1, 0),
            Outcome(p.(localGroup := p.localGroup[2 := NodeEntry(2, 0, seq(ELEMENTS, _ => (0, 0)))]), [], false));
  }

  /** Node 2 asks node 0 for the element. */
  lemma AsksZero(p: Peer)
    requires p == Starting(2).(localGroup := map[0 := NodeEntry(0, 0, Row(1))])
    ensures Move(p, {0}, ELEMENTS) == Outcome(p.(nearby := {0}), [Packet(Some(0), RequestData(2, 0))], false)
  {
    BestIsGreatest(p.localGroup, 0);
    assert p.localGroup[0].seen[0] == (0, 1);
    OnlyZeroNear(p, ELEMENTS);
  }

  /** What node 0 sends it. */
  const DATA: SendDataMessage := SendDataMessage(0, 0, 0, 0, 0, 1, {0})

  /** Node 2 asks, and is answered. */
  lemma Asks() returns (s: Sys)
    ensures s in Reached() && |s.nodes| == 3 && |s.net| == 4 && s.net[3] == Packet(Some(2), SendData(DATA))
    ensures Shows(s.nodes[0], 0, 1, 0, {0}) && Shows(s.nodes[1], 1, 2, 1, {1})
    ensures 0 in s.nodes[2].localGroup && s.nodes[2].localGroup[0].address == 0
    ensures PeerOk(s.nodes[2]) && s.nodes[2].id == s.nodes[2].address == 2 && s.nodes[2].nearby == {0}
    ensures HeardNoMore(s.nodes[2])
  {
    s := Meet();
    var p, q := s.nodes[0], s.nodes[2];
    AsksZero(q);
    s := Go(s, Look(2, {0}), Outcome(q.(nearby := {0}), [Packet(Some(0), RequestData(2, 0))], false));
    assert s.nodes[0] == p;
    s := Go(s, Deliver(0, 2, 0), Outcome(p, [Packet(Some(2), SendData(DATA))], false));
  }

  /** It joins node 0, whose round the acknowledgement raises. */
  lemma JoinsZero() returns (s: Sys)
    ensures s in Reached() && |s.nodes| == 3
    ensures Shows(s.nodes[0], 0, 2, 0, {0, 2}) && Shows(s.nodes[1], 1, 2, 1, {1}) && Shows(s.nodes[2], 2, 2, 0, {0, 2})
  {
    s := Asks();
    var p, q := s.nodes[0], s.nodes[2];
    s := Go(s, Deliver(2, 3, 0),
            Outcome(q.(records := q.records[0 := Join(DATA, 2)]), [Packet(Some(0), Ack(2, 0))], false));
    assert s.nodes[0] == p;
    s := Go(s, Deliver(0, 4, 0), Outcome(p.(records := p.records[0 := Acknowledge(p.records[0], 2)]), [], false));
    assert {0} + {2} == {0, 2};
  }

  // ---- everyone hears everyone ----

  /** Node `v` of three at round 2: nodes 0 and 2 have agreed, and node 1 is on its own. */
  predicate IsSettled(p: Peer, v: Word) {
    Shows(p, v, 2, if v == 1 then 1 else 0, if v == 1 then {1} else {0, 2})
  }

  ghost predicate Settled(s: Sys) {
    s in Reached() && |s.nodes| == 3 && forall v: Word :: v < 3 ==> IsSettled(s.nodes[v], v)
  }

  /** The node has heard that `w` is at round 2. */
  predicate HasHeard(p: Peer, w: Word) {
    w in p.localGroup && p.localGroup[w].seen == Row(2)
  }

  /** The settled states after the first `k` of the hearings listed as (0, 0), (0, 1), (0, 2), (1, 0) and so on. */
  ghost function AfterHearings(k: nat): iset<Sys> {
    iset s: Sys | Settled(s)
                  && forall v: Word, w: Word :: v < 3 && w < 3 && v != w && 3 * v + w < k ==> HasHeard(s.nodes[v], w)
  }

  /** A settled node that hears `w`. */
  function Hearing(p: Peer, w: Word): (p': Peer)
    ensures HasHeard(p', w) && forall u: Word :: HasHeard(p, u) ==> HasHeard(p', u)
  {
    p.(localGroup := p.localGroup[w := NodeEntry(w, 0, Row(2))])
  }

  lemma StaysSettled(p: Peer, v: Word, w: Word)
    requires IsSettled(p, v)
    ensures IsSettled(Hearing(p, w), v)
  {
    assert Row(2)[0] == (0, 2);
  }

  /** Node `w` announces itself. */
  lemma Announces(s: Sys, w: Word) returns (s': Sys)
    requires Settled(s) && w < 3
    ensures s' in Reached() && s'.nodes == s.nodes && s'.net == s.net + [Packet(None, Advert(AdvertOf(w, 2)))]
  {
    var q := s.nodes[w];
    assert IsSettled(q, w);
    Advertises(q, w, 2, q.records[0].x, q.records[0].agreeing);
    s' := Go(s, Announce(w), Outcome(q, [Packet(None, Advert(AdvertOf(w, 2)))], false));
    assert s'.nodes == s.nodes;
  }

  /** And `v` hears it. */
  lemma Hears(s: Sys, v: Word, w: Word) returns (s': Sys)
    requires v < 3 && w < 3 && v != w && s in AfterHearings(3 * v + w)
    ensures s' in AfterHearings(3 * v + w + 1)
  {
    var p, i := s.nodes[v], |s.net|;
    s' := Announces(s, w);
    assert IsSettled(p, v);
    Files(p, w, 2);
    NodesStaySettled(s.nodes, v, w);
    s' := Go(s', Deliver(v, i, 0), Outcome(Hearing(p, w), [], false));
  }

  lemma NodesStaySettled(nodes: seq<Peer>, v: Word, w: Word)
    requires |nodes| == 3 && v < 3 && forall u: Word :: u < 3 ==> IsSettled(nodes[u], u)
    ensures var nodes' := nodes[v := Hearing(nodes[v], w)];
            && HasHeard(nodes'[v], w)
            && forall u: Word :: u < 3 ==>
                 IsSettled(nodes'[u], u) && forall x: Word :: HasHeard(nodes[u], x) ==> HasHeard(nodes'[u], x)
  {
    assert IsSettled(nodes[v], v);
    StaysSettled(nodes[v], v, w);
  }

  lemma {:induction false} HearUpTo(k: nat) returns (s: Sys)
    requires k <= 9
    ensures s in AfterHearings(k)
  {
    if k == 0 {
      s := JoinsZero();
    } else {
      s := HearUpTo(k - 1);
      if (k - 1) / 3 != (k - 1) % 3 {
        s := Hears(s, (k - 1) / 3, (k - 1) % 3);
      }
    }
  }

  /**
   * A reachable state of three nodes in which every node has heard every other's current pair, all
   * rounds are equal and nobody asks any more, and yet the locations differ.
   */
  lemma QuietDisagreement() returns (s: Sys)
    ensures Reachable(s) && SysOk(s) && |s.nodes| == 3 && V.Fresh(s.nodes, 0)
    ensures forall v :: 0 <= v < 3 ==> s.nodes[v].records[0].round == 2 && !Wants(s.nodes[v], 0)
    ensures s.nodes[0].records[0].x == 0 && s.nodes[1].records[0].x == 1
  {
    s := HearUpTo(9);
    forall v, w | 0 <= v < 3 && 0 <= w < 3 && v != w
      ensures V.Heard(s.nodes[v], s.nodes[w], 0)
    {
      assert IsSettled(s.nodes[v], v) && IsSettled(s.nodes[w], w);
      assert HasHeard(s.nodes[v], w);
    }
    forall v | 0 <= v < 3
      ensures s.nodes[v].records[0].round == 2 && !Wants(s.nodes[v], 0)
    {
      assert IsSettled(s.nodes[v], v);
      WantsIffBetter(s.nodes[v], 0);
    }
    assert IsSettled(s.nodes[0], 0) && IsSettled(s.nodes[1], 1);
  }
}
