/**
 * Convergence when every exchange completes before the next event (peer_node.cpp:459-498,
 * 526-592): rounds never decrease, every exchange raises the requester's, and there are at most
 * N(2N - 1) exchanges per element.
 */
module PeerConvergence {
  import opened Options
  import opened Bytes
  import opened AscendingSets
  import opened AdvertCodec
  import opened PeerSpec
  import opened PeerSystem
  import opened PeerExchange

  // ---- what is known of others is true or out of date ----

  /** A pair shown for element `e` of `p`: versions are never incremented, and rounds lag behind. */
  predicate Lags(pair: (Byte, Byte), p: Peer, e: nat) {
    PeerOk(p) && e < ELEMENTS && pair.0 == 0 && pair.1 <= p.records[e].round
  }

  ghost predicate GroupTrue(nodes: seq<Peer>, group: map<Word, NodeEntry>) {
    GroupOk(group) &&
    forall k :: k in group ==>
      && k < |nodes| && group[k].address == nodes[k].address
      && forall e :: 0 <= e < ELEMENTS ==> Lags(group[k].seen[e], nodes[k], e)
  }

  ghost predicate AdvertTrue(nodes: seq<Peer>, m: AdvertMessage) {
    && Aligned(m) && KnownElements(m)
    && m.senderId < |nodes| && m.ipv4Address == nodes[m.senderId].address
    && (forall i, j :: 0 <= i < j < |m.elements| ==> m.elements[i] != m.elements[j])
    && forall i :: 0 <= i < |m.elements| ==> Lags((m.versions[i], m.rounds[i]), nodes[m.senderId], m.elements[i])
  }

  ghost predicate VersionsZero(nodes: seq<Peer>) {
    forall v :: 0 <= v < |nodes| ==> NoVersions(nodes[v])
  }

  ghost predicate NoVersions(p: Peer) {
    PeerOk(p) && forall e :: 0 <= e < ELEMENTS ==> p.records[e].version == 0
  }

  /** Every node has its own address. */
  ghost predicate AddressesDiffer(nodes: seq<Peer>) {
    forall v, w :: 0 <= v < |nodes| && 0 <= w < |nodes| && nodes[v].address == nodes[w].address ==> v == w
  }

  ghost predicate Known(s: Sys) {
    && Inv(s) && |s.nodes| <= 128
    && VersionsZero(s.nodes) && AddressesDiffer(s.nodes)
    && (forall v :: 0 <= v < |s.nodes| ==> GroupTrue(s.nodes, s.nodes[v].localGroup))
    && (forall i :: 0 <= i < |s.net| && s.net[i].message.Advert? ==> AdvertTrue(s.nodes, s.net[i].message.advert))
  }

  /** No round decreases, and addresses stay. */
  ghost predicate Ahead(nodes: seq<Peer>, nodes': seq<Peer>) {
    && |nodes'| == |nodes|
    && (forall v :: 0 <= v < |nodes| ==> PeerOk(nodes[v]) && PeerOk(nodes'[v]))
    && forall v :: 0 <= v < |nodes| ==>
         && nodes'[v].id == nodes[v].id && nodes'[v].address == nodes[v].address
         && forall e :: 0 <= e < ELEMENTS ==> nodes[v].records[e].round <= nodes'[v].records[e].round
  }

  /** What lagged behind still does when rounds have grown. */
  lemma AheadKeepsTruth(nodes: seq<Peer>, nodes': seq<Peer>)
    requires Ahead(nodes, nodes')
    ensures forall group :: GroupTrue(nodes, group) ==> GroupTrue(nodes', group)
    ensures forall m :: AdvertTrue(nodes, m) ==> AdvertTrue(nodes', m)
    ensures AddressesDiffer(nodes) ==> AddressesDiffer(nodes')
  {
  }

  // ---- requests ----

  /** `k` shows more than the pair that `p` holds, no neighbour shows more, and no smaller id as much. */
  predicate IsBestNeighbour(p: Peer, e: Byte, k: Word)
    requires PeerOk(p) && e < ELEMENTS
  {
    && k in p.localGroup && Less(PairOf(p.records[e]), p.localGroup[k].seen[e])
    && forall j :: j in p.localGroup ==>
         && !Less(p.localGroup[k].seen[e], p.localGroup[j].seen[e])
         && (p.localGroup[j].seen[e] == p.localGroup[k].seen[e] ==> k <= j)
  }

  /** `m` is a request of `p` to its best neighbour for the element. */
  ghost predicate Asks(p: Peer, m: Packet) {
    && PeerOk(p)
    && m.message.RequestData? && m.message.senderId == p.id && m.message.elementId < ELEMENTS && m.to.Some?
    && exists k :: IsBestNeighbour(p, m.message.elementId, k) && m.to.value == p.localGroup[k].address
  }

  /** All of `out` are such requests, for different elements. */
  ghost predicate AllAsk(p: Peer, out: seq<Packet>) {
    && PeerOk(p)
    && (forall i :: 0 <= i < |out| ==> Asks(p, out[i]))
    && forall i, j :: 0 <= i < j < |out| ==> out[i].message.elementId != out[j].message.elementId
  }

  lemma BeginAsks(p: Peer, e: Byte)
    requires PeerOk(p) && e < ELEMENTS
    ensures AllAsk(BeginAgreement(p, e).peer, BeginAgreement(p, e).out)
    ensures forall m :: m in BeginAgreement(p, e).out ==> m.message.elementId == e
  {
    WantsIffBetter(p, e);
    BestIsGreatest(p.localGroup, e);
    if Wants(p, e) {
      assert IsBestNeighbour(p, e, BestOf(p.localGroup, e).node);
    }
  }

  /** The requests of earlier elements stay justified when an agreement begins on `e`. */
  lemma AsksAppend(p: Peer, out: seq<Packet>, e: Byte)
    requires PeerOk(p) && e < ELEMENTS && AllAsk(p, out)
    requires forall i :: 0 <= i < |out| ==> out[i].message.elementId != e
    ensures var begun := BeginAgreement(p, e);
            && AllAsk(begun.peer, out + begun.out)
            && begun.peer.localGroup == p.localGroup && begun.peer.id == p.id
  {
    BeginAsks(p, e);
    var begun := BeginAgreement(p, e);
    assert forall i :: 0 <= i < |begun.out| ==> begun.out[i] in begun.out;
    forall i | 0 <= i < |out|
      ensures Asks(begun.peer, out[i])
    {
      assert Asks(p, out[i]);
    }
  }

  lemma {:induction false} BeginAllAsk(p: Peer, elements: seq<Byte>)
    requires PeerOk(p) && forall i :: 0 <= i < |elements| ==> elements[i] < ELEMENTS
    requires forall i, j :: 0 <= i < j < |elements| ==> elements[i] != elements[j]
    ensures var o := BeginAll(p, elements);
            && AllAsk(o.peer, o.out) && o.peer.localGroup == p.localGroup && o.peer.id == p.id
            && forall i :: 0 <= i < |o.out| ==> o.out[i].message.elementId in elements
  {
    if elements != [] {
      var init, e := elements[..|elements| - 1], elements[|elements| - 1];
      BeginAllAsk(p, init);
      AsksAppend(BeginAll(p, init).peer, BeginAll(p, init).out, e);
      BeginAsks(BeginAll(p, init).peer, e);
    }
  }

  /** Entering or leaving a neighbourhood does not touch requests. */
  lemma NearbyIsIrrelevant(p: Peer, near: set<Word>, out: seq<Packet>)
    requires PeerOk(p) && AllAsk(p, out) && forall e :: e in near ==> e < ELEMENTS
    ensures AllAsk(p.(nearby := near), out)
  {
    forall i | 0 <= i < |out|
      ensures Asks(p.(nearby := near), out[i])
    {
      assert Asks(p, out[i]);
    }
  }

  lemma {:induction false} MoveAsks(p: Peer, near: set<Word>, n: nat)
    requires PeerOk(p) && n <= ELEMENTS
    ensures var o := Move(p, near, n);
            && AllAsk(o.peer, o.out) && o.peer.localGroup == p.localGroup && o.peer.id == p.id
            && forall i :: 0 <= i < |o.out| ==> o.out[i].message.elementId < n
  {
    if n > 0 {
      var e: Word := n - 1;
      MoveAsks(p, near, n - 1);
      var front, o := Move(p, near, n - 1), Move(p, near, n);
      if e in near && e !in front.peer.nearby {
        var begun := BeginAgreement(front.peer, e);
        AsksAppend(front.peer, front.out, e);
        BeginAsks(front.peer, e);
        NearbyIsIrrelevant(begun.peer, o.peer.nearby, o.out);
      } else {
        assert o.out == front.out;
        NearbyIsIrrelevant(front.peer, o.peer.nearby, o.out);
      }
    }
  }

  // ---- the event that comes before the exchanges ----

  /** An event that starts something: a timer, or the arrival of an advertisement, however old. */
  predicate IsEvent(s: Sys, a: Action) {
    CanAct(s, a) && (a.Deliver? ==> s.net[a.position].message.Advert?)
  }

  /** The rows filed for an advertisement lag behind its sender. */
  lemma {:induction false} SeenLags(nodes: seq<Peer>, info: AdvertMessage, n: nat)
    requires forall v :: 0 <= v < |nodes| ==> PeerOk(nodes[v])
    requires AdvertTrue(nodes, info) && n <= |info.elements|
    ensures forall e :: 0 <= e < ELEMENTS ==> Lags(SeenBy(info, n)[e], nodes[info.senderId], e)
  {
    if n > 0 {
      SeenLags(nodes, info, n - 1);
    }
  }

  /** The elements queued from an advertisement are among its own, and as different. */
  lemma {:induction false} QueuedDiffer(p: Peer, info: AdvertMessage, n: nat)
    requires PeerOk(p) && Aligned(info) && n <= |info.elements| && KnownElements(info)
    requires forall i, j :: 0 <= i < j < |info.elements| ==> info.elements[i] != info.elements[j]
    ensures forall i :: 0 <= i < |Queued(p, info, n)| ==> Queued(p, info, n)[i] in info.elements[..n]
    ensures forall i, j :: 0 <= i < j < |Queued(p, info, n)| ==> Queued(p, info, n)[i] != Queued(p, info, n)[j]
  {
    if n > 0 {
      QueuedDiffer(p, info, n - 1);
      assert info.elements[..n] == info.elements[..n - 1] + [info.elements[n - 1]];
      assert info.elements[n - 1] !in info.elements[..n - 1];
    }
  }

  /** The requests of an event are justified, and for different elements. */
  lemma EventAsks(s: Sys, a: Action)
    requires Known(s) && IsEvent(s, a) && MayBegin(s, a)
    ensures AllAsk(EffectOf(s, a).peer, EffectOf(s, a).out)
    ensures a.Look? ==> EffectOf(s, a).peer.localGroup == s.nodes[a.v].localGroup
    ensures a.Deliver? ==>
              var info := s.net[a.position].message.advert;
              && AdvertTrue(s.nodes, info)
              && EffectOf(s, a).peer.localGroup ==
                 s.nodes[a.v].localGroup[info.senderId :=
                   NodeEntry(info.ipv4Address, a.now, SeenBy(info, |info.elements|))]
  {
    var p := s.nodes[a.v];
    match a
    case Look(_, near) =>
      MoveAsks(p, near, ELEMENTS);
    case Deliver(_, i, now) =>
      var info := s.net[i].message.advert;
      var n := |info.elements|;
      assert AdvertTrue(s.nodes, info);
      QueuedDiffer(p, info, n);
      BeginAllAsk(p.(localGroup := p.localGroup[info.senderId := NodeEntry(info.ipv4Address, now, SeenBy(info, n))]),
                  Queued(p, info, n));
  }

  lemma EventIsAhead(s: Sys, a: Action)
    requires Known(s) && IsEvent(s, a)
    ensures SysOk(Step(s, a)) && Ahead(s.nodes, Step(s, a).nodes) && VersionsZero(Step(s, a).nodes)
  {
    StepKeepsSysOk(s, a);
    if MayBegin(s, a) {
      BeginStep(s, a);
    }
    assert NoVersions(s.nodes[a.v]);
  }

  /** What the actor knows afterwards is true. */
  lemma EventGroupTrue(s: Sys, a: Action)
    requires Known(s) && IsEvent(s, a)
    ensures GroupTrue(s.nodes, EffectOf(s, a).peer.localGroup)
  {
    assert GroupTrue(s.nodes, s.nodes[a.v].localGroup);
    if MayBegin(s, a) {
      EventAsks(s, a);
      if a.Deliver? {
        SeenLags(s.nodes, s.net[a.position].message.advert, |s.net[a.position].message.advert.elements|);
      }
    }
  }

  /** An advertisement tells the truth of the moment. */
  lemma AdvertiseTrue(nodes: seq<Peer>, v: nat)
    requires forall w :: 0 <= w < |nodes| ==> PeerOk(nodes[w])
    requires v < |nodes| && nodes[v].id == v && NoVersions(nodes[v])
    ensures AdvertTrue(nodes, Advertise(nodes[v]))
  {
    var m, elements := Advertise(nodes[v]), Ascending(nodes[v].nearby);
    assert forall i :: 0 <= i < |elements| ==> elements[i] in nodes[v].nearby;
  }

  lemma EventKeepsKnown(s: Sys, a: Action)
    requires Known(s) && IsEvent(s, a)
    ensures Known(Step(s, a)) && Ahead(s.nodes, Step(s, a).nodes)
    ensures MayBegin(s, a) ==> AllAsk(Step(s, a).nodes[a.v], Step(s, a).net[|s.net|..])
  {
    var s', o := Step(s, a), EffectOf(s, a);
    StepKeepsInv(s, a);
    EventIsAhead(s, a);
    AheadKeepsTruth(s.nodes, s'.nodes);
    EventGroupTrue(s, a);
    if MayBegin(s, a) {
      EventAsks(s, a);
      assert s'.net[|s.net|..] == o.out;
    }
    forall i | 0 <= i < |s'.net| && s'.net[i].message.Advert?
      ensures AdvertTrue(s'.nodes, s'.net[i].message.advert)
    {
      if i < |s.net| {
        assert AdvertTrue(s.nodes, s.net[i].message.advert);
      } else {
        assert s'.net[i] == o.out[i - |s.net|];
        assert NoVersions(s.nodes[a.v]);
        AdvertiseTrue(s.nodes, a.v);
      }
    }
  }

  // ---- the exchanges that follow ----

  /** Whom a request goes to: the one node with the address, which is another and shows a higher round. */
  lemma AskedNode(s: Sys, v: nat, m: Packet) returns (w: nat)
    requires Known(s) && v < |s.nodes| && Asks(s.nodes[v], m)
    ensures w < |s.nodes| && w != v && m.to == Some(s.nodes[w].address) && w in s.nodes[v].localGroup
    ensures s.nodes[v].records[m.message.elementId].round < s.nodes[w].records[m.message.elementId].round
  {
    var p, e := s.nodes[v], m.message.elementId;
    var k :| && k in p.localGroup && m.to.value == p.localGroup[k].address
             && Less(PairOf(p.records[e]), p.localGroup[k].seen[e]);
    assert GroupTrue(s.nodes, p.localGroup);
    assert Lags(p.localGroup[k].seen[e], s.nodes[k], e);
    assert NoVersions(p);
    w := k;
  }

  ghost predicate IsAsked(s: Sys, v: nat, m: Packet, w: nat) {
    && v < |s.nodes| && w < |s.nodes| && w != v && m.to == Some(s.nodes[w].address) && w in s.nodes[v].localGroup
  }

  /** What an exchange does to the nodes: no round falls, the requester's rises, and only records change. */
  lemma ExchangeIsAhead(s: Sys, v: nat, w: nat, e: Byte)
    requires Known(s) && v < |s.nodes| && w < |s.nodes| && v != w && e < ELEMENTS
    requires s.nodes[v].records[e].round < s.nodes[w].records[e].round
    ensures var r := Exchange(s.nodes[v], s.nodes[w], e);
            var nodes' := s.nodes[v := r.0][w := r.1];
            && Ahead(s.nodes, nodes') && VersionsZero(nodes')
            && nodes'[v].records[e].round > s.nodes[v].records[e].round
            && (forall f :: 0 <= f < ELEMENTS && f != e ==> nodes'[v].records[f] == s.nodes[v].records[f])
            && forall x :: 0 <= x < |s.nodes| ==> nodes'[x].localGroup == s.nodes[x].localGroup
  {
    var p, q := s.nodes[v], s.nodes[w];
    assert RecordsBalanced(|s.nodes|, s.initialised, q);
    assert NoVersions(p) && NoVersions(q);
    ExchangeRaises(|s.nodes|, s.initialised, p, q, e);
    ExchangeSynchronises(p, q, e);
  }

  /** Knowledge survives a step that changes no local group and announces nothing. */
  lemma KnownSurvives(s: Sys, s': Sys)
    requires Known(s) && Inv(s') && Ahead(s.nodes, s'.nodes) && VersionsZero(s'.nodes)
    requires forall x :: 0 <= x < |s.nodes| ==> s'.nodes[x].localGroup == s.nodes[x].localGroup
    requires s.net <= s'.net && forall k :: |s.net| <= k < |s'.net| ==> !s'.net[k].message.Advert?
    ensures Known(s')
  {
    AheadKeepsTruth(s.nodes, s'.nodes);
    forall k | 0 <= k < |s'.net| && s'.net[k].message.Advert?
      ensures AdvertTrue(s'.nodes, s'.net[k].message.advert)
    {
      assert k < |s.net| && s'.net[k] == s.net[k];
    }
  }

  /** One exchange: the requester's round rises, no round falls, and the other requests stand. */
  lemma CompleteKeepsKnown(s: Sys, v: nat, i: nat, w: nat)
    requires Known(s) && v < |s.nodes| && i < |s.net| && Asks(s.nodes[v], s.net[i]) && IsAsked(s, v, s.net[i], w)
    requires v in s.nodes[w].localGroup
    ensures var s', e := Complete(s, i, v, w), s.net[i].message.elementId;
            && Known(s') && Ahead(s.nodes, s'.nodes)
            && s.nodes[v].records[e].round < s'.nodes[v].records[e].round
            && s'.nodes[v].localGroup == s.nodes[v].localGroup
            && forall f :: 0 <= f < ELEMENTS && f != e ==> s'.nodes[v].records[f] == s.nodes[v].records[f]
  {
    var asked := AskedNode(s, v, s.net[i]);
    ExchangeIsAhead(s, v, w, s.net[i].message.elementId);
    CompleteKeepsInv(s, i, v, w);
    KnownSurvives(s, Complete(s, i, v, w));
  }

  // ---- all exchanges of an event ----

  /** The node a request goes to. */
  ghost function Asked(s: Sys, v: nat, m: Packet): (w: nat)
    requires Known(s) && v < |s.nodes| && Asks(s.nodes[v], m)
    ensures IsAsked(s, v, m, w)
  {
    assert exists w: nat :: IsAsked(s, v, m, w) by {
      var w := AskedNode(s, v, m);
      assert IsAsked(s, v, m, w);
    }
    var w: nat :| IsAsked(s, v, m, w);
    w
  }

  /** No round falls, and those of `v` for the elements in `done` rise. */
  ghost predicate Rises(nodes: seq<Peer>, nodes': seq<Peer>, v: nat, done: set<Byte>) {
    && Ahead(nodes, nodes') && v < |nodes|
    && forall e :: e in done ==> e < ELEMENTS && nodes[v].records[e].round < nodes'[v].records[e].round
  }

  lemma RisesChain(a: seq<Peer>, b: seq<Peer>, c: seq<Peer>, v: nat, first: set<Byte>, rest: set<Byte>)
    requires Rises(a, b, v, first) && Rises(b, c, v, rest)
    ensures Rises(a, c, v, rest + first)
  {
  }

  /**
   * The requests of `v` at the positions from `i` below `end`, one complete exchange after the
   * other; a request to a node that has not heard of `v` fails (its lookup throws) and counts for
   * nothing. The second component are the elements for which an exchange was completed.
   */
  ghost function CompleteAll(s: Sys, v: nat, i: nat, end: nat): (r: (Sys, set<Byte>))
    requires Asking(s, v, i, end)
    ensures Known(r.0) && Rises(s.nodes, r.0.nodes, v, r.1)
    decreases end - i
  {
    if i == end then (s, {})
    else
      var w := Asked(s, v, s.net[i]);
      if v !in s.nodes[w].localGroup then
        CompleteAll(s, v, i + 1, end)
      else
        var s', e := Complete(s, i, v, w), s.net[i].message.elementId;
        CompleteIsAsking(s, v, i, end, w);
        var rest := CompleteAll(s', v, i + 1, end);
        RisesChain(s.nodes, s'.nodes, rest.0.nodes, v, {e}, rest.1);
        (rest.0, rest.1 + {e})
  }

  lemma CompleteIsAsking(s: Sys, v: nat, i: nat, end: nat, w: nat)
    requires Asking(s, v, i, end) && i < end && IsAsked(s, v, s.net[i], w) && v in s.nodes[w].localGroup
    ensures var s', e := Complete(s, i, v, w), s.net[i].message.elementId;
            Asking(s', v, i + 1, end) && Rises(s.nodes, s'.nodes, v, {e})
  {
    assert Asks(s.nodes[v], s.net[i]);
    CompleteKeepsKnown(s, v, i, w);
    OthersStillAsk(s, Complete(s, i, v, w), v, i, end);
  }

  /** The positions from `i` below `end` hold unanswered requests of `v` for different elements. */
  ghost predicate Asking(s: Sys, v: nat, i: nat, end: nat) {
    && Known(s) && v < |s.nodes| && i <= end <= |s.net|
    && (forall k :: i <= k < end ==> Asks(s.nodes[v], s.net[k]))
    && forall j, k :: i <= j < k < end ==> s.net[j].message.elementId != s.net[k].message.elementId
  }

  lemma OthersStillAsk(s: Sys, s': Sys, v: nat, i: nat, end: nat)
    requires Asking(s, v, i, end) && i < end && Known(s') && Ahead(s.nodes, s'.nodes) && s.net <= s'.net
    requires s'.nodes[v].localGroup == s.nodes[v].localGroup
    requires forall f :: 0 <= f < ELEMENTS && f != s.net[i].message.elementId ==>
               s'.nodes[v].records[f] == s.nodes[v].records[f]
    ensures Asking(s', v, i + 1, end)
  {
    forall k | i + 1 <= k < end
      ensures s'.net[k] == s.net[k] && Asks(s'.nodes[v], s'.net[k])
    {
      assert Asks(s.nodes[v], s.net[k]) && s.net[k].message.elementId != s.net[i].message.elementId;
    }
  }

  /** After an event its requests, if any, are at the end of the network and all justified. */
  lemma EventLeavesAsking(s: Sys, a: Action)
    requires Known(s) && IsEvent(s, a) && MayBegin(s, a)
    ensures Asking(Step(s, a), a.v, |s.net|, |Step(s, a).net|)
    ensures Ahead(s.nodes, Step(s, a).nodes)
  {
    EventKeepsKnown(s, a);
    var s' := Step(s, a);
    var out := s'.net[|s.net|..];
    assert forall k :: |s.net| <= k < |s'.net| ==> s'.net[k] == out[k - |s.net|];
  }

  /** An event and the exchanges it leads to. */
  ghost function Round(s: Sys, a: Action): (r: (Sys, set<Byte>))
    requires Known(s) && IsEvent(s, a)
    ensures Known(r.0) && Rises(s.nodes, r.0.nodes, a.v, r.1)
  {
    if !MayBegin(s, a) then
      EventKeepsKnown(s, a);
      (Step(s, a), {})
    else
      EventLeavesAsking(s, a);
      var r := CompleteAll(Step(s, a), a.v, |s.net|, |Step(s, a).net|);
      RisesChain(s.nodes, Step(s, a).nodes, r.0.nodes, a.v, {}, r.1);
      assert r.1 + {} == r.1;
      r
  }

  // ---- the bound ----

  function RoundSum(nodes: seq<Peer>, e: nat): nat
    requires e < ELEMENTS && forall v :: 0 <= v < |nodes| ==> PeerOk(nodes[v])
  {
    if nodes == [] then 0
    else
      assert PeerOk(nodes[|nodes| - 1]);
      RoundSum(nodes[..|nodes| - 1], e) + nodes[|nodes| - 1].records[e].round
  }

  lemma {:induction false} SumGrows(nodes: seq<Peer>, nodes': seq<Peer>, e: nat)
    requires e < ELEMENTS && Ahead(nodes, nodes')
    ensures RoundSum(nodes, e) <= RoundSum(nodes', e)
    ensures (exists v :: 0 <= v < |nodes| && nodes[v].records[e].round < nodes'[v].records[e].round) ==>
              RoundSum(nodes, e) < RoundSum(nodes', e)
  {
    if nodes != [] {
      SumGrows(nodes[..|nodes| - 1], nodes'[..|nodes| - 1], e);
    }
  }

  lemma {:induction false} SumBounded(nodes: seq<Peer>, e: nat, bound: nat)
    requires e < ELEMENTS && forall v :: 0 <= v < |nodes| ==> PeerOk(nodes[v]) && nodes[v].records[e].round <= bound
    ensures RoundSum(nodes, e) <= |nodes| * bound
  {
    if nodes != [] {
      SumBounded(nodes[..|nodes| - 1], e, bound);
    }
  }

  /** A run in which every event's exchanges complete before the next event. */
  ghost predicate IsAtomicRun(states: seq<Sys>, actions: seq<Action>) {
    && |states| == |actions| + 1
    && IsStart(states[0]) && |states[0].nodes| <= 128 && AddressesDiffer(states[0].nodes)
    && forall k :: 0 <= k < |actions| ==> AtomicMove(states[k], actions[k], states[k + 1])
  }

  /** `Known` holds in every state of such a run (`AtomicRunsKnow`); here it only makes `Round` defined. */
  ghost predicate AtomicMove(s: Sys, a: Action, s': Sys) {
    Known(s) && IsEvent(s, a) && s' == Round(s, a).0
  }

  lemma StartIsKnown(s: Sys)
    requires IsStart(s) && |s.nodes| <= 128 && AddressesDiffer(s.nodes)
    ensures Known(s)
  {
    StartIsBalanced(s);
    forall v | 0 <= v < |s.nodes|
      ensures NoVersions(s.nodes[v]) && GroupTrue(s.nodes, s.nodes[v].localGroup)
    {
      assert IsStarted(s.nodes[v], v);
    }
  }

  lemma {:induction false} AtomicRunsKnow(states: seq<Sys>, actions: seq<Action>, k: nat)
    requires IsAtomicRun(states, actions) && k <= |actions|
    ensures Known(states[k]) && |states[k].nodes| == |states[0].nodes|
  {
    if k == 0 {
      StartIsKnown(states[0]);
    } else {
      AtomicRunsKnow(states, actions, k - 1);
      assert AtomicMove(states[k - 1], actions[k - 1], states[k]);
    }
  }

  /** Rounds never decrease along such a run. */
  lemma {:induction false} RoundsOnlyGrow(states: seq<Sys>, actions: seq<Action>, j: nat, k: nat)
    requires IsAtomicRun(states, actions) && j <= k <= |actions|
    ensures Ahead(states[j].nodes, states[k].nodes)
  {
    AtomicRunsKnow(states, actions, j);
    if j < k {
      RoundsOnlyGrow(states, actions, j, k - 1);
      assert AtomicMove(states[k - 1], actions[k - 1], states[k]);
    }
  }

  /** How many exchanges for element `e` the first `k` events have led to. */
  ghost function ExchangeCount(states: seq<Sys>, actions: seq<Action>, e: Byte, k: nat): nat
    requires IsAtomicRun(states, actions) && k <= |actions|
  {
    if k == 0 then 0
    else
      assert AtomicMove(states[k - 1], actions[k - 1], states[k]);
      ExchangeCount(states, actions, e, k - 1) + if e in Round(states[k - 1], actions[k - 1]).1 then 1 else 0
  }

  /** An event that leads to an exchange for `e` raises the sum of the rounds. */
  lemma MoveRaisesSum(s: Sys, a: Action, s': Sys, e: Byte)
    requires AtomicMove(s, a, s') && e < ELEMENTS
    ensures Known(s') && RoundSum(s.nodes, e) + (if e in Round(s, a).1 then 1 else 0) <= RoundSum(s'.nodes, e)
  {
    SumGrows(s.nodes, s'.nodes, e);
  }

  lemma {:induction false} CountBelowSum(states: seq<Sys>, actions: seq<Action>, e: Byte, k: nat, s: Sys)
    requires IsAtomicRun(states, actions) && k <= |actions| && e < ELEMENTS && s == states[k]
    ensures Known(s) && ExchangeCount(states, actions, e, k) <= RoundSum(s.nodes, e)
  {
    AtomicRunsKnow(states, actions, k);
    if k > 0 {
      CountBelowSum(states, actions, e, k - 1, states[k - 1]);
      MoveRaisesSum(states[k - 1], actions[k - 1], s, e);
    }
  }

  /** No round exceeds 2N - 1, so their sum is at most N(2N - 1). */
  lemma SumAtMost(s: Sys, e: Byte, n: nat)
    requires Known(s) && e < ELEMENTS && n == |s.nodes|
    ensures RoundSum(s.nodes, e) <= n * (2 * n - 1)
  {
    forall v | 0 <= v < n
      ensures PeerOk(s.nodes[v]) && s.nodes[v].records[e].round <= 2 * n - 1
    {
      assert RecordsBalanced(n, s.initialised, s.nodes[v]);
      BalanceBounds(n, s.initialised, e, s.nodes[v].records[e].round, s.nodes[v].records[e].agreeing);
    }
    if n > 0 {
      SumBounded(s.nodes, e, 2 * n - 1);
    } else {
      assert s.nodes == [];
    }
  }

  /**
   * The convergence bound: N peers, N at most 128, make at most N(2N - 1) exchanges for an element
   * in any run, however long and however old the advertisements are that trigger them.
   */
  lemma ExchangesAreBounded(states: seq<Sys>, actions: seq<Action>, e: Byte, n: nat)
    requires IsAtomicRun(states, actions) && e < ELEMENTS && n == |states[0].nodes|
    ensures ExchangeCount(states, actions, e, |actions|) <= n * (2 * n - 1)
  {
    var last := states[|actions|];
    AtomicRunsKnow(states, actions, |actions|);
    CountBelowSum(states, actions, e, |actions|, last);
    SumAtMost(last, e, n);
  }

  // ---- quiescence ----

  /** `p` has heard the current pair of `q`. */
  predicate Heard(p: Peer, q: Peer, e: nat) {
    PeerOk(p) && PeerOk(q) && e < ELEMENTS && q.id in p.localGroup && p.localGroup[q.id].seen[e] == PairOf(q.records[e])
  }

  /** All nodes have heard each other's current pairs for the element. */
  ghost predicate Fresh(nodes: seq<Peer>, e: nat) {
    forall v, w :: 0 <= v < |nodes| && 0 <= w < |nodes| && v != w ==> Heard(nodes[v], nodes[w], e)
  }

  /**
   * With fresh, mutually heard advertisements nobody asks for the element exactly when all rounds
   * for it are equal.
   */
  lemma QuietIffEqual(s: Sys, e: Byte)
    requires Known(s) && e < ELEMENTS && Fresh(s.nodes, e)
    ensures (forall v :: 0 <= v < |s.nodes| ==> !Wants(s.nodes[v], e)) <==>
            (forall v, w :: 0 <= v < |s.nodes| && 0 <= w < |s.nodes| ==>
               s.nodes[v].records[e].round == s.nodes[w].records[e].round)
  {
    forall v | 0 <= v < |s.nodes|
      ensures Wants(s.nodes[v], e) <==>
              exists w :: 0 <= w < |s.nodes| && s.nodes[v].records[e].round < s.nodes[w].records[e].round
    {
      WantsAgainstFresh(s, e, v);
    }
  }

  lemma WantsAgainstFresh(s: Sys, e: Byte, v: nat)
    requires Known(s) && e < ELEMENTS && Fresh(s.nodes, e) && v < |s.nodes|
    ensures Wants(s.nodes[v], e) <==>
            exists w :: 0 <= w < |s.nodes| && s.nodes[v].records[e].round < s.nodes[w].records[e].round
  {
    var p := s.nodes[v];
    WantsIffBetter(p, e);
    assert GroupTrue(s.nodes, p.localGroup) && NoVersions(p);
    if Wants(p, e) {
      var k :| k in p.localGroup && Less(PairOf(p.records[e]), p.localGroup[k].seen[e]);
      assert Lags(p.localGroup[k].seen[e], s.nodes[k], e);
    }
    if w :| 0 <= w < |s.nodes| && p.records[e].round < s.nodes[w].records[e].round {
      assert NoVersions(s.nodes[w]) && Heard(p, s.nodes[w], e);
      assert Less(PairOf(p.records[e]), p.localGroup[w].seen[e]);
    }
  }
}
