/**
 * Peers and every packet ever sent, deliverable to anyone, any number of times, in any order or
 * never; and the quantity that all of it conserves (peer_node.cpp:39-64, 459-498, 557-592).
 */
module PeerSystem {
  import opened Options
  import opened Bytes
  import opened AdvertCodec
  import opened SendDataCodec
  import opened PeerSpec
  import opened SetSizes

  /** `initialised` is history: which node has given which element its first round. */
  datatype Sys = Sys(nodes: seq<Peer>, net: seq<Packet>, initialised: set<(nat, nat)>)

  datatype Action =
    | Deliver(v: nat, position: nat, now: int)
    | Look(v: nat, near: set<Word>)
    | Forget(v: nat, now: int)
    | Announce(v: nat)

  predicate PacketOk(packet: Packet) {
    packet.message.Advert? ==> Aligned(packet.message.advert)
  }

  predicate SysOk(s: Sys) {
    && |s.nodes| <= 0x1_0000_0000
    && (forall v :: 0 <= v < |s.nodes| ==> PeerOk(s.nodes[v]) && s.nodes[v].id == v)
    && (forall i :: 0 <= i < |s.net| ==> PacketOk(s.net[i]))
  }

  predicate CanAct(s: Sys, a: Action) {
    SysOk(s) && a.v < |s.nodes| && (a.Deliver? ==> a.position < |s.net|)
  }

  function EffectOf(s: Sys, a: Action): Outcome
    requires CanAct(s, a)
  {
    var p := s.nodes[a.v];
    match a
    case Deliver(_, i, now) => Receive(p, s.net[i].message, now)
    case Look(_, near) => Move(p, near, ELEMENTS)
    case Forget(_, now) => Outcome(CheckHeartbeats(p, now), [], false)
    case Announce(_) => Outcome(p, [Packet(None, Advert(Advertise(p)))], false)
  }

  /** The records that a turn has started from the node's id. */
  function StartedBy(p: Peer, p': Peer): set<nat>
    requires PeerOk(p) && PeerOk(p')
  {
    set e | 0 <= e < ELEMENTS && p'.records[e] != p.records[e] && p'.records[e] == Initialise(p.records[e], p.id)
  }

  /** Whether the action may begin agreements, and so start records. */
  predicate MayBegin(s: Sys, a: Action)
    requires CanAct(s, a)
  {
    a.Look? || (a.Deliver? && s.net[a.position].message.Advert?)
  }

  function Step(s: Sys, a: Action): Sys
    requires CanAct(s, a)
  {
    var o := EffectOf(s, a);
    EffectOk(s, a);
    Sys(s.nodes[a.v := o.peer], s.net + o.out,
        if MayBegin(s, a) then s.initialised + (set e | e in StartedBy(s.nodes[a.v], o.peer) :: (e, a.v))
        else s.initialised)
  }

  lemma EffectOk(s: Sys, a: Action)
    requires CanAct(s, a)
    ensures PeerOk(EffectOf(s, a).peer)
  {
  }

  // ---- the balance of one record ----

  /**
   * The balance: `round` is the number of agreeing nodes plus an offset that is -1, for a record
   * nobody has started, or the id of a node that has.
   */
  ghost predicate Balanced(size: nat, initialised: set<(nat, nat)>, e: nat, round: int, agreeing: set<Word>) {
    && agreeing != {}
    && (forall x :: x in agreeing ==> x < size)
    && var offset: int := round - |agreeing|;
       offset == -1 || (0 <= offset < size && (e, offset) in initialised)
  }

  /** So with at most 128 nodes a round is at most 2N - 1, below 256. */
  lemma BalanceBounds(size: nat, initialised: set<(nat, nat)>, e: nat, round: int, agreeing: set<Word>)
    requires Balanced(size, initialised, e, round, agreeing)
    ensures 0 <= round <= 2 * size - 1
    ensures |agreeing| < size ==> round < 2 * size - 1
  {
    AtMost(agreeing, size);
  }

  /** Joining keeps the offset, and does not wrap. */
  lemma JoinBalances(size: nat, initialised: set<(nat, nat)>, data: SendDataMessage, me: Word)
    requires size <= 128 && me < size
    requires Balanced(size, initialised, data.elementId, data.round, data.syncGroup)
    ensures Balanced(size, initialised, data.elementId, Join(data, me).round, Join(data, me).agreeing)
    ensures var r: int := data.round; Join(data, me).round == if me in data.syncGroup then r else r + 1
  {
    BalanceBounds(size, initialised, data.elementId, data.round, data.syncGroup);
    AtMost(data.syncGroup + {me}, size);
    if me in data.syncGroup {
      assert data.syncGroup + {me} == data.syncGroup;
    }
  }

  /** So does an acknowledgement. */
  lemma AcknowledgeBalances(size: nat, initialised: set<(nat, nat)>, e: nat, r: Agreement, sender: Word)
    requires size <= 128 && sender < size
    requires Balanced(size, initialised, e, r.round, r.agreeing)
    ensures Balanced(size, initialised, e, Acknowledge(r, sender).round, Acknowledge(r, sender).agreeing)
    ensures var round: int := r.round;
            Acknowledge(r, sender).round == if sender in r.agreeing then round else round + 1
  {
    BalanceBounds(size, initialised, e, r.round, r.agreeing);
    AtMost(r.agreeing + {sender}, size);
  }

  /** A record with round 0 has one agreeing node; starting it makes the offset the node's id. */
  lemma InitialiseBalances(size: nat, initialised: set<(nat, nat)>, e: nat, r: Agreement, id: Word)
    requires size <= 128 && id < size
    requires Balanced(size, initialised, e, r.round, r.agreeing)
    ensures Balanced(size, initialised + {(e, id)}, e, Initialise(r, id).round, Initialise(r, id).agreeing)
    ensures r.round == 0 ==> |r.agreeing| == 1 && Initialise(r, id).round == id + 1
  {
    AtMost(r.agreeing, size);
  }

  lemma MoreInitialised(size: nat, a: set<(nat, nat)>, b: set<(nat, nat)>, e: nat, round: int, agreeing: set<Word>)
    requires Balanced(size, a, e, round, agreeing) && a <= b
    ensures Balanced(size, b, e, round, agreeing)
  {
  }

  // ---- the invariant ----

  ghost predicate RecordsBalanced(size: nat, initialised: set<(nat, nat)>, p: Peer) {
    && PeerOk(p)
    && forall e :: 0 <= e < ELEMENTS ==> Balanced(size, initialised, e, p.records[e].round, p.records[e].agreeing)
  }

  ghost predicate PacketBalanced(size: nat, initialised: set<(nat, nat)>, packet: Packet) {
    match packet.message
    case SendData(data) =>
      data.elementId < ELEMENTS && Balanced(size, initialised, data.elementId, data.round, data.syncGroup)
    case Ack(sender, _) => sender < size
    case _ => true
  }

  ghost predicate Inv(s: Sys) {
    && SysOk(s)
    && (forall v :: 0 <= v < |s.nodes| ==> RecordsBalanced(|s.nodes|, s.initialised, s.nodes[v]))
    && (forall i :: 0 <= i < |s.net| ==> PacketBalanced(|s.nodes|, s.initialised, s.net[i]))
  }

  /** Beginning an agreement changes at most its own record, and that only by starting it. */
  ghost predicate OnlyStarts(p: Peer, p': Peer) {
    && PeerOk(p) && PeerOk(p') && p'.id == p.id && p'.address == p.address
    && forall e :: 0 <= e < ELEMENTS ==>
         p'.records[e] == p.records[e] || p'.records[e] == Initialise(p.records[e], p.id)
  }

  lemma {:induction false} BeginAllStarts(p: Peer, elements: seq<Byte>)
    requires PeerOk(p) && forall i :: 0 <= i < |elements| ==> elements[i] < ELEMENTS
    ensures OnlyStarts(p, BeginAll(p, elements).peer)
    ensures forall m :: m in BeginAll(p, elements).out ==> m.message.RequestData?
  {
    if elements != [] {
      BeginAllStarts(p, elements[..|elements| - 1]);
    }
  }

  lemma {:induction false} MoveStarts(p: Peer, near: set<Word>, n: nat)
    requires PeerOk(p) && n <= ELEMENTS
    ensures OnlyStarts(p, Move(p, near, n).peer)
    ensures forall m :: m in Move(p, near, n).out ==> m.message.RequestData?
  {
    if n > 0 {
      MoveStarts(p, near, n - 1);
    }
  }

  lemma BeginStep(s: Sys, a: Action)
    requires CanAct(s, a) && MayBegin(s, a)
    ensures OnlyStarts(s.nodes[a.v], EffectOf(s, a).peer)
    ensures forall m :: m in EffectOf(s, a).out ==> m.message.RequestData?
  {
    var p := s.nodes[a.v];
    match a
    case Look(_, near) =>
      MoveStarts(p, near, ELEMENTS);
    case Deliver(_, i, now) =>
      var info := s.net[i].message.advert;
      if KnownElements(info) {
        var n := |info.elements|;
        var entry := NodeEntry(info.ipv4Address, now, SeenBy(info, n));
        BeginAllStarts(p.(localGroup := p.localGroup[info.senderId := entry]), Queued(p, info, n));
      }
  }

  lemma StepKeepsSysOk(s: Sys, a: Action)
    requires CanAct(s, a)
    ensures SysOk(Step(s, a)) && |Step(s, a).nodes| == |s.nodes|
    ensures s.initialised <= Step(s, a).initialised
  {
    var out := EffectOf(s, a).out;
    if MayBegin(s, a) {
      BeginStep(s, a);
    }
    assert forall i :: 0 <= i < |out| ==> out[i] in out;
  }

  /** The actor's records stay balanced. */
  lemma ActorStaysBalanced(s: Sys, a: Action)
    requires Inv(s) && CanAct(s, a) && |s.nodes| <= 128
    ensures RecordsBalanced(|s.nodes|, Step(s, a).initialised, EffectOf(s, a).peer)
  {
    var p, p', size, s' := s.nodes[a.v], EffectOf(s, a).peer, |s.nodes|, Step(s, a);
    StepKeepsSysOk(s, a);
    if MayBegin(s, a) {
      BeginStep(s, a);
    }
    forall e | 0 <= e < ELEMENTS
      ensures Balanced(size, s'.initialised, e, p'.records[e].round, p'.records[e].agreeing)
    {
      var r := p.records[e];
      MoreInitialised(size, s.initialised, s'.initialised, e, r.round, r.agreeing);
      if MayBegin(s, a) {
        if p'.records[e] != r {
          InitialiseBalances(size, s'.initialised, e, r, p.id);
          assert e in StartedBy(p, p');
          assert s'.initialised + {(e, a.v)} == s'.initialised;
        }
      } else if a.Deliver? && s.net[a.position].message.SendData? {
        assert PacketBalanced(size, s.initialised, s.net[a.position]);
        if e == s.net[a.position].message.data.elementId {
          JoinBalances(size, s.initialised, s.net[a.position].message.data, p.id);
        }
      } else if a.Deliver? && s.net[a.position].message.Ack? {
        assert PacketBalanced(size, s.initialised, s.net[a.position]);
        AcknowledgeBalances(size, s.initialised, e, r, s.net[a.position].message.senderId);
      }
    }
  }

  /** What the actor sends is balanced: data is a copy of its record. */
  lemma PacketsStayBalanced(s: Sys, a: Action)
    requires Inv(s) && CanAct(s, a) && |s.nodes| <= 128
    ensures var s' := Step(s, a);
            forall i :: 0 <= i < |s'.net| ==> PacketBalanced(|s.nodes|, s'.initialised, s'.net[i])
  {
    var s', size := Step(s, a), |s.nodes|;
    StepKeepsSysOk(s, a);
    if MayBegin(s, a) {
      BeginStep(s, a);
    }
    forall i | 0 <= i < |s'.net|
      ensures PacketBalanced(size, s'.initialised, s'.net[i])
    {
      if i < |s.net| {
        assert PacketBalanced(size, s.initialised, s.net[i]);
      } else {
        assert s'.net[i] in EffectOf(s, a).out;
      }
    }
  }

  lemma StepKeepsInv(s: Sys, a: Action)
    requires Inv(s) && CanAct(s, a) && |s.nodes| <= 128
    ensures Inv(Step(s, a)) && |Step(s, a).nodes| == |s.nodes|
  {
    var s', size := Step(s, a), |s.nodes|;
    StepKeepsSysOk(s, a);
    ActorStaysBalanced(s, a);
    PacketsStayBalanced(s, a);
    forall v | 0 <= v < size
      ensures RecordsBalanced(size, s'.initialised, s'.nodes[v])
    {
      if v != a.v {
        assert RecordsBalanced(size, s.initialised, s.nodes[v]);
      }
    }
  }

  // ---- runs ----

  /** Nodes 0, 1, ... as they start, each with its address and its guesses of the locations. */
  ghost predicate IsStart(s: Sys) {
    && |s.nodes| <= 0x1_0000_0000 && s.net == [] && s.initialised == {}
    && forall v :: 0 <= v < |s.nodes| ==> IsStarted(s.nodes[v], v)
  }

  ghost predicate IsStarted(p: Peer, v: Word) {
    exists address, locations :: |locations| == ELEMENTS && p == Start(v, address, locations)
  }

  ghost predicate IsRun(states: seq<Sys>, actions: seq<Action>) {
    && |states| == |actions| + 1
    && IsStart(states[0])
    && forall k :: 0 <= k < |actions| ==> Moves(states[k], actions[k], states[k + 1])
  }

  ghost predicate Moves(s: Sys, a: Action, s': Sys) {
    CanAct(s, a) && s' == Step(s, a)
  }

  lemma StartIsBalanced(s: Sys)
    requires IsStart(s)
    ensures Inv(s)
  {
    forall v | 0 <= v < |s.nodes|
      ensures PeerOk(s.nodes[v]) && s.nodes[v].id == v && RecordsBalanced(|s.nodes|, s.initialised, s.nodes[v])
    {
      assert IsStarted(s.nodes[v], v);
    }
  }

  /**
   * Conservation of rounds: in every state of every run of at most 128 peers, over any network,
   * each record and each SEND_DATA ever sent has round = d + |agreeing nodes|, where d is -1 or
   * the id of a node that started that element; so no round exceeds 2N - 1, and none ever wraps.
   */
  lemma {:induction false} RoundsAreConserved(states: seq<Sys>, actions: seq<Action>, k: nat)
    requires IsRun(states, actions) && k <= |actions| && |states[0].nodes| <= 128
    ensures Inv(states[k]) && |states[k].nodes| == |states[0].nodes|
    ensures forall v, e :: 0 <= v < |states[k].nodes| && 0 <= e < ELEMENTS ==>
              states[k].nodes[v].records[e].round <= 2 * |states[k].nodes| - 1
  {
    if k == 0 {
      StartIsBalanced(states[0]);
    } else {
      RoundsAreConserved(states, actions, k - 1);
      assert Moves(states[k - 1], actions[k - 1], states[k]);
      StepKeepsInv(states[k - 1], actions[k - 1]);
    }
    var s := states[k];
    forall v, e | 0 <= v < |s.nodes| && 0 <= e < ELEMENTS
      ensures s.nodes[v].records[e].round <= 2 * |s.nodes| - 1
    {
      assert RecordsBalanced(|s.nodes|, s.initialised, s.nodes[v]);
      BalanceBounds(|s.nodes|, s.initialised, e, s.nodes[v].records[e].round, s.nodes[v].records[e].agreeing);
    }
  }
}
