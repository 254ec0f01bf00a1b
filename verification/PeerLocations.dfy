/**
 * What the peers agree on (peer_node.cpp:437-446, 459-498, 557-592): the location of an element. A
 * record's location is always that of the node that started it, and its round says which node that is.
 */
module PeerLocations {
  import opened Bytes
  import opened SendDataCodec
  import opened PeerSpec
  import opened PeerSystem
  import V = PeerConvergence

  /** The guesses of the nodes, by node and element. */
  type Guesses = seq<seq<(Word, Word)>>

  /** The guesses that the nodes start with. */
  function GuessesOf(s: Sys): (base: Guesses)
    requires SysOk(s)
    ensures |base| == |s.nodes|
  {
    seq(|s.nodes|, v requires 0 <= v < |s.nodes| =>
      seq(ELEMENTS, e requires 0 <= e < ELEMENTS => (s.nodes[v].records[e].x, s.nodes[v].records[e].y)))
  }

  predicate IsGuess(base: Guesses, w: int, e: nat, at: (Word, Word)) {
    0 <= w < |base| && e < |base[w]| && base[w][e] == at
  }

  /**
   * The location is the guess of the node that has started the record, which is the round less the
   * number of agreeing nodes; before that it is the guess of an agreeing node.
   */
  ghost predicate Placed(base: Guesses, e: nat, at: (Word, Word), round: int, agreeing: set<Word>) {
    var offset: int := round - |agreeing|;
    if offset >= 0 then IsGuess(base, offset, e, at)
    else exists w :: w in agreeing && IsGuess(base, w, e, at)
  }

  ghost predicate RecordPlaced(base: Guesses, e: nat, r: Agreement) {
    Placed(base, e, (r.x, r.y), r.round, r.agreeing)
  }

  ghost predicate DataPlaced(base: Guesses, data: SendDataMessage) {
    Placed(base, data.elementId, (data.xpos, data.ypos), data.round, data.syncGroup)
  }

  // ---- records ----

  lemma MoreStayPlaced(base: Guesses, e: nat, at: (Word, Word), round: int, agreeing: set<Word>, x: Word)
    requires Placed(base, e, at, round, agreeing)
    ensures Placed(base, e, at, if x in agreeing then round else round + 1, agreeing + {x})
  {
    if x in agreeing {
      assert agreeing + {x} == agreeing;
    }
    if round - |agreeing| < 0 {
      var w :| w in agreeing && IsGuess(base, w, e, at);
      assert w in agreeing + {x};
    }
  }

  /** A record that takes over data, and joins its nodes. */
  lemma JoinPlaces(base: Guesses, size: nat, initialised: set<(nat, nat)>, data: SendDataMessage, me: Word)
    requires size <= 128 && me < size && DataPlaced(base, data)
    requires Balanced(size, initialised, data.elementId, data.round, data.syncGroup)
    ensures RecordPlaced(base, data.elementId, Join(data, me)) && me in Join(data, me).agreeing
  {
    JoinBalances(size, initialised, data, me);
    MoreStayPlaced(base, data.elementId, (data.xpos, data.ypos), data.round, data.syncGroup, me);
  }

  lemma AcknowledgePlaces(base: Guesses, size: nat, initialised: set<(nat, nat)>, e: nat, r: Agreement, sender: Word)
    requires size <= 128 && sender < size && RecordPlaced(base, e, r)
    requires Balanced(size, initialised, e, r.round, r.agreeing)
    ensures RecordPlaced(base, e, Acknowledge(r, sender))
  {
    AcknowledgeBalances(size, initialised, e, r, sender);
    MoreStayPlaced(base, e, (r.x, r.y), r.round, r.agreeing, sender);
  }

  /** A record that its node starts is still its own. */
  lemma InitialisePlaces(base: Guesses, size: nat, initialised: set<(nat, nat)>, e: nat, r: Agreement, id: Word)
    requires size <= 128 && id < size && RecordPlaced(base, e, r) && id in r.agreeing
    requires Balanced(size, initialised, e, r.round, r.agreeing)
    ensures RecordPlaced(base, e, Initialise(r, id))
  {
    InitialiseBalances(size, initialised, e, r, id);
    if r.round == 0 {
      OnlyMember(r.agreeing, id);
    }
  }

  lemma OnlyMember(s: set<Word>, x: Word)
    requires x in s && |s| == 1
    ensures s == {x}
  {
    assert |s - {x}| == 0;
  }

  // ---- the invariant ----

  ghost predicate PeerPlaced(base: Guesses, p: Peer) {
    && PeerOk(p)
    && forall e :: 0 <= e < ELEMENTS ==> RecordPlaced(base, e, p.records[e]) && p.id in p.records[e].agreeing
  }

  ghost predicate PacketPlaced(base: Guesses, packet: Packet) {
    packet.message.SendData? ==> DataPlaced(base, packet.message.data)
  }

  ghost predicate AllPlaced(base: Guesses, s: Sys) {
    && (forall v :: 0 <= v < |s.nodes| ==> PeerPlaced(base, s.nodes[v]))
    && forall i :: 0 <= i < |s.net| ==> PacketPlaced(base, s.net[i])
  }

  lemma BeginnerStaysPlaced(base: Guesses, size: nat, initialised: set<(nat, nat)>, p: Peer, p': Peer)
    requires size <= 128 && p.id < size && PeerPlaced(base, p)
    requires RecordsBalanced(size, initialised, p) && OnlyStarts(p, p')
    ensures PeerPlaced(base, p')
  {
    forall e | 0 <= e < ELEMENTS
      ensures RecordPlaced(base, e, p'.records[e]) && p'.id in p'.records[e].agreeing
    {
      InitialisePlaces(base, size, initialised, e, p.records[e], p.id);
    }
  }

  /** The actor's records stay placed. */
  lemma ActorStaysPlaced(base: Guesses, s: Sys, a: Action)
    requires Inv(s) && AllPlaced(base, s) && CanAct(s, a) && |s.nodes| <= 128
    ensures PeerPlaced(base, EffectOf(s, a).peer)
  {
    var p, size := s.nodes[a.v], |s.nodes|;
    assert PeerPlaced(base, p) && RecordsBalanced(size, s.initialised, p);
    if MayBegin(s, a) {
      BeginStep(s, a);
      BeginnerStaysPlaced(base, size, s.initialised, p, EffectOf(s, a).peer);
    } else if a.Deliver? {
      var m := s.net[a.position].message;
      assert PacketBalanced(size, s.initialised, s.net[a.position]) && PacketPlaced(base, s.net[a.position]);
      match m
      case SendData(data) => JoinPlaces(base, size, s.initialised, data, p.id);
      case Ack(sender, e) =>
        if e < ELEMENTS {
          AcknowledgePlaces(base, size, s.initialised, e, p.records[e], sender);
        }
      case _ =>
    }
  }

  /** Data that a node sends is a copy of its record. */
  lemma PacketsStayPlaced(base: Guesses, s: Sys, a: Action)
    requires Inv(s) && AllPlaced(base, s) && CanAct(s, a) && |s.nodes| <= 128
    ensures forall i :: 0 <= i < |Step(s, a).net| ==> PacketPlaced(base, Step(s, a).net[i])
  {
    var s' := Step(s, a);
    assert PeerPlaced(base, s.nodes[a.v]);
    if MayBegin(s, a) {
      BeginStep(s, a);
    }
    forall i | 0 <= i < |s'.net|
      ensures PacketPlaced(base, s'.net[i])
    {
      if i < |s.net| {
        assert PacketPlaced(base, s.net[i]);
      } else {
        assert s'.net[i] in EffectOf(s, a).out;
      }
    }
  }

  lemma StepKeepsPlaced(base: Guesses, s: Sys, a: Action)
    requires Inv(s) && AllPlaced(base, s) && CanAct(s, a) && |s.nodes| <= 128
    ensures AllPlaced(base, Step(s, a))
  {
    ActorStaysPlaced(base, s, a);
    PacketsStayPlaced(base, s, a);
    forall v | 0 <= v < |s.nodes|
      ensures PeerPlaced(base, Step(s, a).nodes[v])
    {
      if v != a.v {
        assert PeerPlaced(base, s.nodes[v]);
      }
    }
  }

  lemma StartIsPlaced(s: Sys)
    requires IsStart(s) && SysOk(s)
    ensures AllPlaced(GuessesOf(s), s)
  {
    var base := GuessesOf(s);
    forall v | 0 <= v < |s.nodes|
      ensures PeerPlaced(base, s.nodes[v])
    {
      assert IsStarted(s.nodes[v], v);
      forall e | 0 <= e < ELEMENTS
        ensures RecordPlaced(base, e, s.nodes[v].records[e])
      {
        var r := s.nodes[v].records[e];
        assert r.round == 0 && r.agreeing == {s.nodes[v].id};
        assert IsGuess(base, v, e, (r.x, r.y));
      }
    }
  }

  lemma {:induction false} RunKeepsPlaced(states: seq<Sys>, actions: seq<Action>, k: nat)
    requires IsRun(states, actions) && k <= |actions| && |states[0].nodes| <= 128
    ensures SysOk(states[0]) && Inv(states[k]) && |states[k].nodes| == |states[0].nodes|
    ensures AllPlaced(GuessesOf(states[0]), states[k])
  {
    RoundsAreConserved(states, actions, 0);
    RoundsAreConserved(states, actions, k);
    if k == 0 {
      StartIsPlaced(states[0]);
    } else {
      RunKeepsPlaced(states, actions, k - 1);
      assert Moves(states[k - 1], actions[k - 1], states[k]);
      StepKeepsPlaced(GuessesOf(states[0]), states[k - 1], actions[k - 1]);
    }
  }

  /**
   * In every run of at most 128 peers over any network each record carries exactly the guess of the
   * node that started it: that is node `round - |agreeing nodes|`, and it did start the element. A
   * record that nobody has started carries the guess of one of its agreeing nodes.
   */
  lemma LocationsFollowRounds(states: seq<Sys>, actions: seq<Action>, k: nat, v: nat, e: nat)
    requires IsRun(states, actions) && k <= |actions| && |states[0].nodes| <= 128
    requires v < |states[k].nodes| && e < ELEMENTS
    ensures SysOk(states[0]) && SysOk(states[k])
    ensures var base, r := GuessesOf(states[0]), states[k].nodes[v].records[e];
            var d: int := r.round - |r.agreeing|;
            if d >= 0 then IsGuess(base, d, e, (r.x, r.y)) && (e, d) in states[k].initialised
            else exists w :: w in r.agreeing && IsGuess(base, w, e, (r.x, r.y))
  {
    RunKeepsPlaced(states, actions, k);
    assert PeerPlaced(GuessesOf(states[0]), states[k].nodes[v]);
    assert RecordsBalanced(|states[k].nodes|, states[k].initialised, states[k].nodes[v]);
  }

  // ---- quiescence ----

  /** The node that has started a record, or -1. */
  function Starter(r: Agreement): int {
    var round: int := r.round;
    round - |r.agreeing|
  }

  /** Two started records show one location exactly if their starters guessed the same. */
  lemma SamePlaceIff(base: Guesses, e: nat, r: Agreement, r': Agreement)
    requires RecordPlaced(base, e, r) && RecordPlaced(base, e, r') && Starter(r) >= 0 && Starter(r') >= 0
    ensures Starter(r) < |base| && Starter(r') < |base| && e < |base[Starter(r)]| && e < |base[Starter(r')]|
    ensures (r.x, r.y) == (r'.x, r'.y) <==> base[Starter(r)][e] == base[Starter(r')][e]
  {
  }

  /**
   * When nobody asks any more, with fresh and mutually heard advertisements, all rounds are equal.
   * The locations of two started records then agree if as many nodes agree to the one as to the
   * other, and otherwise exactly if their two starters guessed the same.
   */
  lemma QuietAgreement(base: Guesses, s: Sys, e: Byte, v: nat, w: nat)
    requires V.Known(s) && AllPlaced(base, s) && e < ELEMENTS && V.Fresh(s.nodes, e)
    requires forall x :: 0 <= x < |s.nodes| ==> !Wants(s.nodes[x], e)
    requires v < |s.nodes| && w < |s.nodes|
    requires Starter(s.nodes[v].records[e]) >= 0 && Starter(s.nodes[w].records[e]) >= 0
    ensures var r, r' := s.nodes[v].records[e], s.nodes[w].records[e];
            && r.round == r'.round
            && (|r.agreeing| == |r'.agreeing| <==> Starter(r) == Starter(r'))
            && (Starter(r) == Starter(r') ==> (r.x, r.y) == (r'.x, r'.y))
            && Starter(r) < |base| && Starter(r') < |base| && e < |base[Starter(r)]| && e < |base[Starter(r')]|
            && ((r.x, r.y) == (r'.x, r'.y) <==> base[Starter(r)][e] == base[Starter(r')][e])
  {
    V.QuietIffEqual(s, e);
    assert PeerPlaced(base, s.nodes[v]) && PeerPlaced(base, s.nodes[w]);
    SamePlaceIff(base, e, s.nodes[v].records[e], s.nodes[w].records[e]);
  }
}
