/**
 * What a peer remembers, over whole runs and any network (peer_node.cpp:137-149, 437-455, 502-556, 599-610):
 * its neighbourhood is what it saw last; of other nodes it knows exactly those heard of recently,
 * as they were when they announced themselves; and only strangers can make it throw.
 */
module PeerMemory {
  import opened Options
  import opened Bytes
  import opened AscendingSets
  import opened AdvertCodec
  import opened SendDataCodec
  import opened PeerSpec
  import opened PeerSystem
  import N = PeerNeighbours

  // ---- which other nodes ----

  /** The step lets `v` hear a well-formed advertisement of `w`. */
  predicate Hears(s: Sys, a: Action, v: nat, w: Word) {
    && CanAct(s, a) && a.Deliver? && a.v == v && s.net[a.position].message.Advert?
    && s.net[a.position].message.advert.senderId == w && KnownElements(s.net[a.position].message.advert)
  }

  /** When `v` last heard of `w`, unless it has since found at a check that this was too long ago. */
  ghost function LastHeard(states: seq<Sys>, actions: seq<Action>, v: nat, w: Word, k: nat): Option<int>
    requires k <= |actions| <= |states|
  {
    if k == 0 then None
    else HeardAfter(states[k - 1], actions[k - 1], v, w, LastHeard(states, actions, v, w, k - 1))
  }

  function HeardAfter(s: Sys, a: Action, v: nat, w: Word, before: Option<int>): Option<int> {
    if Hears(s, a, v, w) then Some(a.now)
    else if a.Forget? && a.v == v && before.Some? && a.now - before.value >= HEARTBEAT_TIMEOUT then None
    else before
  }

  /** The time of the entry for `w`. */
  function TimeOf(p: Peer, w: Word): Option<int> {
    if w in p.localGroup then Some(p.localGroup[w].recentTime) else None
  }

  lemma {:induction false} BeginAllKeepsGroup(p: Peer, elements: seq<Byte>)
    requires PeerOk(p) && forall i :: 0 <= i < |elements| ==> elements[i] < ELEMENTS
    ensures BeginAll(p, elements).peer.localGroup == p.localGroup
    ensures BeginAll(p, elements).peer.nearby == p.nearby
  {
    if elements != [] {
      BeginAllKeepsGroup(p, elements[..|elements| - 1]);
    }
  }

  /** Only an advertisement adds to what is known of others, and only a check takes from it. */
  lemma StepGroup(s: Sys, a: Action, w: Word)
    requires CanAct(s, a)
    ensures var p, p' := s.nodes[a.v], EffectOf(s, a).peer;
            && TimeOf(p', w) == HeardAfter(s, a, a.v, w, TimeOf(p, w))
            && (w in p'.localGroup && !Hears(s, a, a.v, w) ==>
                  w in p.localGroup && p'.localGroup[w] == p.localGroup[w])
            && (Hears(s, a, a.v, w) ==>
                  var info := s.net[a.position].message.advert;
                  p'.localGroup == p.localGroup[w := NodeEntry(info.ipv4Address, a.now, SeenBy(info, |info.elements|))])
  {
    var p := s.nodes[a.v];
    match a
    case Look(_, near) =>
      N.LookAsksTheBest(p, near);
    case Deliver(_, i, now) =>
      if s.net[i].message.Advert? && KnownElements(s.net[i].message.advert) {
        var info := s.net[i].message.advert;
        var entry := NodeEntry(info.ipv4Address, now, SeenBy(info, |info.elements|));
        BeginAllKeepsGroup(p.(localGroup := p.localGroup[info.senderId := entry]), Queued(p, info, |info.elements|));
      }
    case _ =>
  }

  /**
   * In every run over any network a node knows of `w` exactly if it has heard of `w` and no check since
   * then has found that to be ten seconds ago or more; and it knows the time of the last such moment.
   */
  lemma {:induction false} RemembersTheRecent(states: seq<Sys>, actions: seq<Action>, k: nat, v: nat, w: Word)
    requires IsRun(states, actions) && k <= |actions| && v < |states[k].nodes|
    ensures TimeOf(states[k].nodes[v], w) == LastHeard(states, actions, v, w, k)
  {
    if k == 0 {
      assert IsStarted(states[0].nodes[v], v);
    } else {
      assert Moves(states[k - 1], actions[k - 1], states[k]);
      RemembersTheRecent(states, actions, k - 1, v, w);
      if actions[k - 1].v == v {
        StepGroup(states[k - 1], actions[k - 1], w);
      }
    }
  }

  // ---- what of them ----

  /** The message lists exactly the nearby elements of `p`, each once, with the pairs that `p` holds. */
  predicate Tells(p: Peer, m: AdvertMessage) {
    && PeerOk(p) && Aligned(m) && KnownElements(m) && N.Differ(m.elements)
    && m.senderId == p.id && m.ipv4Address == p.address
    && (forall e: Byte :: e in m.elements <==> e in p.nearby)
    && forall i :: 0 <= i < |m.elements| ==> (m.versions[i], m.rounds[i]) == PairOf(p.records[m.elements[i]])
  }

  lemma AdvertiseTells(p: Peer)
    requires PeerOk(p)
    ensures Tells(p, Advertise(p))
  {
    var m, all := Advertise(p), Ascending(p.nearby);
    assert forall i :: 0 <= i < |all| ==> all[i] in p.nearby;
    forall e: Byte | e in p.nearby
      ensures e in m.elements
    {
      var i :| 0 <= i < |all| && all[i] == e;
      assert m.elements[i] == e;
    }
  }

  /** At step `j` the sender has announced itself with the message. */
  ghost predicate IsAnnounced(states: seq<Sys>, actions: seq<Action>, j: nat, m: AdvertMessage) {
    && j < |actions| && j < |states| && actions[j] == Announce(m.senderId) && m.senderId < |states[j].nodes|
    && Tells(states[j].nodes[m.senderId], m)
  }

  lemma {:induction false} AdvertsAreAnnounced(states: seq<Sys>, actions: seq<Action>, k: nat, i: nat) returns (j: nat)
    requires IsRun(states, actions) && k <= |actions|
    requires i < |states[k].net| && states[k].net[i].message.Advert?
    ensures j < k && IsAnnounced(states, actions, j, states[k].net[i].message.advert)
  {
    if k == 0 {
      assert false;
    } else {
      var s, a := states[k - 1], actions[k - 1];
      assert Moves(s, a, states[k]);
      if i < |s.net| {
        j := AdvertsAreAnnounced(states, actions, k - 1, i);
      } else {
        j := k - 1;
        NewAdverts(s, a, states[k].net[i]);
      }
    }
  }

  lemma NewAdverts(s: Sys, a: Action, m: Packet)
    requires CanAct(s, a) && m in EffectOf(s, a).out && m.message.Advert?
    ensures a.Announce? && Tells(s.nodes[a.v], m.message.advert)
  {
    if MayBegin(s, a) {
      BeginStep(s, a);
    }
    AdvertiseTells(s.nodes[a.v]);
  }

  /** At step `j` node `w` announced itself, and the entry is what it had to tell: zeros for what was not near. */
  ghost predicate WasTrue(states: seq<Sys>, actions: seq<Action>, j: nat, w: Word, entry: NodeEntry) {
    && j < |actions| && j < |states| && actions[j] == Announce(w) && w < |states[j].nodes|
    && var q := states[j].nodes[w];
       && PeerOk(q) && entry.address == q.address && |entry.seen| == ELEMENTS
       && forall e: Byte :: e < ELEMENTS ==> entry.seen[e] == if e in q.nearby then PairOf(q.records[e]) else (0, 0)
  }

  lemma FiledIsTrue(q: Peer, m: AdvertMessage, e: Byte)
    requires Tells(q, m) && e < ELEMENTS
    ensures SeenBy(m, |m.elements|)[e] == if e in q.nearby then PairOf(q.records[e]) else (0, 0)
  {
    N.FilesRows(m, |m.elements|, e);
    assert m.elements[..|m.elements|] == m.elements;
    if e in q.nearby {
      var i :| 0 <= i < |m.elements| && m.elements[i] == e;
    }
  }

  lemma AnnouncedIsTrue(states: seq<Sys>, actions: seq<Action>, j: nat, m: AdvertMessage, now: int)
    requires IsAnnounced(states, actions, j, m)
    ensures WasTrue(states, actions, j, m.senderId, NodeEntry(m.ipv4Address, now, SeenBy(m, |m.elements|)))
  {
    forall e: Byte | e < ELEMENTS
      ensures var q := states[j].nodes[m.senderId];
              SeenBy(m, |m.elements|)[e] == if e in q.nearby then PairOf(q.records[e]) else (0, 0)
    {
      FiledIsTrue(states[j].nodes[m.senderId], m, e);
    }
  }

  /**
   * In every run over any network, whatever a node knows of another is its address and, for the
   * elements that were near it, its pairs, all of one earlier moment at which it announced itself.
   */
  lemma {:induction false} KnowledgeIsPastTruth(states: seq<Sys>, actions: seq<Action>, k: nat, v: nat, w: Word)
    returns (j: nat)
    requires IsRun(states, actions) && k <= |actions| && v < |states[k].nodes|
    requires w in states[k].nodes[v].localGroup
    ensures j < k && WasTrue(states, actions, j, w, states[k].nodes[v].localGroup[w])
  {
    if k == 0 {
      assert false;
    } else {
      var s, a := states[k - 1], actions[k - 1];
      assert Moves(s, a, states[k]);
      StepEntry(s, a, v, w);
      if Hears(s, a, v, w) {
        j := AdvertsAreAnnounced(states, actions, k - 1, a.position);
        AnnouncedIsTrue(states, actions, j, s.net[a.position].message.advert, a.now);
      } else {
        j := KnowledgeIsPastTruth(states, actions, k - 1, v, w);
      }
    }
  }

  /** What is known of `w` is what was heard in this step, or was known before. */
  lemma StepEntry(s: Sys, a: Action, v: nat, w: Word)
    requires CanAct(s, a) && v < |s.nodes| && w in Step(s, a).nodes[v].localGroup
    ensures var group, entry := s.nodes[v].localGroup, Step(s, a).nodes[v].localGroup[w];
            if Hears(s, a, v, w) then
              var info := s.net[a.position].message.advert;
              entry == NodeEntry(info.ipv4Address, a.now, SeenBy(info, |info.elements|))
            else w in group && entry == group[w]
  {
    if a.v == v {
      StepGroup(s, a, w);
    }
  }

  // ---- where replies go ----

  lemma StepKeepsAddresses(s: Sys, a: Action)
    requires CanAct(s, a)
    ensures EffectOf(s, a).peer.id == s.nodes[a.v].id && EffectOf(s, a).peer.address == s.nodes[a.v].address
  {
    if MayBegin(s, a) {
      BeginStep(s, a);
    }
  }

  lemma {:induction false} AddressesStay(states: seq<Sys>, actions: seq<Action>, j: nat, k: nat, v: nat)
    requires IsRun(states, actions) && j <= k <= |actions| && v < |states[j].nodes|
    ensures v < |states[k].nodes| && states[k].nodes[v].address == states[j].nodes[v].address
  {
    if j < k {
      AddressesStay(states, actions, j, k - 1, v);
      assert Moves(states[k - 1], actions[k - 1], states[k]);
      StepKeepsAddresses(states[k - 1], actions[k - 1]);
    }
  }

  /** The address that a node knows of another is its own. */
  lemma KnownAddress(states: seq<Sys>, actions: seq<Action>, k: nat, v: nat, w: Word)
    requires IsRun(states, actions) && k <= |actions| && v < |states[k].nodes|
    requires w in states[k].nodes[v].localGroup
    ensures w < |states[k].nodes| && states[k].nodes[v].localGroup[w].address == states[k].nodes[w].address
  {
    var j := KnowledgeIsPastTruth(states, actions, k, v, w);
    AddressesStay(states, actions, j, k, w);
  }

  /** The data is the record of the element as `p` holds it. */
  predicate TellsRecord(p: Peer, e: Byte, data: SendDataMessage) {
    && e < |p.records| && data.senderId == p.id && data.elementId == e
    && Agreement(data.version, data.round, data.xpos, data.ypos, data.syncGroup) == p.records[e]
  }

  /**
   * In every run over any network, a node that knows the sender of a request answers it, and nobody
   * else, with its record; and it acknowledges data to the node that it came from. Every other
   * delivery except that of an advertisement goes unanswered.
   */
  lemma RepliesReachTheSender(states: seq<Sys>, actions: seq<Action>, k: nat, v: nat, i: nat, now: int)
    requires IsRun(states, actions) && k < |actions| && actions[k] == Deliver(v, i, now)
    ensures CanAct(states[k], actions[k])
    ensures var s, m, p := states[k], states[k].net[i].message, states[k].nodes[v];
            var out := EffectOf(s, actions[k]).out; var w := SenderOf(m);
            if w.Some? && w.value in p.localGroup then
              && w.value < |s.nodes| && |out| == 1 && out[0].to == Some(s.nodes[w.value].address)
              && (m.RequestData? ==>
                    out[0].message.SendData? && TellsRecord(p, m.elementId, out[0].message.data))
              && (m.SendData? ==> out[0].message == Ack(p.id, m.data.elementId))
            else m.Advert? || out == []
  {
    assert Moves(states[k], actions[k], states[k + 1]);
    NetNamesElements(states, actions, k);
    assert NamesElement(states[k].net[i]);
    var w := SenderOf(states[k].net[i].message);
    if w.Some? && w.value in states[k].nodes[v].localGroup {
      KnownAddress(states, actions, k, v, w.value);
    }
  }

  // ---- the neighbourhood ----

  /** What was near node `v` at its last look. */
  function LastLook(actions: seq<Action>, v: nat, k: nat): set<Word>
    requires k <= |actions|
  {
    if k == 0 then {}
    else if actions[k - 1].Look? && actions[k - 1].v == v then actions[k - 1].near
    else LastLook(actions, v, k - 1)
  }

  lemma StepNearby(s: Sys, a: Action, e: Word)
    requires CanAct(s, a) && e < ELEMENTS
    ensures e in EffectOf(s, a).peer.nearby <==> if a.Look? then e in a.near else e in s.nodes[a.v].nearby
  {
    var p := s.nodes[a.v];
    match a
    case Look(_, near) =>
      N.LookAsksTheBest(p, near);
    case Deliver(_, i, now) =>
      if s.net[i].message.Advert? && KnownElements(s.net[i].message.advert) {
        var info := s.net[i].message.advert;
        var entry := NodeEntry(info.ipv4Address, now, SeenBy(info, |info.elements|));
        BeginAllKeepsGroup(p.(localGroup := p.localGroup[info.senderId := entry]), Queued(p, info, |info.elements|));
      }
    case _ =>
  }

  /** In every run the nearby elements of a node are those that were near at its last look. */
  lemma {:induction false} NearbyIsTheLastLook(states: seq<Sys>, actions: seq<Action>, k: nat, v: nat, e: Word)
    requires IsRun(states, actions) && k <= |actions| && v < |states[k].nodes| && e < ELEMENTS
    ensures e in states[k].nodes[v].nearby <==> e in LastLook(actions, v, k)
  {
    if k == 0 {
      assert IsStarted(states[0].nodes[v], v);
    } else {
      assert Moves(states[k - 1], actions[k - 1], states[k]);
      NearbyIsTheLastLook(states, actions, k - 1, v, e);
      if actions[k - 1].v == v {
        StepNearby(states[k - 1], actions[k - 1], e);
      }
    }
  }

  // ---- who can make a handler throw ----

  /** The packet names an element that every node has. */
  predicate NamesElement(packet: Packet) {
    match packet.message
    case Advert(info) => KnownElements(info)
    case RequestData(_, e) => e < ELEMENTS
    case SendData(data) => data.elementId < ELEMENTS
    case Ack(_, e) => e < ELEMENTS
  }

  lemma {:induction false} BeginAllNames(p: Peer, elements: seq<Byte>)
    requires PeerOk(p) && forall i :: 0 <= i < |elements| ==> elements[i] < ELEMENTS
    ensures forall m :: m in BeginAll(p, elements).out ==> NamesElement(m)
  {
    if elements != [] {
      BeginAllNames(p, elements[..|elements| - 1]);
    }
  }

  lemma {:induction false} MoveNames(p: Peer, near: set<Word>, n: nat)
    requires PeerOk(p) && n <= ELEMENTS
    ensures forall m :: m in Move(p, near, n).out ==> NamesElement(m)
  {
    if n > 0 {
      MoveNames(p, near, n - 1);
    }
  }

  lemma StepNames(s: Sys, a: Action)
    requires CanAct(s, a)
    ensures forall m :: m in EffectOf(s, a).out ==> NamesElement(m)
  {
    var p := s.nodes[a.v];
    match a
    case Look(_, near) =>
      MoveNames(p, near, ELEMENTS);
    case Deliver(_, i, now) =>
      if s.net[i].message.Advert? && KnownElements(s.net[i].message.advert) {
        var info := s.net[i].message.advert;
        var entry := NodeEntry(info.ipv4Address, now, SeenBy(info, |info.elements|));
        BeginAllNames(p.(localGroup := p.localGroup[info.senderId := entry]), Queued(p, info, |info.elements|));
      }
    case _ =>
  }

  lemma {:induction false} NetNamesElements(states: seq<Sys>, actions: seq<Action>, k: nat)
    requires IsRun(states, actions) && k <= |actions|
    ensures forall i :: 0 <= i < |states[k].net| ==> NamesElement(states[k].net[i])
  {
    if k > 0 {
      var s, a := states[k - 1], actions[k - 1];
      assert Moves(s, a, states[k]);
      NetNamesElements(states, actions, k - 1);
      StepNames(s, a);
      forall i | |s.net| <= i < |states[k].net|
        ensures NamesElement(states[k].net[i])
      {
        assert states[k].net[i] in EffectOf(s, a).out;
      }
    }
  }

  /** The node that a request or data names as its sender. */
  function SenderOf(m: Message): Option<Word> {
    match m
    case RequestData(sender, _) => Some(sender)
    case SendData(data) => Some(data.senderId)
    case _ => None
  }

  /**
   * In every run over any network a handler throws exactly if it gets a request or data of a node that
   * it does not know of, and then it sends nothing. Only data has changed something by then: the
   * record is replaced, and the sender never hears of it.
   */
  lemma OnlyStrangersThrow(states: seq<Sys>, actions: seq<Action>, k: nat)
    requires IsRun(states, actions) && k < |actions|
    ensures CanAct(states[k], actions[k])
    ensures var s, a := states[k], actions[k]; var p, o := s.nodes[a.v], EffectOf(s, a);
            && (o.threw <==> && a.Deliver? && SenderOf(s.net[a.position].message).Some?
                             && SenderOf(s.net[a.position].message).value !in p.localGroup)
            && (o.threw ==> o.out == [] && o.peer == p.(records := o.peer.records))
            && (o.threw && s.net[a.position].message.RequestData? ==> o.peer == p)
            && (o.threw && s.net[a.position].message.SendData? ==>
                  var data := s.net[a.position].message.data;
                  && data.elementId < |o.peer.records| == |p.records|
                  && var r := o.peer.records[data.elementId];
                     && o.peer.records == p.records[data.elementId := r]
                     && r.agreeing == data.syncGroup + {p.id} && (r.x, r.y) == (data.xpos, data.ypos))
  {
    assert Moves(states[k], actions[k], states[k + 1]);
    NetNamesElements(states, actions, k);
  }
}
