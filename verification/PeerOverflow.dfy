/**
 * 129 peers are too many: a run of them takes the 8-bit round of an element from 255 to 0
 * (peer_node.cpp:47, 486, 573, 589).
 */
module PeerOverflow {
  import opened Options
  import opened Bytes
  import opened AscendingSets
  import opened AdvertCodec
  import opened PeerSpec
  import opened PeerSystem
  import opened PeerRuns
  import SetSizes

  // ---- the record of the last node ----

  /** The record of node 128 once it has started it. */
  const STARTED: Agreement := Agreement(0, 129, 0, 0, {128})

  /** The record after nodes 0, ..., `k - 1` have acknowledged. */
  function Acknowledged(k: nat): Agreement
    requires k <= 128
  {
    if k == 0 then STARTED else Acknowledge(Acknowledged(k - 1), k - 1)
  }

  /** Node 128 and the nodes below `k`. */
  function Joined(k: nat): set<Word>
    requires k <= 128
  {
    if k == 0 then {128} else Joined(k - 1) + {k - 1}
  }

  lemma {:induction false} JoinedAre(k: nat, x: Word)
    requires k <= 128
    ensures x in Joined(k) <==> x == 128 || x < k
  {
    if k > 0 {
      JoinedAre(k - 1, x);
    }
  }

  /** Everyone who acknowledges is agreeing. */
  lemma {:induction false} AcknowledgedAgree(k: nat)
    requires k <= 128
    ensures Acknowledged(k).agreeing == Joined(k)
  {
    if k > 0 {
      AcknowledgedAgree(k - 1);
      JoinedAre(k - 1, k - 1);
    }
  }

  lemma NextRound(total: nat, b: Byte)
    requires b == total % 256
    ensures Increment(b) == (total + 1) % 256
  {
    var sum: int := b;
    assert (total + 1) % 256 == (sum + 1) % 256;
  }

  /** Each acknowledgement raises the round by one. */
  lemma {:induction false} AcknowledgedIs(k: nat)
    requires k <= 128
    ensures var total: int := 129 + k; Acknowledged(k).round == total % 256
  {
    if k > 0 {
      var r := Acknowledged(k - 1);
      AcknowledgedIs(k - 1);
      AcknowledgedAgree(k - 1);
      JoinedAre(k - 1, k - 1);
      assert Acknowledged(k).round == Increment(r.round);
      NextRound(129 + (k - 1), r.round);
    }
  }

  /** Two agreeing nodes have no round 0. */
  lemma ZeroIsUnbalanced(s: Sys, v: nat, x: Word, y: Word)
    requires SysOk(s) && v < |s.nodes| && x != y
    requires s.nodes[v].records[0].round == 0
    requires x in s.nodes[v].records[0].agreeing && y in s.nodes[v].records[0].agreeing
    ensures !Inv(s)
  {
    SetSizes.SubsetSize({x, y}, s.nodes[v].records[0].agreeing);
    assert !Balanced(|s.nodes|, s.initialised, 0, 0, s.nodes[v].records[0].agreeing);
  }

  // ---- turns ----

  /** A node as it starts. */
  function Fresh(v: Word): (p: Peer)
    ensures PeerOk(p)
  {
    Start(v, v, seq(ELEMENTS, _ => (0, 0)))
  }

  /** What node 128 announces when it has started element 0. */
  const ANNOUNCED: AdvertMessage := AdvertMessage(128, 128, [0], [0], [129])

  /** What another node knows once it has heard it. */
  function Informed(v: Word): (p: Peer)
    ensures PeerOk(p)
  {
    Fresh(v).(localGroup := map[128 := NodeEntry(128, 0, seq(ELEMENTS, e => if e == 0 then (0, 129) else (0, 0)))])
  }

  lemma LastLooks()
    ensures var o := Move(Fresh(128), {0}, ELEMENTS);
            && o.out == [] && o.peer.records[0] == STARTED && o.peer.nearby == {0}
            && Advertise(o.peer) == ANNOUNCED
  {
    OnlyZeroNear(Fresh(128), ELEMENTS);
    AscendingIsUnique([0], Ascending({0}));
  }

  lemma FreshAnnounces(v: Word)
    ensures Advertise(Fresh(v)) == AdvertMessage(v, v, [], [], [])
  {
  }

  lemma FreshHears(v: Word)
    ensures ReceiveAdvert(Fresh(v), ANNOUNCED, 0) == Outcome(Informed(v), [], false)
  {
    var p', info := Informed(v), ANNOUNCED;
    assert SeenBy(info, 0) == seq(ELEMENTS, _ => (0, 0));
    assert SeenBy(info, 1) == p'.localGroup[128].seen;
    assert Queued(Fresh(v), info, 0) == [];
    assert Queued(Fresh(v), info, 1) == [];
    assert Fresh(v).localGroup[128 := p'.localGroup[128]] == p'.localGroup;
  }

  lemma InformedAsks(v: Word)
    ensures Move(Informed(v), {0}, ELEMENTS) ==
            Outcome(Informed(v).(nearby := {0}), [Packet(Some(128), RequestData(v, 0))], false)
  {
    var p := Informed(v);
    BestIsGreatest(p.localGroup, 0);
    assert p.localGroup[128].seen[0] == (0, 129);
    OnlyZeroNear(p, ELEMENTS);
  }

  // ---- the run ----

  /** Node 128 has started its record and nodes below `k` have joined it; the others have done nothing. */
  ghost predicate Stage(s: Sys, n: nat, k: nat) {
    && s in Reached() && |s.nodes| == n && 129 <= n
    && k <= 128 && s.nodes[128].records[0] == Acknowledged(k) && s.nodes[128].address == 128
    && (forall j :: k <= j < 128 ==> s.nodes[j] == Fresh(j))
    && |s.net| > 0 && s.net[0] == Packet(None, Advert(ANNOUNCED))
  }

  /** `n` nodes as they start. */
  function Starts(n: nat): Sys
    requires n <= 0x1_0000_0000
  {
    Sys(seq(n, v requires 0 <= v < n => Fresh(v)), [], {})
  }

  lemma StartsReachable(n: nat)
    requires n <= 0x1_0000_0000
    ensures Starts(n) in Reached()
  {
    var s := Starts(n);
    forall v | 0 <= v < n
      ensures IsStarted(s.nodes[v], v)
    {
      assert s.nodes[v] == Start(v, v, seq(ELEMENTS, _ => (0, 0)));
    }
    assert EndsIn([s], [], s);
  }

  /** Node 128 starts its record. */
  lemma LastStarts(n: nat) returns (s: Sys)
    requires 129 <= n <= 0x1_0000_0000
    ensures s in Reached() && |s.nodes| == n && s.net == []
    ensures s.nodes[128].records[0] == STARTED && s.nodes[128].address == 128 && Advertise(s.nodes[128]) == ANNOUNCED
    ensures forall j :: 0 <= j < 128 ==> s.nodes[j] == Fresh(j)
  {
    StartsReachable(n);
    LastLooks();
    var o := Move(Fresh(128), {0}, ELEMENTS);
    OnlyZeroNear(Fresh(128), ELEMENTS);
    s := Go(Starts(n), Look(128, {0}), o);
  }

  lemma FirstStage(n: nat) returns (s: Sys)
    requires 129 <= n <= 0x1_0000_0000
    ensures Stage(s, n, 0)
  {
    s := LastStarts(n);
    s := Go(s, Announce(128), Outcome(s.nodes[128], [Packet(None, Advert(ANNOUNCED))], false));
  }

  /** Node 128 learns of node `k`. */
  lemma Greets(s: Sys, n: nat, k: Word) returns (s': Sys)
    requires Stage(s, n, k) && k < 128
    ensures s' in Reached() && s.net <= s'.net && |s'.nodes| == n
    ensures s'.nodes == s.nodes[128 := s'.nodes[128]]
    ensures s'.nodes[128].records == s.nodes[128].records && s'.nodes[128].address == 128
    ensures k in s'.nodes[128].localGroup && s'.nodes[128].localGroup[k].address == k
  {
    FreshAnnounces(k);
    var hello := AdvertMessage(k, k, [], [], []);
    var i, p := |s.net|, s.nodes[128];
    s' := Go(s, Announce(k), Outcome(Fresh(k), [Packet(None, Advert(hello))], false));
    assert s'.nodes == s.nodes;
    s' := Go(s', Deliver(128, i, 0),
             Outcome(p.(localGroup := p.localGroup[k := NodeEntry(k, 0, seq(ELEMENTS, _ => (0, 0)))]), [], false));
  }

  /** And node `k` of node 128. */
  lemma Meet(s: Sys, n: nat, k: Word) returns (s': Sys)
    requires Stage(s, n, k) && k < 128
    ensures s' in Reached() && s.net <= s'.net && |s'.nodes| == n
    ensures s'.nodes == s.nodes[k := Informed(k)][128 := s'.nodes[128]]
    ensures s'.nodes[128].records == s.nodes[128].records && s'.nodes[128].address == 128
    ensures k in s'.nodes[128].localGroup && s'.nodes[128].localGroup[k].address == k
  {
    s' := Greets(s, n, k);
    FreshHears(k);
    s' := Go(s', Deliver(k, 0, 0), Outcome(Informed(k), [], false));
  }

  /** Node `k` asks for the element, gets it, and acknowledges. */
  lemma Joins(s: Sys, n: nat, k: Word) returns (s': Sys)
    requires s in Reached() && 129 <= n == |s.nodes| && k < 128
    requires s.nodes[k] == Informed(k) && s.nodes[128].address == 128
    requires k in s.nodes[128].localGroup && s.nodes[128].localGroup[k].address == k
    ensures s' in Reached() && s.net <= s'.net && |s'.nodes| == n
    ensures forall j :: 0 <= j < n && j != k && j != 128 ==> s'.nodes[j] == s.nodes[j]
    ensures s'.nodes[128].records[0] == Acknowledge(s.nodes[128].records[0], k) && s'.nodes[128].address == 128
  {
    var i, p := |s.net|, s.nodes[128];
    InformedAsks(k);
    s' := Go(s, Look(k, {0}), Move(Informed(k), {0}, ELEMENTS));
    var data := SendData(DataOf(p, 0));
    s' := Go(s', Deliver(128, i, 0), Outcome(p, [Packet(Some(k), data)], false));
    var q := s'.nodes[k];
    s' := Go(s', Deliver(k, i + 1, 0),
             Outcome(q.(records := q.records[0 := Join(data.data, k)]), [Packet(Some(128), Ack(k, 0))], false));
    s' := Go(s', Deliver(128, i + 2, 0),
             Outcome(p.(records := p.records[0 := Acknowledge(p.records[0], k)]), [], false));
  }

  lemma {:induction false} StageIsReached(n: nat, k: nat) returns (s: Sys)
    requires 129 <= n <= 0x1_0000_0000 && k <= 128
    ensures Stage(s, n, k)
  {
    if k == 0 {
      s := FirstStage(n);
    } else {
      var before := StageIsReached(n, k - 1);
      var met := Meet(before, n, k - 1);
      s := Joins(met, n, k - 1);
    }
  }

  /** Node 128 gets as far as any number of acknowledgements takes it. */
  lemma CountsUp(n: nat, k: nat) returns (s: Sys)
    requires 129 <= n <= 0x1_0000_0000 && k <= 128
    ensures s in Reached() && |s.nodes| == n
    ensures var total: int := 129 + k; s.nodes[128].records[0].round == total % 256
    ensures forall x: Word :: x in s.nodes[128].records[0].agreeing <==> x == 128 || x < k
  {
    s := StageIsReached(n, k);
    AcknowledgedIs(k);
    AcknowledgedAgree(k);
    forall x: Word
      ensures x in s.nodes[128].records[0].agreeing <==> x == 128 || x < k
    {
      JoinedAre(k, x);
    }
  }

  /** The 127th acknowledgement takes the round to 0, with 128 agreeing nodes. */
  lemma RoundsWrap(n: nat) returns (s: Sys)
    requires 129 <= n <= 0x1_0000_0000
    ensures Reachable(s) && SysOk(s) && |s.nodes| == n && s.nodes[128].records[0].round == 0
    ensures forall x: Word :: x in s.nodes[128].records[0].agreeing <==> x == 128 || x < 127
    ensures !Inv(s)
  {
    s := CountsUp(n, 127);
    ZeroIsUnbalanced(s, 128, 0, 1);
  }

  /** A run of `n` peers, over any network. */
  ghost predicate RunOf(states: seq<Sys>, actions: seq<Action>, n: nat) {
    IsRun(states, actions) && |states[0].nodes| == n
  }

  /**
   * The conserved quantity survives every run of `n` peers exactly when there are at most 128 of
   * them, and it does not help if packets arrive only where they were sent to.
   */
  lemma ConservedIffAtMost128(n: nat)
    requires n <= 0x1_0000_0000
    ensures n <= 128 <==> forall s :: Reachable(s) && |s.nodes| == n ==> Inv(s)
    ensures n <= 128 <==> forall states: seq<Sys>, actions :: RunOf(states, actions, n) ==> Inv(states[|actions|])
  {
    if n <= 128 {
      forall states: seq<Sys>, actions | RunOf(states, actions, n)
        ensures Inv(states[|actions|])
      {
        RoundsAreConserved(states, actions, |actions|);
      }
      forall s | Reachable(s) && |s.nodes| == n
        ensures Inv(s)
      {
        var states, actions :| EndsIn(states, actions, s);
        StaysAsMany(states, actions, |actions|);
      }
    } else {
      var s := RoundsWrap(n);
      var states, actions :| EndsIn(states, actions, s);
      StaysAsMany(states, actions, |actions|);
      assert RunOf(states, actions, n);
    }
  }

  lemma {:induction false} StaysAsMany(states: seq<Sys>, actions: seq<Action>, k: nat)
    requires IsRun(states, actions) && k <= |actions|
    ensures |states[k].nodes| == |states[0].nodes|
  {
    if k > 0 {
      StaysAsMany(states, actions, k - 1);
      assert Moves(states[k - 1], actions[k - 1], states[k]);
    }
  }
}
