/**
 * Which elements a peer asks for, and whom (peer_node.cpp:437-498, 526-556): a request goes out exactly
 * for an element that comes near or is advertised as better, and always to the best neighbour.
 */
module PeerNeighbours {
  import opened Bytes
  import opened AdvertCodec
  import opened PeerSpec
  import V = PeerConvergence

  /** Some neighbour shows more for the element than the pair that `p` holds. */
  ghost predicate ShowsMore(p: Peer, e: Byte)
    requires PeerOk(p) && e < ELEMENTS
  {
    exists k :: k in p.localGroup && Less(PairOf(p.records[e]), p.localGroup[k].seen[e])
  }

  ghost predicate IsRequested(out: seq<Packet>, e: Byte) {
    exists m :: m in out && m.message.RequestData? && m.message.elementId == e
  }

  lemma RequestedInParts(a: seq<Packet>, b: seq<Packet>, e: Byte)
    ensures IsRequested(a + b, e) <==> IsRequested(a, e) || IsRequested(b, e)
  {
    forall m | m in a || m in b
      ensures m in a + b
    {
    }
  }

  /** `r'` is `r`, with the first round of node `id` if it had none. */
  predicate IsStarted(r: Agreement, r': Agreement, id: Word) {
    var first: int := id;
    r' == r.(round := r'.round) && r'.round == if r.round == 0 then (first + 1) % 256 else r.round
  }

  /**
   * Beginning an agreement sends one request, to the best neighbour, if some neighbour shows more; and
   * otherwise sends nothing and sees to it that the record has a round.
   */
  lemma BeginsIff(p: Peer, e: Byte)
    requires PeerOk(p) && e < ELEMENTS
    ensures var o := BeginAgreement(p, e);
            && (ShowsMore(p, e) ==>
                  o.peer == p && |o.out| == 1 && V.Asks(p, o.out[0]) && o.out[0].message.elementId == e)
            && (!ShowsMore(p, e) ==>
                  && o.out == [] && o.peer == p.(records := p.records[e := o.peer.records[e]])
                  && IsStarted(p.records[e], o.peer.records[e], p.id))
  {
    WantsIffBetter(p, e);
    V.BeginAsks(p, e);
  }

  // ---- looking around ----

  /** The element has come near since the last look. */
  predicate ComesNear(p: Peer, near: set<Word>, e: Word) {
    e in near && e !in p.nearby
  }

  /** What a look at the elements below `n` has done to the record of `e`. */
  ghost predicate RecordAfter(p: Peer, near: set<Word>, n: nat, e: Byte, r: Agreement)
    requires PeerOk(p) && e < ELEMENTS
  {
    if e < n && ComesNear(p, near, e) && !ShowsMore(p, e) then IsStarted(p.records[e], r, p.id) else r == p.records[e]
  }

  /** A look at the elements below `n`. */
  ghost predicate Looks(p: Peer, near: set<Word>, n: nat, o: Outcome)
    requires PeerOk(p) && n <= ELEMENTS
  {
    && PeerOk(o.peer) && o.peer.id == p.id && o.peer.address == p.address && o.peer.localGroup == p.localGroup
    && (forall e: Word :: e in o.peer.nearby <==> if e < n then e in near else e in p.nearby)
    && (forall e: Byte :: e < ELEMENTS ==> RecordAfter(p, near, n, e, o.peer.records[e]))
    && forall e: Byte :: IsRequested(o.out, e) <==> e < n && ComesNear(p, near, e) && ShowsMore(p, e)
  }

  lemma {:induction false} MoveLooks(p: Peer, near: set<Word>, n: nat)
    requires PeerOk(p) && n <= ELEMENTS
    ensures Looks(p, near, n, Move(p, near, n))
  {
    if n > 0 {
      MoveLooks(p, near, n - 1);
      LooksOnce(p, near, n, Move(p, near, n - 1), Move(p, near, n));
    }
  }

  lemma LooksOnce(p: Peer, near: set<Word>, n: nat, front: Outcome, o: Outcome)
    requires PeerOk(p) && 0 < n <= ELEMENTS && Looks(p, near, n - 1, front)
    requires front == Move(p, near, n - 1) && o == Move(p, near, n)
    ensures Looks(p, near, n, o)
  {
    var e: Byte := n - 1;
    if ComesNear(p, near, e) {
      LooksInto(p, near, n, front, BeginAgreement(front.peer, e), o);
    } else {
      LooksPast(p, near, n, front, o);
    }
  }

  /** The nearby elements after a look at `e`. */
  predicate Updates(nearby: set<Word>, nearby': set<Word>, near: set<Word>, e: Word) {
    forall x: Word :: x in nearby' <==> if x == e then e in near else x in nearby
  }

  lemma LooksPast(p: Peer, near: set<Word>, n: nat, front: Outcome, o: Outcome)
    requires PeerOk(p) && 0 < n <= ELEMENTS && Looks(p, near, n - 1, front) && !ComesNear(p, near, n - 1)
    requires o.out == front.out && o.peer == front.peer.(nearby := o.peer.nearby) && PeerOk(o.peer)
    requires Updates(front.peer.nearby, o.peer.nearby, near, n - 1)
    ensures Looks(p, near, n, o)
  {
    forall e: Byte | e < ELEMENTS
      ensures RecordAfter(p, near, n, e, o.peer.records[e])
    {
      assert RecordAfter(p, near, n - 1, e, front.peer.records[e]);
    }
  }

  lemma LooksInto(p: Peer, near: set<Word>, n: nat, front: Outcome, begun: Outcome, o: Outcome)
    requires PeerOk(p) && 0 < n <= ELEMENTS && Looks(p, near, n - 1, front) && ComesNear(p, near, n - 1)
    requires begun == BeginAgreement(front.peer, n - 1)
    requires o.out == front.out + begun.out && o.peer == begun.peer.(nearby := o.peer.nearby) && PeerOk(o.peer)
    requires Updates(begun.peer.nearby, o.peer.nearby, near, n - 1)
    ensures Looks(p, near, n, o)
  {
    var x: Byte := n - 1;
    assert RecordAfter(p, near, n - 1, x, front.peer.records[x]);
    BeginsIff(front.peer, x);
    assert ShowsMore(front.peer, x) <==> ShowsMore(p, x);
    forall e: Byte
      ensures IsRequested(o.out, e) <==> e < n && ComesNear(p, near, e) && ShowsMore(p, e)
    {
      RequestedInParts(front.out, begun.out, e);
      RequestedByOne(begun.out, x, e);
    }
    forall e: Byte | e < ELEMENTS
      ensures RecordAfter(p, near, n, e, o.peer.records[e])
    {
      assert RecordAfter(p, near, n - 1, e, front.peer.records[e]);
    }
  }

  lemma RequestedByOne(out: seq<Packet>, x: Byte, e: Byte)
    requires out != [] ==> |out| == 1 && out[0].message.RequestData? && out[0].message.elementId == x
    ensures IsRequested(out, e) <==> out != [] && e == x
  {
    if out != [] {
      assert out[0] in out;
    }
  }

  /**
   * A look leaves exactly the near elements nearby. It asks for those that have come near and for which
   * some neighbour shows more, each once and of the best neighbour; it starts the records of the
   * others that have come near, and touches nothing else.
   */
  lemma LookAsksTheBest(p: Peer, near: set<Word>)
    requires PeerOk(p)
    ensures var o := Move(p, near, ELEMENTS);
            && (forall e: Word :: e in o.peer.nearby <==> e < ELEMENTS && e in near)
            && (forall e: Byte :: IsRequested(o.out, e) <==> e < ELEMENTS && ComesNear(p, near, e) && ShowsMore(p, e))
            && V.AllAsk(p, o.out)
            && (forall e: Byte :: e < ELEMENTS ==> RecordAfter(p, near, ELEMENTS, e, o.peer.records[e]))
            && o.peer == p.(nearby := o.peer.nearby, records := o.peer.records)
  {
    var o := Move(p, near, ELEMENTS);
    MoveLooks(p, near, ELEMENTS);
    V.MoveAsks(p, near, ELEMENTS);
    forall i | 0 <= i < |o.out|
      ensures V.Asks(p, o.out[i])
    {
      var m := o.out[i];
      assert V.Asks(o.peer, m);
      var e := m.message.elementId;
      assert m in o.out && IsRequested(o.out, e);
      assert RecordAfter(p, near, ELEMENTS, e, o.peer.records[e]);
      var k :| V.IsBestNeighbour(o.peer, e, k) && m.to.value == o.peer.localGroup[k].address;
      assert V.IsBestNeighbour(p, e, k);
    }
  }

  // ---- hearing an advertisement ----

  predicate Differ(elements: seq<Byte>) {
    forall i, j :: 0 <= i < j < |elements| ==> elements[i] != elements[j]
  }

  /** Row `i` names the element, and shows more than the pair that `p` holds. */
  predicate IsBetterRow(p: Peer, info: AdvertMessage, i: int, e: Byte)
    requires PeerOk(p) && Aligned(info) && e < ELEMENTS
  {
    0 <= i < |info.elements| && info.elements[i] == e && Less(PairOf(p.records[e]), (info.versions[i], info.rounds[i]))
  }

  lemma {:induction false} QueuedIff(p: Peer, info: AdvertMessage, n: nat, e: Byte)
    requires PeerOk(p) && Aligned(info) && KnownElements(info) && n <= |info.elements| && e < ELEMENTS
    ensures e in Queued(p, info, n) <==> e in p.nearby && exists i :: i < n && IsBetterRow(p, info, i, e)
  {
    if n > 0 {
      QueuedIff(p, info, n - 1, e);
      var x := info.elements[n - 1];
      assert e in p.nearby && IsBetterRow(p, info, n - 1, e) ==> e == x && e in Queued(p, info, n);
    }
  }

  /** The row of an element is what is filed for it, and zeros without one. */
  lemma {:induction false} FilesRows(info: AdvertMessage, n: nat, e: Byte)
    requires Aligned(info) && KnownElements(info) && Differ(info.elements) && n <= |info.elements| && e < ELEMENTS
    ensures forall i :: 0 <= i < n && info.elements[i] == e ==>
              SeenBy(info, n)[e] == (info.versions[i], info.rounds[i])
    ensures e !in info.elements[..n] ==> SeenBy(info, n)[e] == (0, 0)
  {
    if n > 0 {
      FilesRows(info, n - 1, e);
      assert info.elements[..n] == info.elements[..n - 1] + [info.elements[n - 1]];
    }
  }

  lemma LastOrBefore(elements: seq<Byte>, e: Byte)
    requires elements != []
    ensures e in elements <==> e in elements[..|elements| - 1] || e == elements[|elements| - 1]
  {
    assert elements == elements[..|elements| - 1] + [elements[|elements| - 1]];
  }

  /** Some neighbour shows more for each of the elements. */
  ghost predicate AllShowMore(p: Peer, elements: seq<Byte>) {
    PeerOk(p) && forall i :: 0 <= i < |elements| ==> elements[i] < ELEMENTS && ShowsMore(p, elements[i])
  }

  /** If a neighbour shows more for each element, each is asked for, and no record is touched. */
  lemma {:induction false} AllAreAsked(p: Peer, elements: seq<Byte>, e: Byte)
    requires AllShowMore(p, elements)
    ensures BeginAll(p, elements).peer == p
    ensures IsRequested(BeginAll(p, elements).out, e) <==> e in elements
  {
    if elements != [] {
      var front, x := elements[..|elements| - 1], elements[|elements| - 1];
      AllAreAsked(p, front, e);
      BeginsIff(p, x);
      RequestedByOne(BeginAgreement(p, x).out, x, e);
      RequestedInParts(BeginAll(p, front).out, BeginAgreement(p, x).out, e);
      LastOrBefore(elements, e);
    }
  }

  /** `p` with the advertisement filed. */
  predicate HasFiled(p: Peer, q: Peer, info: AdvertMessage, now: int)
    requires PeerOk(q) && Aligned(info)
  {
    && q == p.(localGroup := q.localGroup)
    && info.senderId in q.localGroup
    && q.localGroup == p.localGroup[info.senderId := q.localGroup[info.senderId]]
    && var entry := q.localGroup[info.senderId];
       && entry.address == info.ipv4Address && entry.recentTime == now
       && forall e :: 0 <= e < ELEMENTS ==>
            && (forall i :: 0 <= i < |info.elements| && info.elements[i] == e ==>
                  entry.seen[e] == (info.versions[i], info.rounds[i]))
            && (e !in info.elements ==> entry.seen[e] == (0, 0))
  }

  /**
   * An advertisement is filed under its sender, in place of what was known of it, and touches no
   * record. It is answered with a request for each nearby element for which it is better than our
   * own pair, and for no other, each to the best of all neighbours.
   */
  lemma AdvertAsksTheBest(p: Peer, info: AdvertMessage, now: int)
    requires PeerOk(p) && Aligned(info) && KnownElements(info) && Differ(info.elements)
    ensures var o := ReceiveAdvert(p, info, now);
            && !o.threw && HasFiled(p, o.peer, info, now)
            && (forall e: Byte :: IsRequested(o.out, e) <==>
                  e < ELEMENTS && e in p.nearby && exists i :: IsBetterRow(p, info, i, e))
            && V.AllAsk(o.peer, o.out)
  {
    var n := |info.elements|;
    var q := p.(localGroup := p.localGroup[info.senderId := NodeEntry(info.ipv4Address, now, SeenBy(info, n))]);
    FiledIsFiled(p, q, info, now);
    FiledAsksTheBest(p, q, info, now);
  }

  lemma FiledAsksTheBest(p: Peer, q: Peer, info: AdvertMessage, now: int)
    requires PeerOk(p) && PeerOk(q) && Aligned(info) && KnownElements(info) && Differ(info.elements)
    requires HasFiled(p, q, info, now)
    ensures var o := BeginAll(q, Queued(p, info, |info.elements|));
            && o.peer == q && V.AllAsk(q, o.out)
            && forall e: Byte :: IsRequested(o.out, e) <==>
                 e < ELEMENTS && e in p.nearby && exists i :: IsBetterRow(p, info, i, e)
  {
    var o := BeginAll(q, Queued(p, info, |info.elements|));
    QueuedAsk(p, q, info);
    FiledAsksIff(p, q, info, now, 0);
    forall e: Byte
      ensures IsRequested(o.out, e) <==> e < ELEMENTS && e in p.nearby && exists i :: IsBetterRow(p, info, i, e)
    {
      FiledAsksIff(p, q, info, now, e);
    }
  }

  lemma QueuedAsk(p: Peer, q: Peer, info: AdvertMessage)
    requires PeerOk(p) && PeerOk(q) && Aligned(info) && KnownElements(info) && Differ(info.elements)
    ensures var o := BeginAll(q, Queued(p, info, |info.elements|)); V.AllAsk(o.peer, o.out)
  {
    V.QueuedDiffer(p, info, |info.elements|);
    V.BeginAllAsk(q, Queued(p, info, |info.elements|));
  }

  lemma FiledAsksIff(p: Peer, q: Peer, info: AdvertMessage, now: int, e: Byte)
    requires PeerOk(p) && PeerOk(q) && Aligned(info) && KnownElements(info) && HasFiled(p, q, info, now)
    ensures BeginAll(q, Queued(p, info, |info.elements|)).peer == q
    ensures IsRequested(BeginAll(q, Queued(p, info, |info.elements|)).out, e) <==>
            e < ELEMENTS && e in p.nearby && exists i :: IsBetterRow(p, info, i, e)
  {
    var agree := Queued(p, info, |info.elements|);
    QueuedShowsMore(p, q, info, now);
    AllAreAsked(q, agree, e);
    if e < ELEMENTS {
      QueuedIff(p, info, |info.elements|, e);
    }
  }

  lemma FiledIsFiled(p: Peer, q: Peer, info: AdvertMessage, now: int)
    requires PeerOk(p) && Aligned(info) && KnownElements(info) && Differ(info.elements)
    requires q == p.(localGroup := p.localGroup[info.senderId :=
                       NodeEntry(info.ipv4Address, now, SeenBy(info, |info.elements|))])
    ensures PeerOk(q) && HasFiled(p, q, info, now)
  {
    assert info.elements[..|info.elements|] == info.elements;
    forall e: Byte | e < ELEMENTS
      ensures forall i :: 0 <= i < |info.elements| && info.elements[i] == e ==>
                SeenBy(info, |info.elements|)[e] == (info.versions[i], info.rounds[i])
      ensures e !in info.elements ==> SeenBy(info, |info.elements|)[e] == (0, 0)
    {
      FilesRows(info, |info.elements|, e);
    }
  }

  lemma QueuedShowsMore(p: Peer, q: Peer, info: AdvertMessage, now: int)
    requires PeerOk(p) && PeerOk(q) && Aligned(info) && KnownElements(info) && HasFiled(p, q, info, now)
    ensures AllShowMore(q, Queued(p, info, |info.elements|))
  {
    var agree := Queued(p, info, |info.elements|);
    forall i | 0 <= i < |agree|
      ensures ShowsMore(q, agree[i])
    {
      QueuedIff(p, info, |info.elements|, agree[i]);
      var l :| IsBetterRow(p, info, l, agree[i]);
      RowShowsMore(p, q, info, now, l, agree[i]);
    }
  }

  lemma RowShowsMore(p: Peer, q: Peer, info: AdvertMessage, now: int, l: nat, e: Byte)
    requires PeerOk(p) && PeerOk(q) && Aligned(info) && HasFiled(p, q, info, now) && e < ELEMENTS
    requires IsBetterRow(p, info, l, e)
    ensures ShowsMore(q, e)
  {
    assert q.localGroup[info.senderId].seen[e] == (info.versions[l], info.rounds[l]);
  }
}
