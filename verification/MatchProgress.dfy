/**
 * A reign makes progress: what a follower has acked to the leader of a term it holds for as long as
 * that leader leads, and its match index never falls (raft.py:245-251, 403-437).
 */
module MatchProgress {
  import opened RaftTypes
  import opened RaftSystem
  import C = CommitSafety
  import E = ElectionSafety
  import M = LogMatching

  predicate LeadsTerm(s: Sys, v: NodeId, t: nat) {
    v < |s.nodes| && s.nodes[v].loop.InLeader? && s.nodes[v].term == t
  }

  // ---- one step ----

  /** The follower's acks, its match and the leader's log only move forward. */
  ghost predicate Forward(s: Sys, s': Sys, v: NodeId, f: NodeId)
    requires SysOk(s) && SysOk(s') && v < |s.nodes| == |s'.nodes| && f < |s.nodes|
  {
    && s.nodes[v].log <= s'.nodes[v].log
    && (f in s.acked ==> f in s'.acked && s.nodes[v].matchIndex[f] <= s'.nodes[v].matchIndex[f])
  }

  /** An answer that is taken into the row of a follower that has acked before extends its match. */
  lemma AnswerMovesForward(s: Sys, a: Action, f: NodeId)
    requires C.AnswerArrives(s, a) && SysOk(Step(s, a)) && f < |s.nodes| && f != a.v
    ensures Forward(s, Step(s, a), a.v, f)
  {
    C.LeaderOwnsReign(s, a);
    C.ScanAfterAnswer(s, a);
    if f == s.net[a.position].sender {
      assert C.FollowerOk(s, f) && a.position in s.live && Concerns(s.net[a.position], f);
    }
  }

  lemma LeaderMovesForward(s: Sys, a: Action, f: NodeId)
    requires C.LeaderActs(s, a) && C.OrderlyDelivery(s, a) && SysOk(Step(s, a)) && f < |s.nodes| && f != a.v
    requires Step(s, a).nodes[a.v].loop.InLeader?
    ensures Forward(s, Step(s, a), a.v, f)
  {
    var n, ev := s.nodes[a.v], EventOf(s, a);
    if M.Appended(n, ev).Some? {
      C.AppendTurn(n, ev);
    } else if ev.Receive? && ev.msg.Ack? {
      if n.nextIndex[ev.msg.sender].Some? {
        AnswerMovesForward(s, a, f);
      } else {
        assert EffectOf(s, a) == Effect(n, []);
      }
    } else if !ev.Resend? {
      C.OtherTurn(n, ev);
    }
  }

  lemma StepMovesForward(s: Sys, a: Action, v: NodeId, f: NodeId)
    requires C.Inv(s) && C.Matching(s) && CanAct(s, a) && C.OrderlyDelivery(s, a) && SysOk(Step(s, a))
    requires v < |s.nodes| && f < |s.nodes| && f != v
    requires s.nodes[v].loop.InLeader? && Step(s, a).nodes[v].loop.InLeader?
    ensures Forward(s, Step(s, a), v, f)
  {
    if !a.Lose? {
      if a.v == v {
        LeaderMovesForward(s, a, f);
      } else if EffectOf(s, a).node.loop.InLeader? {
        C.OpeningTurn(s.nodes[a.v], EventOf(s, a));
        assert false;
      }
    }
  }

  // ---- a reign is one stretch of a run ----

  /** The term of a leader has a recorded reign from then on. */
  lemma {:induction false} ReignsStay(states: seq<Sys>, actions: seq<Action>, j: nat, k: nat, t: nat)
    requires IsRun(states, actions) && j <= k <= |actions| && t in states[j].reigns
    ensures t in states[k].reigns
  {
    if j < k {
      ReignsStay(states, actions, j, k - 1, t);
      assert Moves(states[k - 1], actions[k - 1], states[k]);
    }
  }

  /** Whoever leads a term after a step led it before, or has just opened it as a fresh one. */
  lemma LedBefore(s: Sys, a: Action, v: NodeId, t: nat)
    requires M.Inv(s) && E.Inv(s) && CanAct(s, a) && LeadsTerm(Step(s, a), v, t) && t in s.reigns
    ensures LeadsTerm(s, v, t)
  {
    if !a.Lose? && a.v == v {
      M.TurnLogs(s.nodes[v], EventOf(s, a));
      if !s.nodes[v].loop.InLeader? {
        M.OpeningIsFresh(s, v);
      }
    }
  }

  /** Leading the term at `i + 1` takes leading it at `i`. */
  predicate LedBack(states: seq<Sys>, i: nat, v: NodeId, t: nat)
    requires i + 1 < |states|
  {
    LeadsTerm(states[i + 1], v, t) ==> LeadsTerm(states[i], v, t)
  }

  lemma OrderlyLedBack(states: seq<Sys>, actions: seq<Action>, j: nat, i: nat, v: NodeId, t: nat)
    requires C.OrderlyRun(states, actions) && j <= i < |actions| && t in states[j].reigns
    ensures LedBack(states, i, v, t)
  {
    if LeadsTerm(states[i + 1], v, t) {
      C.OrderlyRunMatches(states, actions, i);
      ReignsStay(states, actions, j, i, t);
      assert Moves(states[i], actions[i], states[i + 1]);
      LedBefore(states[i], actions[i], v, t);
    }
  }

  lemma {:induction false} LedAllAlong(states: seq<Sys>, j: nat, k: nat, v: NodeId, t: nat)
    requires j <= k < |states| && LeadsTerm(states[k], v, t)
    requires forall i :: j <= i < k ==> LedBack(states, i, v, t)
    ensures forall i :: j <= i <= k ==> LeadsTerm(states[i], v, t)
    decreases k
  {
    if j < k {
      assert LedBack(states, k - 1, v, t);
      LedAllAlong(states, j, k - 1, v, t);
    }
  }

  lemma LeaderIsRecorded(states: seq<Sys>, actions: seq<Action>, j: nat, v: NodeId, t: nat)
    requires C.OrderlyRun(states, actions) && j <= |actions| && LeadsTerm(states[j], v, t)
    ensures t in states[j].reigns
  {
    C.OrderlyRunMatches(states, actions, j);
  }

  /** A node that leads a term at two moments has led it all the time between. */
  lemma ReignLasts(states: seq<Sys>, actions: seq<Action>, j: nat, k: nat, v: NodeId, t: nat)
    requires C.OrderlyRun(states, actions) && j <= k <= |actions|
    requires LeadsTerm(states[j], v, t) && LeadsTerm(states[k], v, t)
    ensures forall i :: j <= i <= k ==> LeadsTerm(states[i], v, t)
  {
    LeaderIsRecorded(states, actions, j, v, t);
    forall i | j <= i < k
      ensures LedBack(states, i, v, t)
    {
      OrderlyLedBack(states, actions, j, i, v, t);
    }
    LedAllAlong(states, j, k, v, t);
  }

  // ---- a whole reign ----

  /** From the moment `i` to the moment `k` nothing of the follower's progress is lost. */
  ghost predicate Progress(states: seq<Sys>, i: nat, k: nat, v: NodeId, f: NodeId) {
    && i < |states| && k < |states|
    && SysOk(states[i]) && SysOk(states[k])
    && v < |states[i].nodes| == |states[k].nodes| && f < |states[i].nodes|
    && Forward(states[i], states[k], v, f)
  }

  ghost predicate StepProgress(states: seq<Sys>, i: nat, v: NodeId, f: NodeId) {
    Progress(states, i, i + 1, v, f)
  }

  lemma OrderlyStepMovesForward(states: seq<Sys>, actions: seq<Action>, i: nat, v: NodeId, t: nat, f: NodeId)
    requires C.OrderlyRun(states, actions) && i < |actions|
    requires f < |states[i].nodes| && f != v
    requires LeadsTerm(states[i], v, t) && LeadsTerm(states[i + 1], v, t)
    ensures StepProgress(states, i, v, f)
  {
    C.OrderlyRunKeepsInv(states, actions, i);
    C.OrderlyRunMatches(states, actions, i);
    C.MatchingHolds(states[i]);
    assert Moves(states[i], actions[i], states[i + 1]);
    StepKeepsSysOk(states[i], actions[i]);
    StepMovesForward(states[i], actions[i], v, f);
  }

  lemma {:induction false} ProgressAdds(states: seq<Sys>, j: nat, k: nat, v: NodeId, f: NodeId)
    requires j < k && forall i :: j <= i < k ==> StepProgress(states, i, v, f)
    ensures Progress(states, j, k, v, f)
    decreases k
  {
    assert StepProgress(states, k - 1, v, f);
    if j < k - 1 {
      ProgressAdds(states, j, k - 1, v, f);
    }
  }

  lemma {:induction false} SameSize(states: seq<Sys>, actions: seq<Action>, j: nat, i: nat)
    requires IsRun(states, actions) && j <= i <= |actions|
    ensures |states[i].nodes| == |states[j].nodes|
  {
    C.CommitsOnlyGrow(states, actions, j, i);
  }

  lemma ReignMovesForward(states: seq<Sys>, actions: seq<Action>, j: nat, k: nat, v: NodeId, t: nat, f: NodeId)
    requires C.OrderlyRun(states, actions) && j < k <= |actions|
    requires LeadsTerm(states[j], v, t) && LeadsTerm(states[k], v, t)
    requires f < |states[j].nodes| && f != v
    ensures Progress(states, j, k, v, f)
  {
    ReignLasts(states, actions, j, k, v, t);
    forall i | j <= i < k
      ensures StepProgress(states, i, v, f)
    {
      assert LeadsTerm(states[i], v, t) && LeadsTerm(states[i + 1], v, t);
      SameSize(states, actions, j, i);
      OrderlyStepMovesForward(states, actions, i, v, t, f);
    }
    ProgressAdds(states, j, k, v, f);
  }

  /**
   * Whatever a follower has acked to the leader of a term it still holds at any later moment of that
   * leader's reign, so that no append has cut below it; and its match index has not fallen.
   */
  lemma AckedIsHeld(states: seq<Sys>, actions: seq<Action>, j: nat, k: nat, v: NodeId, t: nat, f: NodeId)
    requires C.OrderlyRun(states, actions) && j <= k <= |actions|
    requires LeadsTerm(states[j], v, t) && LeadsTerm(states[k], v, t)
    requires f < |states[j].nodes| && f != v && f in states[j].acked
    ensures SysOk(states[j]) && SysOk(states[k]) && |states[k].nodes| == |states[j].nodes|
    ensures var l, l' := states[j].nodes[v], states[k].nodes[v];
            && f in states[k].acked
            && l.matchIndex[f] <= l'.matchIndex[f]
            && l.matchIndex[f] < |l.log|
            && l.log[..l.matchIndex[f] + 1] <= states[k].nodes[f].log
  {
    RunKeepsSysOk(states, actions, j);
    C.MatchIsTrue(states, actions, j, v, f);
    if j < k {
      ReignMovesForward(states, actions, j, k, v, t, f);
      C.MatchIsTrue(states, actions, k, v, f);
      var l, l' := states[j].nodes[v], states[k].nodes[v];
      assert l.log[..l.matchIndex[f] + 1] <= l'.log[..l'.matchIndex[f] + 1];
    }
  }
}
