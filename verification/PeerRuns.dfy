/** Runs of peers built step by step, in which packets arrive only where they were sent to. */
module PeerRuns {
  import opened PeerSpec
  import opened PeerSystem

  /** A packet arrives only where it was sent to; a broadcast arrives anywhere. */
  predicate Addressed(s: Sys, a: Action) {
    a.Deliver? && a.position < |s.net| && a.v < |s.nodes| && s.net[a.position].to.Some? ==>
      s.net[a.position].to.value == s.nodes[a.v].address
  }

  /** `s` ends a run in which all packets arrive where they were sent to. */
  ghost predicate Reachable(s: Sys) {
    exists states, actions :: EndsIn(states, actions, s)
  }

  ghost predicate EndsIn(states: seq<Sys>, actions: seq<Action>, s: Sys) {
    && IsRun(states, actions) && states[|actions|] == s
    && forall k :: 0 <= k < |actions| ==> Addressed(states[k], actions[k])
  }

  /** The well-formed ends of such runs. */
  ghost function Reached(): iset<Sys> {
    iset s | Reachable(s) && SysOk(s)
  }

  /** One more step of a run, whose outcome is known. */
  lemma Go(s: Sys, a: Action, o: Outcome) returns (s': Sys)
    requires s in Reached() && CanAct(s, a) && Addressed(s, a) && EffectOf(s, a) == o
    ensures s' in Reached()
    ensures s'.nodes == s.nodes[a.v := o.peer] && s'.net == s.net + o.out
  {
    s' := Step(s, a);
    StepKeepsSysOk(s, a);
    var states, actions :| EndsIn(states, actions, s);
    var states', actions' := states + [s'], actions + [a];
    forall k | 0 <= k < |actions'|
      ensures Moves(states'[k], actions'[k], states'[k + 1]) && Addressed(states'[k], actions'[k])
    {
      if k < |actions| {
        assert Moves(states[k], actions[k], states[k + 1]) && Addressed(states[k], actions[k]);
      }
    }
    assert EndsIn(states', actions', s');
  }

  /** Elements other than 0 stay away. */
  lemma {:induction false} OnlyZeroNear(p: Peer, n: nat)
    requires PeerOk(p) && p.nearby == {} && 0 < n <= ELEMENTS
    ensures Move(p, {0}, n).out == BeginAgreement(p, 0).out
    ensures Move(p, {0}, n).peer == BeginAgreement(p, 0).peer.(nearby := {0})
  {
    if n > 1 {
      OnlyZeroNear(p, n - 1);
    } else {
      assert Move(p, {0}, 0) == Outcome(p, [], false);
    }
  }
}
