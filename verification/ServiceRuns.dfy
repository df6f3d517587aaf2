/**
 * ReconcileActive holds the service lock over several rollouts; seen from outside it is a stretch of a run, one visit
 * each.
 */
module ServiceRuns {
  import opened RolloutCase
  import opened World
  import opened SystemRuns
  import opened RolloutService

  function Visits(order: seq<string>, ticks: map<string, Tick>): (steps: seq<Step>)
    requires forall i :: 0 <= i < |order| ==> order[i] in ticks
    ensures |steps| == |order| && forall i :: 0 <= i < |order| ==> steps[i] == VisitStep(order[i], ticks[order[i]])
  {
    seq(|order|, i requires 0 <= i < |order| => VisitStep(order[i], ticks[order[i]]))
  }

  /** The visits read one clock, in order. */
  predicate Chained(clock: int, order: seq<string>, ticks: map<string, Tick>) {
    && (forall i :: 0 <= i < |order| ==>
        order[i] in ticks && Runs(ticks[order[i]].clock) && clock <= ticks[order[i]].clock.decide)
    && (forall i :: 0 < i < |order| ==> ticks[order[i - 1]].clock.build <= ticks[order[i]].clock.decide)
  }

  /** A stretch of a run: each state follows from the one before by an enabled step. */
  ghost predicate Stretch(setup: Setup, states: seq<Sys>, steps: seq<Step>) {
    && |states| == |steps| + 1
    && forall i :: 0 <= i < |steps| ==>
         AllIndexed(states[i].w) && Enabled(setup, states[i], steps[i])
         && states[i + 1] == Advance(setup, states[i], steps[i])
  }

  lemma {:induction false} VisitsAreEnabled(setup: Setup, s: Sys, id: string, t: Tick)
    requires Runs(t.clock) && s.clock <= t.clock.decide
    ensures Enabled(setup, s, VisitStep(id, t)) && LastReading(VisitStep(id, t), s.clock) == t.clock.build
  {
  }

  lemma {:induction false} StretchGrows(setup: Setup, states: seq<Sys>, steps: seq<Step>, step: Step)
    requires Stretch(setup, states, steps) && AllIndexed(states[|steps|].w) && Enabled(setup, states[|steps|], step)
    ensures Stretch(setup, states + [Advance(setup, states[|steps|], step)], steps + [step])
  {
    hide AllIndexed, Enabled, Advance;
    var states', steps' := states + [Advance(setup, states[|steps|], step)], steps + [step];
    forall i | 0 <= i < |steps'|
      ensures AllIndexed(states'[i].w) && Enabled(setup, states'[i], steps'[i])
      ensures states'[i + 1] == Advance(setup, states'[i], steps'[i])
    {
      if i < |steps| {
        assert states'[i] == states[i] && states'[i + 1] == states[i + 1] && steps'[i] == steps[i];
      }
    }
  }

  lemma {:induction false} ChainedFront(clock: int, order: seq<string>, ticks: map<string, Tick>)
    requires order != [] && Chained(clock, order, ticks)
    ensures Chained(clock, order[..|order| - 1], ticks)
  {
    var front := order[..|order| - 1];
    assert forall i :: 0 <= i < |front| ==> front[i] == order[i];
    forall i | 0 < i < |front| ensures ticks[front[i - 1]].clock.build <= ticks[front[i]].clock.decide {
      assert ticks[order[i - 1]].clock.build <= ticks[order[i]].clock.decide;
    }
  }

  /** Visiting `order` one by one is a stretch of a run, and every state on it is sound. */
  lemma {:induction false} ReconcileIsAStretch(setup: Setup, s: Sys, order: seq<string>, ticks: map<string, Tick>)
    returns (states: seq<Sys>)
    requires SysInv(setup.h, s) && AllIndexed(s.w) && Chained(s.clock, order, ticks)
    ensures |states| == |order| + 1 && Stretch(setup, states, Visits(order, ticks)) && states[0] == s
    ensures SysInv(setup.h, states[|order|]) && AllIndexed(states[|order|].w)
    ensures states[|order|].w == VisitAll(setup.h, s.w, order, ticks)
    ensures states[|order|].clock == if order == [] then s.clock else ticks[order[|order| - 1]].clock.build
  {
    hide SysInv, AllIndexed, Enabled, Apply, VisitRollout, Stretch, LastReading;
    if order == [] {
      states := [s];
      OneStateStretch(setup, s);
    } else {
      var front, id := order[..|order| - 1], order[|order| - 1];
      ChainedFront(s.clock, order, ticks);
      var earlier := ReconcileIsAStretch(setup, s, front, ticks);
      var before, step := earlier[|front|], VisitStep(id, ticks[id]);
      VisitsAreEnabled(setup, before, id, ticks[id]);
      StepKeepsSysInv(setup, before, step);
      StretchGrows(setup, earlier, Visits(front, ticks), step);
      assert Visits(order, ticks) == Visits(front, ticks) + [step];
      states := earlier + [Advance(setup, before, step)];
      VisitIsAVisit(setup, before, id, ticks[id]);
    }
  }

  lemma {:induction false} OneStateStretch(setup: Setup, s: Sys)
    ensures Stretch(setup, [s], [])
  {
  }

  lemma {:induction false} VisitIsAVisit(setup: Setup, s: Sys, id: string, t: Tick)
    requires AllIndexed(s.w)
    ensures Advance(setup, s, VisitStep(id, t)).w == if id in s.w.cases then VisitRollout(setup.h, s.w, id, t) else s.w
    ensures id in s.w.cases ==> Indexed(s.w.cases[id])
    ensures Advance(setup, s, VisitStep(id, t)).clock == t.clock.build
  {
  }
}
