/** The two-stage limiter a level runs under, as a transition system. */
module Limiter {
  import opened Prelude

  /** Caps are at least one, as the concurrency schema demands. */
  type Cap = n: nat | n >= 1 witness 1

  datatype Caps = Caps(global: Cap, perProvider: map<Id, Cap>)

  datatype Phase = Queued | Holding | Running | Done

  /**
   * The tasks of one level: the provider of each, and how far each has come.  A
   * task takes a slot of the global limiter and, if its provider is capped, then
   * a slot of the provider's limiter.  Both serve their queues first come, first
   * served, and all tasks of a level are enqueued together, so queue order is
   * index order.
   */
  datatype State = State(providers: seq<Id>, phase: seq<Phase>)

  ghost predicate Sized(s: State) {
    |s.providers| == |s.phase|
  }

  /** The tasks holding a slot of the global limiter. */
  function Active(phase: seq<Phase>): set<nat> {
    set i: nat | i < |phase| && (phase[i] == Holding || phase[i] == Running)
  }

  /** The tasks running on provider `p`. */
  function RunningOn(s: State, p: Id): set<nat>
    requires Sized(s)
  {
    set i: nat | i < |s.phase| && s.phase[i] == Running && s.providers[i] == p
  }

  predicate AllDone(phase: seq<Phase>) {
    forall i :: 0 <= i < |phase| ==> phase[i] == Done
  }

  /** No task before `i` still waits in the global queue. */
  predicate FirstInQueue(phase: seq<Phase>, i: nat) {
    forall j :: 0 <= j < i < |phase| ==> phase[j] != Queued
  }

  /** No task before `i` waits in the queue of the same provider. */
  predicate FirstForProvider(s: State, i: nat)
    requires Sized(s) && i < |s.phase|
  {
    forall j :: 0 <= j < i && s.providers[j] == s.providers[i] ==> s.phase[j] != Holding
  }

  predicate Enabled(caps: Caps, s: State, i: nat)
    requires Sized(s)
  {
    i < |s.phase| &&
    match s.phase[i]
    case Queued => FirstInQueue(s.phase, i) && |Active(s.phase)| < caps.global
    case Holding =>
      var p := s.providers[i];
      FirstForProvider(s, i) && (p in caps.perProvider ==> |RunningOn(s, p)| < caps.perProvider[p])
    case Running => true
    case Done => false
  }

  /** What a step of task `i` turns its phase into. */
  function Next(caps: Caps, s: State, i: nat): Phase
    requires Sized(s) && Enabled(caps, s, i)
  {
    match s.phase[i]
    case Queued => if s.providers[i] in caps.perProvider then Holding else Running
    case Holding => Running
    case Running => Done
  }

  function Step(caps: Caps, s: State, i: nat): (s': State)
    requires Sized(s) && Enabled(caps, s, i)
    ensures Sized(s')
  {
    s.(phase := s.phase[i := Next(caps, s, i)])
  }

  function Launched(providers: seq<Id>): (s: State)
    ensures Sized(s)
  {
    State(providers, seq(|providers|, i => Queued))
  }

  /** `s` is reached from the launch of its level by some sequence of enabled steps. */
  ghost predicate Reachable(caps: Caps, s: State, steps: seq<nat>)
    decreases |steps|
  {
    if steps == [] then s == Launched(s.providers)
    else
      var last := steps[|steps| - 1];
      exists before: State ::
        && Sized(before) && Enabled(caps, before, last)
        && Reachable(caps, before, steps[..|steps| - 1])
        && s == Step(caps, before, last)
  }

  // ----- safety -----------------------------------------------------------

  /** Neither limiter is ever over its cap. */
  ghost predicate Safe(caps: Caps, s: State) {
    && Sized(s)
    && |Active(s.phase)| <= caps.global
    && forall p :: p in caps.perProvider ==> |RunningOn(s, p)| <= caps.perProvider[p]
  }

  lemma {:induction false} LaunchedSafe(caps: Caps, providers: seq<Id>)
    ensures Safe(caps, Launched(providers))
  {
    var s := Launched(providers);
    assert Active(s.phase) == {};
    assert forall p :: RunningOn(s, p) == {};
  }

  lemma {:induction false} StepSafe(caps: Caps, s: State, i: nat)
    requires Safe(caps, s) && Enabled(caps, s, i)
    ensures Safe(caps, Step(caps, s, i))
  {
    StepKeepsGlobalCap(caps, s, i);
    forall p | p in caps.perProvider ensures |RunningOn(Step(caps, s, i), p)| <= caps.perProvider[p] {
      StepKeepsProviderCap(caps, s, i, p);
    }
  }

  lemma {:induction false} StepKeepsGlobalCap(caps: Caps, s: State, i: nat)
    requires Sized(s) && |Active(s.phase)| <= caps.global && Enabled(caps, s, i)
    ensures |Active(Step(caps, s, i).phase)| <= caps.global
  {
    var before, after := Active(s.phase), Active(Step(caps, s, i).phase);
    if s.phase[i] == Queued {
      assert after == before + {i};
    } else {
      assert after <= before;
      SubsetSize(after, before);
    }
  }

  lemma {:induction false} StepKeepsProviderCap(caps: Caps, s: State, i: nat, p: Id)
    requires Sized(s) && Enabled(caps, s, i) && p in caps.perProvider && |RunningOn(s, p)| <= caps.perProvider[p]
    ensures |RunningOn(Step(caps, s, i), p)| <= caps.perProvider[p]
  {
    var before, after := RunningOn(s, p), RunningOn(Step(caps, s, i), p);
    if s.phase[i] == Holding && s.providers[i] == p {
      assert after == before + {i};
    } else {
      assert after <= before;
      SubsetSize(after, before);
    }
  }

  /** In every reachable state the caps hold. */
  lemma {:induction false} ReachableSafe(caps: Caps, s: State, steps: seq<nat>)
    requires Reachable(caps, s, steps)
    ensures Safe(caps, s)
    decreases |steps|
  {
    if steps == [] {
      LaunchedSafe(caps, s.providers);
    } else {
      var last := steps[|steps| - 1];
      var before: State :|
        && Sized(before) && Enabled(caps, before, last)
        && Reachable(caps, before, steps[..|steps| - 1])
        && s == Step(caps, before, last);
      ReachableSafe(caps, before, steps[..|steps| - 1]);
      StepSafe(caps, before, last);
    }
  }

  // ----- liveness ---------------------------------------------------------

  function First(phase: seq<Phase>, ph: Phase): (i: nat)
    requires ph in phase
    ensures i < |phase| && phase[i] == ph && forall j :: 0 <= j < i ==> phase[j] != ph
  {
    if phase[0] == ph then 0 else 1 + First(phase[1..], ph)
  }

  /** An unfinished state always has an enabled task: no deadlock. */
  lemma {:induction false} SomeEnabled(caps: Caps, s: State) returns (i: nat)
    requires Safe(caps, s) && !AllDone(s.phase)
    ensures Enabled(caps, s, i)
  {
    if Running in s.phase {
      i := First(s.phase, Running);
    } else if Holding in s.phase {
      i := First(s.phase, Holding);
      assert RunningOn(s, s.providers[i]) == {};
    } else {
      var k :| 0 <= k < |s.phase| && s.phase[k] != Done;
      assert s.phase[k] == Queued;
      i := First(s.phase, Queued);
      assert Active(s.phase) == {};
    }
  }

  /** A held global slot that cannot move on to its provider means that some task is running. */
  lemma {:induction false} BlockedHolderHasRunner(caps: Caps, s: State)
    requires Safe(caps, s) && Holding in s.phase
    requires forall i: nat :: i < |s.phase| && s.phase[i] == Holding ==> !Enabled(caps, s, i)
    ensures Running in s.phase
  {
    var i := First(s.phase, Holding);
  }

  function Weight(ph: Phase): nat {
    match ph
    case Queued => 3
    case Holding => 2
    case Running => 1
    case Done => 0
  }

  /** The work left: it falls on every step. */
  function Remaining(phase: seq<Phase>): nat {
    if phase == [] then 0 else Weight(phase[0]) + Remaining(phase[1..])
  }

  lemma {:induction false} RemainingUpdate(phase: seq<Phase>, i: nat, ph: Phase)
    requires i < |phase|
    ensures Remaining(phase[i := ph]) == Remaining(phase) - Weight(phase[i]) + Weight(ph)
  {
    if i == 0 {
      assert phase[i := ph][1..] == phase[1..];
    } else {
      assert phase[i := ph][1..] == phase[1..][i - 1 := ph];
      RemainingUpdate(phase[1..], i - 1, ph);
    }
  }

  lemma {:induction false} StepDrains(caps: Caps, s: State, i: nat)
    requires Sized(s) && Enabled(caps, s, i)
    ensures Remaining(Step(caps, s, i).phase) < Remaining(s.phase)
  {
    RemainingUpdate(s.phase, i, Next(caps, s, i));
  }

  /** However its steps interleave, a level of `n` tasks is drained within `3 * n` steps. */
  lemma {:induction false} StepsBounded(caps: Caps, s: State, steps: seq<nat>)
    requires Reachable(caps, s, steps)
    ensures |steps| + Remaining(s.phase) <= 3 * |s.phase|
    decreases |steps|
  {
    if steps == [] {
      LaunchedRemaining(s.phase);
    } else {
      var last := steps[|steps| - 1];
      var before: State :|
        && Sized(before) && Enabled(caps, before, last)
        && Reachable(caps, before, steps[..|steps| - 1])
        && s == Step(caps, before, last);
      StepsBounded(caps, before, steps[..|steps| - 1]);
      StepDrains(caps, before, last);
    }
  }

  lemma {:induction false} LaunchedRemaining(phase: seq<Phase>)
    requires forall i :: 0 <= i < |phase| ==> phase[i] == Queued
    ensures Remaining(phase) == 3 * |phase|
  {
    if phase != [] {
      LaunchedRemaining(phase[1..]);
    }
  }

  // ----- order ------------------------------------------------------------

  predicate Started(ph: Phase) {
    ph == Running || ph == Done
  }

  /**
   * Both queues are served in order: who took a global slot came before everyone
   * still waiting for one, and who started before everyone of the same provider
   * still waiting; only tasks of capped providers wait for the second slot.
   */
  ghost predicate InOrder(caps: Caps, s: State) {
    && Sized(s)
    && (forall i: nat, j: nat :: i < j < |s.phase| && s.phase[i] == Queued ==> s.phase[j] == Queued)
    && (forall i: nat, j: nat :: i < j < |s.phase| && s.providers[i] == s.providers[j] && Started(s.phase[j]) ==>
          Started(s.phase[i]))
    && (forall i: nat :: i < |s.phase| && s.phase[i] == Holding ==> s.providers[i] in caps.perProvider)
  }

  lemma {:induction false} StepInOrder(caps: Caps, s: State, i: nat)
    requires InOrder(caps, s) && Enabled(caps, s, i)
    ensures InOrder(caps, Step(caps, s, i))
  {
    var s' := Step(caps, s, i);
    forall j: nat, k: nat | j < k < |s.phase| && s.providers[j] == s.providers[k] && Started(s'.phase[k])
      ensures Started(s'.phase[j])
    {
      if k == i && s.phase[i] == Queued {
        assert s.phase[j] != Queued;
      }
    }
  }

  lemma {:induction false} ReachableInOrder(caps: Caps, s: State, steps: seq<nat>)
    requires Reachable(caps, s, steps)
    ensures InOrder(caps, s)
    decreases |steps|
  {
    if steps != [] {
      var last := steps[|steps| - 1];
      var before: State :|
        && Sized(before) && Enabled(caps, before, last)
        && Reachable(caps, before, steps[..|steps| - 1])
        && s == Step(caps, before, last);
      ReachableInOrder(caps, before, steps[..|steps| - 1]);
      StepInOrder(caps, before, last);
    }
  }

  /**
   * No slot lies idle: while a task waits for a global slot and one is free, the
   * first in the queue may take it, and while one waits for its provider and that
   * has a free slot, the first of those may take it; a running task may always end.
   */
  lemma {:induction false} NoSlotLiesIdle(caps: Caps, s: State, i: nat) returns (next: nat)
    requires Sized(s) && i < |s.phase| && s.phase[i] != Done
    requires s.phase[i] == Queued ==> |Active(s.phase)| < caps.global
    requires s.phase[i] == Holding && s.providers[i] in caps.perProvider ==>
      |RunningOn(s, s.providers[i])| < caps.perProvider[s.providers[i]]
    ensures next <= i && Enabled(caps, s, next) && s.phase[next] == s.phase[i]
    ensures s.phase[i] == Holding ==> s.providers[next] == s.providers[i]
  {
    next := i;
    if s.phase[i] != Running && !Enabled(caps, s, i) {
      var j :| 0 <= j < i && s.phase[j] == s.phase[i] && (s.phase[i] == Holding ==> s.providers[j] == s.providers[i]);
      next := NoSlotLiesIdle(caps, s, j);
    }
  }

  // ----- schedulers -------------------------------------------------------

  /** The first enabled task from `i` on. */
  function FirstEnabled(caps: Caps, s: State, i: nat): (r: nat)
    requires Sized(s) && exists j: nat :: i <= j < |s.phase| && Enabled(caps, s, j)
    ensures Enabled(caps, s, r)
    decreases |s.phase| - i
  {
    if Enabled(caps, s, i) then i else FirstEnabled(caps, s, i + 1)
  }

  /** The task the scheduler moves next: its own choice when that is enabled. */
  function Choose(caps: Caps, s: State, choice: nat): (r: nat)
    requires Safe(caps, s) && !AllDone(s.phase)
    ensures Enabled(caps, s, r)
    ensures Enabled(caps, s, choice) ==> r == choice
  {
    if Enabled(caps, s, choice) then choice
    else
      assert exists j: nat :: 0 <= j < |s.phase| && Enabled(caps, s, j) by {
        var j := SomeEnabled(caps, s);
      }
      FirstEnabled(caps, s, 0)
  }
}
