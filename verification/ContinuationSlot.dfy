/** The single-flight continuation slot (backends.py): one worker at a time, and a wakeup for
    everyone who was told to retry, whatever the interleaving of finishing and registering. */
module ContinuationSlot {
  import opened Wrappers

  type Event = nat
  type WorkerId = nat

  datatype Phase = Idle | Busy(generation: nat) | HandingOff(left: set<Event>)

  /** The slot under its gate, the workers, and the events: which are set, and who still waits
      on one and for which generation. */
  datatype Slot = Slot(active: bool, generation: nat, waiters: set<Event>,
                       workers: map<WorkerId, Phase>, signalled: set<Event>, watching: map<Event, nat>)

  function NewSlot(): Slot {
    Slot(false, 0, {}, map[], {}, map[])
  }

  datatype Step =
    | Attempt(worker: WorkerId)
    | Finish(worker: WorkerId)                 // under the gate: free the slot, take the waiters
    | Signal(worker: WorkerId, event: Event)   // outside it: set one of them
    | Leave(worker: WorkerId)                  // all of them are set
    | Clear(event: Event)                      // a waiter rearms its event before it registers
    | Register(event: Event, generation: nat)
    | Cancel(event: Event)

  function PhaseOf(s: Slot, w: WorkerId): Phase {
    if w in s.workers then s.workers[w] else Idle
  }

  // The sections under the gate.

  function Acquired(s: Slot, w: WorkerId): Slot {
    s.(active := true, workers := s.workers[w := Busy(s.generation)])
  }

  function Freed(s: Slot, w: WorkerId): Slot {
    s.(active := false, generation := s.generation + 1, waiters := {}, workers := s.workers[w := HandingOff(s.waiters)])
  }

  function Registered(s: Slot, e: Event, generation: nat): Slot {
    var watched := s.(watching := s.watching[e := generation]);
    if !s.active || generation != s.generation then watched.(signalled := s.signalled + {e})
    else watched.(waiters := s.waiters + {e})
  }

  function Apply(s: Slot, step: Step): Slot {
    match step
    case Attempt(w) => if PhaseOf(s, w) == Idle && !s.active then Acquired(s, w) else s
    case Finish(w) => if PhaseOf(s, w).Busy? then Freed(s, w) else s
    case Signal(w, e) =>
      if PhaseOf(s, w).HandingOff? && e in PhaseOf(s, w).left
      then s.(signalled := s.signalled + {e}, workers := s.workers[w := HandingOff(PhaseOf(s, w).left - {e})]) else s
    case Leave(w) => if PhaseOf(s, w) == HandingOff({}) then s.(workers := s.workers[w := Idle]) else s
    case Clear(e) => if e in s.watching then s else s.(signalled := s.signalled - {e})
    case Register(e, generation) => if e in s.watching then s else Registered(s, e, generation)
    case Cancel(e) => s.(waiters := s.waiters - {e}, watching := s.watching - {e})
  }

  function Run(steps: seq<Step>): Slot {
    if steps == [] then NewSlot() else Apply(Run(steps[..|steps| - 1]), steps[|steps| - 1])
  }

  // ---------------------------------------------------------------------------------
  // What every interleaving keeps.

  /** The slot is active exactly while one worker is busy, in the current generation. */
  ghost predicate OneWorker(s: Slot) {
    && (forall w :: PhaseOf(s, w).Busy? ==> s.active && PhaseOf(s, w).generation == s.generation)
    && (forall v, w :: PhaseOf(s, v).Busy? && PhaseOf(s, w).Busy? ==> v == w)
    && (s.active ==> exists w :: PhaseOf(s, w).Busy?)
    && (s.waiters != {} ==> s.active)
  }

  ghost predicate Handed(s: Slot, e: Event) {
    exists w :: PhaseOf(s, w).HandingOff? && e in PhaseOf(s, w).left
  }

  /** A waiter for g is signalled, about to be, or waits while g still has the slot. */
  ghost predicate Safe(s: Slot, e: Event, g: nat) {
    e in s.signalled || Handed(s, e) || (e in s.waiters && s.active && s.generation == g)
  }

  ghost predicate Inv(s: Slot) {
    OneWorker(s) && forall e :: e in s.watching ==> Safe(s, e, s.watching[e])
  }

  lemma AttemptKeeps(s: Slot, w: WorkerId)
    requires Inv(s) && PhaseOf(s, w) == Idle && !s.active
    ensures Inv(Acquired(s, w))
  {
    var s' := Acquired(s, w);
    assert PhaseOf(s', w) == Busy(s.generation);
    forall v | v != w ensures PhaseOf(s', v) == PhaseOf(s, v) && !PhaseOf(s', v).Busy? {}
    forall e | e in s'.watching ensures Safe(s', e, s'.watching[e]) {
      if e !in s.signalled {
        var v :| PhaseOf(s, v).HandingOff? && e in PhaseOf(s, v).left;
        assert PhaseOf(s', v) == PhaseOf(s, v);
      }
    }
  }

  lemma FinishKeeps(s: Slot, w: WorkerId)
    requires Inv(s) && PhaseOf(s, w).Busy?
    ensures Inv(Freed(s, w))
  {
    var s' := Freed(s, w);
    assert PhaseOf(s', w) == HandingOff(s.waiters);
    forall v | v != w ensures PhaseOf(s', v) == PhaseOf(s, v) {}
    forall e | e in s'.watching ensures Safe(s', e, s'.watching[e]) {
      if e !in s.signalled && Handed(s, e) {
        var v :| PhaseOf(s, v).HandingOff? && e in PhaseOf(s, v).left;
        assert PhaseOf(s', v) == PhaseOf(s, v);
      }
    }
  }

  lemma SignalKeeps(s: Slot, w: WorkerId, e: Event)
    requires Inv(s) && PhaseOf(s, w).HandingOff? && e in PhaseOf(s, w).left
    ensures Inv(Apply(s, Signal(w, e)))
  {
    var s' := Apply(s, Signal(w, e));
    forall v | v != w ensures PhaseOf(s', v) == PhaseOf(s, v) {}
    if s.active {
      var b :| PhaseOf(s, b).Busy?;
      assert PhaseOf(s', b).Busy?;
    }
    forall x | x in s'.watching ensures Safe(s', x, s'.watching[x]) {
      if x !in s'.signalled && Handed(s, x) {
        var v :| PhaseOf(s, v).HandingOff? && x in PhaseOf(s, v).left;
        assert PhaseOf(s', v).HandingOff? && x in PhaseOf(s', v).left;
      }
    }
  }

  lemma LeaveKeeps(s: Slot, w: WorkerId)
    requires Inv(s) && PhaseOf(s, w) == HandingOff({})
    ensures Inv(Apply(s, Leave(w)))
  {
    var s' := Apply(s, Leave(w));
    forall v | v != w ensures PhaseOf(s', v) == PhaseOf(s, v) {}
    if s.active {
      var b :| PhaseOf(s, b).Busy?;
      assert PhaseOf(s', b).Busy?;
    }
    forall x | x in s'.watching ensures Safe(s', x, s'.watching[x]) {
      if x !in s.signalled && Handed(s, x) {
        var v :| PhaseOf(s, v).HandingOff? && x in PhaseOf(s, v).left;
        assert PhaseOf(s', v) == PhaseOf(s, v);
      }
    }
  }

  /** Steps that leave the workers alone. */
  lemma WaiterKeeps(s: Slot, step: Step)
    requires Inv(s) && (step.Clear? || step.Register? || step.Cancel?)
    ensures Inv(Apply(s, step))
  {
    var s' := Apply(s, step);
    assert forall w :: PhaseOf(s', w) == PhaseOf(s, w);
    if s.active {
      var b :| PhaseOf(s, b).Busy?;
      assert PhaseOf(s', b).Busy?;
    }
    forall x | x in s'.watching ensures Safe(s', x, s'.watching[x]) {
      if x in s.watching && x !in s'.signalled && Handed(s, x) {
        var v :| PhaseOf(s, v).HandingOff? && x in PhaseOf(s, v).left;
        assert PhaseOf(s', v).HandingOff? && x in PhaseOf(s', v).left;
      }
    }
  }

  lemma {:induction false} RunInv(steps: seq<Step>)
    ensures Inv(Run(steps))
  {
    hide Inv, Apply;
    if steps == [] {
      NewSlotInv();
    } else {
      var front, step := steps[..|steps| - 1], steps[|steps| - 1];
      RunInv(front);
      StepKeeps(Run(front), step);
    }
  }

  lemma NewSlotInv()
    ensures Inv(NewSlot())
  {}

  lemma StepKeeps(s: Slot, step: Step)
    requires Inv(s)
    ensures Inv(Apply(s, step))
  {
    hide Inv;
    if Apply(s, step) != s {
      match step
      case Attempt(w) => AttemptKeeps(s, w);
      case Finish(w) => FinishKeeps(s, w);
      case Signal(w, e) => SignalKeeps(s, w, e);
      case Leave(w) => LeaveKeeps(s, w);
      case _ => WaiterKeeps(s, step);
    }
  }

  /** At most one worker occupies the slot in every interleaving. */
  lemma SingleFlight(steps: seq<Step>, v: WorkerId, w: WorkerId)
    requires PhaseOf(Run(steps), v).Busy? && PhaseOf(Run(steps), w).Busy?
    ensures v == w && Run(steps).active && PhaseOf(Run(steps), w).generation == Run(steps).generation
  {
    RunInv(steps);
  }

  /** No wakeup is lost: a waiter that has not cancelled is signalled, is in a finisher's hands,
      or waits while its generation still has the slot. */
  lemma NoLostWakeup(steps: seq<Step>, e: Event)
    requires e in Run(steps).watching
    ensures Safe(Run(steps), e, Run(steps).watching[e])
  {
    RunInv(steps);
  }

  /** Once every worker has left, every waiter has been signalled. */
  lemma QuietMeansSignalled(steps: seq<Step>, e: Event)
    requires e in Run(steps).watching && forall w :: PhaseOf(Run(steps), w) == Idle
    ensures e in Run(steps).signalled
  {
    RunInv(steps);
  }

  /** A retry told the generation it met and registering for it later is woken by the end of
      exactly that occupation, or at once when it is already over. */
  lemma LateRegistration(steps: seq<Step>, more: seq<Step>, e: Event)
    requires e !in Run(steps + more).watching
    requires !Run(steps + more).active || Run(steps + more).generation != Run(steps).generation
    ensures e in Run(steps + more + [Register(e, Run(steps).generation)]).signalled
  {
    var all := steps + more;
    assert (all + [Register(e, Run(steps).generation)])[..|all|] == all;
  }

  // ---------------------------------------------------------------------------------
  // Who gets the slot.

  /** The step may be taken: idle workers attempt, busy ones finish, and so on. */
  predicate Enabled(s: Slot, step: Step) {
    match step
    case Attempt(w) => PhaseOf(s, w) == Idle
    case Finish(w) => PhaseOf(s, w).Busy?
    case Signal(w, e) => PhaseOf(s, w).HandingOff? && e in PhaseOf(s, w).left
    case Leave(w) => PhaseOf(s, w) == HandingOff({})
    case Clear(e) => e !in s.watching
    case Register(e, _) => e !in s.watching
    case Cancel(_) => true
  }

  ghost predicate AllEnabled(steps: seq<Step>) {
    forall i :: 0 <= i < |steps| ==> Enabled(Run(steps[..i]), steps[i])
  }

  /** A finish stands between the i-th step and the n-th. */
  ghost predicate FinishedSince(steps: seq<Step>, i: nat, n: nat)
    requires n <= |steps|
  {
    exists k :: i < k < n && steps[k].Finish?
  }

  /** Some earlier attempt got the slot, and has not finished since. */
  ghost predicate Taken(steps: seq<Step>, got: seq<bool>, n: nat)
    requires n <= |steps| && n <= |got|
  {
    exists i :: 0 <= i < n && got[i] && !FinishedSince(steps, i, n)
  }

  /** Which attempts get the slot: those with nobody in it. */
  ghost predicate AnswersRight(steps: seq<Step>, got: seq<bool>, n: nat)
    requires n <= |steps| && n <= |got|
  {
    forall i :: 0 <= i < n ==> (got[i] <==> steps[i].Attempt? && !Taken(steps, got, i))
  }

  /** How many occupations have ended. */
  function Ended(steps: seq<Step>): nat {
    if steps == [] then 0 else Ended(steps[..|steps| - 1]) + if steps[|steps| - 1].Finish? then 1 else 0
  }

  lemma {:induction false} GenerationsCount(steps: seq<Step>)
    requires AllEnabled(steps)
    ensures Run(steps).generation == Ended(steps)
  {
    if steps != [] {
      hide Apply, Enabled;
      var n := |steps| - 1;
      FrontEnabled(steps, n);
      GenerationsCount(steps[..n]);
      OnlyFinishCounts(Run(steps[..n]), steps[n]);
    }
  }

  lemma OnlyFinishCounts(s: Slot, step: Step)
    requires Enabled(s, step)
    ensures Apply(s, step).generation == s.generation + if step.Finish? then 1 else 0
  {}

  lemma FrontEnabled(steps: seq<Step>, n: nat)
    requires AllEnabled(steps) && n <= |steps|
    ensures AllEnabled(steps[..n])
  {
    forall i | 0 <= i < n ensures Enabled(Run(steps[..n][..i]), steps[..n][i]) {
      assert steps[..n][..i] == steps[..i];
    }
  }

  /** One more step: the slot stays taken but for a finish, and an attempt takes it where it is free. */
  lemma TakenMoves(steps: seq<Step>, got: seq<bool>, n: nat)
    requires n < |steps| && n < |got|
    ensures Taken(steps, got, n + 1) <==> (got[n] || (Taken(steps, got, n) && !steps[n].Finish?))
  {
    if Taken(steps, got, n + 1) && !got[n] {
      var i :| 0 <= i < n + 1 && got[i] && !FinishedSince(steps, i, n + 1);
      assert i < n && !FinishedSince(steps, i, n);
    }
    if got[n] { assert !FinishedSince(steps, n, n + 1); }
    if Taken(steps, got, n) && !steps[n].Finish? {
      var i :| 0 <= i < n && got[i] && !FinishedSince(steps, i, n);
      assert !FinishedSince(steps, i, n + 1);
    }
  }

  /** Two attempts that got the slot have a finish between them. */
  lemma FinishBetween(steps: seq<Step>, got: seq<bool>, i: nat, j: nat)
    requires |got| == |steps| && AnswersRight(steps, got, |steps|) && i < j < |steps| && got[i] && got[j]
    ensures FinishedSince(steps, i, j)
  {}

  /** An attempt gets the slot exactly when no worker is busy, and then it is busy in the current
      generation; else nothing changes. */
  lemma AttemptExactly(s: Slot, w: WorkerId)
    requires Inv(s) && PhaseOf(s, w) == Idle
    ensures var s' := Apply(s, Attempt(w));
            && ((forall v :: !PhaseOf(s, v).Busy?) ==> PhaseOf(s', w) == Busy(s.generation) && s'.active)
            && ((exists v :: PhaseOf(s, v).Busy?) ==> s' == s)
            && forall v :: v != w ==> PhaseOf(s', v) == PhaseOf(s, v)
  {}

  // ---------------------------------------------------------------------------------
  // The object whose fields the gate protects.

  class FullLogitsSnapshotBackend {
    var continuationActive: bool
    var continuationGeneration: nat
    var idleWaiters: set<Event>
    ghost var rest: Slot   // the workers and events outside the gate

    constructor ()
      ensures State() == NewSlot()
    {
      continuationActive, continuationGeneration, idleWaiters, rest := false, 0, {}, NewSlot();
    }

    ghost function State(): Slot
      reads this
    {
      rest.(active := continuationActive, generation := continuationGeneration, waiters := idleWaiters)
    }

    /** Take the slot, or learn the generation that has it. */
    method AcquireSlot(ghost w: WorkerId) returns (acquired: bool, generation: nat)
      requires PhaseOf(State(), w) == Idle
      modifies this
      ensures State() == Apply(old(State()), Attempt(w))
      ensures acquired <==> !old(continuationActive)
      ensures acquired ==> PhaseOf(State(), w) == Busy(generation) && continuationActive
      ensures !acquired ==> State() == old(State())
      ensures old(Inv(State())) ==> (acquired <==> forall v :: !PhaseOf(old(State()), v).Busy?)
      ensures generation == old(continuationGeneration) == continuationGeneration
    {
      generation := continuationGeneration;
      if continuationActive { return false, generation; }
      continuationActive := true;
      rest := Acquired(State(), w);
      acquired := true;
    }

    /** The locked part of finishing: the waiters are handed to the finisher. */
    method FinishContinuationSlot(ghost w: WorkerId) returns (waiters: set<Event>)
      requires PhaseOf(State(), w).Busy?
      modifies this
      ensures State() == Apply(old(State()), Finish(w)) && waiters == old(idleWaiters)
      ensures !continuationActive && continuationGeneration == old(continuationGeneration) + 1 && idleWaiters == {}
      ensures PhaseOf(State(), w) == HandingOff(waiters)
    {
      ghost var before := State();
      continuationActive := false;
      continuationGeneration := continuationGeneration + 1;
      waiters := idleWaiters;
      idleWaiters := {};
      rest := Freed(before, w);
    }

    /** True: the event is set at once, because that occupation is over. */
    method RegisterContinuationIdleWait(generation: nat, e: Event) returns (signalled: bool)
      requires e !in State().watching
      modifies this
      ensures State() == Apply(old(State()), Register(e, generation))
      ensures signalled <==> !old(continuationActive) || generation != old(continuationGeneration)
      ensures if signalled then e in State().signalled && idleWaiters == old(idleWaiters)
              else idleWaiters == old(idleWaiters) + {e} && State().signalled == old(State().signalled)
      ensures State().watching == old(State().watching)[e := generation]
    {
      ghost var before := State();
      if !continuationActive || generation != continuationGeneration {
        rest := Registered(before, e, generation);
        return true;
      }
      idleWaiters := idleWaiters + {e};
      rest := Registered(before, e, generation);
      signalled := false;
    }

    method CancelContinuationIdleWait(e: Event)
      modifies this
      ensures State() == Apply(old(State()), Cancel(e)) && e !in idleWaiters && e !in State().watching
    {
      ghost var before := State();
      idleWaiters := idleWaiters - {e};
      rest := Apply(before, Cancel(e));
    }

    /** What a finisher does outside the gate, and what waiters do with their own events. */
    method Outside(ghost step: Step)
      requires step.Signal? || step.Leave? || step.Clear?
      modifies this`rest
      ensures State() == Apply(old(State()), step)
    {
      rest := Apply(State(), step);
    }

    /** One call after another, in any interleaving: an attempt is let in exactly when no earlier one is
        still in, and whoever is refused learns how many occupations ended before the one it met. */
    method Serve(steps: seq<Step>) returns (got: seq<bool>, generations: seq<nat>)
      requires State() == NewSlot() && AllEnabled(steps)
      modifies this
      ensures State() == Run(steps) && |got| == |generations| == |steps| && AnswersRight(steps, got, |steps|)
      ensures forall i :: 0 <= i < |steps| && steps[i].Attempt? ==> generations[i] == Ended(steps[..i])
    {
      hide Apply, Taken, AnswersRight, Enabled, AllEnabled, Ended, Inv, Run, PhaseOf;
      got, generations := [], [];
      NothingYet(steps);
      for n := 0 to |steps|
        invariant State() == Run(steps[..n]) && |got| == |generations| == n && AnswersRight(steps, got, n)
        invariant continuationActive <==> Taken(steps, got, n)
        invariant forall i :: 0 <= i < n && steps[i].Attempt? ==> generations[i] == Ended(steps[..i])
      {
        NextStep(steps, n);
        ghost var before := got;
        var answer, met := Call(steps[n]);
        got, generations := got + [answer], generations + [met];
        SameAnswers(steps, before, got, n);
        TakenMoves(steps, got, n);
        OneMoreAnswer(steps, got, n);
      }
      assert steps[..|steps|] == steps;
    }

    lemma NothingYet(steps: seq<Step>)
      ensures Run(steps[..0]) == NewSlot() && !Taken(steps, [], 0) && AnswersRight(steps, [], 0)
    {}

    lemma NextStep(steps: seq<Step>, n: nat)
      requires AllEnabled(steps) && n < |steps|
      ensures Enabled(Run(steps[..n]), steps[n]) && Run(steps[..n + 1]) == Apply(Run(steps[..n]), steps[n])
      ensures Run(steps[..n]).generation == Ended(steps[..n])
    {
      hide Apply;
      assert steps[..n + 1][..n] == steps[..n];
      FrontEnabled(steps, n);
      GenerationsCount(steps[..n]);
    }

    /** One call, with what an attempt is answered. */
    method Call(step: Step) returns (answer: bool, met: nat)
      requires Enabled(State(), step)
      modifies this
      ensures State() == Apply(old(State()), step)
      ensures answer <==> step.Attempt? && !old(continuationActive)
      ensures step.Attempt? ==> met == old(continuationGeneration)
      ensures continuationActive <==> answer || (old(continuationActive) && !step.Finish?)
    {
      answer, met := false, 0;
      match step {
        case Attempt(w) => answer, met := AcquireSlot(w);
        case Finish(w) => var waiters := FinishContinuationSlot(w);
        case Register(e, generation) => var signalled := RegisterContinuationIdleWait(generation, e);
        case Cancel(e) => CancelContinuationIdleWait(e);
        case _ => Outside(step);
      }
    }

    lemma OneMoreAnswer(steps: seq<Step>, got: seq<bool>, n: nat)
      requires n < |steps| && n < |got| && AnswersRight(steps, got, n) && (got[n] <==> steps[n].Attempt? && !Taken(steps, got, n))
      ensures AnswersRight(steps, got, n + 1)
    {
      hide Taken;
    }

    lemma SameAnswers(steps: seq<Step>, before: seq<bool>, got: seq<bool>, n: nat)
      requires n == |before| <= |steps| && before <= got
      ensures AnswersRight(steps, before, n) ==> AnswersRight(steps, got, n)
      ensures Taken(steps, before, n) <==> Taken(steps, got, n)
    {
      forall m | 0 <= m <= n ensures Taken(steps, before, m) <==> Taken(steps, got, m) {}
    }

    method ContinuationBusyGeneration() returns (generation: Option<nat>)
      ensures generation == if continuationActive then Some(continuationGeneration) else None
    {
      generation := if continuationActive then Some(continuationGeneration) else None;
    }
  }
}
