/** Rolling a node's pod: delete first, create once the old pod is gone. */
module PodRoll {

  import opened Resources
  import opened Endpoints

  const POD_TEMPLATE_VERSION := 2

  /** The annotation a pod must carry: the config hash and the pod template version. */
  function Desired(hash: string): string { hash + "-" + PrintInt(POD_TEMPLATE_VERSION) }

  /** Which with the current version reads as the hash followed by -2. */
  lemma DesiredReads(hash: string)
    ensures Desired(hash) == hash + "-2"
  {
    assert Digits(2) == ['2'];
    assert "-" + PrintInt(2) == "-2";
  }

  lemma DesiredInjective(a: string, b: string)
    requires Desired(a) == Desired(b)
    ensures a == b
  {
    var suffix := "-" + PrintInt(POD_TEMPLATE_VERSION);
    assert Desired(a) == a + suffix && Desired(b) == b + suffix;
    assert |a| == |b|;
    assert Desired(a)[..|a|] == a && Desired(b)[..|b|] == b;
  }

  datatype Pod = Pod(annotation: string, terminating: bool)

  // ---------------------------------------------------------------- one uninterrupted pass

  /** What one pass leaves in the slot, and whether it asks to be requeued. */
  function AfterPass(pod: Option<Pod>, hash: string): Option<Pod> {
    match pod
    case None => Some(Pod(Desired(hash), false))
    case Some(p) => if p.annotation == Desired(hash) then pod else Some(p.(terminating := true))
  }

  predicate Requeues(pod: Option<Pod>, hash: string) { pod.Some? && pod.value.annotation != Desired(hash) }

  /** The API server's one pod of this name; deletion marks it terminating until its termination completes. */
  class PodSlot {
    var pod: Option<Pod>

    constructor (pod: Option<Pod>)
      ensures this.pod == pod
    {
      this.pod := pod;
    }

    method Delete()
      modifies this
      ensures pod == match old(pod) case None => None case Some(p) => Some(p.(terminating := true))
    {
      if pod.Some? {
        pod := Some(pod.value.(terminating := true));
      }
    }

    method Create(p: Pod) returns (ok: bool)
      modifies this
      ensures ok == old(pod).None?
      ensures pod == if ok then Some(p) else old(pod)
    {
      ok := pod.None?;
      if ok {
        pod := Some(p);
      }
    }

    method ReconcilePod(configHash: string) returns (requeue: bool)
      modifies this
      ensures pod == AfterPass(old(pod), configHash)
      ensures requeue == Requeues(old(pod), configHash)
      ensures !requeue ==> pod.Some? && pod.value.annotation == Desired(configHash)
    {
      var desired := Desired(configHash);
      if pod.Some? {
        if pod.value.annotation == desired {
          return false;
        }
        Delete();
        return true;
      }
      var ok := Create(Pod(desired, false));
      return false;
    }
  }

  // ---------------------------------------------------------------- interleaved passes

  /** Where a pass stands. `alive` records whether the pod it relies on was live when it looked. */
  datatype Phase =
    | Idle
    | Wrote(hash: string)                  // ConfigMap written, pod not yet read
    | SawNone(hash: string)                // about to create
    | SawStale(hash: string)               // about to delete
    | Done(hash: string, alive: bool)      // about to update status

  /** `want` is the hash the cluster currently computes to. */
  datatype State = State(pod: Option<Pod>, configMap: string, want: string, phase: Phase)

  datatype Step = HashChange(hash: string) | TerminationDone | Begin | Look | Delete | Create | Finish | Fail

  predicate Enabled(s: State, step: Step) {
    match step
    case HashChange(_) => true
    case TerminationDone => s.pod.Some? && s.pod.value.terminating
    case Begin => s.phase.Idle?
    case Look => s.phase.Wrote?
    case Delete => s.phase.SawStale?
    case Create => s.phase.SawNone?
    case Finish => s.phase.Done?
    case Fail => !s.phase.Idle?
  }

  function Apply(s: State, step: Step): State
    requires Enabled(s, step)
  {
    match step
    case HashChange(h) => s.(want := h)
    case TerminationDone => s.(pod := None)
    case Begin => s.(configMap := s.want, phase := Wrote(s.want))
    case Look =>
      s.(phase := match s.pod
                  case None => SawNone(s.phase.hash)
                  case Some(p) => if p.annotation == Desired(s.phase.hash) then Done(s.phase.hash, !p.terminating) else SawStale(s.phase.hash))
    case Delete =>
      s.(phase := Idle, pod := if s.pod.Some? then Some(s.pod.value.(terminating := true)) else None)
    case Create =>
      if s.pod.None? then s.(phase := Done(s.phase.hash, true), pod := Some(Pod(Desired(s.phase.hash), false))) else s.(phase := Idle)
    case Finish => s.(phase := Idle)
    case Fail => s.(phase := Idle)
  }

  ghost predicate IsRun(s: State, steps: seq<Step>)
    decreases |steps|
  {
    steps == [] || (Enabled(s, steps[0]) && IsRun(Apply(s, steps[0]), steps[1..]))
  }

  ghost function After(s: State, steps: seq<Step>): State
    requires IsRun(s, steps)
    decreases |steps|
  {
    if steps == [] then s else After(Apply(s, steps[0]), steps[1..])
  }

  /** What every step keeps. */
  ghost predicate Inv(s: State) {
    match s.phase
    case Idle => true
    case Wrote(h) => s.configMap == h
    case SawNone(h) => s.configMap == h && s.pod.None?
    case SawStale(h) => s.configMap == h && (s.pod.Some? ==> s.pod.value.annotation != Desired(h))
    case Done(h, alive) =>
      && s.configMap == h
      && (alive ==> s.pod == Some(Pod(Desired(h), false)))
      && (!alive ==> s.pod.None? || s.pod == Some(Pod(Desired(h), true)))
  }

  lemma StepKeepsInv(s: State, step: Step)
    requires Inv(s) && Enabled(s, step)
    ensures Inv(Apply(s, step))
  {}

  lemma {:induction false} RunKeepsInv(s: State, steps: seq<Step>)
    requires Inv(s) && IsRun(s, steps)
    ensures Inv(After(s, steps))
    decreases |steps|
  {
    if steps != [] {
      StepKeepsInv(s, steps[0]);
      RunKeepsInv(Apply(s, steps[0]), steps[1..]);
    }
  }

  /** Over every interleaving, a pass that gets to create finds the slot empty: an old pod and its replacement never coexist. */
  lemma CreatesOnlyWhenNone(s: State, steps: seq<Step>)
    requires s.phase.Idle? && IsRun(s, steps) && Enabled(After(s, steps), Create)
    ensures After(s, steps).pod.None?
    ensures Apply(After(s, steps), Create).pod == Some(Pod(Desired(After(s, steps).configMap), false))
  {
    RunKeepsInv(s, steps);
  }

  /** A pass that updates status leaves a live pod annotated with its ConfigMap's hash exactly when the pod it
      found or created was live; otherwise that pod is terminating or already gone. */
  lemma StatusMatchesPod(s: State, steps: seq<Step>)
    requires s.phase.Idle? && IsRun(s, steps) && Enabled(After(s, steps), Finish)
    ensures var t := After(s, steps);
            && t.configMap == t.phase.hash
            && (t.pod == Some(Pod(Desired(t.configMap), false)) <==> t.phase.alive)
            && (t.pod.Some? ==> t.pod.value.annotation == Desired(t.configMap))
  {
    RunKeepsInv(s, steps);
  }

  /** The exception happens: a hash that changes and changes back meets its own pod still terminating. */
  lemma FlippedHashReportsTerminatingPod(a: string, b: string)
    requires a != b
    ensures var s := State(Some(Pod(Desired(a), false)), a, b, Idle);
            var steps := [Begin, Look, Delete, HashChange(a), Begin, Look, TerminationDone];
            && IsRun(s, steps) && Enabled(After(s, steps), Finish)
            && After(s, steps).pod.None?
  {
    var s0 := State(Some(Pod(Desired(a), false)), a, b, Idle);
    if Desired(a) == Desired(b) { DesiredInjective(a, b); }
    var gone := Some(Pod(Desired(a), true));
    var s1 := s0.(configMap := b, phase := Wrote(b));
    var s3 := State(gone, b, b, Idle);
    var s6 := State(gone, a, a, Done(a, false));
    assert Apply(s0, Begin) == s1 && Apply(s1, Look) == s1.(phase := SawStale(b)) && Apply(s1.(phase := SawStale(b)), Delete) == s3;
    var s4 := s3.(want := a);
    var s5 := State(gone, a, a, Wrote(a));
    assert Apply(s4, Begin) == s5 && Apply(s5, Look) == s6;
    var s7 := Apply(s6, TerminationDone);
    SevenSteps(s0, s1, s1.(phase := SawStale(b)), s3, s4, s5, s6, s7, [Begin, Look, Delete, HashChange(a), Begin, Look, TerminationDone]);
  }

  lemma RunCons(s: State, step: Step, rest: seq<Step>, t: State)
    requires Enabled(s, step) && IsRun(Apply(s, step), rest) && After(Apply(s, step), rest) == t
    ensures IsRun(s, [step] + rest) && After(s, [step] + rest) == t
  {
    assert ([step] + rest)[1..] == rest;
  }

  lemma SevenSteps(s0: State, s1: State, s2: State, s3: State, s4: State, s5: State, s6: State, s7: State, steps: seq<Step>)
    requires |steps| == 7
    requires Enabled(s0, steps[0]) && Apply(s0, steps[0]) == s1 && Enabled(s1, steps[1]) && Apply(s1, steps[1]) == s2
    requires Enabled(s2, steps[2]) && Apply(s2, steps[2]) == s3 && Enabled(s3, steps[3]) && Apply(s3, steps[3]) == s4
    requires Enabled(s4, steps[4]) && Apply(s4, steps[4]) == s5 && Enabled(s5, steps[5]) && Apply(s5, steps[5]) == s6
    requires Enabled(s6, steps[6]) && Apply(s6, steps[6]) == s7
    ensures IsRun(s0, steps) && After(s0, steps) == s7
  {
    assert steps[7..] == [];
    assert steps[6..] == [steps[6]] + steps[7..]; RunCons(s6, steps[6], steps[7..], s7);
    assert steps[5..] == [steps[5]] + steps[6..]; RunCons(s5, steps[5], steps[6..], s7);
    assert steps[4..] == [steps[4]] + steps[5..]; RunCons(s4, steps[4], steps[5..], s7);
    assert steps[3..] == [steps[3]] + steps[4..]; RunCons(s3, steps[3], steps[4..], s7);
    assert steps[2..] == [steps[2]] + steps[3..]; RunCons(s2, steps[2], steps[3..], s7);
    assert steps[1..] == [steps[1]] + steps[2..]; RunCons(s1, steps[1], steps[2..], s7);
    assert steps == [steps[0]] + steps[1..]; RunCons(s0, steps[0], steps[1..], s7);
  }

  // ---------------------------------------------------------------- with a fixed hash

  /** All passes under way or to come are for the hash h. */
  ghost predicate Fixed(s: State, h: string) { Inv(s) && s.want == h && (!s.phase.Idle? ==> s.phase.hash == h) }

  predicate KeepsHash(steps: seq<Step>) { forall i :: 0 <= i < |steps| ==> !steps[i].HashChange? }

  ghost predicate Settled(s: State, h: string) { s.pod == Some(Pod(Desired(h), false)) }

  /** How far the slot is from the matching pod: a stale live pod, a terminating one, none, the matching one. */
  function Distance(pod: Option<Pod>, h: string): nat {
    match pod
    case None => 1
    case Some(p) => if p.terminating then 2 else if p.annotation == Desired(h) then 0 else 3
  }

  predicate DeletesLive(s: State, step: Step) { step.Delete? && s.pod.Some? && !s.pod.value.terminating }

  predicate Moves(s: State, step: Step) { DeletesLive(s, step) || step.TerminationDone? || step.Create? }

  /** Deleting a live pod, completing a termination and creating each move one closer; no other step moves. */
  lemma StepMovesCloser(s: State, step: Step, h: string)
    requires Fixed(s, h) && Enabled(s, step) && !step.HashChange?
    ensures Fixed(Apply(s, step), h)
    ensures Distance(Apply(s, step).pod, h) + (if Moves(s, step) then 1 else 0) == Distance(s.pod, h)
    ensures DeletesLive(s, step) ==> Distance(s.pod, h) == 3
  {
    StepKeepsInv(s, step);
  }

  ghost function LiveDeletions(s: State, steps: seq<Step>): nat
    requires IsRun(s, steps)
    decreases |steps|
  {
    if steps == [] then 0 else (if DeletesLive(s, steps[0]) then 1 else 0) + LiveDeletions(Apply(s, steps[0]), steps[1..])
  }

  /** While the hash stays the same, whatever the interleaving, at most one live pod is deleted, and none that matches. */
  lemma {:induction false} AtMostOneLiveDeletion(s: State, steps: seq<Step>, h: string)
    requires Fixed(s, h) && IsRun(s, steps) && KeepsHash(steps)
    ensures LiveDeletions(s, steps) <= if Distance(s.pod, h) == 3 then 1 else 0
    ensures Fixed(After(s, steps), h) && Distance(After(s, steps).pod, h) <= Distance(s.pod, h)
    decreases |steps|
  {
    if steps != [] {
      StepMovesCloser(s, steps[0], h);
      AtMostOneLiveDeletion(Apply(s, steps[0]), steps[1..], h);
    }
  }

  /** The steps of one pass that meets no failure. */
  ghost function PassSteps(s: State): seq<Step> {
    match s.pod
    case None => [Begin, Look, Create, Finish]
    case Some(p) => if p.annotation == Desired(s.want) then [Begin, Look, Finish] else [Begin, Look, Delete]
  }

  /** An undisturbed pass has the effect of the uninterrupted one. */
  lemma PassIsAtomicPass(s: State)
    requires s.phase.Idle?
    ensures IsRun(s, PassSteps(s)) && After(s, PassSteps(s)) == State(AfterPass(s.pod, s.want), s.want, s.want, Idle)
  {
    var s1 := Apply(s, Begin);
    var s2 := Apply(s1, Look);
    var last := PassSteps(s)[2..];
    if s.pod.None? {
      var s3 := Apply(s2, Create);
      RunCons(s3, Finish, [], Apply(s3, Finish));
      RunCons(s2, Create, [Finish], Apply(s3, Finish));
      assert [Create] + [Finish] == last && [Finish] + [] == [Finish];
    } else {
      RunCons(s2, last[0], [], Apply(s2, last[0]));
      assert [last[0]] + [] == last;
    }
    var t := After(s2, last);
    RunCons(s1, Look, last, t);
    RunCons(s, Begin, [Look] + last, t);
    assert [Begin] + ([Look] + last) == PassSteps(s);
  }

  /** Until the slot is settled there is always a way closer: completing the termination under way, or one undisturbed pass. */
  lemma AlwaysACloserMove(s: State, h: string)
    requires Fixed(s, h) && s.phase.Idle? && !Settled(s, h)
    ensures if s.pod.Some? && s.pod.value.terminating
            then Enabled(s, TerminationDone) && Distance(Apply(s, TerminationDone).pod, h) < Distance(s.pod, h)
            else IsRun(s, PassSteps(s)) && Distance(After(s, PassSteps(s)).pod, h) < Distance(s.pod, h)
  {
    PassIsAtomicPass(s);
  }

  /** The live deletions, completed terminations and creations of a run. */
  ghost function MoveCount(s: State, steps: seq<Step>): nat
    requires IsRun(s, steps)
    decreases |steps|
  {
    if steps == [] then 0 else (if Moves(s, steps[0]) then 1 else 0) + MoveCount(Apply(s, steps[0]), steps[1..])
  }

  /** In every run with a fixed hash the distance left and the moves made add up to the distance at the start, so the
      slot holds the live matching pod exactly when that many moves were made, and keeps it from then on. */
  lemma {:induction false} Converges(s: State, h: string, steps: seq<Step>)
    requires Fixed(s, h) && IsRun(s, steps) && KeepsHash(steps)
    ensures Distance(After(s, steps).pod, h) + MoveCount(s, steps) == Distance(s.pod, h)
    ensures Settled(After(s, steps), h) <==> MoveCount(s, steps) == Distance(s.pod, h)
    ensures Fixed(After(s, steps), h)
    decreases |steps|
  {
    if steps != [] {
      StepMovesCloser(s, steps[0], h);
      Converges(Apply(s, steps[0]), h, steps[1..]);
    }
  }

  ghost predicate CanSettle(s: State, h: string) {
    exists steps :: IsRun(s, steps) && KeepsHash(steps) && Settled(After(s, steps), h)
  }

  lemma {:induction false} RunConcat(s: State, a: seq<Step>, b: seq<Step>)
    requires IsRun(s, a) && IsRun(After(s, a), b)
    ensures IsRun(s, a + b) && After(s, a + b) == After(After(s, a), b)
    decreases |a|
  {
    if a == [] {
      assert a + b == b;
    } else {
      RunConcat(Apply(s, a[0]), a[1..], b);
      assert (a + b)[1..] == a[1..] + b;
    }
  }

  lemma SettlesAfter(s: State, h: string, a: seq<Step>)
    requires IsRun(s, a) && KeepsHash(a) && CanSettle(After(s, a), h)
    ensures CanSettle(s, h)
  {
    var b :| IsRun(After(s, a), b) && KeepsHash(b) && Settled(After(After(s, a), b), h);
    RunConcat(s, a, b);
    assert KeepsHash(a + b);
  }

  /** From every reachable state with a fixed hash, some continuation settles the slot. */
  lemma {:induction false} SettlingIsAlwaysPossible(s: State, h: string)
    requires Fixed(s, h)
    ensures CanSettle(s, h)
    decreases Distance(s.pod, h), !s.phase.Idle?
  {
    if Settled(s, h) {
      assert IsRun(s, []) && KeepsHash([]) && After(s, []) == s;
    } else if !s.phase.Idle? {
      OneStepSettles(s, Fail, h);
    } else {
      AlwaysACloserMove(s, h);
      if s.pod.Some? && s.pod.value.terminating {
        OneStepSettles(s, TerminationDone, h);
      } else {
        PassIsAtomicPass(s);
        Converges(s, h, PassSteps(s));
        SettlingIsAlwaysPossible(After(s, PassSteps(s)), h);
        SettlesAfter(s, h, PassSteps(s));
      }
    }
  }

  lemma OneStepSettles(s: State, step: Step, h: string)
    requires Fixed(s, h) && Enabled(s, step) && (step.TerminationDone? || (step.Fail? && !s.phase.Idle?))
    ensures CanSettle(s, h)
    decreases Distance(s.pod, h), !s.phase.Idle?, 0
  {
    StepMovesCloser(s, step, h);
    SettlingIsAlwaysPossible(Apply(s, step), h);
    RunCons(s, step, [], Apply(s, step));
    assert [step] + [] == [step];
    SettlesAfter(s, h, [step]);
  }

  // ---------------------------------------------------------------- when status can be wrong

  /** Some pass of some fixed-hash run reaches updateStatus without the live matching pod. */
  ghost predicate MayMisreport(s: State) {
    exists steps :: IsRun(s, steps) && KeepsHash(steps) && Enabled(After(s, steps), Finish)
                    && After(s, steps).pod != Some(Pod(Desired(After(s, steps).configMap), false))
  }

  ghost predicate Honest(s: State, h: string) {
    Fixed(s, h) && s.pod != Some(Pod(Desired(h), true)) && (s.phase.Done? ==> s.phase.alive)
  }

  lemma {:induction false} RunKeepsHonest(s: State, h: string, steps: seq<Step>)
    requires Honest(s, h) && IsRun(s, steps) && KeepsHash(steps)
    ensures Honest(After(s, steps), h)
    decreases |steps|
  {
    if steps != [] {
      StepMovesCloser(s, steps[0], h);
      RunKeepsHonest(Apply(s, steps[0]), h, steps[1..]);
    }
  }

  /** While the hash stays the same, status can be wrong exactly when the slot started with the matching pod already
      terminating: only a hash that left and came back meets such a pod. */
  lemma MisreportsOnlyReturningHash(s: State, h: string)
    requires Fixed(s, h) && s.phase.Idle?
    ensures MayMisreport(s) <==> s.pod == Some(Pod(Desired(h), true))
  {
    if s.pod == Some(Pod(Desired(h), true)) {
      var s1 := Apply(s, Begin);
      var s2 := Apply(s1, Look);
      RunCons(s1, Look, [], s2);
      RunCons(s, Begin, [Look], s2);
      assert [Look] + [] == [Look] && [Begin] + [Look] == [Begin, Look];
      assert KeepsHash([Begin, Look]);
    } else if MayMisreport(s) {
      var steps :| IsRun(s, steps) && KeepsHash(steps) && Enabled(After(s, steps), Finish)
                   && After(s, steps).pod != Some(Pod(Desired(After(s, steps).configMap), false));
      RunKeepsHonest(s, h, steps);
    }
  }
}
