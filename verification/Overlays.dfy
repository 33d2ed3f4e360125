/**
 Self-improvement: after a terminal outcome the engine may lay a policy overlay over future advances, or roll the
 active one back. Which overlay is active is recomputed by two passes over the tuning records.
 */
module Overlays {
  import opened Options
  import opened Policies
  import opened Ledger

  /******* Applying an overlay *******/

  function Patched(p: Option<nat>, current: nat): nat {
    match p
    case None => current
    case Some(v) => if v == 0 then 1 else v
  }

  function ApplyTo(o: Overlay, p: EnginePolicy): EnginePolicy {
    if o.status != OverlayStatus.Applied then p
    else p.(maxSteps := Patched(o.patch.maxSteps, p.maxSteps),
            maxExecutionMs := Patched(o.patch.maxExecutionMs, p.maxExecutionMs),
            providerTimeoutMs := Patched(o.patch.providerTimeoutMs, p.providerTimeoutMs),
            maxToolTimeoutMs := Patched(o.patch.maxToolTimeoutMs, p.maxToolTimeoutMs),
            maxParallel := Patched(o.patch.maxParallel, p.maxParallel))
  }

  /** A limit without a patch stays; a patched one becomes the patch, but never less than 1. */
  predicate Follows(after: nat, patch: Option<nat>, before: nat) {
    match patch
    case None => after == before
    case Some(v) => after >= 1 && after >= v && (after == v || after == 1)
  }

  /** An applied overlay patches its limits, keeping them positive, and touches nothing else; any other does nothing. */
  ghost predicate LimitsPatched(o: Overlay, p: EnginePolicy, q: EnginePolicy) {
    if o.status != OverlayStatus.Applied then q == p
    else
      && Follows(q.maxSteps, o.patch.maxSteps, p.maxSteps)
      && Follows(q.maxExecutionMs, o.patch.maxExecutionMs, p.maxExecutionMs)
      && Follows(q.providerTimeoutMs, o.patch.providerTimeoutMs, p.providerTimeoutMs)
      && Follows(q.maxToolTimeoutMs, o.patch.maxToolTimeoutMs, p.maxToolTimeoutMs)
      && Follows(q.maxParallel, o.patch.maxParallel, p.maxParallel)
      && q.maxFailures == p.maxFailures && q.maxReady == p.maxReady
      && q.validateArgs == p.validateArgs && q.selfImprovement == p.selfImprovement
  }

  lemma AppliedLimits(o: Overlay, p: EnginePolicy)
    ensures LimitsPatched(o, p, ApplyTo(o, p))
  {
  }

  /** Applying an overlay limit by limit, as the engine does on its own copy of the policy. */
  method PatchPolicy(o: Overlay, p: EnginePolicy) returns (policy: EnginePolicy)
    ensures LimitsPatched(o, p, policy)
    ensures policy == ApplyTo(o, p)
  {
    hide LimitsPatched;
    AppliedLimits(o, p);
    policy := p;
    if o.status != OverlayStatus.Applied { return; }
    var patch := o.patch;
    if patch.maxSteps.Some? { policy := policy.(maxSteps := AtLeast(patch.maxSteps.value, 1)); }
    if patch.maxExecutionMs.Some? { policy := policy.(maxExecutionMs := AtLeast(patch.maxExecutionMs.value, 1)); }
    if patch.providerTimeoutMs.Some? {
      policy := policy.(providerTimeoutMs := AtLeast(patch.providerTimeoutMs.value, 1));
    }
    if patch.maxToolTimeoutMs.Some? {
      policy := policy.(maxToolTimeoutMs := AtLeast(patch.maxToolTimeoutMs.value, 1));
    }
    if patch.maxParallel.Some? { policy := policy.(maxParallel := AtLeast(patch.maxParallel.value, 1)); }
  }

  function WithOverlay(p: EnginePolicy, o: Option<Overlay>): EnginePolicy {
    if o.Some? then ApplyTo(o.value, p) else p
  }

  /******* The active overlay *******/

  function RolledBackIds(ts: seq<Tuning>): set<string> {
    set t | t in ts && t.action.TuningRolledBack? :: t.overlay.id
  }

  predicate Live(t: Tuning, rolledBack: set<string>) {
    t.action.TuningApplied? && t.overlay.status == OverlayStatus.Applied && t.overlay.id !in rolledBack
  }

  /** The latest applied overlay that is not among the rolled-back ones. */
  function LatestLive(ts: seq<Tuning>, rolledBack: set<string>): Option<Overlay> {
    if ts == [] then None
    else if Live(ts[|ts| - 1], rolledBack) then Some(ts[|ts| - 1].overlay)
    else LatestLive(ts[..|ts| - 1], rolledBack)
  }

  function ActiveOverlay(ts: seq<Tuning>): Option<Overlay> {
    LatestLive(ts, RolledBackIds(ts))
  }

  /******* What self-improvement may append *******/

  predicate FreshId(ts: seq<Tuning>, id: string) {
    forall t :: t in ts ==> t.overlay.id != id
  }

  ghost predicate TuningRule(P: seq<Tuning>, t: Tuning) {
    match t.action
    case TuningRolledBack =>
      ActiveOverlay(P).Some? && t.overlay == ActiveOverlay(P).value.(status := OverlayStatus.RolledBack)
    case TuningApplied => FreshId(P, t.overlay.id) && t.overlay.status == OverlayStatus.Applied
    case TuningProposed => FreshId(P, t.overlay.id)
    case TuningRejectedUnsafe => FreshId(P, t.overlay.id)
  }

  ghost predicate LawfulTunings(ts: seq<Tuning>) {
    ts != [] ==> LawfulTunings(ts[..|ts| - 1]) && TuningRule(ts[..|ts| - 1], ts[|ts| - 1])
  }

  /******* The reference: a stack *******/

  /** Applying pushes, rolling back pops. */
  function Stack(ts: seq<Tuning>): seq<Overlay> {
    if ts == [] then []
    else
      var below, t := Stack(ts[..|ts| - 1]), ts[|ts| - 1];
      if t.action.TuningApplied? then below + [t.overlay]
      else if t.action.TuningRolledBack? && below != [] then below[..|below| - 1]
      else below
  }

  function Top(s: seq<Overlay>): Option<Overlay> {
    if s == [] then None else Some(s[|s| - 1])
  }

  /** The live overlays in the order they were applied. */
  function LiveOverlays(ts: seq<Tuning>, rolledBack: set<string>): (live: seq<Overlay>)
    ensures Top(live) == LatestLive(ts, rolledBack)
  {
    if ts == [] then []
    else
      LiveOverlays(ts[..|ts| - 1], rolledBack)
      + if Live(ts[|ts| - 1], rolledBack) then [ts[|ts| - 1].overlay] else []
  }

  ghost predicate DistinctOverlays(s: seq<Overlay>) {
    forall i, j :: 0 <= i < j < |s| ==> s[i].id != s[j].id
  }

  /** The stack holds distinct overlays, each from a tuning of the run. */
  lemma {:induction false} StackIds(ts: seq<Tuning>)
    requires LawfulTunings(ts)
    ensures DistinctOverlays(Stack(ts))
    ensures forall o :: o in Stack(ts) ==> !FreshId(ts, o.id) && o.status == OverlayStatus.Applied
  {
    if ts != [] {
      var P, t := ts[..|ts| - 1], ts[|ts| - 1];
      StackIds(P);
      forall o | o in Stack(P) ensures !FreshId(ts, o.id) {
        var t' :| t' in P && t'.overlay.id == o.id;
        assert t' in ts;
      }
      assert t in ts;
    }
  }

  function Without(s: seq<Overlay>, id: string): seq<Overlay> {
    if s == [] then []
    else Without(s[..|s| - 1], id) + if s[|s| - 1].id == id then [] else [s[|s| - 1]]
  }

  lemma {:induction false} RollBackRemoves(ts: seq<Tuning>, rolledBack: set<string>, id: string)
    ensures LiveOverlays(ts, rolledBack + {id}) == Without(LiveOverlays(ts, rolledBack), id)
  {
    if ts != [] {
      RollBackRemoves(ts[..|ts| - 1], rolledBack, id);
      var before, t := LiveOverlays(ts[..|ts| - 1], rolledBack), ts[|ts| - 1];
      if Live(t, rolledBack) {
        assert (before + [t.overlay])[..|before|] == before;
      } else {
        assert LiveOverlays(ts, rolledBack) == before;
      }
    }
  }

  lemma {:induction false} WithoutAbsent(s: seq<Overlay>, id: string)
    requires forall i :: 0 <= i < |s| ==> s[i].id != id
    ensures Without(s, id) == s
  {
    if s != [] {
      var init, last := s[..|s| - 1], s[|s| - 1];
      WithoutAbsent(init, id);
      assert init + [last] == s;
    }
  }

  lemma MoreRolledBack(P: seq<Tuning>, t: Tuning)
    ensures RolledBackIds(P + [t])
         == if t.action.TuningRolledBack? then RolledBackIds(P) + {t.overlay.id} else RolledBackIds(P)
  {
    assert forall x :: x in P + [t] <==> x in P || x == t;
  }

  lemma FreshNotRolledBack(P: seq<Tuning>, id: string)
    requires FreshId(P, id)
    ensures id !in RolledBackIds(P)
  {
  }

  /** The stack is the sequence of live overlays: the two passes forget exactly what was popped. */
  lemma {:induction false} StackIsLive(ts: seq<Tuning>)
    requires LawfulTunings(ts)
    ensures Stack(ts) == LiveOverlays(ts, RolledBackIds(ts))
  {
    if ts != [] {
      var P, t := ts[..|ts| - 1], ts[|ts| - 1];
      StackIsLive(P);
      assert ts == P + [t];
      MoreRolledBack(P, t);
      if t.action.TuningRolledBack? {
        PopIsLive(P, t);
      } else {
        hide RolledBackIds, FreshId;
        if t.action.TuningApplied? { FreshNotRolledBack(P, t.overlay.id); }
      }
    }
  }

  /** A rollback takes the overlay it names out of the live ones, as popping does. */
  lemma PopIsLive(P: seq<Tuning>, t: Tuning)
    requires LawfulTunings(P) && Stack(P) == LiveOverlays(P, RolledBackIds(P))
    requires t.action.TuningRolledBack? && TuningRule(P, t)
    ensures LiveOverlays(P + [t], RolledBackIds(P) + {t.overlay.id}) == Stack(P)[..|Stack(P)| - 1]
    ensures Stack(P) != []
  {
    hide RolledBackIds, LawfulTunings, Stack;
    var s, id := Stack(P), t.overlay.id;
    RollBackRemoves(P, RolledBackIds(P), id);
    StackIds(P);
    assert s[|s| - 1].id == id;
    WithoutAbsent(s[..|s| - 1], id);
    assert (P + [t])[..|P|] == P;
  }

  /** In every run of self-improvement the active overlay is the top of the stack. */
  lemma ActiveIsTop(ts: seq<Tuning>)
    requires LawfulTunings(ts)
    ensures ActiveOverlay(ts) == Top(Stack(ts))
  {
    StackIsLive(ts);
  }

  lemma {:induction false} LawfulTuningsPrefix(ts: seq<Tuning>, k: nat)
    requires LawfulTunings(ts) && k <= |ts|
    ensures LawfulTunings(ts[..k])
    decreases |ts| - k
  {
    if k < |ts| {
      LawfulTuningsPrefix(ts, k + 1);
      assert ts[..k + 1][..k] == ts[..k];
    } else {
      assert ts[..k] == ts;
    }
  }

  /** What the tuning at position `j` does to the stack; a rollback always names the overlay on top. */
  lemma StackStep(ts: seq<Tuning>, j: nat)
    requires LawfulTunings(ts) && j < |ts|
    ensures
      var before, t := Stack(ts[..j]), ts[j];
      && (t.action.TuningRolledBack? ==> before != [] && t.overlay.id == before[|before| - 1].id)
      && Stack(ts[..j + 1]) ==
           if t.action.TuningApplied? then before + [t.overlay]
           else if t.action.TuningRolledBack? then before[..|before| - 1] else before
  {
    LawfulTuningsPrefix(ts, j + 1);
    assert ts[..j + 1][..j] == ts[..j];
    ActiveIsTop(ts[..j]);
  }

  /** While an overlay applied at position `i` is not rolled back, it stays in the stack, above what it covered. */
  lemma {:induction false} CoveredStaysCovered(ts: seq<Tuning>, i: nat, j: nat)
    requires LawfulTunings(ts) && i < j <= |ts| && ts[i].action.TuningApplied?
    requires forall k :: i < k < j && ts[k].action.TuningRolledBack? ==> ts[k].overlay.id != ts[i].overlay.id
    ensures Stack(ts[..i]) + [ts[i].overlay] <= Stack(ts[..j])
  {
    hide Stack, LawfulTunings;
    StackStep(ts, j - 1);
    if i + 1 < j {
      CoveredStaysCovered(ts, i, j - 1);
      var base, s := Stack(ts[..i]) + [ts[i].overlay], Stack(ts[..j - 1]);
      assert s[..|base|] == base;
      assert |s| == |base| ==> s[|s| - 1] == ts[i].overlay;
    }
  }

  /** A rollback restores the overlay, and so the effective policy, in force before the rolled-back overlay. */
  lemma RollbackRestores(ts: seq<Tuning>, i: nat, j: nat, base: EnginePolicy)
    requires LawfulTunings(ts) && i < j < |ts|
    requires ts[i].action.TuningApplied? && ts[j].action.TuningRolledBack? && ts[i].overlay.id == ts[j].overlay.id
    ensures ActiveOverlay(ts[..j + 1]) == ActiveOverlay(ts[..i])
    ensures WithOverlay(base, ActiveOverlay(ts[..j + 1])) == WithOverlay(base, ActiveOverlay(ts[..i]))
  {
    hide Stack, LawfulTunings, WithOverlay, ActiveOverlay, DistinctOverlays, Top, FreshId;
    forall k | i < k < j && ts[k].action.TuningRolledBack? ensures ts[k].overlay.id != ts[i].overlay.id {
      RolledBackOnce(ts, k, j);
    }
    CoveredStaysCovered(ts, i, j);
    StackStep(ts, j);
    LawfulTuningsPrefix(ts, j);
    StackIds(ts[..j]);
    PopUncovers(Stack(ts[..j]), Stack(ts[..i]), ts[i].overlay);
    LawfulTuningsPrefix(ts, i);
    ActiveIsTop(ts[..i]);
    LawfulTuningsPrefix(ts, j + 1);
    ActiveIsTop(ts[..j + 1]);
  }

  /** Popping the element that covers `below` leaves `below`. */
  lemma PopUncovers(s: seq<Overlay>, below: seq<Overlay>, o: Overlay)
    requires DistinctOverlays(s) && below + [o] <= s && s[|s| - 1].id == o.id
    ensures s[..|s| - 1] == below
  {
    assert s[|below|] == o;
    assert |s| == |below| + 1;
  }

  lemma RolledBackOnce(ts: seq<Tuning>, k: nat, j: nat)
    requires LawfulTunings(ts) && k < j < |ts| && ts[k].action.TuningRolledBack? && ts[j].action.TuningRolledBack?
    ensures ts[k].overlay.id != ts[j].overlay.id
  {
    LawfulTuningsPrefix(ts, j + 1);
    assert ts[..j + 1][..j] == ts[..j];
    assert ts[..j][k] == ts[k];
    NeverActiveAgain(ts[..j], ts[k].overlay.id);
  }

  /** An overlay that was ever rolled back is not active. */
  lemma {:induction false} NeverActiveAgain(ts: seq<Tuning>, id: string)
    requires id in RolledBackIds(ts)
    ensures ActiveOverlay(ts).Some? ==> ActiveOverlay(ts).value.id != id
  {
    LatestLiveIsLive(ts, RolledBackIds(ts));
  }

  lemma {:induction false} LatestLiveIsLive(ts: seq<Tuning>, rolledBack: set<string>)
    ensures LatestLive(ts, rolledBack).Some? ==>
              LatestLive(ts, rolledBack).value.id !in rolledBack
              && LatestLive(ts, rolledBack).value.status == OverlayStatus.Applied
              && !FreshId(ts, LatestLive(ts, rolledBack).value.id)
  {
    if ts != [] {
      LatestLiveIsLive(ts[..|ts| - 1], rolledBack);
      assert ts[|ts| - 1] in ts;
    }
  }

  /******* Proposing and rolling back *******/

  function AtLeast(v: nat, low: nat): nat {
    if v < low then low else v
  }

  function Ceiling(x: real): int {
    -((-x).Floor)
  }

  function IncreaseByPercent(v: nat, percent: real): (r: nat)
    requires percent >= 0.0
  {
    Ceiling((AtLeast(v, 1) as real) * (1.0 + percent / 100.0))
  }

  function Clamp(x: real, low: real, high: real): real
    requires low <= high
  {
    if x < low then low else if x > high then high else x
  }

  /** The percentage by which a step limit grows: the guardrail times the outcomes seen, at most 200. */
  function StepsDelta(improvement: SelfImprovement, outcomes: nat): (d: real)
    ensures 1.0 <= d <= 200.0
  {
    var delta := Clamp(improvement.maxDeltaPercent, 1.0, 100.0);
    var scaled := delta * (AtLeast(outcomes, 1) as real);
    Grows(delta, AtLeast(outcomes, 1) as real);
    if scaled < 200.0 then scaled else 200.0
  }

  lemma Grows(x: real, y: real)
    requires x >= 1.0 && y >= 1.0
    ensures x * y >= 1.0
  {
    assert x * y >= x * 1.0;
  }

  const NO_PATCH := Patch(None, None, None, None, None)

  /** The patch proposed after an outcome; None when the outcome gives no reason to tune. */
  function ProposedPatch(policy: EnginePolicy, outcome: OutcomeRecord, outcomes: nat): Option<Patch> {
    var delta := Clamp(policy.selfImprovement.maxDeltaPercent, 1.0, 100.0);
    match outcome.stop
    case ProviderFailure =>
      if outcome.mentionsTimeout
      then Some(NO_PATCH.(providerTimeoutMs := Some(IncreaseByPercent(policy.providerTimeoutMs, delta))))
      else None
    case MaxStepsReached =>
      Some(NO_PATCH.(maxSteps :=
        Some(IncreaseByPercent(policy.maxSteps, StepsDelta(policy.selfImprovement, outcomes)))))
    case DeadlineExceeded =>
      Some(NO_PATCH.(maxExecutionMs := Some(IncreaseByPercent(policy.maxExecutionMs, delta))))
    case PolicyAborted => if outcome.mentionsCost then Some(NO_PATCH) else None
    case _ => None
  }

  function ProposeTuning(policy: EnginePolicy, outcome: OutcomeRecord, outcomes: nat, id: string): Option<Tuning> {
    var patch := ProposedPatch(policy, outcome, outcomes);
    if patch.None? then None
    else
      var auto := policy.selfImprovement.mode.AutoWithGuardrails?;
      var status := if outcome.mentionsCost then OverlayStatus.Rejected
                    else if auto then OverlayStatus.Applied else OverlayStatus.Proposed;
      var action := if outcome.mentionsCost then TuningRejectedUnsafe
                    else if auto then TuningApplied else TuningProposed;
      var overlay := Overlay(id, status, patch.value);
      Some(Tuning(action, overlay, policy, ApplyTo(overlay, policy)))
  }

  predicate Regression(stop: StopReason) {
    stop.ProviderFailure? || stop.DeadlineExceeded? || stop.PolicyAborted?
  }

  function MaybeRollback(ts: seq<Tuning>, policy: EnginePolicy, outcome: OutcomeRecord): Option<Tuning> {
    var active := ActiveOverlay(ts);
    if !policy.selfImprovement.rollbackOnRegression || !Regression(outcome.stop) || active.None? then None
    else Some(Tuning(TuningRolledBack, active.value.(status := OverlayStatus.RolledBack), policy, policy))
  }

  /** The tuning record a terminal outcome leads to, if any; `policy` is the effective policy of the advance. */
  function NextTuning(
      ts: seq<Tuning>, policy: EnginePolicy, outcome: OutcomeRecord, outcomes: nat, id: string): Option<Tuning> {
    if !policy.selfImprovement.enabled || outcomes < policy.selfImprovement.minObservations then None
    else
      var rollback := MaybeRollback(ts, policy, outcome);
      if rollback.Some? then rollback else ProposeTuning(policy, outcome, outcomes, id)
  }

  /** Self-improvement appends only what the rule allows, so every run of it is lawful. */
  lemma NextTuningAllowed(ts: seq<Tuning>, policy: EnginePolicy, outcome: OutcomeRecord, outcomes: nat, id: string)
    requires LawfulTunings(ts) && FreshId(ts, id)
    ensures
      var t := NextTuning(ts, policy, outcome, outcomes, id);
      t.Some? ==> TuningRule(ts, t.value) && LawfulTunings(ts + [t.value])
  {
    var t := NextTuning(ts, policy, outcome, outcomes, id);
    if t.Some? {
      assert (ts + [t.value])[..|ts|] == ts;
    }
  }

  /******* Which outcome tunes what *******/

  /** Self-improvement acts on the outcome at all. */
  ghost predicate Acts(policy: EnginePolicy, outcomes: nat) {
    policy.selfImprovement.enabled && policy.selfImprovement.minObservations <= outcomes
  }

  /** The outcome rolls the overlay in force back. */
  ghost predicate RollsBack(ts: seq<Tuning>, policy: EnginePolicy, outcome: OutcomeRecord, outcomes: nat) {
    && Acts(policy, outcomes) && policy.selfImprovement.rollbackOnRegression && ActiveOverlay(ts).Some?
    && (outcome.stop == ProviderFailure || outcome.stop == DeadlineExceeded || outcome.stop == PolicyAborted)
  }

  /** The outcome asks for a higher limit. */
  ghost predicate AsksMore(outcome: OutcomeRecord) {
    || (outcome.stop == ProviderFailure && outcome.mentionsTimeout)
    || outcome.stop == MaxStepsReached
    || outcome.stop == DeadlineExceeded
  }

  /** A rollback follows exactly a provider failure, a missed deadline or an abort while an overlay is in force. */
  lemma RollbackIff(ts: seq<Tuning>, policy: EnginePolicy, outcome: OutcomeRecord, outcomes: nat, id: string)
    ensures
      var t := NextTuning(ts, policy, outcome, outcomes, id);
      t.Some? && t.value.action.TuningRolledBack? <==> RollsBack(ts, policy, outcome, outcomes)
  {
  }

  /**
   Otherwise an outcome that asks for a higher limit gets it applied, or only proposed where that is not automatic; one
   that mentions a cost is refused as unsafe; any other outcome gives no tuning.
   */
  lemma TuningIff(ts: seq<Tuning>, policy: EnginePolicy, outcome: OutcomeRecord, outcomes: nat, id: string)
    requires !RollsBack(ts, policy, outcome, outcomes)
    ensures
      var t := NextTuning(ts, policy, outcome, outcomes, id);
      var asks := Acts(policy, outcomes) && AsksMore(outcome);
      var costly := Acts(policy, outcomes) && outcome.mentionsCost && (asks || outcome.stop == PolicyAborted);
      var automatic := policy.selfImprovement.mode == AutoWithGuardrails;
      && (t.None? <==> !asks && !costly)
      && (t.Some? && t.value.action.TuningRejectedUnsafe? <==> costly)
      && (t.Some? && t.value.action.TuningApplied? <==> asks && !costly && automatic)
      && (t.Some? && t.value.action.TuningProposed? <==> asks && !costly && !automatic)
      && (t.Some? ==> t.value.overlay.id == id && t.value.prior == policy)
  {
  }

  /** The guardrail: the percentage a limit may grow by, between 1 and 100. */
  ghost predicate Guarded(improvement: SelfImprovement, percent: real) {
    var most := improvement.maxDeltaPercent;
    percent == if most <= 1.0 then 1.0 else if most >= 100.0 then 100.0 else most
  }

  /** `after` is the least integer not below `before`, taken as at least 1, increased by the percentage. */
  ghost predicate Increased(before: nat, percent: real, after: nat) {
    var target := (if before == 0 then 1.0 else before as real) * (1.0 + percent / 100.0);
    target <= after as real < target + 1.0
  }

  lemma IncreaseExact(v: nat, percent: real)
    requires percent >= 0.0
    ensures Increased(v, percent, IncreaseByPercent(v, percent))
  {
  }

  /** The patch proposed after an outcome that asks for more has the one limit the stop reason names. */
  lemma PatchExact(policy: EnginePolicy, outcome: OutcomeRecord, outcomes: nat, percent: real)
    requires AsksMore(outcome) && Guarded(policy.selfImprovement, percent)
    ensures
      var patch := ProposedPatch(policy, outcome, outcomes);
      && patch.Some?
      && match outcome.stop
         case ProviderFailure =>
           exists v: nat :: Increased(policy.providerTimeoutMs, percent, v)
                       && patch.value == Patch(None, None, Some(v), None, None)
         case DeadlineExceeded =>
           exists v: nat :: Increased(policy.maxExecutionMs, percent, v)
                       && patch.value == Patch(None, Some(v), None, None, None)
         case _ =>
           exists v: nat :: Increased(policy.maxSteps, Scaled(percent, outcomes), v)
                       && patch.value == Patch(Some(v), None, None, None, None)
  {
    var patch := ProposedPatch(policy, outcome, outcomes).value;
    match outcome.stop
    case ProviderFailure => IncreaseExact(policy.providerTimeoutMs, percent);
    case DeadlineExceeded => IncreaseExact(policy.maxExecutionMs, percent);
    case _ =>
      ScaledExact(policy.selfImprovement, outcomes, percent);
      IncreaseExact(policy.maxSteps, Scaled(percent, outcomes));
  }

  /** Step limits grow by the guardrail times the outcomes seen, up to 200 percent. */
  ghost function Scaled(percent: real, outcomes: nat): real {
    if outcomes <= 1 then percent else if percent * outcomes as real <= 200.0 then percent * outcomes as real else 200.0
  }

  lemma ScaledExact(improvement: SelfImprovement, outcomes: nat, percent: real)
    requires Guarded(improvement, percent)
    ensures StepsDelta(improvement, outcomes) == Scaled(percent, outcomes) >= 0.0
  {
  }

  /**
   An applied tuning strictly raises the limit its stop reason names, to the increase the guardrails allow, and leaves
   every other limit of later advances at its base.
   */
  lemma AppliedRaises(
      base: EnginePolicy, ts: seq<Tuning>, outcome: OutcomeRecord, outcomes: nat, id: string, percent: real)
    requires LawfulTunings(ts) && FreshId(ts, id) && Guarded(base.selfImprovement, percent)
    requires
      var t := NextTuning(ts, WithOverlay(base, ActiveOverlay(ts)), outcome, outcomes, id);
      t.Some? && t.value.action.TuningApplied?
    ensures
      var before := WithOverlay(base, ActiveOverlay(ts));
      var t := NextTuning(ts, before, outcome, outcomes, id).value;
      var after := WithOverlay(base, ActiveOverlay(ts + [t]));
      match outcome.stop
      case ProviderFailure =>
        && after == base.(providerTimeoutMs := after.providerTimeoutMs)
        && after.providerTimeoutMs > before.providerTimeoutMs
        && Increased(before.providerTimeoutMs, percent, after.providerTimeoutMs)
      case DeadlineExceeded =>
        && after == base.(maxExecutionMs := after.maxExecutionMs)
        && after.maxExecutionMs > before.maxExecutionMs
        && Increased(before.maxExecutionMs, percent, after.maxExecutionMs)
      case MaxStepsReached =>
        && after == base.(maxSteps := after.maxSteps)
        && after.maxSteps > before.maxSteps
        && Increased(before.maxSteps, Scaled(percent, outcomes), after.maxSteps)
      case _ => false
  {
    hide NextTuning, ActiveOverlay, LawfulTunings, TuningRule, ProposedPatch, Scaled, Increased, StepsDelta, Limits,
         Patches;
    var before := WithOverlay(base, ActiveOverlay(ts));
    var t := NextTuning(ts, before, outcome, outcomes, id).value;
    NextTuningAllowed(ts, before, outcome, outcomes, id);
    ActiveAfter(ts, t);
    AppliedProposal(ts, before, outcome, outcomes, id);
    OverBase(base, ActiveOverlay(ts));
    PatchExact(before, outcome, outcomes, percent);
    OnlyThatLimit(base, before, t.overlay, outcome, outcomes, percent);
  }

  /** Over the base, such an overlay changes the one limit it patches. */
  lemma OnlyThatLimit(
      base: EnginePolicy, before: EnginePolicy, o: Overlay, outcome: OutcomeRecord, outcomes: nat, percent: real)
    requires o.status == OverlayStatus.Applied && 1.0 <= percent <= 100.0 && AsksMore(outcome)
    requires
      match outcome.stop
      case ProviderFailure =>
        exists v: nat :: Increased(before.providerTimeoutMs, percent, v)
                         && o.patch == Patch(None, None, Some(v), None, None)
      case DeadlineExceeded =>
        exists v: nat :: Increased(before.maxExecutionMs, percent, v)
                         && o.patch == Patch(None, Some(v), None, None, None)
      case _ =>
        exists v: nat :: Increased(before.maxSteps, Scaled(percent, outcomes), v)
                         && o.patch == Patch(Some(v), None, None, None, None)
    ensures
      var after := WithOverlay(base, Some(o));
      match outcome.stop
      case ProviderFailure =>
        && after == base.(providerTimeoutMs := after.providerTimeoutMs)
        && after.providerTimeoutMs > before.providerTimeoutMs
        && Increased(before.providerTimeoutMs, percent, after.providerTimeoutMs)
      case DeadlineExceeded =>
        && after == base.(maxExecutionMs := after.maxExecutionMs)
        && after.maxExecutionMs > before.maxExecutionMs
        && Increased(before.maxExecutionMs, percent, after.maxExecutionMs)
      case _ =>
        && after == base.(maxSteps := after.maxSteps)
        && after.maxSteps > before.maxSteps
        && Increased(before.maxSteps, Scaled(percent, outcomes), after.maxSteps)
  {
    hide Increased, Scaled;
    ScaledMore(percent, outcomes);
    if outcome.stop == ProviderFailure {
      var v: nat :| Increased(before.providerTimeoutMs, percent, v)
                    && o.patch == Patch(None, None, Some(v), None, None);
      IncreasedMore(before.providerTimeoutMs, percent, v);
    } else if outcome.stop == DeadlineExceeded {
      var v: nat :| Increased(before.maxExecutionMs, percent, v)
                    && o.patch == Patch(None, Some(v), None, None, None);
      IncreasedMore(before.maxExecutionMs, percent, v);
    } else {
      var v: nat :| Increased(before.maxSteps, Scaled(percent, outcomes), v)
                    && o.patch == Patch(Some(v), None, None, None, None);
      IncreasedMore(before.maxSteps, Scaled(percent, outcomes), v);
    }
  }

  lemma ScaledMore(percent: real, outcomes: nat)
    requires 1.0 <= percent <= 100.0
    ensures 1.0 <= Scaled(percent, outcomes) <= 200.0
  {
    if outcomes > 1 { Grows(percent, outcomes as real); }
  }

  lemma IncreasedMore(before: nat, percent: real, after: nat)
    requires Increased(before, percent, after) && percent >= 1.0
    ensures after > before
  {
    var m := if before == 0 then 1.0 else before as real;
    assert m * (1.0 + percent / 100.0) > m;
  }

  lemma AppliedProposal(ts: seq<Tuning>, policy: EnginePolicy, outcome: OutcomeRecord, outcomes: nat, id: string)
    requires
      var t := NextTuning(ts, policy, outcome, outcomes, id);
      t.Some? && t.value.action.TuningApplied?
    ensures
      var t := NextTuning(ts, policy, outcome, outcomes, id).value;
      && AsksMore(outcome) && t.overlay.status == OverlayStatus.Applied
      && ProposedPatch(policy, outcome, outcomes) == Some(t.overlay.patch)
  {
  }

  /******* What an overlay promises, and what it does *******/

  /** The limits an overlay may patch, and the patches it has for them. */
  function Limits(p: EnginePolicy): (limits: seq<nat>)
    ensures |limits| == 5
  {
    [p.maxSteps, p.maxExecutionMs, p.providerTimeoutMs, p.maxToolTimeoutMs, p.maxParallel]
  }

  function Patches(o: Overlay): (patches: seq<Option<nat>>)
    ensures |patches| == 5
  {
    [o.patch.maxSteps, o.patch.maxExecutionMs, o.patch.providerTimeoutMs, o.patch.maxToolTimeoutMs, o.patch.maxParallel]
  }

  /** What limit `k` of the base policy is under an applied overlay, if there is one. */
  function LimitUnder(base: EnginePolicy, o: Option<Overlay>, k: nat): nat
    requires k < 5
  {
    if o.Some? && Patches(o.value)[k].Some? then AtLeast(Patches(o.value)[k].value, 1) else Limits(base)[k]
  }

  lemma LimitsUnder(base: EnginePolicy, o: Option<Overlay>)
    requires o.Some? ==> o.value.status == OverlayStatus.Applied
    ensures forall k :: 0 <= k < 5 ==> Limits(WithOverlay(base, o))[k] == LimitUnder(base, o, k)
  {
  }

  /** Two policies over one base are the same exactly when their limits are. */
  lemma SameLimits(base: EnginePolicy, o: Overlay, p: EnginePolicy, q: EnginePolicy)
    requires p == base.(maxSteps := p.maxSteps, maxExecutionMs := p.maxExecutionMs,
                        providerTimeoutMs := p.providerTimeoutMs, maxToolTimeoutMs := p.maxToolTimeoutMs,
                        maxParallel := p.maxParallel)
    requires q == base.(maxSteps := q.maxSteps, maxExecutionMs := q.maxExecutionMs,
                        providerTimeoutMs := q.providerTimeoutMs, maxToolTimeoutMs := q.maxToolTimeoutMs,
                        maxParallel := q.maxParallel)
    ensures p == q <==> forall k :: 0 <= k < 5 ==> Limits(p)[k] == Limits(q)[k]
  {
    if forall k :: 0 <= k < 5 ==> Limits(p)[k] == Limits(q)[k] {
      assert Limits(p)[0] == Limits(q)[0] && Limits(p)[1] == Limits(q)[1] && Limits(p)[2] == Limits(q)[2];
      assert Limits(p)[3] == Limits(q)[3] && Limits(p)[4] == Limits(q)[4];
    }
  }

  /** The overlay in force once the active one is rolled back. */
  function Beneath(ts: seq<Tuning>): Option<Overlay> {
    var s := Stack(ts);
    if |s| < 2 then None else Some(s[|s| - 2])
  }

  /**
   What a tuning must be for its record to project the policy of later advances. An applied overlay must patch every
   limit on which the policy in force differs from the base; a rollback must leave every limit as it was, for its
   record projects the policy it rolls back; a tuning that is not applied is always right.
   */
  ghost predicate ProjectsWell(base: EnginePolicy, ts: seq<Tuning>, t: Tuning) {
    match t.action
    case TuningApplied =>
      forall k :: 0 <= k < 5 ==>
        Patches(t.overlay)[k].Some? || LimitUnder(base, ActiveOverlay(ts), k) == Limits(base)[k]
    case TuningRolledBack =>
      forall k :: 0 <= k < 5 ==> LimitUnder(base, ActiveOverlay(ts), k) == LimitUnder(base, Beneath(ts), k)
    case _ => true
  }

  lemma ActiveIsApplied(ts: seq<Tuning>)
    ensures ActiveOverlay(ts).Some? ==> ActiveOverlay(ts).value.status == OverlayStatus.Applied
  {
    LatestLiveIsLive(ts, RolledBackIds(ts));
  }

  /** The overlay active after a tuning: the one it applied, the one beneath it after a rollback, else the same. */
  lemma ActiveAfter(ts: seq<Tuning>, t: Tuning)
    requires LawfulTunings(ts) && TuningRule(ts, t)
    ensures
      ActiveOverlay(ts + [t]) ==
        if t.action.TuningApplied? then Some(t.overlay)
        else if t.action.TuningRolledBack? then Beneath(ts) else ActiveOverlay(ts)
  {
    hide ActiveOverlay;
    var us := ts + [t];
    assert us[..|ts|] == ts;
    ActiveIsTop(ts);
    ActiveIsTop(us);
    hide TuningRule;
    StackStep(us, |ts|);
    assert us[..|ts| + 1] == us;
  }

  /**
   The policy the next tuning record projects is the one later advances run under exactly when the tuning projects
   well: overlays replace each other, they do not add up, and a rollback projects what it takes back.
   */
  lemma ProjectionExact(base: EnginePolicy, ts: seq<Tuning>, outcome: OutcomeRecord, outcomes: nat, id: string)
    requires LawfulTunings(ts) && FreshId(ts, id)
    ensures
      var t := NextTuning(ts, WithOverlay(base, ActiveOverlay(ts)), outcome, outcomes, id);
      t.Some? ==>
        (t.value.projected == WithOverlay(base, ActiveOverlay(ts + [t.value])) <==> ProjectsWell(base, ts, t.value))
  {
    var prior := WithOverlay(base, ActiveOverlay(ts));
    var next := NextTuning(ts, prior, outcome, outcomes, id);
    if next.Some? {
      var t := next.value;
      NextTuningAllowed(ts, prior, outcome, outcomes, id);
      ActiveAfter(ts, t);
      ActiveIsApplied(ts);
      ActiveIsApplied(ts + [t]);
      ProjectedAs(ts, prior, outcome, outcomes, id);
      hide NextTuning, ActiveOverlay, LawfulTunings, Stack, TuningRule;
      var later := WithOverlay(base, ActiveOverlay(ts + [t]));
      LimitsUnder(base, ActiveOverlay(ts));
      LimitsUnder(base, ActiveOverlay(ts + [t]));
      if t.action.TuningApplied? { LimitsUnder(prior, Some(t.overlay)); }
      OverBase(base, ActiveOverlay(ts));
      OverBase(base, ActiveOverlay(ts + [t]));
      OverBase(prior, Some(t.overlay));
      SameLimits(base, t.overlay, t.projected, later);
    }
  }

  lemma OverBase(base: EnginePolicy, o: Option<Overlay>)
    ensures
      var p := WithOverlay(base, o);
      p == base.(maxSteps := p.maxSteps, maxExecutionMs := p.maxExecutionMs,
                 providerTimeoutMs := p.providerTimeoutMs, maxToolTimeoutMs := p.maxToolTimeoutMs,
                 maxParallel := p.maxParallel)
  {
  }

  /** An applied tuning projects its overlay over the policy in force, any other tuning that policy itself. */
  lemma ProjectedAs(ts: seq<Tuning>, policy: EnginePolicy, outcome: OutcomeRecord, outcomes: nat, id: string)
    ensures
      var t := NextTuning(ts, policy, outcome, outcomes, id);
      t.Some? ==>
        if t.value.action.TuningApplied? then
          t.value.overlay.status == OverlayStatus.Applied
          && t.value.projected == WithOverlay(policy, Some(t.value.overlay))
        else t.value.projected == policy
  {
  }

  /** A rollback record projects the raised step limit it takes back. */
  lemma RollbackMisprojects(base: EnginePolicy, steps: Overlay, outcome: OutcomeRecord, outcomes: nat, id: string)
    requires base.selfImprovement.enabled && base.selfImprovement.rollbackOnRegression
    requires base.selfImprovement.minObservations <= outcomes && outcome.stop.ProviderFailure?
    requires steps.status == OverlayStatus.Applied && steps.patch == NO_PATCH.(maxSteps := Some(base.maxSteps + 1))
    ensures
      var ts := [Tuning(TuningApplied, steps, base, ApplyTo(steps, base))];
      var t := NextTuning(ts, WithOverlay(base, ActiveOverlay(ts)), outcome, outcomes, id);
      && LawfulTunings(ts) && t.Some? && t.value.action.TuningRolledBack?
      && t.value.projected.maxSteps == base.maxSteps + 1
      && WithOverlay(base, ActiveOverlay(ts + [t.value])).maxSteps == base.maxSteps
  {
    var t0 := Tuning(TuningApplied, steps, base, ApplyTo(steps, base));
    var ts := [t0];
    assert ts[..0] == [] && LawfulTunings(ts[..0]) && TuningRule(ts[..0], t0);
    assert RolledBackIds(ts) == {};
    assert ActiveOverlay(ts) == Some(steps);
    var t := NextTuning(ts, WithOverlay(base, ActiveOverlay(ts)), outcome, outcomes, id);
    ActiveAfter(ts, t.value);
    assert Stack(ts) == [steps];
  }

  /******* Records of whole runs over one base policy *******/

  /** Each tuning is the one its outcome called for, under the policy then in force over the base. */
  ghost predicate TunedOver(base: EnginePolicy, ts: seq<Tuning>) {
    ts != [] ==>
      var P, t := ts[..|ts| - 1], ts[|ts| - 1];
      TunedOver(base, P) && exists outcome, outcomes, id :: TunedBy(base, P, t, outcome, outcomes, id)
  }

  ghost predicate TunedBy(
      base: EnginePolicy, P: seq<Tuning>, t: Tuning, outcome: OutcomeRecord, outcomes: nat, id: string) {
    FreshId(P, id) && NextTuning(P, WithOverlay(base, ActiveOverlay(P)), outcome, outcomes, id) == Some(t)
  }

  lemma TunedMore(
      base: EnginePolicy, P: seq<Tuning>, t: Tuning, outcome: OutcomeRecord, outcomes: nat, id: string)
    requires TunedOver(base, P) && TunedBy(base, P, t, outcome, outcomes, id)
    ensures TunedOver(base, P + [t])
  {
    hide TunedBy;
    var ts := P + [t];
    assert ts[..|ts| - 1] == P && ts[|ts| - 1] == t;
    assert TunedBy(base, ts[..|ts| - 1], ts[|ts| - 1], outcome, outcomes, id);
  }

  lemma {:induction false} TunedLawful(base: EnginePolicy, ts: seq<Tuning>)
    requires TunedOver(base, ts)
    ensures LawfulTunings(ts)
  {
    hide NextTuning, TuningRule, WithOverlay, ActiveOverlay;
    if ts != [] {
      var P, t := ts[..|ts| - 1], ts[|ts| - 1];
      TunedLawful(base, P);
      var outcome, outcomes, id :| TunedBy(base, P, t, outcome, outcomes, id);
      NextTuningAllowed(P, WithOverlay(base, ActiveOverlay(P)), outcome, outcomes, id);
      assert P + [t] == ts;
    }
  }

  lemma {:induction false} TunedPrefix(base: EnginePolicy, ts: seq<Tuning>, k: nat)
    requires TunedOver(base, ts) && k <= |ts|
    ensures TunedOver(base, ts[..k])
    decreases |ts|
  {
    hide TunedBy;
    if k < |ts| {
      TunedPrefix(base, ts[..|ts| - 1], k);
      assert ts[..|ts| - 1][..k] == ts[..k];
    } else {
      assert ts[..k] == ts;
    }
  }

  /** An applied proposal raises every limit it patches. */
  lemma ProposalRaises(policy: EnginePolicy, outcome: OutcomeRecord, outcomes: nat, id: string)
    ensures
      var t := ProposeTuning(policy, outcome, outcomes, id);
      t.Some? && t.value.action.TuningApplied? ==>
        && Raises(policy, t.value.overlay)
        && exists k :: 0 <= k < 5 && Patches(t.value.overlay)[k].Some?
  {
    var delta := Clamp(policy.selfImprovement.maxDeltaPercent, 1.0, 100.0);
    IncreaseBounds(policy.providerTimeoutMs, delta);
    IncreaseBounds(policy.maxExecutionMs, delta);
    IncreaseBounds(policy.maxSteps, StepsDelta(policy.selfImprovement, outcomes));
    hide IncreaseByPercent, StepsDelta, Clamp;
    var t := ProposeTuning(policy, outcome, outcomes, id);
    if t.Some? && t.value.action.TuningApplied? {
      var p := Patches(t.value.overlay);
      assert p[0].Some? || p[1].Some? || p[2].Some?;
    }
  }

  ghost predicate Raises(policy: EnginePolicy, o: Overlay) {
    forall k :: 0 <= k < 5 && Patches(o)[k].Some? ==> Patches(o)[k].value > Limits(policy)[k]
  }

  /** The overlay in force was applied at some position, and raised what it patches above the policy before. */
  lemma ActiveRaised(base: EnginePolicy, ts: seq<Tuning>) returns (i: nat)
    requires TunedOver(base, ts) && ActiveOverlay(ts).Some?
    ensures i < |ts| && ts[i].action.TuningApplied? && ts[i].overlay == ActiveOverlay(ts).value
    ensures Raises(WithOverlay(base, ActiveOverlay(ts[..i])), ts[i].overlay)
    ensures exists k :: 0 <= k < 5 && Patches(ts[i].overlay)[k].Some?
  {
    hide WithOverlay, Raises, ProposeTuning, RolledBackIds, Limits, Patches;
    i := LatestLiveAt(ts, RolledBackIds(ts));
    TunedPrefix(base, ts, i + 1);
    assert ts[..i + 1][..i] == ts[..i];
    var outcome, outcomes, id :| TunedBy(base, ts[..i], ts[i], outcome, outcomes, id);
    ProposalRaises(WithOverlay(base, ActiveOverlay(ts[..i])), outcome, outcomes, id);
  }

  lemma {:induction false} LatestLiveAt(ts: seq<Tuning>, rolledBack: set<string>) returns (i: nat)
    requires LatestLive(ts, rolledBack).Some?
    ensures i < |ts| && Live(ts[i], rolledBack) && ts[i].overlay == LatestLive(ts, rolledBack).value
  {
    if Live(ts[|ts| - 1], rolledBack) {
      i := |ts| - 1;
    } else {
      i := LatestLiveAt(ts[..|ts| - 1], rolledBack);
    }
  }

  /** No limit in force is ever below the base, and one the overlay in force patches is above it. */
  lemma {:induction false} InForceAbove(base: EnginePolicy, ts: seq<Tuning>, k: nat)
    requires TunedOver(base, ts) && k < 5
    ensures LimitUnder(base, ActiveOverlay(ts), k) >= Limits(base)[k]
    ensures
      ActiveOverlay(ts).Some? && Patches(ActiveOverlay(ts).value)[k].Some? ==>
        LimitUnder(base, ActiveOverlay(ts), k) > Limits(base)[k]
    decreases |ts|
  {
    hide TunedOver, ActiveOverlay, WithOverlay, Limits, Patches;
    if ActiveOverlay(ts).Some? && Patches(ActiveOverlay(ts).value)[k].Some? {
      var i := ActiveRaised(base, ts);
      TunedPrefix(base, ts, i);
      InForceAbove(base, ts[..i], k);
      ActiveIsApplied(ts[..i]);
      LimitsUnder(base, ActiveOverlay(ts[..i]));
    }
  }

  /** A rollback record never projects the policy of later advances: some limit it projects is higher. */
  lemma RollbackNeverProjects(base: EnginePolicy, ts: seq<Tuning>, t: Tuning) returns (k: nat)
    requires TunedOver(base, ts + [t]) && t.action.TuningRolledBack?
    ensures k < 5 && Limits(t.projected)[k] > Limits(WithOverlay(base, ActiveOverlay(ts + [t])))[k]
  {
    hide WithOverlay, ActiveOverlay, Limits, Patches, TunedOver, TuningRule, LawfulTunings;
    var us := ts + [t];
    RollbackRecord(base, ts, t);
    assert us[..|ts|] == ts;
    TunedPrefix(base, us, |ts|);
    var i := ActiveRaised(base, ts);
    TunedLawful(base, us);
    assert us[i] == ts[i] && us[..i] == ts[..i] && us[..|ts| + 1] == us;
    RollbackRestores(us, i, |ts|, base);
    k :| 0 <= k < 5 && Patches(ts[i].overlay)[k].Some?;
    ActiveIsApplied(ts);
    LimitsUnder(base, ActiveOverlay(ts));
  }

  /** A rollback names the overlay in force and projects the policy in force. */
  lemma RollbackRecord(base: EnginePolicy, ts: seq<Tuning>, t: Tuning)
    requires TunedOver(base, ts + [t]) && t.action.TuningRolledBack?
    ensures ActiveOverlay(ts).Some? && t.overlay.id == ActiveOverlay(ts).value.id
    ensures t.projected == WithOverlay(base, ActiveOverlay(ts))
  {
    hide WithOverlay, ActiveOverlay;
    var us := ts + [t];
    assert us[..|ts|] == ts;
    var outcome, outcomes, id :| TunedBy(base, ts, t, outcome, outcomes, id);
  }

  /**
   In a run over one base policy a record projects the policy of later advances exactly when it is no rollback, and,
   if its overlay was applied, no overlay was in force or the new one patches what that one patched.
   */
  lemma ProjectionInRun(base: EnginePolicy, ts: seq<Tuning>, t: Tuning)
    requires TunedOver(base, ts + [t])
    ensures
      t.projected == WithOverlay(base, ActiveOverlay(ts + [t])) <==>
        && !t.action.TuningRolledBack?
        && (t.action.TuningApplied? && ActiveOverlay(ts).Some? ==>
              forall k :: 0 <= k < 5 && Patches(ActiveOverlay(ts).value)[k].Some? ==> Patches(t.overlay)[k].Some?)
  {
    hide WithOverlay, ActiveOverlay, Limits, Patches;
    var us := ts + [t];
    assert us[..|ts|] == ts;
    if t.action.TuningRolledBack? {
      var k := RollbackNeverProjects(base, ts, t);
    } else {
      var outcome, outcomes, id :| TunedBy(base, ts, t, outcome, outcomes, id);
      TunedLawful(base, ts);
      ProjectionExact(base, ts, outcome, outcomes, id);
      forall k: nat | k < 5 { InForceAbove(base, ts, k); }
    }
  }

  /** A raised step limit is lost again when a deadline overlay is applied next, though its record projects both. */
  lemma StepLimitForgotten(base: EnginePolicy, steps: Overlay, deadline: Overlay)
    requires steps.status == OverlayStatus.Applied && deadline.status == OverlayStatus.Applied
    requires steps.patch == NO_PATCH.(maxSteps := Some(base.maxSteps + 1))
    requires deadline.patch.maxSteps.None?
    ensures ApplyTo(deadline, ApplyTo(steps, base)).maxSteps == base.maxSteps + 1
    ensures WithOverlay(base, Some(deadline)).maxSteps == base.maxSteps
  {
  }

  /******* How far the step limit climbs *******/

  function Pow3(k: nat): nat {
    if k == 0 then 1 else 3 * Pow3(k - 1)
  }

  /** One increase is strict and at most threefold. */
  lemma IncreaseBounds(v: nat, percent: real)
    requires 1.0 <= percent <= 200.0
    ensures v + 1 <= IncreaseByPercent(v, percent) <= 3 * AtLeast(v, 1)
  {
    var m := AtLeast(v, 1) as real;
    var f := 1.0 + percent / 100.0;
    assert 1.01 <= f <= 3.0;
    assert m * 1.01 <= m * f <= m * 3.0;
    var x := m * f;
    assert x > m;
    assert -x < -m && -x >= -(3.0 * m);
    assert Ceiling(x) > AtLeast(v, 1);
    assert Ceiling(x) <= 3 * AtLeast(v, 1);
  }

  /** The tunings after `k` further advances that each stopped at their step limit; `ids` are the fresh overlay ids. */
  ghost function Climb(base: EnginePolicy, ts: seq<Tuning>, outcome: OutcomeRecord, seen: nat, ids: seq<string>)
    : seq<Tuning>
    decreases |ids|
  {
    if ids == [] then ts
    else
      var before := Climb(base, ts, outcome, seen, ids[..|ids| - 1]);
      var policy := WithOverlay(base, ActiveOverlay(before));
      var t := NextTuning(before, policy, outcome, seen + |ids|, ids[|ids| - 1]);
      if t.Some? then before + [t.value] else before
  }

  ghost predicate FreshIds(ts: seq<Tuning>, ids: seq<string>) {
    && (forall i :: 0 <= i < |ids| ==> FreshId(ts, ids[i]))
    && (forall i, j :: 0 <= i < j < |ids| ==> ids[i] != ids[j])
  }

  function StepLimit(base: EnginePolicy, ts: seq<Tuning>): nat {
    WithOverlay(base, ActiveOverlay(ts)).maxSteps
  }

  /** A single tuning after a step-limit outcome puts its own overlay in force. */
  lemma ClimbStep(base: EnginePolicy, ts: seq<Tuning>, outcome: OutcomeRecord, outcomes: nat, id: string)
    requires LawfulTunings(ts) && FreshId(ts, id)
    requires base.selfImprovement.enabled && base.selfImprovement.mode.AutoWithGuardrails?
    requires base.selfImprovement.minObservations <= outcomes
    requires outcome.stop.MaxStepsReached? && !outcome.mentionsCost
    ensures
      var policy := WithOverlay(base, ActiveOverlay(ts));
      var t := NextTuning(ts, policy, outcome, outcomes, id);
      && t.Some? && t.value.overlay.id == id && LawfulTunings(ts + [t.value])
      && StepLimit(base, ts) + 1 <= StepLimit(base, ts + [t.value]) <= 3 * AtLeast(StepLimit(base, ts), 1)
  {
    var policy := WithOverlay(base, ActiveOverlay(ts));
    assert policy.selfImprovement == base.selfImprovement;
    var t := NextTuning(ts, policy, outcome, outcomes, id);
    NextTuningAllowed(ts, policy, outcome, outcomes, id);
    var ts' := ts + [t.value];
    assert ts'[..|ts|] == ts;
    ActiveIsTop(ts');
    assert ActiveOverlay(ts') == Some(t.value.overlay);
    IncreaseBounds(policy.maxSteps, StepsDelta(policy.selfImprovement, outcomes));
  }

  lemma ThreefoldOnce(k: nat, start: nat, before: nat, after: nat)
    requires k > 0 && before <= Pow3(k - 1) * AtLeast(start, 1) && after <= 3 * AtLeast(before, 1)
    ensures after <= Pow3(k) * AtLeast(start, 1)
  {
    var b := AtLeast(start, 1);
    Pow3Positive(k - 1);
    assert Pow3(k - 1) * b >= 1 * b;
    assert Pow3(k) * b == 3 * (Pow3(k - 1) * b);
  }

  lemma {:induction false} Pow3Positive(k: nat)
    ensures Pow3(k) >= 1
  {
    if k > 0 { Pow3Positive(k - 1); }
  }

  /** Successive step-limit tunings make the effective limit strictly climb, between linearly and threefold each. */
  lemma {:induction false} ClimbBounds(
      base: EnginePolicy, ts: seq<Tuning>, outcome: OutcomeRecord, seen: nat, ids: seq<string>)
    requires LawfulTunings(ts) && FreshIds(ts, ids)
    requires base.selfImprovement.enabled && base.selfImprovement.mode.AutoWithGuardrails?
    requires base.selfImprovement.minObservations <= seen + 1
    requires outcome.stop.MaxStepsReached? && !outcome.mentionsCost
    ensures
      var k := |ids|;
      var after := Climb(base, ts, outcome, seen, ids);
      && LawfulTunings(after)
      && (forall t :: t in after ==> t in ts || t.overlay.id in ids)
      && StepLimit(base, ts) + k <= StepLimit(base, after) <= Pow3(k) * AtLeast(StepLimit(base, ts), 1)
    ensures
      ids != [] ==>
        StepLimit(base, Climb(base, ts, outcome, seen, ids[..|ids| - 1])) <
        StepLimit(base, Climb(base, ts, outcome, seen, ids))
    decreases |ids|
  {
    hide ActiveOverlay, WithOverlay, NextTuning, TuningRule, LawfulTunings, Pow3;
    if ids == [] {
      assert Pow3(0) == 1 by { Pow3Zero(); }
    } else {
      var init, id := ids[..|ids| - 1], ids[|ids| - 1];
      ClimbBounds(base, ts, outcome, seen, init);
      var before := Climb(base, ts, outcome, seen, init);
      assert FreshId(before, id);
      ClimbStep(base, before, outcome, seen + |ids|, id);
      ThreefoldOnce(|ids|, StepLimit(base, ts), StepLimit(base, before),
                    StepLimit(base, Climb(base, ts, outcome, seen, ids)));
    }
  }

  lemma Pow3Zero()
    ensures Pow3(0) == 1
  {
  }
}
