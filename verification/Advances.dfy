/** What the advances of the engine rely on, keep and achieve, and why each step of an advance does. */
module Advances {
  import opened Options
  import opened Policies
  import opened Ledger
  import opened ToolGraphs
  import opened Batches
  import opened Scheduler
  import opened Overlays
  import opened Projections
  import opened FailureStreak
  import opened ActiveGraphs
  import opened Sessions
  import opened GraphIds

  function EffectivePolicy(policy: EnginePolicy, L: seq<Record>): EnginePolicy {
    WithOverlay(policy, ActiveOverlay(Tunings(L)))
  }

  /** How an advance ends: with an error or a crash, without an outcome, or with one. */
  datatype Advanced = Faulted | Paused | Finished(outcome: OutcomeRecord, replay: bool)

  /**
   Each limit of the policy in force is the patch of the overlay on top of the session's stack, taken as at least 1, if
   that overlay patches it, and the limit of the base policy otherwise; nothing else differs from the base.
   */
  lemma EffectiveIsTop(policy: EnginePolicy, L: seq<Record>, gated: set<string>, k: nat)
    requires Orderly(L, gated) && k < 5
    ensures
      var stack, p := Stack(Tunings(L)), EffectivePolicy(policy, L);
      && Limits(p)[k] == (if stack != [] && Patches(stack[|stack| - 1])[k].Some?
                          then AtLeast(Patches(stack[|stack| - 1])[k].value, 1) else Limits(policy)[k])
      && p == policy.(maxSteps := p.maxSteps, maxExecutionMs := p.maxExecutionMs,
                      providerTimeoutMs := p.providerTimeoutMs, maxToolTimeoutMs := p.maxToolTimeoutMs,
                      maxParallel := p.maxParallel)
  {
    hide Orderly, Tunings, Stack, ActiveOverlay, LawfulTunings, Limits, Patches, WithOverlay;
    SessionTunings(L, gated);
    ActiveIsTop(Tunings(L));
    ActiveIsApplied(Tunings(L));
    LimitsUnder(policy, ActiveOverlay(Tunings(L)));
    OverBase(policy, ActiveOverlay(Tunings(L)));
  }

  /******* What every call relies on and keeps *******/

  ghost predicate Ready(L: seq<Record>, gated: set<string>, trig: TriggerRecord, overlay: string) {
    && Orderly(L, gated)
    && Trigger(trig) in SinceOutcome(L)
    && FreshId(Tunings(L), overlay)
  }

  /** How the skills behave during an advance under this policy. */
  function EnvOf(policy: EnginePolicy, facts: Node -> SkillFacts): SkillEnv {
    SkillEnv(policy.validateArgs, facts)
  }

  /** The rules of graphs hold in `M`, and what was executed since `L` ended with its own outcome under `env`. */
  ghost predicate Conformed(env: SkillEnv, L: seq<Record>, M: seq<Record>) {
    GraphsKept(M) && (AllConform(env, L) ==> AllConform(env, M))
  }

  /** The rules of graphs survive whenever the batches kept apart. */
  ghost predicate Tidy(env: SkillEnv, L: seq<Record>, M: seq<Record>) {
    GraphsKept(L) && Clean(M) ==> Conformed(env, L, M)
  }

  /** From `L` to `M` no trigger was recorded, and the rules of graphs survived if the batches kept apart. */
  ghost predicate Grown(env: SkillEnv, L: seq<Record>, M: seq<Record>) {
    NoTriggers(L, M) && Tidy(env, L, M)
  }

  lemma GrownOn(env: SkillEnv, L: seq<Record>, M: seq<Record>, N: seq<Record>)
    requires Grown(env, L, M) && Grown(env, M, N)
    ensures Grown(env, L, N) && L <= M <= N
  {
    hide GraphsKept, Clean, AllConform;
    NoTriggersOn(L, M, N);
    if Clean(N) { CleanPrefix(M, N); }
  }

  lemma GrownReads(env: SkillEnv, L: seq<Record>, M: seq<Record>)
    requires Grown(env, L, M)
    ensures Tidy(env, L, M) && NoTriggers(L, M) && L <= M
  {
  }

  /** From `L` to `M` no trigger was recorded and nothing about any graph. */
  ghost predicate Calm(L: seq<Record>, M: seq<Record>) {
    L <= M && forall i :: |L| <= i < |M| ==> !M[i].Trigger? && !M[i].GraphRecord? && !M[i].NodeCheckpoint?
  }

  lemma CalmOn(L: seq<Record>, M: seq<Record>, N: seq<Record>)
    requires Calm(L, M) && Calm(M, N)
    ensures Calm(L, N)
  {
    forall i | |L| <= i < |N| ensures !N[i].Trigger? && !N[i].GraphRecord? && !N[i].NodeCheckpoint? {
      if i < |M| { assert N[i] == M[i]; }
    }
  }

  lemma CalmItself(L: seq<Record>)
    ensures Calm(L, L) && Extends(L, L)
  {
  }

  /** What concerns no graph keeps every rule about them. */
  lemma {:induction false} CalmKeeps(L: seq<Record>, M: seq<Record>)
    requires Calm(L, M) && GraphsKept(L)
    ensures GraphsKept(M)
    decreases |M|
  {
    hide GraphsKept;
    if |M| == |L| {
      assert M == L;
    } else {
      var N, r := M[..|M| - 1], M[|M| - 1];
      assert M == N + [r];
      CalmKeeps(L, N);
      GraphsAppend(N, r);
    }
  }

  lemma CalmConforms(env: SkillEnv, L: seq<Record>, M: seq<Record>)
    requires Calm(L, M) && AllConform(env, L)
    ensures AllConform(env, M)
  {
    hide OwnOutcomes;
    forall g | Recorded(M, g) ensures Conforms(env, g, M, 0) {
      var i :| 0 <= i < |M| && M[i] == GraphRecord(g);
      assert i < |L| && L[i] == GraphRecord(g);
      assert Recorded(L, g);
      assert forall j :: 0 <= j < |M| && M[j].NodeCheckpoint? ==> j < |L| && M[j] == L[j];
    }
  }

  lemma CalmGrown(env: SkillEnv, L: seq<Record>)
    ensures forall M :: Calm(L, M) ==> Grown(env, L, M)
    ensures forall M :: Calm(L, M) && GraphsKept(L) ==> GraphsKept(M)
    ensures Calm(L, L) && Grown(env, L, L) && Extends(L, L)
  {
    hide GraphsKept, Clean, AllConform;
    CalmItself(L);
    forall M | Calm(L, M) ensures Grown(env, L, M) && (GraphsKept(L) ==> GraphsKept(M)) {
      if GraphsKept(L) {
        CalmKeeps(L, M);
        if AllConform(env, L) { CalmConforms(env, L, M); }
      }
    }
  }

  /** The graph was recorded since the last outcome. */
  ghost predicate Current(L: seq<Record>, g: Graph) {
    GraphRecord(g) in SinceOutcome(L)
  }

  /**
   The context an advance works from: part of the ledger, with every tuning and every graph of this step; what it shows
   of the graphs of earlier segments is up to date.
   */
  ghost predicate Mirrors(context: seq<Record>, L: seq<Record>, step: nat) {
    && Tunings(context) == Tunings(L) && CountOutcomes(context) == CountOutcomes(L)
    && (forall r :: r in context ==> r in L)
    && (forall g :: Recorded(L, g) && g.step == step ==> Recorded(context, g))
    && (forall g :: Recorded(L, g) && g.step == step && !Current(L, g) ==> Faithful(context, L, g))
  }

  lemma MirrorsTunings(context: seq<Record>, L: seq<Record>, step: nat)
    requires Mirrors(context, L, step)
    ensures Tunings(context) == Tunings(L) && CountOutcomes(context) == CountOutcomes(L)
  {
  }

  lemma ItselfMirrors(L: seq<Record>, step: nat)
    ensures Mirrors(L, L, step)
  {
  }

  lemma ReadyOn(L: seq<Record>, M: seq<Record>, gated: set<string>, trig: TriggerRecord, overlay: string)
    requires Ready(L, gated, trig, overlay) && Extends(L, M) && Orderly(M, gated)
    ensures Ready(M, gated, trig, overlay)
  {
    hide Orderly, SinceOutcome, Tunings;
    ExtendsTunings(L, M);
    ExtendsGrows(L, M);
    Listed(SinceOutcome(L), SinceOutcome(M), Trigger(trig));
  }

  lemma ReadyReads(L: seq<Record>, gated: set<string>, trig: TriggerRecord, overlay: string)
    requires Ready(L, gated, trig, overlay)
    ensures Orderly(L, gated) && Trigger(trig) in SinceOutcome(L) && FreshId(Tunings(L), overlay)
  {
  }

  /** A record that only extends: no outcome, tuning or trigger, and nothing about a graph. */
  predicate Plain(r: Record) {
    !r.OutcomeEntry? && !r.PolicyTuning? && !r.GraphRecord? && !r.NodeCheckpoint? && !r.Trigger?
  }

  lemma PlainAppend(
      L: seq<Record>, r: Record, gated: set<string>, trig: TriggerRecord, overlay: string,
      context: seq<Record>, step: nat)
    requires Ready(L, gated, trig, overlay) && Plain(r) && Allowed(L, r, gated) && Mirrors(context, L, step)
    ensures Ready(L + [r], gated, trig, overlay) && Extends(L, L + [r]) && Calm(L, L + [r])
    ensures Mirrors(context, L + [r], step) && Mirrors(context + [r], L + [r], step)
    ensures CurrentStepCount(L + [r]) == CurrentStepCount(L) + if IsStep(r) then 1 else 0
  {
    hide Allowed, Mirrors, SinceOutcome, Tunings, Orderly, CurrentStepCount;
    OrderAppend(L, r, gated);
    ReadyOn(L, L + [r], gated, trig, overlay);
    StepCountAppend(L, r);
    MirrorsAppend(L, r, context, step);
  }

  lemma MirrorsAppend(L: seq<Record>, r: Record, context: seq<Record>, step: nat)
    requires Plain(r) && Mirrors(context, L, step)
    ensures Mirrors(context, L + [r], step) && Mirrors(context + [r], L + [r], step)
  {
    hide SinceOutcome, Tunings, CountOutcomes;
    TuningsAppend(L, r);
    TuningsAppend(context, r);
    CountOutcomesAppend(L, r);
    CountOutcomesAppend(context, r);
    var M := L + [r];
    assert forall x :: x in M <==> x in L || x == r;
    assert forall x :: x in context + [r] <==> x in context || x == r;
    SinceOutcomeAppend(L, r);
    assert forall x :: x in SinceOutcome(M) <==> x in SinceOutcome(L) || x == r;
    forall g | Recorded(M, g) && g.step == step && !Current(M, g)
      ensures Faithful(context, M, g) && Faithful(context + [r], M, g)
    {
      assert Recorded(L, g) && !Current(L, g);
      FaithfulAppend(context, L, r, g);
    }
  }

  lemma FaithfulAppend(context: seq<Record>, L: seq<Record>, r: Record, g: Graph)
    requires Faithful(context, L, g) && Plain(r)
    ensures Faithful(context, L + [r], g) && Faithful(context + [r], L + [r], g)
  {
    hide HasGraph;
    HasGraphMore(L, r, g.id);
    HasGraphMore(context, r, g.id);
    forall c { StatusOfAppend(L, r, g.id, c); }
    forall c { StatusOfAppend(context, r, g.id, c); }
  }

  lemma ContextMore(context: seq<Record>, L: seq<Record>, r: Record, step: nat)
    requires Mirrors(context, L, step) && Plain(r)
    ensures r in L ==> Mirrors(context + [r], L, step)
  {
    hide SinceOutcome, Tunings, CountOutcomes;
    TuningsAppend(context, r);
    CountOutcomesAppend(context, r);
    assert forall x :: x in context + [r] <==> x in context || x == r;
    forall g | Recorded(L, g) && g.step == step && !Current(L, g) ensures Faithful(context + [r], L, g) {
      HasGraphMore(context, r, g.id);
      forall c { StatusOfAppend(context, r, g.id, c); }
    }
  }

  /******* The steps of decisions and graphs *******/

  /** The step a decision may take now: the current count, or the one after a suspended step just resumed. */
  ghost predicate DecisionFits(L: seq<Record>, trig: TriggerRecord, step: nat) {
    step == CurrentStepCount(L) || ResumesAt(L, trig, step)
  }

  /** The step a graph may take now: one already counted, or one an approval resumed. */
  ghost predicate StepTaken(L: seq<Record>, trig: TriggerRecord, step: nat) {
    step < CurrentStepCount(L) || ResumesAt(L, trig, step)
  }

  lemma DecisionTaken(L: seq<Record>, r: Record, gated: set<string>, trig: TriggerRecord, step: nat)
    requires DecisionFits(L, trig, step) && r.ModelDecision? && r.step == step
    ensures Allowed(L, r, gated) && StepTaken(L + [r], trig, step)
  {
    hide SinceOutcome, CurrentStepCount;
    StepCountAppend(L, r);
    if ResumesAt(L, trig, step) {
      var a :| Answering(L, trig, a) && step == a.step + 1;
      Listed(L, L + [r], Pending(a));
      assert Answering(L + [r], trig, a);
      SinceOutcomeAppend(L, r);
      assert Trigger(trig) in SinceOutcome(L + [r]);
    }
  }

  lemma DecisionFitsOn(L: seq<Record>, M: seq<Record>, trig: TriggerRecord, step: nat)
    requires DecisionFits(L, trig, step) && Extends(L, M) && CurrentStepCount(M) == CurrentStepCount(L)
    ensures DecisionFits(M, trig, step)
  {
    hide SinceOutcome, CurrentStepCount;
    if ResumesAt(L, trig, step) {
      ExtendsGrows(L, M);
      Listed(SinceOutcome(L), SinceOutcome(M), Trigger(trig));
      var a :| Answering(L, trig, a) && step == a.step + 1;
      Listed(L, M, Pending(a));
      assert Answering(M, trig, a);
    }
  }

  /** A recorded graph was decided freely or approved, and its id carries its own step. */
  lemma RecordedSourced(L: seq<Record>, gated: set<string>, g: Graph)
    requires Orderly(L, gated) && Recorded(L, g)
    ensures Sourced(L, g, gated) && g.id.step == g.step && HasTrigger(L, g.id.trigger)
  {
    hide Sourced, SinceOutcome, CurrentStepCount, HasTrigger;
    var i :| 0 <= i < |L| && L[i] == GraphRecord(g);
    assert AllowedAt(L, i, gated);
    SourcedOn(L[..i], L, g, gated);
    var t, j := TriggerBefore(L, gated, g, i);
    TriggerListed(L, t, j);
  }

  lemma TriggerListed(L: seq<Record>, t: TriggerRecord, j: nat)
    requires j < |L| && L[j] == Trigger(t)
    ensures HasTrigger(L, t.id)
  {
    assert L[j] in L;
  }

  /** The calls a continuation rebuilds of a recorded graph are planned as the very nodes of that graph. */
  lemma RebuiltRecorded(L: seq<Record>, gated: set<string>, g: Graph)
    requires Orderly(L, gated) && Recorded(L, g)
    ensures NodesOf(CallsOf(g)) == g.nodes && NewGraph(g.id.trigger, g.step, CallsOf(g)) == g
  {
    hide Orderly, NodesOf;
    RecordedSourced(L, gated, g);
    hide Resolved, Ungated;
    var calls :| g.nodes == NodesOf(calls);
    NodesRebuilt(g, calls);
  }

  /******* What an advance achieves *******/

  /** From `L` to `M` a decision was recorded at this step, and the skills it called were performed. */
  ghost predicate CarriedOut(L: seq<Record>, M: seq<Record>, triggerId: string, step: nat) {
    exists i :: DecidedAt(L, M, triggerId, step, i)
  }

  ghost predicate DecidedAt(L: seq<Record>, M: seq<Record>, triggerId: string, step: nat, i: nat) {
    && |L| <= i < |M| && M[i].ModelDecision? && M[i].step == step
    && (M[i].action.CallSkills? ==> Performed(M[..i + 1], M, triggerId, step, M[i].action.calls))
  }

  /** No graph was recorded, and every checkpoint went under this id. */
  ghost predicate Strayed(L: seq<Record>, M: seq<Record>, id: GraphId) {
    L <= M && forall i :: |L| <= i < |M| ==>
      !M[i].GraphRecord? && (M[i].NodeCheckpoint? ==> M[i].checkpoint.graph == id)
  }

  /** The outcome is recorded and no trigger waits any longer: a further continuation changes nothing. */
  ghost predicate Concluded(M: seq<Record>, outcome: OutcomeRecord) {
    OutcomeEntry(outcome) in M && ActiveTrigger(M).None?
  }

  /** From `L` to `M` the outcome was recorded, if at all, first; only lessons and tunings follow. */
  ghost predicate Closes(L: seq<Record>, M: seq<Record>, outcome: OutcomeRecord) {
    L <= M && forall i :: |L| <= i < |M| ==>
      (i == |L| && M[i] == OutcomeEntry(outcome)) || M[i].Note? || M[i].PolicyTuning?
  }

  ghost predicate OnlyNotes(L: seq<Record>, M: seq<Record>) {
    L <= M && forall i :: |L| <= i < |M| ==> M[i] == Note
  }

  ghost predicate OnlyLessons(L: seq<Record>, M: seq<Record>) {
    L <= M && forall i :: |L| <= i < |M| ==> M[i].Note? || M[i].PolicyTuning?
  }

  /** From `L` to `M` nothing was decided and nothing executed. */
  ghost predicate NothingDone(L: seq<Record>, M: seq<Record>) {
    L <= M && forall i :: |L| <= i < |M| ==> M[i].OutcomeEntry? || M[i].Note? || M[i].PolicyTuning?
  }

  /** The tunings after an outcome, given the `outcomes` seen. */
  function Learned(ts: seq<Tuning>, policy: EnginePolicy, outcome: OutcomeRecord, outcomes: nat, id: string)
    : seq<Tuning> {
    var t := NextTuning(ts, policy, outcome, outcomes, id);
    if t.Some? then ts + [t.value] else ts
  }

  function ResultRecords(results: seq<ToolResult>): seq<Record> {
    seq(|results|, i requires 0 <= i < |results| => ResultRecord(results[i]))
  }

  function RefusedResults(calls: seq<Call>): seq<ToolResult> {
    seq(|calls|, i requires 0 <= i < |calls| => ToolResult(calls[i].callId, calls[i].name, Err(PermissionDenied)))
  }

  /** Every one of these calls has a permission error for its result. */
  ghost predicate AllRefused(M: seq<Record>, calls: seq<Call>) {
    forall call :: call in calls ==> ResultRecord(ToolResult(call.callId, call.name, Err(PermissionDenied))) in M
  }

  lemma RefusedListed(L: seq<Record>, calls: seq<Call>)
    ensures AllRefused(L + ResultRecords(RefusedResults(calls)), calls)
    ensures forall r :: r in RefusedResults(calls) ==> r.output != Ok
  {
    var M := L + ResultRecords(RefusedResults(calls));
    forall call | call in calls
      ensures ResultRecord(ToolResult(call.callId, call.name, Err(PermissionDenied))) in M
    {
      var i :| 0 <= i < |calls| && calls[i] == call;
      assert M[|L| + i] == ResultRecord(ToolResult(call.callId, call.name, Err(PermissionDenied)));
    }
  }

  /** The actions that end an advance with an outcome. */
  ghost predicate Ends(action: Action, gated: set<string>) {
    match action
    case Respond => true
    case Yield => true
    case Suspend(_, _) => true
    case Delegate(_) => true
    case CallSkills(calls) => !Ungated(calls, gated)
    case _ => false
  }

  function StopOf(action: Action): StopReason {
    match action
    case Respond => Responded
    case Yield => Yielded
    case Delegate(_) => Delegated
    case _ => Suspended
  }

  function PendingCalls(action: Action): seq<Call> {
    match action
    case Suspend(calls, _) => calls
    case CallSkills(calls) => calls
    case _ => []
  }

  /** All the calls of the action wait under the token for an approval of this step. */
  ghost predicate Suspends(M: seq<Record>, trig: TriggerRecord, step: nat, action: Action, token: Option<string>) {
    token.Some? && Pending(PendingApproval(token.value, trig.id, step, PendingCalls(action))) in M
  }

  /** The pending record a delivered approval is about, and the decision it has or gets; the first one stands. */
  function ApprovalOf(L: seq<Record>, token: string, decision: Decision): Option<(PendingApproval, Decision)> {
    if PendingByToken(L, token).Some? then Some((PendingByToken(L, token).value, decision))
    else if FirstResolution(L, token).Some? && FirstPending(L, token).Some?
    then Some((FirstPending(L, token).value, FirstResolution(L, token).value))
    else None
  }

  /**
   The approval the trigger delivered was answered: a pending record is resolved now; rejected calls are refused;
   approved calls have run under this delivery exactly when no recorded graph of the suspended step had their call
   ids; and on a repeated delivery they have run under some delivery exactly when such a graph comes from one.
   */
  ghost predicate Answered(
      L: seq<Record>, M: seq<Record>, triggerId: string, token: string, decision: Decision) {
    ApprovalOf(L, token, decision).Some? ==>
      var (a, effective) := ApprovalOf(L, token, decision).value;
      && (PendingByToken(L, token).Some? ==> Resolution(token, decision) in M)
      && match effective
         case Approved =>
           GraphsKept(L) && Clean(M) ==>
             && RunsIfNovel(L, M, triggerId, a.step, a.calls)
             && (PendingByToken(L, token).None? ==> (ApprovalRan(M, a) <==> ApprovalOwn(L, a)))
         case Rejected => AllRefused(M, a.calls)
  }

  /******* Notes, lessons and results *******/

  lemma LessonsItself(L: seq<Record>)
    ensures OnlyLessons(L, L)
  {
  }

  lemma LessonsOn(L: seq<Record>, M: seq<Record>, N: seq<Record>)
    requires OnlyLessons(L, M) && OnlyLessons(M, N)
    ensures OnlyLessons(L, N)
  {
    forall i | |L| <= i < |N| ensures N[i].Note? || N[i].PolicyTuning? {
      if i < |M| { assert N[i] == M[i]; }
    }
  }

  lemma NothingLearned(ts: seq<Tuning>, policy: EnginePolicy, outcome: OutcomeRecord, outcomes: nat, id: string)
    ensures !policy.selfImprovement.enabled ==> NextTuning(ts, policy, outcome, outcomes, id).None?
  {
  }

  /** The tunings of a session form a lawful run of self-improvement. */
  lemma {:induction false} SessionTunings(L: seq<Record>, gated: set<string>)
    requires Orderly(L, gated)
    ensures LawfulTunings(Tunings(L))
  {
    hide Orderly, TuningRule, LawfulTunings;
    if L == [] {
      NoTunings();
    } else {
      var P, r := L[..|L| - 1], L[|L| - 1];
      OrderPrefix(L, |L| - 1, gated);
      SessionTunings(P, gated);
      if r.PolicyTuning? {
        TuningAllowed(L, |L| - 1, gated);
        LawfulTuningsAppend(Tunings(P), r.tuning);
      }
    }
  }

  lemma NoTunings()
    ensures LawfulTunings([])
  {
  }

  lemma TuningAllowed(L: seq<Record>, i: nat, gated: set<string>)
    requires Orderly(L, gated) && i < |L| && L[i].PolicyTuning?
    ensures TuningRule(Tunings(L[..i]), L[i].tuning)
  {
    hide Tunings;
    assert AllowedAt(L, i, gated);
  }

  lemma LawfulTuningsAppend(ts: seq<Tuning>, t: Tuning)
    requires LawfulTunings(ts) && TuningRule(ts, t)
    ensures LawfulTunings(ts + [t])
  {
    assert (ts + [t])[..|ts|] == ts;
  }

  /******* What an advance learns, decides and is limited by *******/

  /** Self-improvement appended at most one tuning, the one some outcome called for under this policy. */
  ghost predicate TunedStep(L: seq<Record>, M: seq<Record>, policy: EnginePolicy, overlay: string) {
    || Tunings(M) == Tunings(L)
    || exists outcome, outcomes ::
         var t := NextTuning(Tunings(L), policy, outcome, outcomes, overlay);
         t.Some? && Tunings(M) == Tunings(L) + [t.value]
  }

  /** A new outcome was learned from: the tunings grew by the one it calls for, if any. */
  ghost predicate Tunes(L: seq<Record>, M: seq<Record>, policy: EnginePolicy, overlay: string, r: Advanced) {
    && TunedStep(L, M, policy, overlay)
    && (r.Finished? && !r.replay ==>
          Tunings(M) == Learned(Tunings(L), policy, r.outcome, CountOutcomes(L) + 1, overlay))
  }

  lemma {:induction false} ExtendsCount(L: seq<Record>, M: seq<Record>)
    requires Extends(L, M)
    ensures CountOutcomes(M) == CountOutcomes(L)
    decreases |M|
  {
    if |M| == |L| {
      assert M == L;
    } else {
      var N, r := M[..|M| - 1], M[|M| - 1];
      assert M == N + [r];
      ExtendsCount(L, N);
      CountOutcomesAppend(N, r);
    }
  }

  lemma TunesSince(
      L: seq<Record>, M: seq<Record>, N: seq<Record>, policy: EnginePolicy, overlay: string, r: Advanced)
    requires Extends(L, M) && Tunes(M, N, policy, overlay, r)
    ensures Tunes(L, N, policy, overlay, r)
  {
    hide NextTuning;
    ExtendsTunings(L, M);
    ExtendsCount(L, M);
  }

  /** Without an outcome, or with one that only reports a storage failure, there is nothing to learn. */
  lemma NothingTuned(L: seq<Record>, M: seq<Record>, policy: EnginePolicy, overlay: string)
    requires Extends(L, M)
    ensures
      forall r: Advanced :: !r.Finished? || r.replay || r.outcome.stop == StorageFailure ==>
        Tunes(L, M, policy, overlay, r)
  {
    ExtendsTunings(L, M);
  }

  lemma TunesBy(
      L: seq<Record>, M: seq<Record>, policy: EnginePolicy, overlay: string, outcome: OutcomeRecord, r: Advanced)
    requires r.Faulted? || r == Finished(outcome, false)
    requires
      Tunings(M) == Tunings(L)
      || Tunings(M) == Learned(Tunings(L), policy, outcome, CountOutcomes(L) + 1, overlay)
    requires
      r.Finished? ==> Tunings(M) == Learned(Tunings(L), policy, outcome, CountOutcomes(L) + 1, overlay)
    ensures Tunes(L, M, policy, overlay, r)
  {
    hide NextTuning;
    var t := NextTuning(Tunings(L), policy, outcome, CountOutcomes(L) + 1, overlay);
  }

  /** From `L` to `M` no decision was recorded. */
  ghost predicate Undecided(L: seq<Record>, M: seq<Record>) {
    L <= M && forall i :: |L| <= i < |M| ==> !M[i].ModelDecision?
  }

  lemma UndecidedOn(L: seq<Record>, M: seq<Record>, N: seq<Record>)
    requires Undecided(L, M) && Undecided(M, N)
    ensures Undecided(L, N)
  {
    forall i | |L| <= i < |N| ensures !N[i].ModelDecision? {
      if i < |M| { assert N[i] == M[i]; }
    }
  }

  /** From `L` to `M` every result came after a decision. */
  ghost predicate DecidesFirst(L: seq<Record>, M: seq<Record>) {
    L <= M && forall i :: |L| <= i < |M| && M[i].ResultRecord? ==> !Undecided(L, M[..i])
  }

  /**
   What the limits do to an advance from `L` to `M`: at a limit nothing is decided, and unless it is cancelled, late or
   the store fails, the advance ends with that limit's stop reason; below both it never reports one of them.
   */
  ghost predicate Limited(
      policy: EnginePolicy, steps: nat, failures: nat, L: seq<Record>, M: seq<Record>, r: Advanced) {
    if steps >= policy.maxSteps || failures >= policy.maxFailures then
      && !r.Paused? && Undecided(L, M)
      && (r.Finished? && r.outcome.stop != Cancelled && r.outcome.stop != DeadlineExceeded
          && r.outcome.stop != StorageFailure ==>
            && r.outcome.stop == (if steps >= policy.maxSteps then MaxStepsReached else PolicyAborted)
            && r.outcome.steps == steps && !r.outcome.mentionsCost && !r.outcome.mentionsTimeout)
    else
      r.Finished? ==>
        r.outcome.stop != MaxStepsReached && (r.outcome.stop == PolicyAborted ==> r.outcome.mentionsCost)
  }

  lemma LimitedSince(
      policy: EnginePolicy, steps: nat, failures: nat, L: seq<Record>, M: seq<Record>, N: seq<Record>, r: Advanced)
    requires Undecided(L, M) && Limited(policy, steps, failures, M, N, r) && M <= N
    ensures Limited(policy, steps, failures, L, N, r)
  {
    hide Undecided;
    if Undecided(M, N) { UndecidedOn(L, M, N); }
  }

  /**
   When the latest decisions of the segment, as many as the limit allows, each called skills and got one failed result
   per call, nothing more is decided.
   */
  ghost predicate StreakStops(policy: EnginePolicy, L: seq<Record>, M: seq<Record>, r: Advanced) {
    NoStrays(SinceOutcome(L)) && LastFailed(L, policy.maxFailures) ==> !r.Paused? && Undecided(L, M)
  }

  lemma LimitStops(policy: EnginePolicy, steps: nat, L: seq<Record>, M: seq<Record>, r: Advanced)
    requires Limited(policy, steps, ConsecutiveFailures(L), L, M, r)
    ensures StreakStops(policy, L, M, r)
  {
    hide SinceOutcome, NoStrays, LastFailed, ConsecutiveFailures, Undecided;
    if NoStrays(SinceOutcome(L)) { StreakReaches(L, policy.maxFailures); }
  }

  lemma {:induction false} NotesStreak(L: seq<Record>, M: seq<Record>)
    requires OnlyNotes(L, M)
    ensures ConsecutiveFailures(M) == ConsecutiveFailures(L) && Undecided(L, M)
    decreases |M|
  {
    hide ConsecutiveFailures;
    if |M| == |L| {
      assert M == L;
    } else {
      var N, r := M[..|M| - 1], M[|M| - 1];
      assert M == N + [r];
      NotesStreak(L, N);
      StreakQuiet(N, r);
    }
  }

  /** Every result recorded from `L` to `M` before the first decision there is an error. */
  ghost predicate SettledFailed(L: seq<Record>, M: seq<Record>) {
    L <= M && forall i :: |L| <= i < |M| && M[i].ResultRecord? && Undecided(L, M[..i]) ==> M[i].result.output != Ok
  }

  lemma SettledOn(L: seq<Record>, M: seq<Record>, N: seq<Record>)
    requires Undecided(L, M) && DecidesFirst(M, N)
    ensures SettledFailed(L, N) <==> SettledFailed(L, M)
  {
    forall i | |L| <= i < |M| ensures N[..i] == M[..i] && N[i] == M[i] {}
    forall i | |M| <= i < |N| && N[i].ResultRecord? ensures !Undecided(L, N[..i]) {
      var j :| |M| <= j < i && N[..i][j].ModelDecision?;
    }
    if SettledFailed(L, M) {
      forall i | |L| <= i < |N| && N[i].ResultRecord? && Undecided(L, N[..i]) ensures N[i].result.output != Ok {
        assert i < |M|;
      }
    }
  }

  lemma SettledSince(L: seq<Record>, M: seq<Record>, N: seq<Record>)
    requires Idly(L, M) && M <= N
    ensures SettledFailed(L, N) <==> SettledFailed(M, N)
    ensures Undecided(L, N) <==> Undecided(M, N)
  {
    forall i | |M| <= i <= |N| ensures Undecided(L, N[..i]) <==> Undecided(M, N[..i]) {
      assert forall j :: |L| <= j < |M| ==> N[..i][j] == M[j];
    }
    assert N[..|N|] == N;
    forall i | |L| <= i < |M| ensures !N[i].ResultRecord? { assert N[i] == M[i]; }
  }

  /** A batch and its results decide nothing, and all failed exactly when every result is an error. */
  lemma SettledBy(L: seq<Record>, M: seq<Record>, results: seq<ToolResult>)
    requires Idly(L, M)
    ensures
      var N := M + ResultRecords(results);
      Undecided(L, N) && (SettledFailed(L, N) <==> forall r :: r in results ==> r.output != Ok)
  {
    var N := M + ResultRecords(results);
    assert Undecided(L, N);
    if SettledFailed(L, N) {
      forall r | r in results ensures r.output != Ok {
        var k :| 0 <= k < |results| && results[k] == r;
        assert N[|M| + k] == ResultRecord(r);
        assert Undecided(L, N[..|M| + k]);
      }
    }
  }

  lemma ClosesNothing(L: seq<Record>, M: seq<Record>, outcome: OutcomeRecord)
    requires Closes(L, M, outcome)
    ensures NothingDone(L, M) && Undecided(L, M) && DecidesFirst(L, M)
  {
  }

  /** From `L` to `M` nothing was decided and no result came. */
  ghost predicate Idly(L: seq<Record>, M: seq<Record>) {
    L <= M && forall i :: |L| <= i < |M| ==> !M[i].ModelDecision? && !M[i].ResultRecord?
  }

  lemma IdlyOn(L: seq<Record>, M: seq<Record>, N: seq<Record>)
    requires Idly(L, M) && Idly(M, N)
    ensures Idly(L, N)
  {
    forall i | |L| <= i < |N| ensures !N[i].ModelDecision? && !N[i].ResultRecord? {
      if i < |M| { assert N[i] == M[i]; }
    }
  }

  lemma NotesDecideNothing(L: seq<Record>, M: seq<Record>)
    requires OnlyNotes(L, M)
    ensures Undecided(L, M) && DecidesFirst(L, M) && Idly(L, M)
  {
  }

  lemma BatchUndecided(g: Graph, known: bool, L: seq<Record>, M: seq<Record>)
    requires Batch(g, known, L, M)
    ensures Idly(L, M)
  {
    forall i | |L| <= i < |M| ensures !M[i].ModelDecision? && !M[i].ResultRecord? { assert BatchRecord(g, M[i]); }
  }

  lemma DecidesFirstSince(L: seq<Record>, M: seq<Record>, N: seq<Record>)
    requires Undecided(L, M) && DecidesFirst(L, M) && DecidesFirst(M, N)
    ensures DecidesFirst(L, N)
  {
    forall i | |L| <= i < |N| && N[i].ResultRecord? ensures !Undecided(L, N[..i]) {
      if i < |M| {
        assert N[..i] == M[..i] && N[i] == M[i];
      } else {
        var j :| |M| <= j < i && N[..i][j].ModelDecision?;
      }
    }
  }

  lemma DecidedAtOnce(L: seq<Record>, step: nat, action: Action, M: seq<Record>)
    requires M == L || L + [ModelDecision(step, action)] <= M
    ensures DecidesFirst(L, M)
  {
    forall i | |L| <= i < |M| && M[i].ResultRecord? ensures !Undecided(L, M[..i]) {
      assert M[..i][|L|] == ModelDecision(step, action);
    }
  }

  /** An action that ends an advance never ends it at a limit. */
  lemma ActionLimited(
      policy: EnginePolicy, steps: nat, failures: nat, L: seq<Record>, M: seq<Record>, r: Advanced)
    requires steps < policy.maxSteps && failures < policy.maxFailures
    requires r.Finished? ==> r.outcome.stop != MaxStepsReached && r.outcome.stop != PolicyAborted
    ensures Limited(policy, steps, failures, L, M, r)
  {
  }

  /**
   How an advance that received the trigger ends, given the ledger `L` before it: what it learned, what limited it, and
   the decision it carried out if it goes on. After an approval the step is the one after the suspended step, and the
   settled calls count as one more failed step when every result they got is an error.
   */
  ghost predicate TriggerHandled(
      L: seq<Record>, N: seq<Record>, policy: EnginePolicy, trig: TriggerRecord, overlay: string, r: Advanced) {
    && Tunes(L, N, policy, overlay, r)
    && (r.Finished? ==> !r.replay && r.outcome.triggerId == trig.id)
    && match trig.kind
       case Approval(token, decision) => ApprovalHandled(L, N, policy, trig.id, ApprovalOf(L, token, decision), r)
       case _ =>
         && Limited(policy, CurrentStepCount(L), ConsecutiveFailures(L), L, N, r)
         && (r.Paused? ==> CarriedOut(L, N, trig.id, CurrentStepCount(L)))
  }

  ghost predicate ApprovalHandled(
      L: seq<Record>, N: seq<Record>, policy: EnginePolicy, triggerId: string,
      found: Option<(PendingApproval, Decision)>, r: Advanced) {
    if found.None? then
      !r.Paused? && Undecided(L, N)
      && (r.Finished? && r.outcome.stop != StorageFailure ==> r.outcome.stop == PolicyAborted)
    else
      var step := found.value.0.step + 1;
      && Limited(policy, step, ConsecutiveFailures(L) + (if SettledFailed(L, N) then 1 else 0), L, N, r)
      && (r.Paused? ==> CarriedOut(L, N, triggerId, step))
  }

  /** An advance that was cut short, or whose trigger or decision could not be stored. */
  lemma HandledShort(
      L: seq<Record>, N: seq<Record>, policy: EnginePolicy, trig: TriggerRecord, overlay: string, r: Advanced)
    requires Extends(L, N) && Undecided(L, N)
    requires
      r.Finished? ==> !r.replay && r.outcome.stop == StorageFailure && r.outcome.triggerId == trig.id
    requires !r.Paused?
    ensures TriggerHandled(L, N, policy, trig, overlay, r)
  {
    hide CurrentStepCount, ConsecutiveFailures, ApprovalOf, SettledFailed, Tunes;
    NothingTuned(L, N, policy, overlay);
  }

  /** What arrives with a trigger changes nothing of this. */
  lemma HandledSince(
      L: seq<Record>, M: seq<Record>, N: seq<Record>, policy: EnginePolicy, trig: TriggerRecord, overlay: string,
      r: Advanced)
    requires Extends(L, M) && Idly(L, M) && SamePast(L, M) && M <= N
    requires CurrentStepCount(M) == CurrentStepCount(L) && ConsecutiveFailures(M) == ConsecutiveFailures(L)
    requires TriggerHandled(M, N, policy, trig, overlay, r)
    ensures TriggerHandled(L, N, policy, trig, overlay, r)
  {
    hide CurrentStepCount, ConsecutiveFailures, ApprovalOf, SettledFailed, Tunes, CarriedOut, GraphsKept, ApprovalOwn,
         MatchingGraph, PendingByToken, Undecided;
    TunesSince(L, M, N, policy, overlay, r);
    SettledSince(L, M, N);
    match trig.kind
    case Approval(token, decision) =>
      SameApproval(L, M, token, decision);
      var found := ApprovalOf(L, token, decision);
      if found.Some? && r.Paused? { CarriedOutSince(L, M, N, trig.id, found.value.0.step + 1); }
    case _ =>
      if r.Paused? { CarriedOutSince(L, M, N, trig.id, CurrentStepCount(L)); }
  }

  /** A pause means both limits were still some way off. */
  lemma HandledReads(
      L: seq<Record>, N: seq<Record>, policy: EnginePolicy, trig: TriggerRecord, overlay: string, r: Advanced)
    requires TriggerHandled(L, N, policy, trig, overlay, r)
    ensures r.Finished? ==> !r.replay && r.outcome.triggerId == trig.id
    ensures
      r.Paused? ==>
        match trig.kind
        case Approval(token, decision) =>
          && ApprovalOf(L, token, decision).Some?
          && ApprovalOf(L, token, decision).value.0.step + 1 < policy.maxSteps
          && ConsecutiveFailures(L) < policy.maxFailures
          && CarriedOut(L, N, trig.id, ApprovalOf(L, token, decision).value.0.step + 1)
        case _ =>
          && CurrentStepCount(L) < policy.maxSteps && ConsecutiveFailures(L) < policy.maxFailures
          && CarriedOut(L, N, trig.id, CurrentStepCount(L))
    ensures !trig.kind.Approval? ==> StreakStops(policy, L, N, r)
  {
    hide CurrentStepCount, ConsecutiveFailures, ApprovalOf, SettledFailed, Tunes, CarriedOut, StreakStops, Undecided;
    if !trig.kind.Approval? { LimitStops(policy, CurrentStepCount(L), L, N, r); }
  }

  /** What was settled and then decided, seen from before the approval was resolved. */
  lemma ApprovalLimited(
      policy: EnginePolicy, step: nat, failures: nat, L: seq<Record>, Q: seq<Record>, N: seq<Record>, allFailed: bool,
      r: Advanced)
    requires Undecided(L, Q) && (allFailed <==> SettledFailed(L, Q)) && DecidesFirst(Q, N)
    requires Limited(policy, step, failures + (if allFailed then 1 else 0), Q, N, r)
    ensures Limited(policy, step, failures + (if SettledFailed(L, N) then 1 else 0), L, N, r)
  {
    hide Undecided, SettledFailed;
    SettledOn(L, Q, N);
    LimitedSince(policy, step, failures + (if allFailed then 1 else 0), L, Q, N, r);
  }

  /** A step for a trigger that is no approval. */
  lemma StepHandled(
      policy: EnginePolicy, L: seq<Record>, N: seq<Record>, trig: TriggerRecord, overlay: string, r: Advanced)
    requires !trig.kind.Approval? && Tunes(L, N, policy, overlay, r)
    requires Limited(policy, CurrentStepCount(L), ConsecutiveFailures(L), L, N, r)
    requires r.Paused? ==> CarriedOut(L, N, trig.id, CurrentStepCount(L))
    requires r.Finished? ==> !r.replay && r.outcome.triggerId == trig.id
    ensures TriggerHandled(L, N, policy, trig, overlay, r)
  {
    hide Tunes, Limited, CarriedOut, CurrentStepCount, ConsecutiveFailures;
  }

  /** A trigger or a decision that could not be stored decides nothing more. */
  lemma ShortStops(policy: EnginePolicy, L: seq<Record>, M: seq<Record>, r: Advanced)
    requires Undecided(L, M) && !r.Paused?
    ensures StreakStops(policy, L, M, r)
  {
    hide SinceOutcome, LastFailed, NoStrays;
  }

  /** An outcome was recorded under this idempotency key. */
  ghost predicate KeyRecorded(L: seq<Record>, key: Option<string>) {
    key.Some? && exists o :: OutcomeEntry(o) in L && o.key == key
  }

  /** The look-up by key finds an outcome recorded under the key, if there is one. */
  lemma KeyFound(L: seq<Record>, key: Option<string>)
    ensures KeyRecorded(L, key) <==> key.Some? && OutcomeByKey(L, key.value).Some?
    ensures
      KeyRecorded(L, key) ==>
        var o := OutcomeByKey(L, key.value).value;
        OutcomeEntry(o) in L && o.key == key
  {
    hide OutcomeByKey;
    if key.Some? { OutcomeByKeyWitness(L, key.value); }
    forall r | r in L && r.OutcomeEntry? ensures OutcomeEntry(r.outcome) in L {}
  }

  lemma NothingLearnedYet(L: seq<Record>, policy: EnginePolicy, overlay: string)
    ensures TunedStep(L, L, policy, overlay)
  {
  }

  lemma RecordIdly(L: seq<Record>, r: Record, M: seq<Record>)
    requires (M == L || M == L + [r]) && !r.ModelDecision? && !r.ResultRecord?
    ensures Idly(L, M)
  {
  }

  lemma IdlyReads(L: seq<Record>, M: seq<Record>)
    requires Idly(L, M)
    ensures Undecided(L, M)
  {
  }

  lemma OutcomeGrows(L: seq<Record>, outcome: OutcomeRecord)
    ensures Calm(L, L + [OutcomeEntry(outcome)]) && Calm(L, L)
  {
  }

  lemma Concludes(L: seq<Record>, N: seq<Record>, M: seq<Record>, outcome: OutcomeRecord)
    requires N == L + [OutcomeEntry(outcome)] && OnlyLessons(N, M)
    ensures Concluded(M, outcome)
    decreases |M|
  {
    if |M| == |N| {
      assert M == N && M[|L|] == OutcomeEntry(outcome);
      ActiveTriggerAppend(L, OutcomeEntry(outcome));
    } else {
      var P, r := M[..|M| - 1], M[|M| - 1];
      assert M == P + [r];
      Concludes(L, N, P, outcome);
      ActiveTriggerAppend(P, r);
    }
  }

  lemma OneMoreResult(results: seq<ToolResult>, i: nat)
    requires i < |results|
    ensures ResultRecords(results[..i + 1]) == ResultRecords(results[..i]) + [ResultRecord(results[i])]
  {
  }

  lemma NotesKeep(L: seq<Record>, M: seq<Record>)
    requires OnlyNotes(L, M)
    ensures Extends(L, M)
    ensures CurrentStepCount(M) == CurrentStepCount(L)
    decreases |M|
  {
    hide CurrentStepCount;
    if |M| == |L| {
      assert M == L;
    } else {
      var N, r := M[..|M| - 1], M[|M| - 1];
      assert M == N + [r];
      NotesKeep(L, N);
      StepCountAppend(N, r);
    }
  }

  lemma SamePolicy(policy: EnginePolicy, L: seq<Record>, M: seq<Record>)
    requires Extends(L, M)
    ensures EffectivePolicy(policy, M) == EffectivePolicy(policy, L)
  {
    ExtendsTunings(L, M);
  }

  lemma CountFits(M: seq<Record>, trig: TriggerRecord, steps: nat)
    requires steps == CurrentStepCount(M)
    ensures DecisionFits(M, trig, steps)
  {
  }

  /** Keeping results does not disturb a graph, at rest or not. */
  lemma StillAtRest(g: Graph, M: seq<Record>, results: seq<ToolResult>)
    ensures AtRest(g, M + ResultRecords(results)) <==> AtRest(g, M)
  {
    SameFinals(g, M, results);
  }

  lemma PerformedWithResults(
      P: seq<Record>, M: seq<Record>, triggerId: string, step: nat, calls: seq<Call>, results: seq<ToolResult>)
    requires Performed(P, M, triggerId, step, calls)
    requires GraphsKept(P) && Clean(P) && Repeats(P, step, calls) ==> results == []
    ensures Performed(P, M + ResultRecords(results), triggerId, step, calls)
  {
    hide GraphsKept, Clean, Repeats, AtRest, CallIds, MatchingGraph, NodesOf, NothingRun;
    var N, g := M + ResultRecords(results), NewGraph(triggerId, step, calls);
    if GraphsKept(P) && Clean(P) {
      StillAtRest(g, M, results);
      assert GraphRecord(g) in N <==> GraphRecord(g) in M;
      if !Novel(P, step, calls) { StillAtRest(MatchingGraph(P, step, CallIds(calls)).value, M, results); }
      if Repeats(P, step, calls) { assert N == M; }
    }
  }

  lemma CarriedOutSince(L: seq<Record>, M: seq<Record>, N: seq<Record>, triggerId: string, step: nat)
    requires L <= M && CarriedOut(M, N, triggerId, step)
    ensures CarriedOut(L, N, triggerId, step)
  {
    hide Performed;
    var i :| DecidedAt(M, N, triggerId, step, i);
    assert DecidedAt(L, N, triggerId, step, i);
  }

  lemma JustDecided(L: seq<Record>, N: seq<Record>, triggerId: string, step: nat, action: Action)
    requires L + [ModelDecision(step, action)] <= N
    requires action.CallSkills? ==> Performed(L + [ModelDecision(step, action)], N, triggerId, step, action.calls)
    ensures CarriedOut(L, N, triggerId, step)
  {
    hide Performed;
    assert N[..|L| + 1] == L + [ModelDecision(step, action)];
    assert N[|L|] == ModelDecision(step, action);
    assert DecidedAt(L, N, triggerId, step, |L|);
  }

  /** The result of each call of the graph that was settled from `L` to `M` is kept in `M`. */
  ghost predicate ResultsKept(env: SkillEnv, g: Graph, L: seq<Record>, M: seq<Record>) {
    forall n :: n in g.nodes && n.callId in FinalMap(M, g) && n.callId !in FinalMap(L, g) ==>
      ResultRecord(ResultFor(env, n, FinalMap(M, g)[n.callId])) in M
  }

  lemma ResultsKeptBy(env: SkillEnv, g: Graph, L: seq<Record>, M: seq<Record>)
    ensures
      ResultsKept(env, g, L, M + ResultRecords(NewResults(env, g.nodes, FinalMap(L, g), FinalMap(M, g))))
  {
    hide FinalMap, NewResults, ResultFor;
    var results := NewResults(env, g.nodes, FinalMap(L, g), FinalMap(M, g));
    SameFinals(g, M, results);
    var N := M + ResultRecords(results);
    forall n | n in g.nodes && n.callId in FinalMap(M, g) && n.callId !in FinalMap(L, g)
      ensures ResultRecord(ResultFor(env, n, FinalMap(M, g)[n.callId])) in N
    {
      NewResultListed(env, g.nodes, FinalMap(L, g), FinalMap(M, g), n);
      var r := ResultFor(env, n, FinalMap(M, g)[n.callId]);
      var k :| 0 <= k < |results| && results[k] == r;
      assert N[|M| + k] == ResultRecord(r);
    }
  }

  lemma {:induction false} NewResultListed(
      env: SkillEnv, nodes: seq<Node>, m0: map<string, Status>, m: map<string, Status>, n: Node)
    requires n in nodes && n.callId in m && n.callId !in m0
    ensures ResultFor(env, n, m[n.callId]) in NewResults(env, nodes, m0, m)
  {
    hide ResultFor;
    if n != nodes[|nodes| - 1] { NewResultListed(env, nodes[..|nodes| - 1], m0, m, n); }
  }

  /** Keeping results settles nothing. */
  lemma SameFinals(g: Graph, M: seq<Record>, results: seq<ToolResult>)
    ensures FinalMap(M + ResultRecords(results), g) == FinalMap(M, g)
  {
    var N := M + ResultRecords(results);
    forall c ensures StatusOf(N, g.id, c) == StatusOf(M, g.id, c) {
      QuietSuffix(M, N, g.id, c);
    }
  }

  /******* Batches just decided *******/

  /** The batch may be executed as far as the rules of every run go. */
  lemma FreshSourced(
      context: seq<Record>, L: seq<Record>, gated: set<string>, trig: TriggerRecord, step: nat, calls: seq<Call>)
    requires Orderly(L, gated) && Trigger(trig) in SinceOutcome(L) && Mirrors(context, L, step)
    requires L != [] && L[|L| - 1] == ModelDecision(step, CallSkills(calls)) && Ungated(calls, gated)
    requires StepTaken(L, trig, step)
    ensures
      var g := ExistingOrNewGraph(context, trig.id, step, calls);
      Sourced(L, g, gated) && (HasGraph(context, g.id) || exists t :: StepOf(L, t, g))
  {
    hide SinceOutcome, CurrentStepCount, Orderly, CallIds, Ungated;
    var found := MatchingGraph(context, step, CallIds(calls));
    var g := ExistingOrNewGraph(context, trig.id, step, calls);
    if found.Some? {
      assert GraphRecord(g) in context;
      RecordedSourced(L, gated, g);
    } else {
      assert ModelDecision(step, CallSkills(calls)) in L;
      assert PlannedFreely(L, g, gated);
      FreshStep(L, trig, g, step, calls);
    }
  }

  lemma FreshStep(L: seq<Record>, trig: TriggerRecord, g: Graph, step: nat, calls: seq<Call>)
    requires Trigger(trig) in SinceOutcome(L) && StepTaken(L, trig, step) && g == NewGraph(trig.id, step, calls)
    requires L != [] && L[|L| - 1] == ModelDecision(step, CallSkills(calls))
    ensures StepOf(L, trig, g)
  {
    hide SinceOutcome, CurrentStepCount, NodesOf;
    if step >= CurrentStepCount(L) {
      var a :| Answering(L, trig, a) && step == a.step + 1;
      SinceOutcomeAppend(L[..|L| - 1], L[|L| - 1]);
      assert L[..|L| - 1] + [L[|L| - 1]] == L;
      var S := SinceOutcome(L);
      assert S[|S| - 1] == L[|L| - 1];
      assert DecidedIn(S, g);
      assert ResumedWith(L, trig, g, a);
    }
  }

  lemma {:induction false} NodesDistinct(calls: seq<Call>, g: Graph)
    requires DistinctCalls(calls) && g.nodes == NodesOf(calls)
    ensures DistinctIds(g)
  {
  }

  /** In a session whose batches kept apart, a batch of an unused step meets everything a sound call needs. */
  lemma FreshSound(
      context: seq<Record>, L: seq<Record>, gated: set<string>, trig: TriggerRecord, step: nat, calls: seq<Call>)
    requires Orderly(L, gated) && Trigger(trig) in SinceOutcome(L) && Mirrors(context, L, step)
    requires L != [] && L[|L| - 1] == ModelDecision(step, CallSkills(calls))
    requires GraphsKept(L) && Clean(L)
    ensures
      var g := ExistingOrNewGraph(context, trig.id, step, calls);
      && SoundCall(context, L, g) && Lawful(g, L)
      && (HasGraph(L, g.id) || GraphRule(L, g))
    ensures MatchingGraph(context, step, CallIds(calls)) == MatchingGraph(L, step, CallIds(calls))
  {
    hide SinceOutcome, Orderly, GraphsKept, CallIds, Faithful, Lawful, DistinctIds, Blank, StepUnused, Tunings,
         DistinctCalls;
    LastClean(L);
    SameMatch(context, L, step, CallIds(calls));
    var found := MatchingGraph(context, step, CallIds(calls));
    if found.Some? {
      var h := found.value;
      assert GraphRecord(h) in L;
      assert Recorded(L, h);
      UnusedNotCurrent(L, h);
      GraphsLawful(L, h);
    } else {
      var g := NewGraph(trig.id, step, calls);
      NodesDistinct(calls, g);
      NewIds(trig.id, step, calls);
      FreeId(L, gated, trig, step);
      UnusedFaithful(context, L, g);
    }
  }

  /** What `Clean` says of a decision just recorded. */
  lemma LastClean(L: seq<Record>)
    requires Clean(L) && L != [] && L[|L| - 1].ModelDecision? && L[|L| - 1].action.CallSkills?
    ensures DistinctCalls(L[|L| - 1].action.calls) && StepUnused(L, L[|L| - 1].step)
  {
    hide SinceOutcome, DistinctCalls;
    var P, r := L[..|L| - 1], L[|L| - 1];
    assert L == P + [r];
    assert CleanAt(L, |L| - 1);
    SinceOutcomeAppend(P, r);
    assert forall x :: x in SinceOutcome(L) <==> x in SinceOutcome(P) || x == r;
  }

  lemma UnusedNotCurrent(L: seq<Record>, h: Graph)
    requires StepUnused(L, h.step)
    ensures !Current(L, h)
  {
  }

  /** An unused step leaves the id of its graph free. */
  lemma FreeId(L: seq<Record>, gated: set<string>, trig: TriggerRecord, step: nat)
    requires Orderly(L, gated) && Trigger(trig) in SinceOutcome(L) && StepUnused(L, step)
    ensures !HasGraph(L, GraphId(trig.id, step))
  {
    hide SinceOutcome, Orderly, CurrentStepCount, Sourced;
    if HasGraph(L, GraphId(trig.id, step)) {
      var r :| r in L && r.GraphRecord? && r.graph.id == GraphId(trig.id, step);
      assert Recorded(L, r.graph);
      RecordedSourced(L, gated, r.graph);
      UnusedNotCurrent(L, r.graph);
      GraphOfSegment(L, gated, trig, r.graph);
      assert false;
    }
  }

  /** A graph id nobody used shows in the context exactly as in the ledger: not at all. */
  lemma UnusedFaithful(context: seq<Record>, L: seq<Record>, g: Graph)
    requires GraphsKept(L) && !HasGraph(L, g.id) && forall r :: r in context ==> r in L
    ensures Lawful(g, L) && Faithful(context, L, g) && Blank(L, g.id)
  {
    UnusedId(L, g);
    hide GraphsKept, Lawful;
    forall c
      ensures StatusOf(context, g.id, c) == StatusOf(L, g.id, c)
      ensures AttemptsOf(context, g.id, c) == AttemptsOf(L, g.id, c)
    {
      NoCheckpoints(context, g.id, c);
    }
  }

  /** Executing a batch by the rules keeps the rules of graphs, and gives each call its own outcome. */
  lemma TrailConformed(L: seq<Record>, M: seq<Record>, g: Graph, env: SkillEnv)
    requires GraphsKept(L) && Trail(g, env, L, M) && Lawful(g, L)
    requires HasGraph(L, g.id) || GraphRule(L, g)
    ensures Conformed(env, L, M)
  {
    hide GraphsKept, Trail, Lawful, HasGraph, GraphRule, AllConform;
    TrailKeepsGraphs(L, M, g, env);
    if AllConform(env, L) { TrailConforms(L, M, g, env); }
  }

  lemma FreshGrown(env: SkillEnv, L: seq<Record>, M: seq<Record>)
    requires NoTriggers(L, M) && (GraphsKept(L) && Clean(L) ==> Conformed(env, L, M))
    ensures Grown(env, L, M)
  {
    hide GraphsKept, Clean, Conformed;
    if Clean(M) { CleanPrefix(L, M); }
  }

  /** A batch executed to rest has run exactly when it was novel, and has no results when its graph was at rest. */
  lemma FreshPerformed(
      context: seq<Record>, L: seq<Record>, M: seq<Record>, gated: set<string>, trig: TriggerRecord, overlay: string,
      env: SkillEnv, step: nat, calls: seq<Call>)
    requires Ready(L, gated, trig, overlay) && Mirrors(context, L, step)
    requires L != [] && L[|L| - 1] == ModelDecision(step, CallSkills(calls))
    requires
      var g := ExistingOrNewGraph(context, trig.id, step, calls);
      SoundCall(context, L, g) ==> Trail(g, env, L, M) && HasGraph(M, g.id) && AtRest(g, M)
    requires GraphsKept(L) && Clean(L) ==> GraphsKept(M)
    requires L <= M
    ensures Performed(L, M, trig.id, step, calls)
    ensures
      var g := ExistingOrNewGraph(context, trig.id, step, calls);
      GraphsKept(L) && Clean(L) && Repeats(L, step, calls) ==>
        SoundCall(context, L, g) && NewResults(env, g.nodes, FinalMap(L, g), FinalMap(M, g)) == []
  {
    hide SinceOutcome, Orderly, Mirrors, GraphsKept, Clean, SoundCall, Trail, AtRest, MatchingGraph, Ran, HasGraph,
         Tunings, FreshId, Lawful, NewResults, FinalMap, CallIds, NothingRun, RunsIfNovel, Repeats;
    if GraphsKept(L) && Clean(L) {
      var g := ExistingOrNewGraph(context, trig.id, step, calls);
      FreshSound(context, L, gated, trig, step, calls);
      LastClean(L);
      FreeId(L, gated, trig, step);
      RunByTrail(L, M, g, env, trig.id, step, calls);
    }
  }

  lemma BatchStrays(g: Graph, L: seq<Record>, M: seq<Record>, known: bool)
    requires Batch(g, known, L, M)
    ensures known ==> Strayed(L, M, g.id)
  {
    hide OfNode;
    if known {
      forall i | |L| <= i < |M|
        ensures !M[i].GraphRecord? && (M[i].NodeCheckpoint? ==> M[i].checkpoint.graph == g.id)
      {
        assert BatchRecord(g, M[i]);
      }
    }
  }

  /******* Approvals *******/

  /** Since the context was taken only notes and a resolution were recorded. */
  ghost predicate Behind(context: seq<Record>, L: seq<Record>) {
    context <= L && forall i :: |context| <= i < |L| ==> L[i].Note? || L[i].Resolution?
  }

  ghost predicate NoGraphsBy(L: seq<Record>, triggerId: string) {
    forall r :: r in L && r.GraphRecord? ==> r.graph.id.trigger != triggerId
  }

  lemma BehindMore(context: seq<Record>, L: seq<Record>, M: seq<Record>, r: Record)
    requires Behind(context, L) && (M == L || M == L + [r]) && r.Resolution?
    ensures Behind(context, M)
  {
  }

  lemma BehindListed(context: seq<Record>, L: seq<Record>)
    requires Behind(context, L)
    ensures forall r :: r in context ==> r in L
    ensures forall r :: r in L && (r.GraphRecord? || r.NodeCheckpoint?) ==> r in context
  {
    forall r | r in L && (r.GraphRecord? || r.NodeCheckpoint?) ensures r in context {
      var i :| 0 <= i < |L| && L[i] == r;
      assert i < |context| && context[i] == L[i];
    }
    forall r | r in context ensures r in L { Listed(context, L, r); }
  }

  lemma BehindMirrors(context: seq<Record>, L: seq<Record>, step: nat)
    requires Behind(context, L)
    ensures Mirrors(context, L, step) && Extends(context, L)
  {
    ExtendsTunings(context, L);
    ExtendsCount(context, L);
    BehindListed(context, L);
    hide SinceOutcome, Tunings, Behind, CountOutcomes;
    forall g | Recorded(L, g) && g.step == step ensures Recorded(context, g) && Faithful(context, L, g) {
      BehindFaithful(context, L, g);
    }
  }

  lemma BehindFaithful(context: seq<Record>, L: seq<Record>, g: Graph)
    requires Behind(context, L)
    ensures Faithful(context, L, g)
  {
    forall c
      ensures StatusOf(context, g.id, c) == StatusOf(L, g.id, c)
      ensures AttemptsOf(context, g.id, c) == AttemptsOf(L, g.id, c)
    {
      QuietSuffix(context, L, g.id, c);
    }
    BehindListed(context, L);
  }

  lemma NotesBehind(L: seq<Record>, M: seq<Record>)
    requires OnlyNotes(L, M)
    ensures Behind(L, M)
  {
  }

  lemma {:induction false} NotesFirsts(L: seq<Record>, M: seq<Record>, token: string)
    requires OnlyNotes(L, M)
    ensures FirstResolution(M, token) == FirstResolution(L, token) && FirstPending(M, token) == FirstPending(L, token)
    decreases |M|
  {
    if |M| == |L| {
      assert M == L;
    } else {
      var N, r := M[..|M| - 1], M[|M| - 1];
      assert M == N + [r];
      NotesFirsts(L, N, token);
      FirstsAppend(N, r, token);
    }
  }

  /** An approval of an unknown token leaves nothing but the outcome behind. */
  lemma NothingAnswered(
      L: seq<Record>, M: seq<Record>, N: seq<Record>, trig: TriggerRecord, token: string, decision: Decision,
      policy: EnginePolicy, overlay: string, r: Advanced, outcome: OutcomeRecord)
    requires ApprovalOf(L, token, decision).None? && M == L && Closes(M, N, outcome)
    requires trig.kind == Approval(token, decision) && Tunes(L, N, policy, overlay, r)
    requires outcome.triggerId == trig.id && outcome.stop == PolicyAborted
    requires r.Faulted? || r == Finished(outcome, false)
    ensures NothingDone(L, N) && Answered(L, N, trig.id, token, decision)
    ensures TriggerHandled(L, N, policy, trig, overlay, r)
  {
    hide ApprovalOf, Tunes;
    ClosesNothing(L, N, outcome);
  }

  /** What limited the step after a settled approval, seen from before the approval was resolved. */
  lemma ApprovalResumed(
      policy: EnginePolicy, L: seq<Record>, M: seq<Record>, N: seq<Record>, trig: TriggerRecord, token: string,
      decision: Decision, a: PendingApproval, effective: Decision, overlay: string, r: Advanced)
    requires Idly(L, M) && M <= N && trig.kind == Approval(token, decision)
    requires ApprovalOf(L, token, decision) == Some((a, effective)) && Tunes(L, N, policy, overlay, r)
    requires r.Finished? ==> !r.replay && r.outcome.triggerId == trig.id
    requires
      Limited(policy, a.step + 1, ConsecutiveFailures(L) + (if SettledFailed(M, N) then 1 else 0), M, N, r)
    requires r.Paused? ==> CarriedOut(M, N, trig.id, a.step + 1)
    ensures TriggerHandled(L, N, policy, trig, overlay, r)
  {
    hide ApprovalOf, Tunes, CarriedOut, ConsecutiveFailures, SettledFailed;
    SettledSince(L, M, N);
    IdlyReads(L, M);
    LimitedSince(policy, a.step + 1, ConsecutiveFailures(L) + (if SettledFailed(M, N) then 1 else 0), L, M, N, r);
    if r.Paused? { CarriedOutSince(L, M, N, trig.id, a.step + 1); }
  }

  /** Cut short before anything was decided, an advance meets every limit. */
  lemma CutShort(policy: EnginePolicy, steps: nat, L: seq<Record>, M: seq<Record>)
    requires Undecided(L, M)
    ensures forall failures: nat :: Limited(policy, steps, failures, L, M, Faulted)
  {
  }

  lemma NoGraphsLater(context: seq<Record>, L: seq<Record>, M: seq<Record>, triggerId: string)
    requires Behind(context, L) && Behind(context, M) && NoGraphsBy(L, triggerId)
    ensures NoGraphsBy(M, triggerId)
  {
    BehindListed(context, L);
    BehindListed(context, M);
  }

  lemma JustResolved(L: seq<Record>, a: PendingApproval, d: Decision)
    requires Pending(a) in L
    ensures Resolved(L + [Resolution(a.token, d)], a, d) && Pending(a) in L + [Resolution(a.token, d)]
  {
    var M := L + [Resolution(a.token, d)];
    var j :| 0 <= j < |L| && L[j] == Pending(a);
    assert M[j] == Pending(a) && M[|L|] == Resolution(a.token, d);
  }

  lemma {:induction false} FirstResolutionIndex(S: seq<Record>, token: string) returns (k: nat)
    requires FirstResolution(S, token).Some?
    ensures k < |S| && S[k] == Resolution(token, FirstResolution(S, token).value)
  {
    if S[0].Resolution? && S[0].token == token {
      k := 0;
    } else {
      var i := FirstResolutionIndex(S[1..], token);
      k := i + 1;
    }
  }

  lemma {:induction false} FirstPendingIndex(S: seq<Record>, token: string) returns (j: nat)
    requires FirstPending(S, token).Some?
    ensures j < |S| && S[j] == Pending(FirstPending(S, token).value) && FirstPending(S, token).value.token == token
    ensures forall i :: 0 <= i < j ==> !(S[i].Pending? && S[i].approval.token == token)
  {
    if S[0].Pending? && S[0].approval.token == token {
      j := 0;
    } else {
      var i := FirstPendingIndex(S[1..], token);
      j := i + 1;
      forall k | 0 <= k < j ensures !(S[k].Pending? && S[k].approval.token == token) {
        assert k > 0 ==> S[k] == S[1..][k - 1];
      }
    }
  }

  /** The first decision found in the history belongs to the first pending record found there. */
  lemma EarlierResolved(context: seq<Record>, L: seq<Record>, gated: set<string>, token: string)
    requires Orderly(L, gated) && Behind(context, L)
    requires FirstResolution(context, token).Some? && FirstPending(context, token).Some?
    ensures
      var a := FirstPending(context, token).value;
      Resolved(L, a, FirstResolution(context, token).value) && Pending(a) in L && a.token == token
  {
    var k := FirstResolutionIndex(context, token);
    var j := FirstPendingIndex(context, token);
    assert L[k] == context[k] && L[j] == context[j];
    assert AllowedAt(L, k, gated);
    var p := PendingBefore(L[..k], token);
    assert context[p] == L[..k][p];
  }

  lemma ApprovedSourced(
      context: seq<Record>, L: seq<Record>, gated: set<string>, trig: TriggerRecord, a: PendingApproval)
    requires Orderly(L, gated) && Trigger(trig) in SinceOutcome(L) && Behind(context, L)
    requires Resolved(L, a, Approved) && Answering(L, trig, a)
    ensures
      var g := ExistingOrNewGraph(context, trig.id, a.step, a.calls);
      && Sourced(L, g, gated) && g.step == a.step && g.id.step == a.step
      && (HasGraph(context, g.id) || exists t :: StepOf(L, t, g))
  {
    hide SinceOutcome, CurrentStepCount, Orderly, CallIds, Resolved;
    var found := MatchingGraph(context, a.step, CallIds(a.calls));
    var g := ExistingOrNewGraph(context, trig.id, a.step, a.calls);
    if found.Some? {
      assert GraphRecord(g) in context;
      BehindListed(context, L);
      RecordedSourced(L, gated, g);
    } else {
      assert PlannedByApproval(L, g);
      assert ResumedWith(L, trig, g, a);
      assert StepOf(L, trig, g);
    }
  }

  /** An approved pending record with distinct call ids meets everything a sound call needs. */
  lemma ApprovedSound(
      context: seq<Record>, L: seq<Record>, gated: set<string>, trig: TriggerRecord, a: PendingApproval)
    requires Orderly(L, gated) && Behind(context, L) && NoGraphsBy(L, trig.id)
    requires GraphsKept(L) && DistinctCalls(a.calls)
    ensures
      var g := ExistingOrNewGraph(context, trig.id, a.step, a.calls);
      && SoundCall(context, L, g) && Lawful(g, L)
      && (HasGraph(L, g.id) || GraphRule(L, g))
    ensures MatchingGraph(context, a.step, CallIds(a.calls)) == MatchingGraph(L, a.step, CallIds(a.calls))
  {
    hide Orderly, GraphsKept, CallIds, Faithful, Lawful, DistinctIds, Blank, Behind;
    BehindListed(context, L);
    SameMatch(context, L, a.step, CallIds(a.calls));
    var found := MatchingGraph(context, a.step, CallIds(a.calls));
    if found.Some? {
      var h := found.value;
      assert GraphRecord(h) in L;
      assert Recorded(L, h);
      GraphsLawful(L, h);
      BehindFaithful(context, L, h);
    } else {
      var g := NewGraph(trig.id, a.step, a.calls);
      NodesDistinct(a.calls, g);
      NewIds(trig.id, a.step, a.calls);
      UnusedFaithful(context, L, g);
    }
  }

  /** Approved calls executed to rest have run exactly when their place was free, or taken by an earlier delivery. */
  ghost predicate Settles(L: seq<Record>, M: seq<Record>, triggerId: string, a: PendingApproval) {
    && RunsIfNovel(L, M, triggerId, a.step, a.calls)
    && (ApprovalRan(M, a) <==> ApprovalOwn(L, a))
  }

  lemma ApprovedSettles(
      context: seq<Record>, L: seq<Record>, M: seq<Record>, gated: set<string>, trig: TriggerRecord, env: SkillEnv,
      a: PendingApproval)
    requires Orderly(L, gated) && Behind(context, L) && NoGraphsBy(L, trig.id)
    requires Trigger(trig) in SinceOutcome(L) && Answering(L, trig, a) && Resolved(L, a, Approved)
    requires GraphsKept(L) && DistinctCalls(a.calls) && GraphsKept(M) && NoTriggers(L, M)
    requires
      var g := ExistingOrNewGraph(context, trig.id, a.step, a.calls);
      Trail(g, env, L, M) && HasGraph(M, g.id) && AtRest(g, M)
    ensures Settles(L, M, trig.id, a)
    ensures
      var g := ExistingOrNewGraph(context, trig.id, a.step, a.calls);
      Repeats(L, a.step, a.calls) ==>
        NothingRun(L, M) && NewResults(env, g.nodes, FinalMap(L, g), FinalMap(M, g)) == []
  {
    hide Orderly, GraphsKept, SoundCall, Trail, AtRest, MatchingGraph, Ran, Lawful, Behind, SinceOutcome, CallIds,
         NothingRun, NewResults, FinalMap, Repeats, Delivered, Resolved, Answering, RunsIfNovel;
    var g := ExistingOrNewGraph(context, trig.id, a.step, a.calls);
    ApprovedSound(context, L, gated, trig, a);
    RunByTrail(L, M, g, env, trig.id, a.step, a.calls);
    SegmentListed(L, Trigger(trig));
    if ApprovalOwn(L, a) { ApprovalRunByOwn(L, M, a, trig); }
    if ApprovalRan(M, a) { ApprovalRanOnlyIfOwn(L, M, a); }
  }

  lemma SegmentListed(L: seq<Record>, r: Record)
    requires r in SinceOutcome(L)
    ensures r in L
  {
    SegmentIsSuffix(L);
  }

  /** What settling an approval achieved stands. */
  lemma SettlesOn(L: seq<Record>, M: seq<Record>, N: seq<Record>, triggerId: string, a: PendingApproval)
    requires Settles(L, M, triggerId, a) && L <= M <= N && NoTriggers(L, N) && GraphsKept(N)
    requires NoGraphsBy(L, triggerId)
    ensures Settles(L, N, triggerId, a)
  {
    hide GraphsKept, ApprovalRan, ApprovalOwn, AtRest, MatchingGraph, CallIds, NodesOf;
    if Ran(M, triggerId, a.step, a.calls) { RanStays(M, N, triggerId, a.step, a.calls); }
    if Ran(N, triggerId, a.step, a.calls) { RanOnlyIfNovel(L, N, triggerId, a.step, a.calls); }
    if ApprovalRan(M, a) { ApprovalRanStays(M, N, a); }
    if ApprovalRan(N, a) { ApprovalRanOnlyIfOwn(L, N, a); }
    if !Novel(L, a.step, a.calls) {
      var g := MatchingGraph(L, a.step, CallIds(a.calls)).value;
      Listed(L, N, GraphRecord(g));
      GraphsLawful(N, g);
      RestIsFinal(g, M, N);
    }
  }

  lemma ApprovedGrown(env: SkillEnv, L: seq<Record>, M: seq<Record>, a: PendingApproval)
    requires NoTriggers(L, M) && Pending(a) in L
    requires GraphsKept(L) && DistinctCalls(a.calls) ==> Conformed(env, L, M)
    ensures Grown(env, L, M)
  {
    hide GraphsKept, DistinctCalls, Conformed;
    if Clean(M) { PendingDistinct(L, M, a); }
  }

  lemma PendingDistinct(L: seq<Record>, M: seq<Record>, a: PendingApproval)
    requires Clean(M) && L <= M && Pending(a) in L
    ensures DistinctCalls(a.calls)
  {
    hide DistinctCalls, StepUnused;
    var i :| 0 <= i < |L| && L[i] == Pending(a);
    assert CleanAt(M, i);
  }

  /** Executing a batch of another step leaves the context good for this step. */
  lemma ApprovedMirrors(
      context: seq<Record>, L: seq<Record>, M: seq<Record>, gated: set<string>, g: Graph, known: bool, step: nat)
    requires Mirrors(context, L, step + 1) && Batch(g, known, L, M) && Extends(L, M)
    requires Orderly(L, gated) && g.step == step && g.id.step == step
    ensures Mirrors(context, M, step + 1)
  {
    hide Orderly, SinceOutcome, Tunings;
    forall h | Recorded(L, h) && h.step == step + 1 ensures h.id != g.id { RecordedSourced(L, gated, h); }
    MirrorsAfterBatch(context, L, M, g, known, step + 1);
  }

  lemma MirrorsAfterBatch(
      context: seq<Record>, L: seq<Record>, M: seq<Record>, g: Graph, known: bool, step: nat)
    requires Mirrors(context, L, step) && Batch(g, known, L, M) && Extends(L, M)
    requires g.step != step || known
    requires forall h :: Recorded(L, h) && h.step == step && !Current(L, h) ==> h.id != g.id
    ensures Mirrors(context, M, step)
  {
    ExtendsTunings(L, M);
    ExtendsCount(L, M);
    ExtendsGrows(L, M);
    hide SinceOutcome, Tunings, OfNode, Extends;
    forall r | r in context ensures r in M { Listed(L, M, r); }
    forall h | Recorded(M, h) && h.step == step
      ensures Recorded(context, h) && (!Current(M, h) ==> Faithful(context, M, h))
    {
      var i :| 0 <= i < |M| && M[i] == GraphRecord(h);
      assert i >= |L| ==> BatchRecord(g, M[i]);
      assert i < |L| ==> L[i] == GraphRecord(h);
      assert Recorded(L, h);
      if !Current(M, h) {
        NotCurrentBefore(L, M, h);
        FaithfulAfterBatch(context, L, M, g, known, h);
      }
    }
  }

  lemma NotCurrentBefore(L: seq<Record>, M: seq<Record>, h: Graph)
    requires SinceOutcome(L) <= SinceOutcome(M) && !Current(M, h)
    ensures !Current(L, h)
  {
    hide SinceOutcome;
    if Current(L, h) { Listed(SinceOutcome(L), SinceOutcome(M), GraphRecord(h)); }
  }

  lemma FaithfulAfterBatch(context: seq<Record>, L: seq<Record>, M: seq<Record>, g: Graph, known: bool, h: Graph)
    requires Faithful(context, L, h) && Batch(g, known, L, M) && h.id != g.id && Recorded(L, h)
    ensures Faithful(context, M, h)
  {
    hide OfNode;
    forall i | |L| <= i < |M| ensures !ConcernsGraph(M[i], h.id) {
      assert BatchRecord(g, M[i]);
    }
    forall c
      ensures StatusOf(M, h.id, c) == StatusOf(L, h.id, c)
      ensures AttemptsOf(M, h.id, c) == AttemptsOf(L, h.id, c)
    {
      QuietSuffix(L, M, h.id, c);
    }
    assert GraphRecord(h) in L;
    Listed(L, M, GraphRecord(h));
  }

  lemma ResumeFits(M: seq<Record>, Q: seq<Record>, trig: TriggerRecord, a: PendingApproval)
    requires Answering(M, trig, a) && M <= Q && Trigger(trig) in SinceOutcome(Q)
    ensures DecisionFits(Q, trig, a.step + 1)
  {
    Listed(M, Q, Pending(a));
    assert Answering(Q, trig, a);
  }

  lemma AnsweringReads(L: seq<Record>, trig: TriggerRecord, a: PendingApproval)
    requires Answering(L, trig, a)
    ensures Pending(a) in L
  {
  }

  /** What settling an approval leads to, as far as the rules of graphs were kept. */
  ghost predicate SettledWell(
      L: seq<Record>, M: seq<Record>, triggerId: string, a: PendingApproval, decision: Decision) {
    match decision
    case Approved => GraphsKept(L) && DistinctCalls(a.calls) && GraphsKept(M) ==> Settles(L, M, triggerId, a)
    case Rejected => AllRefused(M, a.calls)
  }

  lemma SettledWellOn(
      L: seq<Record>, M: seq<Record>, N: seq<Record>, triggerId: string, a: PendingApproval, decision: Decision)
    requires L <= M <= N && NoTriggers(L, N) && NoGraphsBy(L, triggerId)
    requires decision.Approved? && GraphsKept(L) && DistinctCalls(a.calls) ==> Settles(L, M, triggerId, a)
    requires decision.Rejected? ==> AllRefused(M, a.calls)
    ensures SettledWell(L, N, triggerId, a, decision)
  {
    hide GraphsKept, Settles, DistinctCalls, AllRefused, NoGraphsBy;
    match decision
    case Approved =>
      if GraphsKept(L) && DistinctCalls(a.calls) && GraphsKept(N) { SettlesOn(L, M, N, triggerId, a); }
    case Rejected => RefusedStays(M, N, a.calls);
  }

  /** An approval resolved in `M` and settled in `N` is answered. */
  lemma AnsweredBy(
      env: SkillEnv, L: seq<Record>, M: seq<Record>, N: seq<Record>, triggerId: string, token: string,
      decision: Decision, a: PendingApproval, effective: Decision)
    requires M <= N && Tidy(env, L, N) && Pending(a) in M
    requires ApprovalOf(L, token, decision) == Some((a, effective))
    requires M == if PendingByToken(L, token).Some? then L + [Resolution(token, decision)] else L
    requires SettledWell(M, N, triggerId, a, effective)
    ensures Answered(L, N, triggerId, token, decision)
  {
    hide GraphsKept, Settles, PendingByToken, DistinctCalls, Clean, AllRefused, AllConform, ApprovalOf, ApprovalRan,
         ApprovalOwn, RunsIfNovel;
    if PendingByToken(L, token).Some? { assert N[|L|] == M[|L|]; }
    if effective.Approved? && GraphsKept(L) && Clean(N) {
      PendingDistinct(M, N, a);
      if PendingByToken(L, token).Some? {
        GraphsAppend(L, Resolution(token, decision));
        NovelQuiet(L, N, Resolution(token, decision), triggerId, a.step, a.calls);
      }
      SettlesReads(M, N, triggerId, a);
    }
  }

  lemma SettlesReads(L: seq<Record>, M: seq<Record>, triggerId: string, a: PendingApproval)
    requires Settles(L, M, triggerId, a)
    ensures RunsIfNovel(L, M, triggerId, a.step, a.calls) && (ApprovalRan(M, a) <==> ApprovalOwn(L, a))
  {
  }

  lemma RefusedStays(Q: seq<Record>, N: seq<Record>, calls: seq<Call>)
    requires AllRefused(Q, calls) && Q <= N
    ensures AllRefused(N, calls)
  {
    forall call | call in calls ensures ResultRecord(ToolResult(call.callId, call.name, Err(PermissionDenied))) in N {
      Listed(Q, N, ResultRecord(ToolResult(call.callId, call.name, Err(PermissionDenied))));
    }
  }

  lemma MatchQuiet(L: seq<Record>, r: Record, step: nat, ids: set<string>)
    requires !r.GraphRecord?
    ensures MatchingGraph(L + [r], step, ids) == MatchingGraph(L, step, ids)
  {
    assert (L + [r])[..|L|] == L;
  }

  lemma NovelQuiet(L: seq<Record>, M: seq<Record>, r: Record, triggerId: string, step: nat, calls: seq<Call>)
    requires !r.GraphRecord?
    ensures RunsIfNovel(L + [r], M, triggerId, step, calls) <==> RunsIfNovel(L, M, triggerId, step, calls)
  {
    hide Ran, AtRest;
    MatchQuiet(L, r, step, CallIds(calls));
  }

  /** A record that is neither a resolution nor a pending record leaves the first ones as they are. */
  lemma {:induction false} FirstsAppend(L: seq<Record>, r: Record, token: string)
    requires !r.Resolution? && !r.Pending?
    ensures FirstResolution(L + [r], token) == FirstResolution(L, token)
    ensures FirstPending(L + [r], token) == FirstPending(L, token)
  {
    if L != [] {
      assert (L + [r])[1..] == L[1..] + [r];
      FirstsAppend(L[1..], r, token);
    }
  }

  /** A record about no graph leaves an approval's claim on its place as it is. */
  lemma OwnAppend(L: seq<Record>, r: Record, a: PendingApproval)
    requires r.Note? || (r.Trigger? && NoGraphsBy(L, r.trigger.id))
    ensures ApprovalOwn(L + [r], a) <==> ApprovalOwn(L, a)
  {
    hide MatchingGraph, CallIds, NodesOf, Delivered;
    MatchQuiet(L, r, a.step, CallIds(a.calls));
    var found := MatchingGraph(L, a.step, CallIds(a.calls));
    if found.Some? {
      forall t: TriggerRecord | found.value == NewGraph(t.id, a.step, a.calls)
        ensures Delivered(L + [r], a, t) <==> Delivered(L, a, t)
      {
        if Delivered(L, a, t) { DeliveredLater(L, L + [r], a, t); }
        if Delivered(L + [r], a, t) { DeliveredBefore(L, r, a, t); }
      }
    }
  }

  lemma DeliveredBefore(L: seq<Record>, r: Record, a: PendingApproval, t: TriggerRecord)
    requires Delivered(L + [r], a, t) && Recorded(L, NewGraph(t.id, a.step, a.calls))
    requires r.Note? || (r.Trigger? && NoGraphsBy(L, r.trigger.id))
    ensures Delivered(L, a, t)
  {
    hide NodesOf;
    var g, M := NewGraph(t.id, a.step, a.calls), L + [r];
    assert GraphRecord(g) in L;
    var i, j :| 0 <= i < j < |M| && M[i] == Resolution(a.token, Approved) && M[j] == GraphRecord(g);
    assert L[i] == M[i] && L[j] == M[j];
  }

  /******* Triggers *******/

  /** From `L` to `M` only the trigger `t` was recorded, first of all, and the rules of graphs survived. */
  ghost predicate Opened(env: SkillEnv, L: seq<Record>, M: seq<Record>, t: TriggerRecord) {
    && L <= M && Tidy(env, L, M)
    && (forall i :: |L| <= i < |M| && M[i].Trigger? ==> i == |L| && M[i] == Trigger(t))
  }

  lemma OpenedItself(env: SkillEnv, L: seq<Record>, t: TriggerRecord)
    ensures Opened(env, L, L, t)
  {
    hide GraphsKept, AllConform;
  }

  lemma OpenedReads(env: SkillEnv, L: seq<Record>, M: seq<Record>, t: TriggerRecord)
    requires Opened(env, L, M, t)
    ensures Tidy(env, L, M) && L <= M
  {
  }

  lemma OpenedOn(env: SkillEnv, L: seq<Record>, M: seq<Record>, N: seq<Record>, t: TriggerRecord)
    requires Opened(env, L, M, t) && Grown(env, M, N)
    ensures Opened(env, L, N, t)
  {
    hide GraphsKept, Clean, AllConform;
    forall i | |L| <= i < |N| && N[i].Trigger? ensures i == |L| && N[i] == Trigger(t) {
      assert i < |M| && N[i] == M[i];
    }
    if Clean(N) { CleanPrefix(M, N); }
  }

  /** The trigger alone, or followed by notes. */
  ghost predicate Arrived(L: seq<Record>, M: seq<Record>, t: TriggerRecord) {
    M == L || (L + [Trigger(t)] <= M && Calm(L + [Trigger(t)], M))
  }

  lemma AllOpened(L: seq<Record>, M: seq<Record>, t: TriggerRecord)
    requires Arrived(L, M, t)
    ensures forall env :: Opened(env, L, M, t)
  {
    hide Opened, Calm;
    forall env ensures Opened(env, L, M, t) {
      if M == L {
        OpenedItself(env, L, t);
      } else {
        OpenedBy(env, L, t);
        CalmGrown(env, L + [Trigger(t)]);
        OpenedOn(env, L, L + [Trigger(t)], M, t);
      }
    }
  }

  lemma OpenedBy(env: SkillEnv, L: seq<Record>, t: TriggerRecord)
    ensures Opened(env, L, L + [Trigger(t)], t)
  {
    hide GraphsKept, Clean, OwnOutcomes;
    var M := L + [Trigger(t)];
    if GraphsKept(L) { GraphsAppend(L, Trigger(t)); }
    if AllConform(env, L) {
      forall g | Recorded(M, g) ensures Conforms(env, g, M, 0) {
        assert GraphRecord(g) in L;
        assert Recorded(L, g);
      }
    }
  }

  /**
   The two ledgers agree on what is pending and resolved, on which graphs match, on whose they are, and on whether the
   graphs kept to the rules.
   */
  ghost predicate SamePast(L: seq<Record>, M: seq<Record>) {
    && (forall token, decision :: ApprovalOf(M, token, decision) == ApprovalOf(L, token, decision))
    && (forall token :: PendingByToken(M, token) == PendingByToken(L, token))
    && (forall step, ids :: MatchingGraph(M, step, ids) == MatchingGraph(L, step, ids))
    && (forall a: PendingApproval :: ApprovalOwn(M, a) <==> ApprovalOwn(L, a))
    && (GraphsKept(L) ==> GraphsKept(M))
  }

  lemma SamePastOn(L: seq<Record>, M: seq<Record>, N: seq<Record>)
    requires SamePast(L, M) && SamePast(M, N)
    ensures SamePast(L, N)
  {
    hide GraphsKept, ApprovalOwn, ApprovalOf, MatchingGraph, PendingByToken;
  }

  lemma SamePastAppend(L: seq<Record>, r: Record)
    requires r.Note? || (r.Trigger? && NoGraphsBy(L, r.trigger.id))
    ensures SamePast(L, L + [r])
  {
    hide GraphsKept, ApprovalOwn, MatchingGraph, FirstResolution, FirstPending, PendingByToken;
    forall token: string { PendingQuiet(L, r, token); }
    forall token: string { FirstsAppend(L, r, token); }
    forall step, ids { MatchQuiet(L, r, step, ids); }
    forall a: PendingApproval { OwnAppend(L, r, a); }
    if GraphsKept(L) { GraphsAppend(L, r); }
  }

  lemma PendingQuiet(L: seq<Record>, r: Record, token: string)
    requires !r.Resolution? && !r.Pending?
    ensures PendingByToken(L + [r], token) == PendingByToken(L, token)
  {
    assert (L + [r])[..|L|] == L;
  }

  lemma SameApproval(L: seq<Record>, M: seq<Record>, token: string, decision: Decision)
    requires SamePast(L, M)
    ensures ApprovalOf(M, token, decision) == ApprovalOf(L, token, decision)
  {
    hide GraphsKept, ApprovalOwn, MatchingGraph, PendingByToken;
  }

  lemma SameAnswer(L: seq<Record>, M: seq<Record>, triggerId: string, token: string, decision: Decision)
    requires SamePast(L, M)
    ensures forall N :: Answered(M, N, triggerId, token, decision) ==> Answered(L, N, triggerId, token, decision)
  {
    hide GraphsKept, Clean, AllRefused, ApprovalRan, ApprovalOwn, ApprovalOf, RunsIfNovel, PendingByToken,
         MatchingGraph;
    assert ApprovalOf(M, token, decision) == ApprovalOf(L, token, decision);
    if ApprovalOf(L, token, decision).Some? {
      var (a, effective) := ApprovalOf(L, token, decision).value;
      forall N | Answered(M, N, triggerId, token, decision) ensures Answered(L, N, triggerId, token, decision) {
        SameRuns(L, M, N, triggerId, a.step, a.calls);
        assert ApprovalOwn(M, a) <==> ApprovalOwn(L, a);
      }
    }
  }

  lemma SameRuns(
      L: seq<Record>, M: seq<Record>, N: seq<Record>, triggerId: string, step: nat, calls: seq<Call>)
    requires SamePast(L, M)
    ensures RunsIfNovel(M, N, triggerId, step, calls) ==> RunsIfNovel(L, N, triggerId, step, calls)
  {
    hide GraphsKept, ApprovalOwn, ApprovalOf, PendingByToken, MatchingGraph, Ran, AtRest, CallIds;
  }

  lemma NotesKeepGraphs(L: seq<Record>, M: seq<Record>, triggerId: string)
    requires OnlyNotes(L, M)
    ensures NoGraphsBy(L, triggerId) ==> NoGraphsBy(M, triggerId)
    ensures SamePast(L, M)
    decreases |M|
  {
    hide SamePast;
    if |M| == |L| {
      assert M == L;
      SamePastItself(L);
    } else {
      var N, r := M[..|M| - 1], M[|M| - 1];
      assert M == N + [r];
      NotesKeepGraphs(L, N, triggerId);
      SamePastAppend(N, r);
      SamePastOn(L, N, M);
      assert forall x :: x in M <==> x in N || x == r;
    }
  }

  lemma SamePastItself(L: seq<Record>)
    ensures SamePast(L, L)
  {
    hide GraphsKept;
  }

  /** A trigger just recorded opens or joins the current segment, and no graph carries its id. */
  lemma TriggerReceived(L: seq<Record>, gated: set<string>, trig: TriggerRecord, overlay: string)
    requires Orderly(L, gated) && !HasTrigger(L, trig.id) && FreshId(Tunings(L), overlay)
    requires Orderly(L + [Trigger(trig)], gated)
    ensures
      var M := L + [Trigger(trig)];
      && Ready(M, gated, trig, overlay) && NoGraphsBy(M, trig.id) && Mirrors(M, M, 0) && ActiveTrigger(M).Some?
      && Extends(L, M) && CurrentStepCount(M) == CurrentStepCount(L) && SamePast(L, M) && Extends(L, L)
  {
    hide Orderly, HasTrigger, Tunings, SinceOutcome, ActiveTrigger, CurrentStepCount, Mirrors, SamePast, GraphsKept;
    var M := L + [Trigger(trig)];
    SinceOutcomeAppend(L, Trigger(trig));
    TuningsAppend(L, Trigger(trig));
    ActiveTriggerAppend(L, Trigger(trig));
    StepCountAppend(L, Trigger(trig));
    ItselfMirrors(M, 0);
    assert SinceOutcome(M)[|SinceOutcome(M)| - 1] == Trigger(trig);
    forall r | r in M && r.GraphRecord? ensures r.graph.id.trigger != trig.id {
      assert r in L;
      assert Recorded(L, r.graph);
      RecordedSourced(L, gated, r.graph);
    }
    SamePastAppend(L, Trigger(trig));
  }

  /******* Continuations *******/

  lemma {:induction false} FirstTriggerListed(S: seq<Record>)
    ensures FirstTrigger(S).Some? ==> Trigger(FirstTrigger(S).value) in S
  {
    if S != [] && !S[0].Trigger? {
      FirstTriggerListed(S[1..]);
    }
  }

  lemma ActiveReady(L: seq<Record>, gated: set<string>, overlay: string)
    requires Orderly(L, gated) && FreshId(Tunings(L), overlay) && ActiveTrigger(L).Some?
    ensures Ready(L, gated, ActiveTrigger(L).value, overlay)
  {
    FirstTriggerListed(SinceOutcome(L));
  }

  lemma ActiveRecorded(L: seq<Record>, gated: set<string>, g: Graph)
    requires Orderly(L, gated) && ActiveGraph(L) == Some(g)
    ensures Recorded(L, g) && HasGraph(L, g.id) && Current(L, g) && Sourced(L, g, gated)
  {
    hide Orderly, Sourced;
    LastGraphRecorded(SinceOutcome(L));
    SegmentIsSuffix(L);
    assert GraphRecord(g) in L;
    RecordedSourced(L, gated, g);
  }

  lemma ActiveSound(L: seq<Record>, g: Graph)
    requires GraphsKept(L) && Recorded(L, g) && HasGraph(L, g.id)
    ensures SoundCall(L, L, g) && Lawful(g, L)
  {
    hide GraphsKept, Lawful;
    GraphsLawful(L, g);
  }

  lemma ResumeGrown(env: SkillEnv, L: seq<Record>, M: seq<Record>)
    requires NoTriggers(L, M) && (GraphsKept(L) ==> Conformed(env, L, M))
    ensures Grown(env, L, M)
  {
    hide GraphsKept, Conformed;
  }

  /** Resuming a graph of the current segment leaves the snapshot good for the graphs of earlier segments. */
  lemma ResumeMirrors(L: seq<Record>, M: seq<Record>, gated: set<string>, g: Graph, step: nat)
    requires Batch(g, true, L, M) && Extends(L, M) && Orderly(L, gated) && Current(L, g)
    ensures Mirrors(L, M, step)
  {
    hide Orderly, SinceOutcome, Batch, Extends, CurrentStepCount, Tunings;
    ItselfMirrors(L, step);
    var t := SegmentGraphStep(L, gated, g);
    forall h | Recorded(L, h) && !Current(L, h) ensures h.id != g.id {
      if h.id == g.id { GraphOfSegment(L, gated, t, h); }
    }
    MirrorsAfterBatch(L, L, M, g, true, step);
  }

  lemma {:induction false} BatchCounts(L: seq<Record>, M: seq<Record>, g: Graph, known: bool)
    requires Batch(g, known, L, M)
    ensures CurrentStepCount(M) == CurrentStepCount(L)
    decreases |M|
  {
    hide OfNode, CurrentStepCount;
    if |M| == |L| {
      assert M == L;
    } else {
      var N, r := M[..|M| - 1], M[|M| - 1];
      assert M == N + [r];
      assert BatchRecord(g, M[|M| - 1]);
      BatchCounts(L, N, g, known);
      StepCountAppend(N, r);
    }
  }

  lemma {:induction false} ResultsCount(M: seq<Record>, results: seq<ToolResult>)
    ensures CurrentStepCount(M + ResultRecords(results)) == CurrentStepCount(M)
  {
    hide CurrentStepCount;
    if results == [] {
      assert M + ResultRecords(results) == M;
    } else {
      var k := |results| - 1;
      ResultsCount(M, results[..k]);
      OneMoreResult(results, k);
      assert results[..k + 1] == results;
      var N := M + ResultRecords(results[..k]);
      assert M + ResultRecords(results) == N + [ResultRecord(results[k])];
      StepCountAppend(N, ResultRecord(results[k]));
    }
  }

  /** The graph a continuation finds and brings to rest stays at rest. */
  lemma ActiveRests(L: seq<Record>, M: seq<Record>, N: seq<Record>, gated: set<string>)
    requires L <= M <= N && Orderly(L, gated)
    ensures
      GraphsKept(N) && ActiveGraph(L).Some? && AtRest(ActiveGraph(L).value, M) ==> AtRest(ActiveGraph(L).value, N)
  {
    hide Orderly, GraphsKept, AtRest, ActiveGraph, SinceOutcome;
    if GraphsKept(N) && ActiveGraph(L).Some? && AtRest(ActiveGraph(L).value, M) {
      var g := ActiveGraph(L).value;
      ActiveRecorded(L, gated, g);
      Listed(L, N, GraphRecord(g));
      GraphsLawful(N, g);
      RestIsFinal(g, M, N);
    }
  }

  /******* Which ids an approval takes *******/

  /** The decision at position `i` is the only one in the current segment that called skills at this step. */
  ghost predicate OnlyDecision(L: seq<Record>, step: nat, i: nat) {
    && |L| - |SinceOutcome(L)| <= i < |L| && L[i].ModelDecision? && L[i].step == step && L[i].action.CallSkills?
    && forall calls :: ModelDecision(step, CallSkills(calls)) in SinceOutcome(L) ==> calls == L[i].action.calls
  }

  /**
   After an approval of the pending record `a` was delivered to the ledger `P` and the resumed decision at position `i`
   was carried out, the next id is taken exactly when the count stands at the suspended step and no graph had the ids
   of the approved calls when they were delivered, or at the step after it and no graph had those of the decision's
   calls when they were decided.
   */
  lemma NextIdTakenByGuards(
      P: seq<Record>, L: seq<Record>, gated: set<string>, t: TriggerRecord, a: PendingApproval, i: nat)
    requires Orderly(L, gated) && GraphsKept(L) && Clean(L) && P + [Trigger(t)] <= L
    requires Trigger(t) in SinceOutcome(L) && forall b :: Answering(L, t, b) ==> b == a
    requires RunsIfNovel(P, L, t.id, a.step, a.calls)
    requires OnlyDecision(L, a.step + 1, i) && Trigger(t) in SinceOutcome(L[..i + 1])
    requires Performed(L[..i + 1], L, t.id, a.step + 1, L[i].action.calls)
    ensures
      var count := CurrentStepCount(L);
      HasGraph(L, GraphId(t.id, count)) <==>
        || (count == a.step && Novel(P, a.step, a.calls))
        || (count == a.step + 1 && Novel(L[..i + 1], a.step + 1, L[i].action.calls))
  {
    hide Orderly, GraphsKept, Clean, SinceOutcome, CurrentStepCount, Answering, Novel, AtRest, HasGraph, NodesOf,
         NothingRun, Repeats, MatchingGraph;
    NextIdTakenIff(L, gated, t, a);
    var calls, D := L[i].action.calls, L[..i + 1];
    NoGraphBeforeTrigger(P, L, gated, t, a.step);
    if Recorded(L, NewGraph(t.id, a.step, a.calls)) { RanOnlyIfNovel(P, L, t.id, a.step, a.calls); }
    GraphsPrefix(D, L);
    CleanPrefix(D, L);
    LastClean(D);
    OrderPrefix(L, i + 1, gated);
    FreeId(D, gated, t, a.step + 1);
    if Recorded(L, NewGraph(t.id, a.step + 1, calls)) { RanOnlyIfNovel(D, L, t.id, a.step + 1, calls); }
    SegmentAt(L, i);
    assert ResumedBatch(L, t, a) <==> Recorded(L, NewGraph(t.id, a.step + 1, calls));
  }

  lemma SegmentAt(L: seq<Record>, i: nat)
    requires |L| - |SinceOutcome(L)| <= i < |L|
    ensures L[i] in SinceOutcome(L)
  {
    SegmentIsSuffix(L);
    var S := SinceOutcome(L);
    assert S[i - (|L| - |S|)] == L[i];
  }

  lemma NoGraphBeforeTrigger(P: seq<Record>, L: seq<Record>, gated: set<string>, t: TriggerRecord, step: nat)
    requires Orderly(L, gated) && P + [Trigger(t)] <= L
    ensures !HasGraph(P, GraphId(t.id, step))
  {
    hide Orderly, HasTrigger;
    assert L[..|P|] == P && L[|P|] == Trigger(t);
    TriggerAllowed(L, gated, |P|);
    OrderPrefix(L, |P|, gated);
    if HasGraph(P, GraphId(t.id, step)) {
      var r :| r in P && r.GraphRecord? && r.graph.id == GraphId(t.id, step);
      assert Recorded(P, r.graph);
      RecordedSourced(P, gated, r.graph);
      assert false;
    }
  }

  lemma TriggerAllowed(L: seq<Record>, gated: set<string>, i: nat)
    requires Orderly(L, gated) && i < |L| && L[i].Trigger?
    ensures !HasTrigger(L[..i], L[i].trigger.id)
  {
    hide HasTrigger;
    assert AllowedAt(L, i, gated);
  }

  /**
   After a continuation resumed the graph `g`, its context shows the results but not the new checkpoints: a call just
   settled looks unfinished, and a batch of the same step with the same call ids finds `g` and executes it again.
   `StepUsedOnlyByResume` says when the next step can be that of `g`.
   */
  lemma ResumedLooksUnfinished(L: seq<Record>, M: seq<Record>, g: Graph, c: string, results: seq<ToolResult>)
    requires ActiveGraph(L) == Some(g)
    requires c in FinalMap(M, g) && c !in FinalMap(L, g)
    ensures
      var context := L + ResultRecords(results);
      && MatchingGraph(context, g.step, Ids(g)) == Some(g)
      && Final(context, g.id, c).None? && !Faithful(context, M, g)
  {
    hide FinalMap, ActiveGraph, Ids;
    var context := L + ResultRecords(results);
    SegmentGraphIsLast(L);
    ActiveIsLast(L);
    MatchesWithResults(L, g, results);
    QuietSuffix(L, context, g.id, c);
  }

  lemma ActiveIsLast(L: seq<Record>)
    ensures ActiveGraph(L).Some? ==> ActiveGraph(L) == LastGraph(SinceOutcome(L))
  {
  }

  lemma {:induction false} MatchesWithResults(L: seq<Record>, g: Graph, results: seq<ToolResult>)
    requires LastGraph(L) == Some(g)
    ensures MatchingGraph(L + ResultRecords(results), g.step, Ids(g)) == Some(g)
  {
    if results == [] {
      assert L + ResultRecords(results) == L;
      LastMatches(L, g);
    } else {
      var k := |results| - 1;
      MatchesWithResults(L, g, results[..k]);
      OneMoreResult(results, k);
      assert results[..k + 1] == results;
      var N := L + ResultRecords(results[..k]);
      assert L + ResultRecords(results) == N + [ResultRecord(results[k])];
      MatchQuiet(N, ResultRecord(results[k]), g.step, Ids(g));
    }
  }
}
