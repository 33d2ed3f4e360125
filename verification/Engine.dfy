/**
 The engine: one call advances a session by at most one provider decision. Every append can fail or be the last thing
 the process does; the provider answers as it likes.
 */
module Engine {
  import opened Options
  import opened Policies
  import opened Ledger
  import opened ToolGraphs
  import opened Batches
  import opened Scheduler
  import opened Overlays
  import opened Projections
  import opened FailureStreak
  import opened ActiveGraphs
  import opened Sessions
  import opened GraphIds
  import opened Advances

  /** What a request brings along: the base policy, and how the skills behave during the call. */
  datatype Host = Host(policy: EnginePolicy, facts: Node -> SkillFacts)

  /** Identifiers drawn by one advance. */
  datatype DrawnIds = DrawnIds(trigger: string, overlay: string, token: string)

  datatype Request = TriggerRequest(kind: TriggerKind, key: Option<string>, host: Host) | ContinueRequest(host: Host)

  datatype Reply = ProviderFailed(mentionsTimeout: bool, mentionsCost: bool) | Decided(action: Action)

  /** How the skills behave for a host: no overlay touches the validation of arguments. */
  function HostEnv(host: Host): SkillEnv {
    EnvOf(host.policy, host.facts)
  }

  function EnvOfRequest(request: Request): SkillEnv {
    HostEnv(request.host)
  }

  lemma SameEnv(host: Host, L: seq<Record>)
    ensures EnvOf(EffectivePolicy(host.policy, L), host.facts) == HostEnv(host)
  {
  }

  class AgentEngine {
    const store: LedgerStore
    const gated: set<string>

    constructor (store: LedgerStore, gated: set<string>)
      ensures this.store == store && this.gated == gated
    {
      this.store, this.gated := store, gated;
    }

    /** Appends a record that changes nothing the rules read back, apart from the step count. */
    method AppendPlain(r: Record, ghost trig: TriggerRecord, ghost overlay: string, ghost context: seq<Record>,
                       ghost step: nat)
      returns (status: AppendStatus)
      requires Ready(store.records, gated, trig, overlay) && Mirrors(context, store.records, step)
      requires Plain(r) && Allowed(store.records, r, gated)
      modifies store
      ensures store.reliable ==> status == Stored
      ensures Ready(store.records, gated, trig, overlay)
      ensures Extends(old(store.records), store.records) && Calm(old(store.records), store.records)
      ensures Mirrors(context, store.records, step)
      ensures r in store.records ==> Mirrors(context + [r], store.records, step)
      ensures store.records == old(store.records) || store.records == old(store.records) + [r]
      ensures
        status == Stored ==>
          && store.records == old(store.records) + [r]
          && CurrentStepCount(store.records) == CurrentStepCount(old(store.records)) + if IsStep(r) then 1 else 0
    {
      hide Ready, Mirrors, Allowed, Calm, CurrentStepCount;
      PlainAppend(store.records, r, gated, trig, overlay, context, step);
      ContextMore(context, store.records, r, step);
      CalmItself(store.records);
      ghost var L := store.records;
      status := store.Append(r);
      if store.records == L { ContextMore(context, L, r, step); }
    }

    /** Some notes: intents, kernel events, plans, usage records, summaries. */
    method AppendNotes(lenient: bool, ghost trig: TriggerRecord, ghost overlay: string, ghost context: seq<Record>,
                       ghost step: nat)
      returns (ok: bool)
      requires Ready(store.records, gated, trig, overlay) && Mirrors(context, store.records, step)
      modifies store
      ensures store.reliable ==> ok
      ensures Ready(store.records, gated, trig, overlay)
      ensures Extends(old(store.records), store.records) && Calm(old(store.records), store.records)
      ensures Mirrors(context, store.records, step)
      ensures OnlyNotes(old(store.records), store.records)
    {
      hide Ready, Mirrors, Calm, CurrentStepCount, Extends;
      CalmItself(store.records);
      var drawn: int := *;
      var count := if drawn < 0 then 0 else drawn;
      for i := 0 to count
        invariant Ready(store.records, gated, trig, overlay) && Mirrors(context, store.records, step)
        invariant Extends(old(store.records), store.records) && Calm(old(store.records), store.records)
        invariant OnlyNotes(old(store.records), store.records)
      {
        ghost var L := store.records;
        var status := AppendPlain(Note, trig, overlay, context, step);
        ExtendsOn(old(store.records), L, store.records);
        CalmOn(old(store.records), L, store.records);
        if status == Crash || (status == StoreError && !lenient) { return false; }
      }
      return true;
    }

    /** Appends a note or a tuning after the outcome. */
    method AppendLesson(r: Record) returns (ok: bool)
      requires Orderly(store.records, gated) && (r.Note? || r.PolicyTuning?) && Allowed(store.records, r, gated)
      modifies store
      ensures store.reliable ==> ok
      ensures Orderly(store.records, gated) && Calm(old(store.records), store.records)
      ensures OnlyLessons(old(store.records), store.records)
      ensures
        Tunings(store.records) == Tunings(old(store.records))
        || (r.PolicyTuning? && Tunings(store.records) == Tunings(old(store.records)) + [r.tuning])
      ensures
        ok || r.Note? ==>
          Tunings(store.records) ==
          if r.PolicyTuning? then Tunings(old(store.records)) + [r.tuning] else Tunings(old(store.records))
    {
      hide Orderly, Allowed, Clean, Tunings;
      OrderAppend(store.records, r, gated);
      TuningsAppend(store.records, r);
      var status := store.Append(r);
      ok := status == Stored;
    }

    /** Records what was learned, and a tuning if the outcome calls for one. */
    method RunSelfImprovement(context: seq<Record>, outcome: OutcomeRecord, policy: EnginePolicy, overlay: string)
      returns (ok: bool)
      requires Orderly(store.records, gated) && FreshId(Tunings(store.records), overlay)
      requires LawfulTunings(Tunings(store.records)) && Tunings(context) == Tunings(store.records)
      modifies store
      ensures store.reliable ==> ok
      ensures Orderly(store.records, gated) && Calm(old(store.records), store.records)
      ensures OnlyLessons(old(store.records), store.records)
      ensures
        Tunings(store.records) == Tunings(old(store.records))
        || Tunings(store.records) ==
             Learned(Tunings(old(store.records)), policy, outcome, CountOutcomes(context), overlay)
      ensures
        ok ==>
          Tunings(store.records) ==
          Learned(Tunings(old(store.records)), policy, outcome, CountOutcomes(context), overlay)
    {
      hide Orderly, FreshId, LawfulTunings, Tunings, TuningRule, NextTuning, Calm, OnlyLessons;
      CalmItself(store.records);
      LessonsItself(store.records);
      NothingLearned(Tunings(store.records), policy, outcome, CountOutcomes(context), overlay);
      if !policy.selfImprovement.enabled { return true; }
      ok := AppendLessons();
      if !ok { return; }
      var tuning := NextTuning(Tunings(context), policy, outcome, CountOutcomes(context), overlay);
      if tuning.None? { return true; }
      NextTuningAllowed(Tunings(store.records), policy, outcome, CountOutcomes(context), overlay);
      ghost var L := store.records;
      ok := AppendLesson(PolicyTuning(tuning.value));
      CalmOn(old(store.records), L, store.records);
      LessonsOn(old(store.records), L, store.records);
      if !ok { return false; }
      if tuning.value.action.TuningRolledBack? { return true; }
      ghost var M := store.records;
      ok := AppendLesson(Note);
      CalmOn(old(store.records), M, store.records);
      LessonsOn(old(store.records), M, store.records);
    }

    /** The reflection, and any performance and preference records. */
    method AppendLessons() returns (ok: bool)
      requires Orderly(store.records, gated)
      modifies store
      ensures store.reliable ==> ok
      ensures Orderly(store.records, gated) && Calm(old(store.records), store.records)
      ensures OnlyLessons(old(store.records), store.records)
      ensures Tunings(store.records) == Tunings(old(store.records))
    {
      hide Orderly, Tunings, Calm, OnlyLessons;
      CalmItself(store.records);
      LessonsItself(store.records);
      var drawn: int := *;
      var count := if drawn < 1 then 1 else drawn;
      for i := 0 to count
        invariant Orderly(store.records, gated) && Calm(old(store.records), store.records)
        invariant OnlyLessons(old(store.records), store.records)
        invariant Tunings(store.records) == Tunings(old(store.records))
      {
        ghost var L := store.records;
        ok := AppendLesson(Note);
        CalmOn(old(store.records), L, store.records);
        LessonsOn(old(store.records), L, store.records);
        if !ok { return; }
      }
      return true;
    }

    /** Records the outcome (a store error is only logged) and lets the session learn from it. */
    method Finish(
        context: seq<Record>, trig: TriggerRecord, stop: StopReason, mentionsTimeout: bool, mentionsCost: bool,
        steps: nat, token: Option<string>, policy: EnginePolicy, overlay: string)
      returns (r: Advanced)
      requires Ready(store.records, gated, trig, overlay) && Tunings(context) == Tunings(store.records)
      requires CountOutcomes(context) == CountOutcomes(store.records)
      modifies store
      ensures Orderly(store.records, gated) && Calm(old(store.records), store.records)
      ensures Tunes(old(store.records), store.records, policy, overlay, r)
      ensures
        var outcome := OutcomeRecord(trig.id, trig.key, stop, mentionsTimeout, mentionsCost, steps, token);
        && (r.Faulted? || r == Finished(outcome, false))
        && Closes(old(store.records), store.records, outcome)
        && (store.reliable ==> r.Finished? && Concluded(store.records, outcome))
    {
      hide Orderly, Tunings, SinceOutcome, FreshId, Calm, Learned, LawfulTunings, Concluded, CountOutcomes, Tunes;
      var outcome := OutcomeRecord(trig.id, trig.key, stop, mentionsTimeout, mentionsCost, steps, token);
      ghost var L0 := store.records;
      SessionTunings(L0, gated);
      OrderAppend(L0, OutcomeEntry(outcome), gated);
      OutcomeGrows(L0, outcome);
      TuningsAppend(L0, OutcomeEntry(outcome));
      TuningsAppend(context, OutcomeEntry(outcome));
      CountOutcomesAppend(context, OutcomeEntry(outcome));
      var status := store.Append(OutcomeEntry(outcome));
      if status == Crash { TunesBy(L0, store.records, policy, overlay, outcome, Faulted); return Faulted; }
      ghost var L := store.records;
      var ok := RunSelfImprovement(context + [OutcomeEntry(outcome)], outcome, policy, overlay);
      CalmOn(L0, L, store.records);
      if store.reliable { Concludes(L0, L, store.records, outcome); }
      r := if ok then Finished(outcome, false) else Faulted;
      TunesBy(L0, store.records, policy, overlay, outcome, r);
    }

    method Suspend(
        context: seq<Record>, trig: TriggerRecord, step: nat, calls: seq<Call>, token: string,
        policy: EnginePolicy, overlay: string)
      returns (r: Advanced)
      requires Ready(store.records, gated, trig, overlay) && Mirrors(context, store.records, step)
      modifies store
      ensures store.reliable ==> r.Finished? && Concluded(store.records, r.outcome)
      ensures Orderly(store.records, gated) && Calm(old(store.records), store.records)
      ensures !r.Paused?
      ensures Tunes(old(store.records), store.records, policy, overlay, r)
      ensures r.Finished? ==> Pending(PendingApproval(token, trig.id, step, calls)) in store.records
      ensures r.Finished? ==> !r.replay && r.outcome.triggerId == trig.id && r.outcome.key == trig.key
      ensures r.Finished? ==> r.outcome.stop.Suspended? && r.outcome.token == Some(token) && r.outcome.steps == step
    {
      hide Ready, Mirrors, Orderly, Calm, Concluded, Learned, Tunes, Extends, CountOutcomes, Tunings;
      var pending := Pending(PendingApproval(token, trig.id, step, calls));
      var status := AppendPlain(pending, trig, overlay, context, step);
      ReadyReads(store.records, gated, trig, overlay);
      NothingTuned(old(store.records), store.records, policy, overlay);
      if status != Stored { return Faulted; }
      ghost var L := store.records;
      assert pending in L;
      MirrorsTunings(context + [pending], L, step);
      var mentionsTimeout: bool, mentionsCost: bool := *, *;
      r := Finish(context + [pending], trig, Suspended, mentionsTimeout, mentionsCost, step, Some(token), policy,
                  overlay);
      CalmOn(old(store.records), L, store.records);
      TunesSince(old(store.records), L, store.records, policy, overlay, r);
      Listed(L, store.records, pending);
    }

    /** Appends the results of a batch, and keeps them in the context. */
    method AppendResults(results: seq<ToolResult>, context: seq<Record>, ghost trig: TriggerRecord,
                         ghost overlay: string, ghost step: nat)
      returns (status: AppendStatus, context': seq<Record>)
      requires Ready(store.records, gated, trig, overlay) && Mirrors(context, store.records, step)
      modifies store
      ensures store.reliable ==> status == Stored
      ensures status == Stored ==> store.records == old(store.records) + ResultRecords(results)
      ensures status == Stored ==> context' == context + ResultRecords(results)
      ensures Ready(store.records, gated, trig, overlay)
      ensures Extends(old(store.records), store.records) && Calm(old(store.records), store.records)
      ensures Mirrors(context', store.records, step)
      ensures Undecided(old(store.records), store.records)
    {
      hide Ready, Mirrors, Calm, Extends, CurrentStepCount;
      CalmItself(store.records);
      status, context' := Stored, context;
      for i := 0 to |results|
        invariant Ready(store.records, gated, trig, overlay) && Mirrors(context', store.records, step)
        invariant Extends(old(store.records), store.records) && Calm(old(store.records), store.records)
        invariant status == Stored && Undecided(old(store.records), store.records)
        invariant store.records == old(store.records) + ResultRecords(results[..i])
        invariant context' == context + ResultRecords(results[..i])
      {
        ghost var L := store.records;
        var r := ResultRecord(results[i]);
        status := AppendPlain(r, trig, overlay, context', step);
        ExtendsOn(old(store.records), L, store.records);
        CalmOn(old(store.records), L, store.records);
        if status != Stored { return; }
        context' := context' + [r];
        OneMoreResult(results, i);
      }
      assert results[..|results|] == results;
    }

    /**
     Executes a batch the provider decided on just now, whatever its calls are named; or leaves the ledger as it is,
     for the batch must wait for an approval. When the id of its new graph is taken, the batch is not recorded and its
     checkpoints go under the graph that has the id.
     */
    method ExecuteFresh(context: seq<Record>, trig: TriggerRecord, step: nat, calls: seq<Call>, policy: EnginePolicy,
                        facts: Node -> SkillFacts, ghost overlay: string)
      returns (b: BatchExecution)
      requires Ready(store.records, gated, trig, overlay) && Mirrors(context, store.records, step)
      requires store.records != [] && store.records[|store.records| - 1] == ModelDecision(step, CallSkills(calls))
      requires StepTaken(store.records, trig, step)
      modifies store
      ensures store.reliable ==> !b.Fault?
      ensures Ready(store.records, gated, trig, overlay)
      ensures Extends(old(store.records), store.records)
      ensures Grown(EnvOf(policy, facts), old(store.records), store.records)
      ensures GraphsKept(old(store.records)) && Clean(old(store.records)) ==> GraphsKept(store.records)
      ensures
        GraphsKept(old(store.records)) && Clean(old(store.records)) ==>
          Paced(ExistingOrNewGraph(context, trig.id, step, calls), WaveSize(Caps(policy.maxParallel, policy.maxReady)),
                old(store.records), store.records)
      ensures b.NeedsApproval? ==> store.records == old(store.records) && b.pending == calls
      ensures b.NeedsApproval? <==> !Ungated(calls, gated)
      ensures b.Executed? ==> Performed(old(store.records), store.records, trig.id, step, calls)
      ensures
        b.Executed? && GraphsKept(old(store.records)) && Clean(old(store.records))
        && Repeats(old(store.records), step, calls) ==>
          b.results == []
      ensures
        b.Executed? && GraphsKept(old(store.records)) && Clean(old(store.records)) ==>
          var g := ExistingOrNewGraph(old(store.records), trig.id, step, calls);
          b.results == NewResults(EnvOf(policy, facts), g.nodes, FinalMap(old(store.records), g),
                                  FinalMap(store.records, g))
      ensures
        MatchingGraph(context, step, CallIds(calls)).None? && HasGraph(context, GraphId(trig.id, step)) ==>
          && Strayed(old(store.records), store.records, GraphId(trig.id, step))
          && (b.Executed? && SoundCall(context, old(store.records), NewGraph(trig.id, step, calls)) ==>
                AtRest(NewGraph(trig.id, step, calls), store.records))
    {
      hide Ready, Mirrors, StepTaken, Performed, Grown, GraphsKept, Clean, Batch, Trail, Paced, SoundCall, AtRest,
           Sourced, Strayed, NewResults, HasGraph, AllConform, Repeats, FinalMap, MatchingGraph;
      ghost var L := store.records;
      ghost var g := ExistingOrNewGraph(context, trig.id, step, calls);
      var env := SkillEnv(policy.validateArgs, facts);
      ReadyReads(L, gated, trig, overlay);
      CalmGrown(env, L);
      PaceBegins(g, WaveSize(Caps(policy.maxParallel, policy.maxReady)), L);
      b := ExecutePlannedCalls(store, context, trig.id, step, calls, false, gated, env,
                               Caps(policy.maxParallel, policy.maxReady));
      if !b.NeedsApproval? {
        FreshSourced(context, L, gated, trig, step, calls);
        BatchKeepsOrder(L, store.records, gated, g, HasGraph(context, g.id));
        ReadyOn(L, store.records, gated, trig, overlay);
        if GraphsKept(L) && Clean(L) {
          FreshSound(context, L, gated, trig, step, calls);
          TrailConformed(L, store.records, g, env);
        }
        FreshGrown(env, L, store.records);
        if b.Executed? { FreshPerformed(context, L, store.records, gated, trig, overlay, env, step, calls); }
      }
      BatchStrays(g, L, store.records, HasGraph(context, g.id));
    }

    method ExecuteAction(
        context: seq<Record>, trig: TriggerRecord, action: Action, steps: nat, policy: EnginePolicy,
        facts: Node -> SkillFacts, overlay: string, token: string)
      returns (r: Advanced)
      requires Ready(store.records, gated, trig, overlay) && Mirrors(context, store.records, steps)
      requires store.records != [] && store.records[|store.records| - 1] == ModelDecision(steps, action)
      requires StepTaken(store.records, trig, steps)
      modifies store
      ensures
        store.reliable ==>
          && (if Ends(action, gated) then r.Finished? else r.Paused?)
          && (r.Finished? ==> r.outcome.stop == StopOf(action) && Concluded(store.records, r.outcome))
      ensures Orderly(store.records, gated)
      ensures Grown(EnvOf(policy, facts), old(store.records), store.records)
      ensures r.Paused? ==> Extends(old(store.records), store.records)
      ensures Tunes(old(store.records), store.records, policy, overlay, r)
      ensures r.Finished? ==> r.outcome.stop == StopOf(action) || r.outcome.stop == StorageFailure
      ensures
        r.Finished? && r.outcome.stop != StorageFailure ==>
          && r.outcome.key == trig.key
          && (action.Respond? || action.Delegate? ==> !r.outcome.mentionsTimeout && !r.outcome.mentionsCost)
          && r.outcome.token == (match action
                                 case Suspend(_, resume) => Some(resume)
                                 case Delegate(resume) => Some(resume)
                                 case CallSkills(_) => Some(token)
                                 case _ => None)
      ensures
        r.Paused? && action.CallSkills? && GraphsKept(old(store.records)) && Clean(old(store.records)) ==>
          ResultsKept(EnvOf(policy, facts), ExistingOrNewGraph(old(store.records), trig.id, steps, action.calls),
                      old(store.records), store.records)
      ensures
        r.Paused? && action.CallSkills? ==>
          Performed(old(store.records), store.records, trig.id, steps, action.calls)
      ensures r.Finished? ==> !r.replay && r.outcome.triggerId == trig.id && !r.outcome.stop.MaxStepsReached?
      ensures r.Finished? ==> r.outcome.steps == if r.outcome.stop.Suspended? then steps else steps + 1
      ensures r.Finished? && r.outcome.stop.Suspended? ==> Suspends(store.records, trig, steps, action, r.outcome.token)
    {
      hide Ready, Mirrors, StepTaken, Orderly, Grown, Calm, Concluded, Performed, GraphsKept, Clean, Extends, Tunings,
           Learned, Closes, Tunes, CountOutcomes, ResultsKept, ExistingOrNewGraph, HasGraph, MatchingGraph,
           CurrentStepCount, SoundCall, AtRest, Strayed;
      ghost var L := store.records;
      MirrorsTunings(context, L, steps);
      CalmGrown(EnvOf(policy, facts), L);
      NothingTuned(L, L, policy, overlay);
      ReadyReads(L, gated, trig, overlay);
      match action
      case Plan =>
        var status := AppendPlain(Deliberation, trig, overlay, context, steps);
        ReadyReads(store.records, gated, trig, overlay);
        NothingTuned(L, store.records, policy, overlay);
        return if status == Stored then Paused else Faulted;
      case Respond =>
        r := Finish(context, trig, Responded, false, false, steps + 1, None, policy, overlay);
      case Yield =>
        var mentionsTimeout: bool, mentionsCost: bool := *, *;
        r := Finish(context, trig, Yielded, mentionsTimeout, mentionsCost, steps + 1, None, policy, overlay);
      case MemorySearch =>
        r := Observe(context, trig, steps, overlay);
        NothingTuned(L, store.records, policy, overlay);
      case MemoryArchive =>
        r := Observe(context, trig, steps, overlay);
        NothingTuned(L, store.records, policy, overlay);
      case Continue => return Paused;
      case Suspend(calls, resume) =>
        r := Suspend(context, trig, steps, calls, resume, policy, overlay);
      case CallSkills(calls) =>
        r := CallAll(context, trig, calls, steps, policy, facts, overlay, token);
      case Delegate(resume) =>
        r := Observe(context, trig, steps, overlay);
        NothingTuned(L, store.records, policy, overlay);
        if r.Faulted? { return; }
        ghost var M := store.records;
        MirrorsTunings(context, M, steps);
        r := Finish(context, trig, Delegated, false, false, steps + 1, Some(resume), policy, overlay);
        CalmOn(L, M, store.records);
        TunesSince(L, M, store.records, policy, overlay, r);
    }

    /** Executes the called skills and keeps their results, or suspends. */
    method CallAll(
        context: seq<Record>, trig: TriggerRecord, calls: seq<Call>, steps: nat, policy: EnginePolicy,
        facts: Node -> SkillFacts, overlay: string, token: string)
      returns (r: Advanced)
      requires Ready(store.records, gated, trig, overlay) && Mirrors(context, store.records, steps)
      requires store.records != [] && store.records[|store.records| - 1] == ModelDecision(steps, CallSkills(calls))
      requires StepTaken(store.records, trig, steps)
      modifies store
      ensures
        store.reliable ==>
          && (if Ungated(calls, gated) then r.Paused? else r.Finished?)
          && (r.Finished? ==> r.outcome.stop.Suspended? && Concluded(store.records, r.outcome))
      ensures Orderly(store.records, gated)
      ensures Grown(EnvOf(policy, facts), old(store.records), store.records)
      ensures r.Paused? ==> Extends(old(store.records), store.records)
      ensures Tunes(old(store.records), store.records, policy, overlay, r)
      ensures r.Finished? ==> r.outcome.stop == Suspended || r.outcome.stop == StorageFailure
      ensures
        r.Paused? && GraphsKept(old(store.records)) && Clean(old(store.records)) ==>
          ResultsKept(EnvOf(policy, facts), ExistingOrNewGraph(old(store.records), trig.id, steps, calls),
                      old(store.records), store.records)
      ensures r.Paused? ==> Performed(old(store.records), store.records, trig.id, steps, calls)
      ensures r.Finished? ==> !r.replay && r.outcome.triggerId == trig.id && !r.outcome.stop.MaxStepsReached?
      ensures r.Finished? ==> r.outcome.steps == if r.outcome.stop.Suspended? then steps else steps + 1
      ensures
        r.Finished? && r.outcome.stop.Suspended? ==>
          && r.outcome.token == Some(token) && r.outcome.key == trig.key
          && Pending(PendingApproval(token, trig.id, steps, calls)) in store.records
    {
      hide Ready, Mirrors, StepTaken, Orderly, Grown, Calm, Repeats, Concluded, Performed, GraphsKept, Clean, Extends,
           Ungated, HasGraph, MatchingGraph, SoundCall, AtRest, Strayed, Tunes, Paced, ResultsKept,
           ExistingOrNewGraph, NewResults, FinalMap;
      ghost var L := store.records;
      var b := ExecuteFresh(context, trig, steps, calls, policy, facts, overlay);
      ReadyReads(store.records, gated, trig, overlay);
      ghost var M := store.records;
      NothingTuned(L, M, policy, overlay);
      CalmGrown(EnvOf(policy, facts), M);
      match b
      case Fault => return Faulted;
      case NeedsApproval(_, pending) =>
        r := Suspend(context, trig, steps, pending, token, policy, overlay);
        TunesSince(L, M, store.records, policy, overlay, r);
      case Executed(results, _) =>
        r := KeepResults(results, trig, steps, overlay);
        ResultsKeptBy(EnvOf(policy, facts), ExistingOrNewGraph(L, trig.id, steps, calls), L, M);
        GrownOn(EnvOf(policy, facts), L, M, store.records);
        ExtendsOn(L, M, store.records);
        NothingTuned(L, store.records, policy, overlay);
        if r.Paused? {
          PerformedWithResults(L, M, trig.id, steps, calls, results);
        }
    }

    /** The two notes a memory action or a delegation leaves behind. */
    method Observe(context: seq<Record>, trig: TriggerRecord, steps: nat, overlay: string) returns (r: Advanced)
      requires Ready(store.records, gated, trig, overlay) && Mirrors(context, store.records, steps)
      modifies store
      ensures store.reliable ==> r.Paused?
      ensures Ready(store.records, gated, trig, overlay) && Orderly(store.records, gated)
      ensures Extends(old(store.records), store.records) && Calm(old(store.records), store.records)
      ensures Mirrors(context, store.records, steps)
      ensures !r.Finished?
    {
      hide Ready, Mirrors, Orderly, Calm, Extends, CurrentStepCount;
      var status := AppendPlain(Note, trig, overlay, context, steps);
      ReadyReads(store.records, gated, trig, overlay);
      if status != Stored { return Faulted; }
      ghost var L := store.records;
      status := AppendPlain(Note, trig, overlay, context, steps);
      ReadyReads(store.records, gated, trig, overlay);
      ExtendsOn(old(store.records), L, store.records);
      CalmOn(old(store.records), L, store.records);
      return if status == Stored then Paused else Faulted;
    }

    /** A result that cannot be stored ends the advance with a storage failure instead of an error. */
    method KeepResults(results: seq<ToolResult>, trig: TriggerRecord, steps: nat, ghost overlay: string)
      returns (r: Advanced)
      requires Ready(store.records, gated, trig, overlay)
      modifies store
      ensures store.reliable ==> r.Paused?
      ensures r.Paused? ==> store.records == old(store.records) + ResultRecords(results)
      ensures Orderly(store.records, gated)
      ensures Extends(old(store.records), store.records) && Calm(old(store.records), store.records)
      ensures r.Finished? ==> !r.replay && r.outcome == StorageFailed(trig, steps + 1)
    {
      hide Ready, Mirrors, Orderly, Calm, Extends;
      ItselfMirrors(store.records, steps);
      var status, _ := AppendResults(results, store.records, trig, overlay, steps);
      ReadyReads(store.records, gated, trig, overlay);
      match status
      case Crash => return Faulted;
      case StoreError => return Finished(StorageFailed(trig, steps + 1), false);
      case Stored => return Paused;
    }

    /** The outcome reported, but not recorded, when the store fails at these points. */
    function StorageFailed(trig: TriggerRecord, steps: nat): OutcomeRecord {
      OutcomeRecord(trig.id, None, StorageFailure, false, false, steps, None)
    }

    /** Ends the advance if it is cancelled, late, at a limit or too costly. */
    method PolicyOutcome(
        context: seq<Record>, trig: TriggerRecord, steps: nat, failures: nat, policy: EnginePolicy, overlay: string)
      returns (r: Option<Advanced>)
      requires Ready(store.records, gated, trig, overlay) && Mirrors(context, store.records, steps)
      modifies store
      ensures
        r.None? ==> store.records == old(store.records) && steps < policy.maxSteps && failures < policy.maxFailures
      ensures
        r.Some? ==>
          && (store.reliable ==> r.value.Finished? && Concluded(store.records, r.value.outcome))
          && Orderly(store.records, gated) && Calm(old(store.records), store.records)
          && NothingDone(old(store.records), store.records) && Undecided(old(store.records), store.records)
          && DecidesFirst(old(store.records), store.records)
          && Tunes(old(store.records), store.records, policy, overlay, r.value)
          && Limited(policy, steps, failures, old(store.records), store.records, r.value)
          && !r.value.Paused?
          && (r.value.Finished? ==>
                && !r.value.replay && r.value.outcome.triggerId == trig.id && r.value.outcome.stop != StorageFailure
                && (r.value.outcome.stop.MaxStepsReached? ==> steps >= policy.maxSteps))
    {
      hide Ready, Mirrors, Orderly, Calm, Concluded, Tunings, Tunes, Closes, NothingDone, DecidesFirst, CountOutcomes;
      ghost var L := store.records;
      MirrorsTunings(context, L, steps);
      var cancelled: bool, late: bool, costly: bool := *, *, *;
      var stop: StopReason, mentionsCost := *, false;
      if cancelled {
        stop := Cancelled;
      } else if late {
        stop := DeadlineExceeded;
      } else if steps >= policy.maxSteps {
        stop := MaxStepsReached;
      } else if failures >= policy.maxFailures {
        stop := PolicyAborted;
      } else if costly {
        stop, mentionsCost := PolicyAborted, true;
      } else {
        return None;
      }
      var ended := Finish(context, trig, stop, false, mentionsCost, steps, None, policy, overlay);
      ClosesNothing(L, store.records, OutcomeRecord(trig.id, trig.key, stop, false, mentionsCost, steps, None));
      return Some(ended);
    }

    /**
     One step: the limits are checked, the provider is asked at most once, its decision is recorded and carried out.
     A step that ends without an outcome was within the limits and recorded a decision.
     */
    method PerformSingleStep(
        context: seq<Record>, trig: TriggerRecord, steps: nat, failures: nat, policy: EnginePolicy,
        facts: Node -> SkillFacts, overlay: string, token: string)
      returns (r: Advanced)
      requires Ready(store.records, gated, trig, overlay) && Mirrors(context, store.records, steps)
      requires DecisionFits(store.records, trig, steps)
      modifies store
      ensures store.reliable ==> !r.Faulted? && (r.Finished? ==> Concluded(store.records, r.outcome))
      ensures
        steps >= policy.maxSteps || failures >= policy.maxFailures ==> NothingDone(old(store.records), store.records)
      ensures Orderly(store.records, gated)
      ensures Grown(EnvOf(policy, facts), old(store.records), store.records)
      ensures
        r.Paused? ==>
          && steps < policy.maxSteps && failures < policy.maxFailures
          && Extends(old(store.records), store.records)
          && CurrentStepCount(store.records) > CurrentStepCount(old(store.records))
          && CarriedOut(old(store.records), store.records, trig.id, steps)
      ensures Tunes(old(store.records), store.records, policy, overlay, r)
      ensures Limited(policy, steps, failures, old(store.records), store.records, r)
      ensures DecidesFirst(old(store.records), store.records)
      ensures
        r.Finished? && (steps >= policy.maxSteps || failures >= policy.maxFailures) ==>
          r.outcome.stop != StorageFailure
      ensures r.Finished? ==> !r.replay && r.outcome.triggerId == trig.id
      ensures r.Finished? && r.outcome.stop.MaxStepsReached? ==> steps >= policy.maxSteps
    {
      hide Ready, Mirrors, DecisionFits, Orderly, Grown, Calm, Concluded, Extends, CurrentStepCount, CarriedOut,
           GraphsKept, Tunings, Tunes, NothingDone, Undecided, DecidesFirst, OnlyNotes, Limited, Closes,
           CountOutcomes;
      ghost var L := store.records;
      CalmGrown(EnvOf(policy, facts), L);
      var ended := PolicyOutcome(context, trig, steps, failures, policy, overlay);
      if ended.Some? { return ended.value; }
      var ok := AppendNotes(false, trig, overlay, context, steps);
      ghost var M := store.records;
      ReadyReads(M, gated, trig, overlay);
      NotesDecideNothing(L, M);
      NothingTuned(L, M, policy, overlay);
      ActionLimited(policy, steps, failures, L, M, Faulted);
      if !ok { return Faulted; }
      NotesKeep(L, M);
      DecisionFitsOn(L, M, trig, steps);
      var reply: Reply := *;
      match reply {
        case ProviderFailed(mentionsTimeout, mentionsCost) =>
          MirrorsTunings(context, M, steps);
          r := Finish(context, trig, ProviderFailure, mentionsTimeout, mentionsCost, steps, None, policy, overlay);
          CalmOn(L, M, store.records);
          ClosesNothing(M, store.records, OutcomeRecord(
            trig.id, trig.key, ProviderFailure, mentionsTimeout, mentionsCost, steps, None));
        case Decided(action) =>
          r := CarryOut(context, trig, action, steps, policy, facts, overlay, token);
          GrownOn(EnvOf(policy, facts), L, M, store.records);
          if r.Paused? {
            ExtendsOn(L, M, store.records);
            CarriedOutSince(L, M, store.records, trig.id, steps);
          }
      }
      TunesSince(L, M, store.records, policy, overlay, r);
      DecidesFirstSince(L, M, store.records);
      ActionLimited(policy, steps, failures, L, store.records, r);
    }

    /** Records a decision and carries it out. */
    method CarryOut(
        context: seq<Record>, trig: TriggerRecord, action: Action, steps: nat, policy: EnginePolicy,
        facts: Node -> SkillFacts, overlay: string, token: string)
      returns (r: Advanced)
      requires Ready(store.records, gated, trig, overlay) && Mirrors(context, store.records, steps)
      requires DecisionFits(store.records, trig, steps)
      modifies store
      ensures
        store.reliable ==>
          && ModelDecision(steps, action) in store.records
          && (if Ends(action, gated) then r.Finished? else r.Paused?)
          && (r.Finished? ==> r.outcome.stop == StopOf(action) && Concluded(store.records, r.outcome))
      ensures Orderly(store.records, gated)
      ensures Grown(EnvOf(policy, facts), old(store.records), store.records)
      ensures
        r.Paused? ==>
          && Extends(old(store.records), store.records)
          && CurrentStepCount(store.records) > CurrentStepCount(old(store.records))
          && CarriedOut(old(store.records), store.records, trig.id, steps)
      ensures Tunes(old(store.records), store.records, policy, overlay, r)
      ensures DecidesFirst(old(store.records), store.records)
      ensures r.Finished? ==> r.outcome.stop == StopOf(action) || r.outcome.stop == StorageFailure
      ensures r.Finished? ==> !r.replay && r.outcome.triggerId == trig.id && !r.outcome.stop.MaxStepsReached?
      ensures r.Finished? && r.outcome.stop.Suspended? ==> Suspends(store.records, trig, steps, action, r.outcome.token)
    {
      hide Ready, Mirrors, DecisionFits, StepTaken, Orderly, Grown, Calm, Concluded, Extends, CurrentStepCount,
           CarriedOut, GraphsKept, Performed, Ends, Suspends, Allowed, Clean, Tunes, DecidesFirst;
      var decision := ModelDecision(steps, action);
      ghost var L := store.records;
      CalmGrown(EnvOf(policy, facts), L);
      DecisionTaken(L, decision, gated, trig, steps);
      var status := AppendPlain(decision, trig, overlay, context, steps);
      ReadyReads(store.records, gated, trig, overlay);
      DecidedAtOnce(L, steps, action, store.records);
      NothingTuned(L, store.records, policy, overlay);
      match status
      case Crash => return Faulted;
      case StoreError => return Finished(StorageFailed(trig, steps), false);
      case Stored =>
        ghost var M := store.records;
        assert decision in M;
        r := ExecuteAction(context + [decision], trig, action, steps, policy, facts, overlay, token);
        GrownOn(EnvOf(policy, facts), L, M, store.records);
        Listed(M, store.records, decision);
        DecidedAtOnce(L, steps, action, store.records);
        TunesSince(L, M, store.records, policy, overlay, r);
        if r.Paused? {
          ExtendsOn(L, M, store.records);
          ExtendsGrows(M, store.records);
          JustDecided(L, store.records, trig.id, steps, action);
        }
    }

    /******* Triggers *******/

    /** Finds the pending record an approval answers, and records the decision unless one was recorded before. */
    method ResolveApproval(context: seq<Record>, ghost trig: TriggerRecord, token: string, decision: Decision,
                           ghost overlay: string)
      returns (ok: bool, pending: Option<PendingApproval>, effective: Decision)
      requires Ready(store.records, gated, trig, overlay) && OnlyNotes(context, store.records)
      requires trig.kind == Approval(token, decision)
      modifies store
      ensures store.reliable ==> ok
      ensures Ready(store.records, gated, trig, overlay)
      ensures Extends(old(store.records), store.records) && Calm(old(store.records), store.records)
      ensures Behind(context, store.records) && Idly(old(store.records), store.records)
      ensures
        ok ==>
          ApprovalOf(old(store.records), token, decision)
          == if pending.Some? then Some((pending.value, effective)) else None
      ensures
        ok && pending.Some? ==>
          Resolved(store.records, pending.value, effective) && Answering(store.records, trig, pending.value)
      ensures
        PendingByToken(old(store.records), token).Some? && ok ==>
          && store.records == old(store.records) + [Resolution(token, decision)]
          && pending == PendingByToken(old(store.records), token) && effective == decision
      ensures !ok ==> ApprovalOf(old(store.records), token, decision).Some?
      ensures PendingByToken(old(store.records), token).None? ==> ok && store.records == old(store.records)
    {
      hide Ready, Mirrors, Behind, PendingByToken, FirstResolution, FirstPending, Resolved, Calm, Extends, OnlyNotes;
      ok, effective := true, decision;
      pending := FindPendingByToken(store.records, token);
      ghost var L := store.records;
      CalmItself(L);
      NotesBehind(context, L);
      NotesFirsts(context, L, token);
      if pending.Some? {
        PendingByTokenWitness(L, token);
        BehindMirrors(context, L, 0);
        var status := AppendPlain(Resolution(token, decision), trig, overlay, context, 0);
        BehindMore(context, L, store.records, Resolution(token, decision));
        RecordIdly(L, Resolution(token, decision), store.records);
        ok := status == Stored;
        if ok { JustResolved(L, pending.value, decision); }
      } else {
        var resolution := FirstResolution(context, token);
        var original := FirstPending(context, token);
        if resolution.Some? && original.Some? {
          pending, effective := original, resolution.value;
          ReadyReads(L, gated, trig, overlay);
          EarlierResolved(context, L, gated, token);
        }
      }
    }

    /** Executes the calls of an approved pending record, or resumes the graph an earlier delivery recorded. */
    method ExecuteApproved(context: seq<Record>, trig: TriggerRecord, a: PendingApproval, policy: EnginePolicy,
                           facts: Node -> SkillFacts, ghost overlay: string)
      returns (b: BatchExecution)
      requires Ready(store.records, gated, trig, overlay) && Behind(context, store.records)
      requires NoGraphsBy(store.records, trig.id) && Resolved(store.records, a, Approved)
      requires Answering(store.records, trig, a)
      modifies store
      ensures store.reliable ==> !b.Fault?
      ensures Ready(store.records, gated, trig, overlay)
      ensures Extends(old(store.records), store.records)
      ensures Grown(EnvOf(policy, facts), old(store.records), store.records)
      ensures GraphsKept(old(store.records)) && DistinctCalls(a.calls) ==> GraphsKept(store.records)
      ensures !b.NeedsApproval? && Idly(old(store.records), store.records)
      ensures b.Executed? ==> (b.allFailed <==> forall r :: r in b.results ==> r.output != Ok)
      ensures
        GraphsKept(old(store.records)) && DistinctCalls(a.calls) ==>
          Paced(ExistingOrNewGraph(context, trig.id, a.step, a.calls),
                WaveSize(Caps(policy.maxParallel, policy.maxReady)), old(store.records), store.records)
      ensures
        b.Executed? && GraphsKept(old(store.records)) && DistinctCalls(a.calls) ==>
          && Settles(old(store.records), store.records, trig.id, a)
          && (Repeats(old(store.records), a.step, a.calls) ==>
                NothingRun(old(store.records), store.records) && b.results == [] && b.allFailed)
          && var g := ExistingOrNewGraph(old(store.records), trig.id, a.step, a.calls);
             b.results == NewResults(EnvOf(policy, facts), g.nodes, FinalMap(old(store.records), g),
                                     FinalMap(store.records, g))
      ensures Mirrors(context, store.records, a.step + 1)
    {
      hide Ready, Mirrors, Behind, NoGraphsBy, Resolved, Answering, Grown, GraphsKept, Batch, Trail, Paced, SoundCall,
           AtRest, Sourced, NewResults, Settles, Repeats, NothingRun, Extends, DistinctCalls, HasGraph, OfNode,
           MatchingGraph, CallIds, NodesOf, SinceOutcome, Tunings, FreshId, StepOf, AllConform, FinalMap, Idly,
           StartsAfterDeps, CallsSettled;
      ghost var L := store.records;
      ghost var g := ExistingOrNewGraph(context, trig.id, a.step, a.calls);
      var env := SkillEnv(policy.validateArgs, facts);
      ReadyReads(L, gated, trig, overlay);
      b := ExecutePlannedCalls(store, context, trig.id, a.step, a.calls, true, gated, env,
                               Caps(policy.maxParallel, policy.maxReady));
      ApprovedSourced(context, L, gated, trig, a);
      BatchKeepsOrder(L, store.records, gated, g, HasGraph(context, g.id));
      BatchUndecided(g, HasGraph(context, g.id), L, store.records);
      ReadyOn(L, store.records, gated, trig, overlay);
      if GraphsKept(L) && DistinctCalls(a.calls) {
        ApprovedSound(context, L, gated, trig, a);
        TrailConformed(L, store.records, g, env);
        if b.Executed? { ApprovedSettles(context, L, store.records, gated, trig, env, a); }
      }
      AnsweringReads(L, trig, a);
      ApprovedGrown(env, L, store.records, a);
      BehindMirrors(context, L, a.step + 1);
      ApprovedMirrors(context, L, store.records, gated, g, HasGraph(context, g.id), a.step);
    }

    /** Executes or refuses the calls of a resolved pending record, and keeps the results. */
    method SettleApproval(context: seq<Record>, trig: TriggerRecord, a: PendingApproval, decision: Decision,
                          policy: EnginePolicy, facts: Node -> SkillFacts, ghost overlay: string)
      returns (ok: bool, context': seq<Record>, allFailed: bool)
      requires Ready(store.records, gated, trig, overlay) && Behind(context, store.records)
      requires NoGraphsBy(store.records, trig.id) && Resolved(store.records, a, decision)
      requires Answering(store.records, trig, a)
      modifies store
      ensures store.reliable ==> ok
      ensures Ready(store.records, gated, trig, overlay)
      ensures Extends(old(store.records), store.records)
      ensures Grown(EnvOf(policy, facts), old(store.records), store.records)
      ensures ok ==> Mirrors(context', store.records, a.step + 1)
      ensures
        ok && decision.Approved? && GraphsKept(old(store.records)) && DistinctCalls(a.calls) ==>
          && Settles(old(store.records), store.records, trig.id, a)
          && (Repeats(old(store.records), a.step, a.calls) ==>
                NothingRun(old(store.records), store.records) && allFailed)
          && ResultsKept(EnvOf(policy, facts), ExistingOrNewGraph(old(store.records), trig.id, a.step, a.calls),
                         old(store.records), store.records)
      ensures ok && decision.Rejected? ==> AllRefused(store.records, a.calls)
      ensures Undecided(old(store.records), store.records)
      ensures ok ==> (allFailed <==> SettledFailed(old(store.records), store.records))
    {
      hide Ready, Mirrors, Behind, NoGraphsBy, Resolved, Answering, Grown, Calm, GraphsKept, Settles, Repeats,
           NothingRun, Extends, DistinctCalls, AllConform, ResultsKept, ExistingOrNewGraph, NewResults, FinalMap,
           Undecided, SettledFailed, Idly, AllRefused;
      ghost var L := store.records;
      var results: seq<ToolResult>;
      context', allFailed := context, true;
      CalmGrown(EnvOf(policy, facts), L);
      if decision.Approved? {
        var b := ExecuteApproved(context, trig, a, policy, facts, overlay);
        IdlyReads(L, store.records);
        if b.Fault? { return false, context, true; }
        results, allFailed := b.results, b.allFailed;
      } else {
        results := RefusedResults(a.calls);
        RefusedListed(L, a.calls);
        BehindMirrors(context, L, a.step + 1);
        RecordIdly(L, Note, L);
        IdlyReads(L, L);
      }
      ghost var M := store.records;
      var status;
      status, context' := AppendResults(results, context, trig, overlay, a.step + 1);
      ExtendsOn(L, M, store.records);
      CalmGrown(EnvOf(policy, facts), M);
      GrownOn(EnvOf(policy, facts), L, M, store.records);
      UndecidedOn(L, M, store.records);
      ok := status == Stored;
      SettledBy(L, M, results);
      GrownReads(EnvOf(policy, facts), L, store.records);
      if ok && decision.Rejected? { RefusedListed(L, a.calls); }
      if ok && decision.Approved? && GraphsKept(L) && DistinctCalls(a.calls) {
        SettlesOn(L, M, store.records, trig.id, a);
        ResultsKeptBy(EnvOf(policy, facts), ExistingOrNewGraph(L, trig.id, a.step, a.calls), L, M);
        if Repeats(L, a.step, a.calls) { assert store.records == M; }
      }
    }

    /** Settles a resolved pending record, then advances one step. */
    method SettleAndStep(
        context: seq<Record>, trig: TriggerRecord, a: PendingApproval, decision: Decision, failures: nat,
        policy: EnginePolicy, facts: Node -> SkillFacts, overlay: string, suspendToken: string)
      returns (r: Advanced)
      requires Ready(store.records, gated, trig, overlay) && Behind(context, store.records)
      requires NoGraphsBy(store.records, trig.id) && Resolved(store.records, a, decision)
      requires Answering(store.records, trig, a)
      modifies store
      ensures store.reliable ==> !r.Faulted? && (r.Finished? ==> Concluded(store.records, r.outcome))
      ensures store.reliable ==> SettledWell(old(store.records), store.records, trig.id, a, decision)
      ensures Orderly(store.records, gated)
      ensures Grown(EnvOf(policy, facts), old(store.records), store.records)
      ensures Tunes(old(store.records), store.records, policy, overlay, r)
      ensures
        Limited(policy, a.step + 1, failures + (if SettledFailed(old(store.records), store.records) then 1 else 0),
                old(store.records), store.records, r)
      ensures
        r.Paused? ==>
          && Extends(old(store.records), store.records)
          && CurrentStepCount(store.records) > CurrentStepCount(old(store.records))
          && CarriedOut(old(store.records), store.records, trig.id, a.step + 1)
      ensures r.Finished? ==> !r.replay && r.outcome.triggerId == trig.id
    {
      hide Ready, Orderly, Mirrors, Behind, NoGraphsBy, Resolved, Answering, Grown, Calm, GraphsKept, Extends,
           Settles, SettledWell, Repeats, NothingRun, DistinctCalls, Concluded, CarriedOut, NothingDone,
           CurrentStepCount, Tunings, AllRefused, DecisionFits, Clean, AllConform, Tunes, Undecided, SettledFailed,
           DecidesFirst, CountOutcomes, Limited;
      ghost var L, env := store.records, EnvOf(policy, facts);
      var ok, context', allFailed := SettleApproval(context, trig, a, decision, policy, facts, overlay);
      ReadyReads(store.records, gated, trig, overlay);
      ghost var Q := store.records;
      GrownReads(env, L, Q);
      NothingTuned(L, Q, policy, overlay);
      CutShort(policy, a.step + 1, L, Q);
      if !ok { return Faulted; }
      ResumeFits(L, Q, trig, a);
      r := PerformSingleStep(context', trig, a.step + 1, failures + if allFailed then 1 else 0, policy, facts,
                             overlay, suspendToken);
      GrownOn(env, L, Q, store.records);
      GrownReads(env, L, store.records);
      SettledWellOn(L, Q, store.records, trig.id, a, decision);
      TunesSince(L, Q, store.records, policy, overlay, r);
      ApprovalLimited(policy, a.step + 1, failures, L, Q, store.records, allFailed, r);
      if r.Paused? {
        ExtendsGrows(L, Q);
        ExtendsOn(L, Q, store.records);
        CarriedOutSince(L, Q, store.records, trig.id, a.step + 1);
      }
    }

    /**
     Handles an approval: the pending calls are executed or refused, then the session advances one step. An approval of
     an unknown token ends the advance with nothing done.
     */
    method AdvanceApproval(
        context: seq<Record>, trig: TriggerRecord, token: string, decision: Decision, steps: nat, failures: nat,
        policy: EnginePolicy, facts: Node -> SkillFacts, overlay: string, suspendToken: string)
      returns (r: Advanced)
      requires Ready(store.records, gated, trig, overlay) && OnlyNotes(context, store.records)
      requires NoGraphsBy(store.records, trig.id) && trig.kind == Approval(token, decision)
      requires failures == ConsecutiveFailures(store.records)
      modifies store
      ensures store.reliable ==> Answered(old(store.records), store.records, trig.id, token, decision)
      ensures store.reliable ==> !r.Faulted? && (r.Finished? ==> Concluded(store.records, r.outcome))
      ensures Orderly(store.records, gated)
      ensures Grown(EnvOf(policy, facts), old(store.records), store.records)
      ensures
        ApprovalOf(old(store.records), token, decision).None? ==>
          NothingDone(old(store.records), store.records) && (r.Finished? ==> r.outcome.stop.PolicyAborted?)
      ensures
        r.Paused? ==>
          && Extends(old(store.records), store.records)
          && CurrentStepCount(store.records) > CurrentStepCount(old(store.records))
      ensures TriggerHandled(old(store.records), store.records, policy, trig, overlay, r)
    {
      hide Ready, Orderly, Mirrors, Behind, NoGraphsBy, Resolved, Answering, Answered, Grown, Calm, GraphsKept,
           Extends, SettledWell, Concluded, CarriedOut, NothingDone, CurrentStepCount, Tunings, PendingByToken,
           FirstResolution, FirstPending, ApprovalOf, Clean, OnlyNotes, Learned, Closes, AllConform, Tunes, Undecided,
           SettledFailed, Idly, ConsecutiveFailures, CountOutcomes, Limited, TriggerHandled, StopOf;
      ghost var L, env := store.records, EnvOf(policy, facts);
      NotesBehind(context, L);
      var ok, pending, effective := ResolveApproval(context, trig, token, decision, overlay);
      ReadyReads(store.records, gated, trig, overlay);
      CalmGrown(env, L);
      ghost var M := store.records;
      IdlyReads(L, M);
      HandledShort(L, M, policy, trig, overlay, Faulted);
      if !ok { return Faulted; }
      if pending.None? {
        BehindMirrors(context, M, 0);
        MirrorsTunings(context, M, 0);
        r := Finish(context, trig, PolicyAborted, false, false, steps, None, policy, overlay);
        NothingAnswered(L, M, store.records, trig, token, decision, policy, overlay, r,
                        OutcomeRecord(trig.id, trig.key, PolicyAborted, false, false, steps, None));
        return;
      }
      var a := pending.value;
      NoGraphsLater(context, L, M, trig.id);
      r := SettleAndStep(context, trig, a, effective, failures, policy, facts, overlay, suspendToken);
      GrownOn(env, L, M, store.records);
      GrownReads(env, L, store.records);
      AnsweringReads(M, trig, a);
      if store.reliable { AnsweredBy(env, L, M, store.records, trig.id, token, decision, a, effective); }
      TunesSince(L, M, store.records, policy, overlay, r);
      ApprovalResumed(policy, L, M, store.records, trig, token, decision, a, effective, overlay, r);
      if r.Paused? {
        ExtendsGrows(L, M);
        ExtendsOn(L, M, store.records);
      }
    }

    /** Records the trigger and what is derived from it. */
    method ReceiveTrigger(trig: TriggerRecord, ghost overlay: string) returns (status: AppendStatus)
      requires Orderly(store.records, gated) && FreshId(Tunings(store.records), overlay)
      requires !HasTrigger(store.records, trig.id)
      requires trig.key.Some? ==> OutcomeByKey(store.records, trig.key.value).None?
      modifies store
      ensures store.reliable ==> status == Stored
      ensures Orderly(store.records, gated) && Extends(old(store.records), store.records)
      ensures forall env :: Opened(env, old(store.records), store.records, trig)
      ensures
        status == Stored ==>
          && Ready(store.records, gated, trig, overlay)
          && NoGraphsBy(store.records, trig.id)
          && ActiveTrigger(store.records).Some?
          && CurrentStepCount(store.records) == CurrentStepCount(old(store.records))
          && SamePast(old(store.records), store.records)
          && ConsecutiveFailures(store.records) == ConsecutiveFailures(old(store.records))
      ensures Idly(old(store.records), store.records)
    {
      hide Orderly, Ready, Mirrors, HasTrigger, Tunings, FreshId, NoGraphsBy, SamePast, Calm, Opened,
           CurrentStepCount, ActiveTrigger, Extends, Idly, ConsecutiveFailures;
      ghost var L := store.records;
      OrderAppend(L, Trigger(trig), gated);
      TriggerReceived(L, gated, trig, overlay);
      AllOpened(L, L, trig);
      CalmItself(L + [Trigger(trig)]);
      StreakQuiet(L, Trigger(trig));
      status := store.Append(Trigger(trig));
      AllOpened(L, store.records, trig);
      RecordIdly(L, Trigger(trig), store.records);
      if status != Stored { return; }
      ghost var M := store.records;
      var ok := AppendNotes(true, trig, overlay, M, 0);
      ExtendsOn(L, M, store.records);
      ReadyReads(store.records, gated, trig, overlay);
      AllOpened(L, store.records, trig);
      NotesDecideNothing(M, store.records);
      IdlyOn(L, M, store.records);
      if !ok { return Crash; }
      NotesStreak(M, store.records);
      NotesKeep(M, store.records);
      NotesKeepGraphs(M, store.records, trig.id);
      ExtendsActive(M, store.records);
      ExtendsGrows(M, store.records);
      SamePastOn(L, M, store.records);
    }

    /** Advances a session that just received the trigger by at most one decision. */
    method HandleTrigger(trig: TriggerRecord, host: Host, overlay: string, token: string) returns (r: Advanced)
      requires Ready(store.records, gated, trig, overlay) && NoGraphsBy(store.records, trig.id)
      modifies store
      ensures Orderly(store.records, gated) && Grown(HostEnv(host), old(store.records), store.records)
      ensures store.reliable ==> !r.Faulted? && (r.Finished? ==> Concluded(store.records, r.outcome))
      ensures
        store.reliable && trig.kind.Approval? ==>
          Answered(old(store.records), store.records, trig.id, trig.kind.token, trig.kind.decision)
      ensures
        TriggerHandled(
          old(store.records), store.records, EffectivePolicy(host.policy, old(store.records)), trig, overlay, r)
      ensures
        r.Paused? ==>
          && Extends(old(store.records), store.records)
          && CurrentStepCount(store.records) > CurrentStepCount(old(store.records))
      ensures
        trig.kind.Approval? && ApprovalOf(old(store.records), trig.kind.token, trig.kind.decision).None? ==>
          r.Finished? ==> r.outcome.stop.PolicyAborted?
    {
      hide Ready, Orderly, Mirrors, Behind, CurrentStepCount, Tunings, CarriedOut, Answered, Concluded, NoGraphsBy,
           EffectivePolicy, SamePast, Grown, Calm, Extends, DecisionFits, ApprovalOf, OnlyNotes, NothingDone, Idly,
           ConsecutiveFailures, TriggerHandled, Tunes, Limited, Undecided, DecidesFirst;
      var snapshot := store.records;
      ghost var env := HostEnv(host);
      var policy := EffectivePolicy(host.policy, snapshot);
      SameEnv(host, snapshot);
      var steps, failures := CurrentStepCount(snapshot), ConsecutiveFailures(snapshot);
      ItselfMirrors(snapshot, steps);
      var ok := AppendNotes(false, trig, overlay, snapshot, steps);
      ghost var M := store.records;
      ReadyReads(M, gated, trig, overlay);
      CalmGrown(env, snapshot);
      NotesDecideNothing(snapshot, M);
      HandledShort(snapshot, M, policy, trig, overlay, Faulted);
      if !ok { return Faulted; }
      NotesKeep(snapshot, M);
      NotesKeepGraphs(snapshot, M, trig.id);
      NotesStreak(snapshot, M);
      if trig.kind.Approval? {
        var approval, decision := trig.kind.token, trig.kind.decision;
        r := AdvanceApproval(snapshot, trig, approval, decision, steps, failures, policy, host.facts, overlay, token);
        if store.reliable { SameAnswer(snapshot, M, trig.id, approval, decision); }
        SameApproval(snapshot, M, approval, decision);
      } else {
        CountFits(M, trig, steps);
        r := PerformSingleStep(snapshot, trig, steps, failures, policy, host.facts, overlay, token);
        StepHandled(policy, M, store.records, trig, overlay, r);
      }
      GrownOn(env, snapshot, M, store.records);
      HandledSince(snapshot, M, store.records, policy, trig, overlay, r);
      if r.Paused? {
        ExtendsOn(snapshot, M, store.records);
        ExtendsGrows(snapshot, M);
      }
    }

    /**
     One trigger. A replayed idempotency key leaves the ledger as it is and returns the outcome recorded under it;
     otherwise the trigger is recorded and the session advances by at most one decision.
     */
    method AdvanceTrigger(kind: TriggerKind, key: Option<string>, host: Host, ids: DrawnIds) returns (r: Advanced)
      requires Orderly(store.records, gated)
      requires !HasTrigger(store.records, ids.trigger) && FreshId(Tunings(store.records), ids.overlay)
      modifies store
      ensures Orderly(store.records, gated)
      ensures Opened(HostEnv(host), old(store.records), store.records, TriggerRecord(ids.trigger, key, kind))
      ensures
        store.reliable ==>
          !r.Faulted? && (r.Finished? && !r.replay ==> Concluded(store.records, r.outcome))
      ensures
        if KeyRecorded(old(store.records), key) then
          && store.records == old(store.records) && r.Finished? && r.replay
          && OutcomeEntry(r.outcome) in old(store.records) && r.outcome.key == key
          && Some(r.outcome) == OutcomeByKey(old(store.records), key.value)
        else
          TriggerHandled(
            old(store.records), store.records, EffectivePolicy(host.policy, old(store.records)),
            TriggerRecord(ids.trigger, key, kind), ids.overlay, r)
      ensures
        store.reliable && kind.Approval? && !KeyRecorded(old(store.records), key) ==>
          && Answered(old(store.records), store.records, ids.trigger, kind.token, kind.decision)
          && (ApprovalOf(old(store.records), kind.token, kind.decision).None? ==> r.outcome.stop.PolicyAborted?)
      ensures
        !kind.Approval? && !KeyRecorded(old(store.records), key) ==>
          StreakStops(EffectivePolicy(host.policy, old(store.records)), old(store.records), store.records, r)
      ensures
        r.Paused? ==>
          && !KeyRecorded(old(store.records), key)
          && 0 < EffectivePolicy(host.policy, old(store.records)).maxSteps
          && (!kind.Approval? ==>
                CurrentStepCount(old(store.records)) < EffectivePolicy(host.policy, old(store.records)).maxSteps)
          && Extends(old(store.records), store.records)
          && CurrentStepCount(store.records) > CurrentStepCount(old(store.records))
          && ActiveTrigger(store.records).Some?
    {
      hide Orderly, Ready, Mirrors, OutcomeByKey, CurrentStepCount, ActiveTrigger, HasTrigger, FreshId, Tunings,
           CarriedOut, Answered, Concluded, NoGraphsBy, EffectivePolicy, SamePast, Grown, Calm, Opened, Extends,
           ApprovalOf, Idly, ConsecutiveFailures, TriggerHandled, StreakStops, Undecided, KeyRecorded;
      ghost var L := store.records;
      var trig := TriggerRecord(ids.trigger, key, kind);
      ghost var env, effective := HostEnv(host), EffectivePolicy(host.policy, L);
      OpenedItself(env, L, trig);
      KeyFound(L, key);
      if key.Some? {
        var prior := OutcomeByKey(store.records, key.value);
        if prior.Some? { return Finished(prior.value, true); }
      }
      var status := ReceiveTrigger(trig, ids.overlay);
      ghost var M := store.records;
      IdlyReads(L, M);
      r := if status == Crash then Faulted else Finished(StorageFailed(trig, 0), false);
      HandledShort(L, M, effective, trig, ids.overlay, r);
      ShortStops(effective, L, M, r);
      if status != Stored { return; }
      SamePolicy(host.policy, L, M);
      r := HandleTrigger(trig, host, ids.overlay, ids.token);
      OpenedOn(env, L, M, store.records, trig);
      GrownReads(env, M, store.records);
      HandledSince(L, M, store.records, effective, trig, ids.overlay, r);
      HandledReads(L, store.records, effective, trig, ids.overlay, r);
      if kind.Approval? {
        if store.reliable { SameAnswer(L, M, trig.id, kind.token, kind.decision); }
        SameApproval(L, M, kind.token, kind.decision);
      }
      if r.Paused? {
        ExtendsOn(L, M, store.records);
        ExtendsActive(M, store.records);
      }
    }

    /******* Continuations *******/

    /** Executes what an interrupted advance left unfinished of the graph. */
    method ExecuteActive(snapshot: seq<Record>, trig: TriggerRecord, g: Graph, policy: EnginePolicy,
                         facts: Node -> SkillFacts, ghost overlay: string, ghost steps: nat)
      returns (b: BatchExecution)
      requires Ready(store.records, gated, trig, overlay)
      requires snapshot == store.records && ActiveGraph(snapshot) == Some(g)
      modifies store
      ensures store.reliable ==> !b.Fault?
      ensures !b.NeedsApproval? && Ready(store.records, gated, trig, overlay)
      ensures Extends(old(store.records), store.records) && Idly(old(store.records), store.records)
      ensures Grown(EnvOf(policy, facts), old(store.records), store.records)
      ensures CurrentStepCount(store.records) == CurrentStepCount(old(store.records))
      ensures
        b.Executed? && GraphsKept(snapshot) ==>
          && AtRest(g, store.records)
          && b.results == NewResults(EnvOf(policy, facts), g.nodes, FinalMap(old(store.records), g),
                                     FinalMap(store.records, g))
      ensures
        GraphsKept(snapshot) ==>
          Paced(g, WaveSize(Caps(policy.maxParallel, policy.maxReady)), old(store.records), store.records)
      ensures Mirrors(snapshot, store.records, steps)
    {
      hide Ready, Orderly, Mirrors, AtRest, Batch, Trail, Paced, SoundCall, Grown, GraphsKept, Extends, ActiveGraph,
           Ids, MatchingGraph, CallIds, Recorded, NewResults, Sourced, CurrentStepCount, Clean, AllConform, Idly,
           StartsAfterDeps, CallsSettled, FinalMap;
      ghost var L := store.records;
      var env := SkillEnv(policy.validateArgs, facts);
      ReadyReads(L, gated, trig, overlay);
      ActiveRecorded(L, gated, g);
      RebuiltFindsGraph(L, g, trig.id);
      b := ExecutePlannedCalls(store, snapshot, trig.id, g.step, CallsOf(g), true, gated, env,
                               Caps(policy.maxParallel, policy.maxReady));
      BatchKeepsOrder(L, store.records, gated, g, true);
      BatchCounts(L, store.records, g, true);
      BatchUndecided(g, true, L, store.records);
      ReadyOn(L, store.records, gated, trig, overlay);
      if GraphsKept(L) {
        ActiveSound(L, g);
        TrailConformed(L, store.records, g, env);
      }
      ResumeGrown(env, L, store.records);
      ResumeMirrors(L, store.records, gated, g, steps);
    }

    /** Resumes the graph an interrupted advance left unfinished, if there is one, and keeps the results. */
    method ResumeGraph(snapshot: seq<Record>, trig: TriggerRecord, policy: EnginePolicy, facts: Node -> SkillFacts,
                       ghost overlay: string, steps: nat)
      returns (ok: bool, context: seq<Record>)
      requires Ready(store.records, gated, trig, overlay) && snapshot == store.records
      modifies store
      ensures store.reliable ==> ok
      ensures Ready(store.records, gated, trig, overlay)
      ensures Extends(old(store.records), store.records)
      ensures Grown(EnvOf(policy, facts), old(store.records), store.records)
      ensures ok ==> CurrentStepCount(store.records) == CurrentStepCount(old(store.records))
      ensures
        ok && ActiveGraph(snapshot).Some? && GraphsKept(snapshot) ==>
          && AtRest(ActiveGraph(snapshot).value, store.records)
          && ResultsKept(EnvOf(policy, facts), ActiveGraph(snapshot).value, old(store.records), store.records)
      ensures ok ==> Mirrors(context, store.records, steps)
      ensures Undecided(old(store.records), store.records)
    {
      hide Ready, Mirrors, AtRest, Grown, Calm, GraphsKept, Extends, ActiveGraph, CurrentStepCount, Undecided, Idly,
           ResultsKept, NewResults, FinalMap;
      ghost var L := store.records;
      ItselfMirrors(snapshot, steps);
      CalmGrown(EnvOf(policy, facts), L);
      var active := ActiveGraph(snapshot);
      RecordIdly(L, Note, L);
      IdlyReads(L, L);
      if active.None? { return true, snapshot; }
      var b := ExecuteActive(snapshot, trig, active.value, policy, facts, overlay, steps);
      ghost var M := store.records;
      IdlyReads(L, M);
      if b.Fault? { return false, snapshot; }
      var status: AppendStatus;
      status, context := AppendResults(b.results, snapshot, trig, overlay, steps);
      UndecidedOn(L, M, store.records);
      ExtendsOn(L, M, store.records);
      CalmGrown(EnvOf(policy, facts), M);
      GrownOn(EnvOf(policy, facts), L, M, store.records);
      if status == Stored {
        StillAtRest(active.value, M, b.results);
        ResultsKeptBy(EnvOf(policy, facts), active.value, L, M);
        ResultsCount(M, b.results);
      }
      return status == Stored, context;
    }

    /**
     One continuation. Without an active trigger it leaves the ledger as it is; otherwise it finishes the graph an
     interruption left behind and advances the session by at most one decision.
     */
    method AdvanceContinue(host: Host, ids: DrawnIds) returns (r: Advanced)
      requires Orderly(store.records, gated) && FreshId(Tunings(store.records), ids.overlay)
      modifies store
      ensures Orderly(store.records, gated) && Grown(HostEnv(host), old(store.records), store.records)
      ensures
        store.reliable && ActiveTrigger(old(store.records)).Some? ==>
          !r.Faulted? && (r.Finished? ==> Concluded(store.records, r.outcome))
      ensures
        store.reliable && ActiveTrigger(old(store.records)).Some? && ActiveGraph(old(store.records)).Some?
        && GraphsKept(old(store.records)) && Clean(store.records) ==>
          AtRest(ActiveGraph(old(store.records)).value, store.records)
      ensures
        ActiveTrigger(old(store.records)).None? ==>
          && store.records == old(store.records)
          && r == Finished(OutcomeRecord(ids.trigger, None, Yielded, false, false, 0, None), false)
      ensures
        ActiveTrigger(old(store.records)).Some? && r.Finished? ==>
          !r.replay && r.outcome.triggerId == ActiveTrigger(old(store.records)).value.id
      ensures
        ActiveTrigger(old(store.records)).Some? ==>
          var L, policy := old(store.records), EffectivePolicy(host.policy, old(store.records));
          && Tunes(L, store.records, policy, ids.overlay, r)
          && Limited(policy, CurrentStepCount(L), ConsecutiveFailures(L), L, store.records, r)
          && StreakStops(policy, L, store.records, r)
      ensures
        r.Paused? ==>
          && ActiveTrigger(old(store.records)).Some?
          && CurrentStepCount(old(store.records)) < EffectivePolicy(host.policy, old(store.records)).maxSteps
          && Extends(old(store.records), store.records)
          && CurrentStepCount(store.records) > CurrentStepCount(old(store.records))
          && CarriedOut(
               old(store.records), store.records, ActiveTrigger(old(store.records)).value.id,
               CurrentStepCount(old(store.records)))
    {
      hide Orderly, Ready, Mirrors, SinceOutcome, CurrentStepCount, Tunings, FreshId, CarriedOut, Concluded,
           NothingDone, EffectivePolicy, Grown, Calm, GraphsKept, Clean, AllConform, Extends, DecisionFits,
           ActiveGraph, AtRest, Tunes, Limited, StreakStops, Undecided, ConsecutiveFailures, DecidesFirst;
      var snapshot := store.records;
      ghost var env := HostEnv(host);
      CalmGrown(env, snapshot);
      var active := ActiveTrigger(snapshot);
      if active.None? {
        return Finished(OutcomeRecord(ids.trigger, None, Yielded, false, false, 0, None), false);
      }
      var trig := active.value;
      ActiveReady(snapshot, gated, ids.overlay);
      var policy := EffectivePolicy(host.policy, snapshot);
      SameEnv(host, snapshot);
      var steps, failures := CurrentStepCount(snapshot), ConsecutiveFailures(snapshot);
      var ok, context := ResumeGraph(snapshot, trig, policy, host.facts, ids.overlay, steps);
      ghost var M := store.records;
      ReadyReads(M, gated, trig, ids.overlay);
      NothingTuned(snapshot, M, policy, ids.overlay);
      CutShort(policy, steps, snapshot, M);
      ShortStops(policy, snapshot, M, Faulted);
      if !ok { return Faulted; }
      CountFits(M, trig, steps);
      r := PerformSingleStep(context, trig, steps, failures, policy, host.facts, ids.overlay, ids.token);
      GrownOn(env, snapshot, M, store.records);
      GrownReads(env, snapshot, store.records);
      ActiveRests(snapshot, M, store.records, gated);
      TunesSince(snapshot, M, store.records, policy, ids.overlay, r);
      LimitedSince(policy, steps, failures, snapshot, M, store.records, r);
      LimitStops(policy, steps, snapshot, store.records, r);
      if r.Paused? {
        ExtendsOn(snapshot, M, store.records);
        CarriedOutSince(snapshot, M, store.records, trig.id, steps);
      }
    }

    /** Identifiers no record of the session carries yet. */
    method DrawIds() returns (ids: Option<DrawnIds>)
      ensures
        ids.Some? ==>
          !HasTrigger(store.records, ids.value.trigger) && FreshId(Tunings(store.records), ids.value.overlay)
    {
      var drawn: DrawnIds := *;
      if HasTrigger(store.records, drawn.trigger) || !FreshId(Tunings(store.records), drawn.overlay) { return None; }
      return Some(drawn);
    }

    method Advance(request: Request, ids: DrawnIds) returns (r: Advanced)
      requires Orderly(store.records, gated)
      requires !HasTrigger(store.records, ids.trigger) && FreshId(Tunings(store.records), ids.overlay)
      modifies store
      ensures Orderly(store.records, gated) && Tidy(EnvOfRequest(request), old(store.records), store.records)
      ensures old(store.records) <= store.records
      ensures
        TunedStep(
          old(store.records), store.records, EffectivePolicy(request.host.policy, old(store.records)), ids.overlay)
    {
      hide Orderly, HasTrigger, FreshId, Tidy, NoTriggers, TunedStep, Tunings, EffectivePolicy, ApprovalHandled,
           CurrentStepCount, ConsecutiveFailures, Limited, StreakStops, Answered, KeyRecorded, ActiveTrigger,
           ActiveGraph, AtRest, GraphsKept, Clean, Extends, Concluded;
      NothingLearnedYet(store.records, EffectivePolicy(request.host.policy, store.records), ids.overlay);
      match request
      case TriggerRequest(kind, key, host) =>
        ghost var L := store.records;
        r := AdvanceTrigger(kind, key, host, ids);
        OpenedReads(HostEnv(host), L, store.records, TriggerRecord(ids.trigger, key, kind));
      case ContinueRequest(host) =>
        ghost var L := store.records;
        r := AdvanceContinue(host, ids);
        GrownReads(HostEnv(host), L, store.records);
    }
  }
}
