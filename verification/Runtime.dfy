/** The loops that drive requests to their outcomes. */
module Runtime {
  import opened Options
  import opened Policies
  import opened Ledger
  import opened ToolGraphs
  import opened Overlays
  import opened Projections
  import opened Sessions
  import opened Advances
  import opened Engine

  /** A trigger that arrived when none was waiting leaves a driven ledger driven. */
  lemma DrivenOpened(env: SkillEnv, L: seq<Record>, M: seq<Record>, t: TriggerRecord)
    requires Driven(L) && ActiveTrigger(L).None? && Opened(env, L, M, t)
    ensures Driven(M)
  {
    hide ActiveTrigger, Tidy;
    forall i | 0 <= i < |M| && M[i].Trigger? ensures ActiveTrigger(M[..i]).None? {
      if i < |L| {
        assert M[..i] == L[..i] && L[i].Trigger?;
      } else {
        assert M[..i] == L;
      }
    }
  }

  /**
   Drives a trigger until an advance reports an outcome or an error. Whatever the provider answers and however the
   skills behave, that takes at most one advance more than the step limit in force at the start; with a reliable store
   it is an outcome, recorded unless replayed, after which no trigger waits.
   */
  method RunUntilTerminalTrace(
      engine: AgentEngine, kind: TriggerKind, key: Option<string>, host: Host, ids: DrawnIds)
    returns (advances: seq<Advanced>)
    requires Orderly(engine.store.records, engine.gated)
    requires !HasTrigger(engine.store.records, ids.trigger) && FreshId(Tunings(engine.store.records), ids.overlay)
    modifies engine.store
    ensures Orderly(engine.store.records, engine.gated)
    ensures
      Opened(HostEnv(host), old(engine.store.records), engine.store.records, TriggerRecord(ids.trigger, key, kind))
    ensures 1 <= |advances| <= EffectivePolicy(host.policy, old(engine.store.records)).maxSteps + 1
    ensures !advances[|advances| - 1].Paused?
    ensures forall i :: 0 <= i < |advances| - 1 ==> advances[i].Paused?
    ensures
      engine.store.reliable ==>
        var last := advances[|advances| - 1];
        && last.Finished?
        && if last.replay then engine.store.records == old(engine.store.records)
           else Concluded(engine.store.records, last.outcome)
  {
    hide Orderly, Extends, Concluded, Opened, Grown, HasTrigger, FreshId, EffectivePolicy, CurrentStepCount,
         ActiveTrigger, CarriedOut, Answered, Tunings, OutcomeByKey, ApprovalOf;
    var store := engine.store;
    ghost var L := store.records;
    ghost var trig := TriggerRecord(ids.trigger, key, kind);
    ghost var limit := EffectivePolicy(host.policy, L).maxSteps;
    var result := engine.AdvanceTrigger(kind, key, host, ids);
    advances := [result];
    if result.Paused? { FreshLater(L, store.records, host.policy, ids.overlay); }
    while result.Paused?
      invariant Orderly(store.records, engine.gated) && Opened(HostEnv(host), L, store.records, trig)
      invariant advances != [] && advances[|advances| - 1] == result
      invariant forall i :: 0 <= i < |advances| - 1 ==> advances[i].Paused?
      invariant |advances| <= limit + 1
      invariant store.reliable ==> !result.Faulted?
      invariant
        store.reliable && result.Finished? ==>
          if result.replay then store.records == L else Concluded(store.records, result.outcome)
      invariant
        result.Paused? ==>
          && |advances| <= limit && Extends(L, store.records) && ActiveTrigger(store.records).Some?
          && |advances| <= CurrentStepCount(store.records)
          && FreshId(Tunings(store.records), ids.overlay)
          && EffectivePolicy(host.policy, store.records).maxSteps == limit
      decreases limit + 1 - |advances|, result.Paused?
    {
      ghost var M := store.records;
      result := engine.AdvanceContinue(host, ids);
      advances := advances + [result];
      OpenedOn(HostEnv(host), L, M, store.records, trig);
      if result.Paused? {
        ExtendsOn(L, M, store.records);
        ExtendsGrows(M, store.records);
        ExtendsActive(M, store.records);
        FreshLater(M, store.records, host.policy, ids.overlay);
      }
    }
  }

  lemma FreshLater(L: seq<Record>, M: seq<Record>, policy: EnginePolicy, overlay: string)
    requires Extends(L, M)
    ensures FreshId(Tunings(L), overlay) ==> FreshId(Tunings(M), overlay)
    ensures EffectivePolicy(policy, M) == EffectivePolicy(policy, L)
  {
    hide FreshId;
    ExtendsTunings(L, M);
  }

  /** Every request is served by a host under which the skills behave alike. */
  ghost predicate ServedBy(requests: seq<Request>, env: SkillEnv) {
    forall r :: r in requests ==> EnvOfRequest(r) == env
  }

  /** Every graph at rest holds the statuses its batch evaluates to. */
  ghost predicate SettledAtRest(env: SkillEnv, L: seq<Record>) {
    forall g :: Recorded(L, g) && AtRest(g, L) ==> FinalMap(L, g) == Settled(g, env)
  }

  /** As far as its batches kept apart, a session keeps the rules of graphs, and runs its calls as its one host does. */
  ghost predicate Determined(requests: seq<Request>, L: seq<Record>) {
    Clean(L) ==> GraphsKept(L) && forall env :: ServedBy(requests, env) ==> AllConform(env, L)
  }

  /** Every request brings this base policy. */
  ghost predicate UnderPolicy(requests: seq<Request>, base: EnginePolicy) {
    forall r :: r in requests ==> r.host.policy == base
  }

  /** As long as one base policy served the session, each of its tunings is the one an outcome called for over it. */
  ghost predicate SessionTuned(requests: seq<Request>, L: seq<Record>) {
    forall base :: UnderPolicy(requests, base) ==> TunedOver(base, Tunings(L))
  }

  lemma SessionTunedOn(requests: seq<Request>, i: nat, L: seq<Record>, M: seq<Record>, overlay: string)
    requires i < |requests| && SessionTuned(requests[..i], L) && FreshId(Tunings(L), overlay)
    requires TunedStep(L, M, EffectivePolicy(requests[i].host.policy, L), overlay)
    ensures SessionTuned(requests[..i + 1], M)
  {
    hide NextTuning, ActiveOverlay, Tunings, WithOverlay, TunedOver;
    assert requests[..i + 1] == requests[..i] + [requests[i]];
    forall base | UnderPolicy(requests[..i + 1], base) ensures TunedOver(base, Tunings(M)) {
      assert UnderPolicy(requests[..i], base) && requests[i] in requests[..i + 1];
      if Tunings(M) != Tunings(L) {
        var ts, policy := Tunings(L), EffectivePolicy(base, L);
        var outcome, outcomes :|
          var t := NextTuning(ts, policy, outcome, outcomes, overlay); t.Some? && Tunings(M) == ts + [t.value];
        var t := NextTuning(ts, policy, outcome, outcomes, overlay).value;
        TunedMore(base, ts, t, outcome, outcomes, overlay);
      }
    }
  }

  lemma NothingTunedYet()
    ensures SessionTuned([], [])
  {
  }

  lemma SessionTunedReads(requests: seq<Request>, L: seq<Record>)
    requires SessionTuned(requests, L)
    ensures forall base :: UnderPolicy(requests, base) ==> TunedOver(base, Tunings(L))
  {
  }

  /**
   Any number of requests of any kind against a session that starts out empty, each advance cut short anywhere: the
   ledger stays orderly throughout, and lawful as far as its batches kept apart. When one host served them all, every
   graph at rest then holds the statuses its batch evaluates to, whatever was interrupted, resumed or reordered. And
   when they all brought one base policy, each tuning is the one an outcome called for over it.
   */
  method ServeSession(engine: AgentEngine, requests: seq<Request>)
    requires engine.store.records == []
    modifies engine.store
    ensures Orderly(engine.store.records, engine.gated)
    ensures Clean(engine.store.records) ==> SessionLawful(engine.store.records, engine.gated)
    ensures
      forall env :: Clean(engine.store.records) && ServedBy(requests, env) ==>
        AllConform(env, engine.store.records) && SettledAtRest(env, engine.store.records)
    ensures forall base :: UnderPolicy(requests, base) ==> TunedOver(base, Tunings(engine.store.records))
  {
    hide Orderly, GraphsKept, Clean, HasTrigger, FreshId, Determined, SettledAtRest, Tidy, AllConform, ServedBy,
         SessionTuned, UnderPolicy, TunedStep, TunedOver, Tunings, EffectivePolicy;
    EmptySession(engine.gated);
    EmptyDetermined();
    NothingTunedYet();
    for i := 0 to |requests|
      invariant Orderly(engine.store.records, engine.gated)
      invariant Determined(requests[..i], engine.store.records) && SessionTuned(requests[..i], engine.store.records)
    {
      ghost var L := engine.store.records;
      var ids := engine.DrawIds();
      if ids.Some? {
        var _ := engine.Advance(requests[i], ids.value);
        SessionTunedOn(requests, i, L, engine.store.records, ids.value.overlay);
      } else {
        TidyItself(EnvOfRequest(requests[i]), L);
        SessionTunedMore(requests, i, L);
      }
      DeterminedOn(requests, i, L, engine.store.records);
    }
    assert requests[..|requests|] == requests;
    DeterminedReads(requests, engine.store.records);
    SessionTunedReads(requests, engine.store.records);
  }

  lemma SessionTunedMore(requests: seq<Request>, i: nat, L: seq<Record>)
    requires i < |requests| && SessionTuned(requests[..i], L)
    ensures SessionTuned(requests[..i + 1], L)
  {
    hide TunedOver;
    assert requests[..i + 1] == requests[..i] + [requests[i]];
    assert forall r :: r in requests[..i] ==> r in requests[..i + 1];
    assert forall base :: UnderPolicy(requests[..i + 1], base) ==> UnderPolicy(requests[..i], base);
  }

  lemma EmptyDetermined()
    ensures Determined([], [])
  {
    hide Clean;
  }

  lemma TidyItself(env: SkillEnv, L: seq<Record>)
    ensures Tidy(env, L, L)
  {
    hide GraphsKept, AllConform;
  }

  lemma DeterminedOn(requests: seq<Request>, i: nat, L: seq<Record>, M: seq<Record>)
    requires i < |requests| && L <= M && Determined(requests[..i], L) && Tidy(EnvOfRequest(requests[i]), L, M)
    ensures Determined(requests[..i + 1], M)
  {
    hide GraphsKept, Clean, AllConform;
    if Clean(M) {
      CleanPrefix(L, M);
      assert requests[..i + 1] == requests[..i] + [requests[i]];
      forall env | ServedBy(requests[..i + 1], env) ensures AllConform(env, M) {
        assert ServedBy(requests[..i], env) && requests[i] in requests[..i + 1];
      }
    }
  }

  lemma DeterminedReads(requests: seq<Request>, L: seq<Record>)
    requires Determined(requests, L)
    ensures Clean(L) ==> GraphsKept(L)
    ensures forall env :: Clean(L) && ServedBy(requests, env) ==> AllConform(env, L) && SettledAtRest(env, L)
  {
    hide GraphsKept, Clean, AllConform, ServedBy, AtRest, FinalMap, Settled;
    forall env, g | Clean(L) && ServedBy(requests, env) && Recorded(L, g) && AtRest(g, L)
      ensures FinalMap(L, g) == Settled(g, env)
    {
      RestIsSettled(env, L, g);
    }
  }

  /** Two sessions of like hosts that hold the same batch at rest agree on all its statuses. */
  lemma SessionsAgree(env: SkillEnv, L: seq<Record>, M: seq<Record>, g: Graph)
    requires GraphsKept(L) && AllConform(env, L) && Recorded(L, g) && AtRest(g, L)
    requires GraphsKept(M) && AllConform(env, M) && Recorded(M, g) && AtRest(g, M)
    ensures FinalMap(L, g) == FinalMap(M, g)
  {
    hide GraphsKept, AllConform, AtRest, FinalMap, Settled;
    RestIsSettled(env, L, g);
    RestIsSettled(env, M, g);
  }

  /** With a reliable store, driving each trigger to its outcome before the next keeps the session driven. */
  method DriveSession(engine: AgentEngine, requests: seq<(TriggerKind, Option<string>, Host)>)
    requires engine.store.records == [] && engine.store.reliable
    modifies engine.store
    ensures Orderly(engine.store.records, engine.gated)
    ensures Driven(engine.store.records) && ActiveTrigger(engine.store.records).None?
  {
    hide Orderly, ActiveTrigger, HasTrigger, FreshId, Opened, Concluded, Tunings;
    EmptySession(engine.gated);
    NothingWaits();
    for i := 0 to |requests|
      invariant Orderly(engine.store.records, engine.gated)
      invariant Driven(engine.store.records) && ActiveTrigger(engine.store.records).None?
    {
      ghost var L := engine.store.records;
      var ids := engine.DrawIds();
      if ids.Some? {
        var (kind, key, host) := requests[i];
        var advances := RunUntilTerminalTrace(engine, kind, key, host, ids.value);
        DrivenOpened(HostEnv(host), L, engine.store.records,
                     TriggerRecord(ids.value.trigger, key, kind));
        NobodyWaits(engine.store.records);
      }
    }
  }

  lemma NothingWaits()
    ensures Driven([]) && ActiveTrigger([]).None?
  {
  }

  lemma NobodyWaits(M: seq<Record>)
    ensures forall o :: Concluded(M, o) ==> ActiveTrigger(M).None?
  {
  }
}
