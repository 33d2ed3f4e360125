/** A batch of planned calls: the graph it is executed as, and what its calls ask for, told without any graph. */
module Batches {
  import opened Options
  import opened Ledger
  import opened Evaluation
  import opened ToolGraphs

  /******* Choosing the graph *******/

  predicate DistinctCalls(calls: seq<Call>) {
    forall i, j :: 0 <= i < j < |calls| ==> calls[i].callId != calls[j].callId
  }

  /** The latest recorded graph with this step and exactly these call ids. */
  function MatchingGraph(context: seq<Record>, step: nat, ids: set<string>): (g: Option<Graph>)
    ensures g.Some? ==> Recorded(context, g.value) && g.value.step == step && Ids(g.value) == ids
    ensures g.None? ==> forall h :: Recorded(context, h) ==> !(h.step == step && Ids(h) == ids)
  {
    if context == [] then None
    else
      var last := context[|context| - 1];
      if last.GraphRecord? && last.graph.step == step && Ids(last.graph) == ids then Some(last.graph)
      else MatchingGraph(context[..|context| - 1], step, ids)
  }

  /** Of several matching graphs the latest is taken. */
  lemma {:induction false} MatchingIsLatest(context: seq<Record>, step: nat, ids: set<string>) returns (i: nat)
    requires MatchingGraph(context, step, ids).Some?
    ensures i < |context| && context[i] == GraphRecord(MatchingGraph(context, step, ids).value)
    ensures
      forall j :: i < j < |context| && context[j].GraphRecord? ==>
        !(context[j].graph.step == step && Ids(context[j].graph) == ids)
  {
    var last := context[|context| - 1];
    if last.GraphRecord? && last.graph.step == step && Ids(last.graph) == ids {
      i := |context| - 1;
    } else {
      i := MatchingIsLatest(context[..|context| - 1], step, ids);
    }
  }

  function NodesOf(calls: seq<Call>): (nodes: seq<Node>)
    ensures |nodes| == |calls|
  {
    seq(|calls|, i requires 0 <= i < |calls| =>
      Node(calls[i].callId, calls[i].name, calls[i].payload, calls[i].priority, calls[i].dependsOn, i))
  }

  function CallIds(calls: seq<Call>): set<string> {
    IdsOf(NodesOf(calls))
  }

  function NewGraph(triggerId: string, step: nat, calls: seq<Call>): Graph {
    Graph(GraphId(triggerId, step), step, NodesOf(calls))
  }

  function ExistingOrNewGraph(context: seq<Record>, triggerId: string, step: nat, calls: seq<Call>): Graph {
    var found := MatchingGraph(context, step, CallIds(calls));
    if found.Some? then found.value else NewGraph(triggerId, step, calls)
  }

  /******* What the calls ask for *******/

  /** Each call of a batch is the node of its id: it says all the call says, and its order is the call's position. */
  lemma NodeOfCall(triggerId: string, step: nat, calls: seq<Call>, i: nat)
    requires DistinctCalls(calls) && i < |calls|
    ensures
      var g, c := NewGraph(triggerId, step, calls), calls[i];
      && g.id == GraphId(triggerId, step) && g.step == step && |g.nodes| == |calls| && c.callId in Ids(g)
      && var n := NodeOf(g, c.callId);
         && n == g.nodes[i] && n.callId == c.callId && n.skill == c.name && n.payload == c.payload
         && n.priority == c.priority && n.deps == c.dependsOn && n.order == i
  {
    FindNodeAt(NewGraph(triggerId, step, calls).nodes, i);
  }

  /** The graph of a batch declares the ids of its calls, each with the dependencies that call lists. */
  lemma DepsOfCalls(triggerId: string, step: nat, calls: seq<Call>)
    requires DistinctCalls(calls)
    ensures
      var deps := Deps(NewGraph(triggerId, step, calls));
      && (forall c :: c in deps <==> exists k :: 0 <= k < |calls| && calls[k].callId == c)
      && (forall k :: 0 <= k < |calls| ==> deps[calls[k].callId] == calls[k].dependsOn)
  {
    var g := NewGraph(triggerId, step, calls);
    forall k | 0 <= k < |calls| ensures calls[k].callId in Deps(g) && Deps(g)[calls[k].callId] == calls[k].dependsOn {
      NodeOfCall(triggerId, step, calls, k);
    }
    forall c | c in Deps(g) ensures exists k :: 0 <= k < |calls| && calls[k].callId == c {
      var n := NodeOf(g, c);
      assert n in g.nodes;
      var k :| 0 <= k < |g.nodes| && g.nodes[k] == n;
      assert calls[k].callId == c;
    }
  }

  /** The calls are acyclic: each dependency is a call of the batch that ranks below its dependent. */
  ghost predicate CallsRanked(calls: seq<Call>, rank: map<string, nat>) {
    && (forall k :: 0 <= k < |calls| ==> calls[k].callId in rank)
    && (forall k, d :: 0 <= k < |calls| && d in calls[k].dependsOn ==>
          d in rank && rank[d] < rank[calls[k].callId] && exists m :: 0 <= m < |calls| && calls[m].callId == d)
  }

  /** What a call returns when it is executed. */
  ghost function OwnResult(env: SkillEnv, calls: seq<Call>, k: nat): Output
    requires k < |calls|
  {
    var c := calls[k];
    EffectiveOutput(env, Node(c.callId, c.name, c.payload, c.priority, c.dependsOn, k))
  }

  /** The recursive rule: Skipped if a call it depends on did not succeed, else what its own result leads to. */
  ghost function CallStatus(env: SkillEnv, calls: seq<Call>, rank: map<string, nat>, k: nat): Status
    requires CallsRanked(calls, rank) && k < |calls|
    decreases rank[calls[k].callId]
  {
    if exists m :: 0 <= m < |calls| && calls[m].callId in calls[k].dependsOn
                   && CallStatus(env, calls, rank, m) != Succeeded
    then Skipped
    else match OwnResult(env, calls, k)
         case Ok => Succeeded
         case Err(Timeout) => TimedOut
         case Err(_) => Failed
  }

  lemma CallsRankedGraph(triggerId: string, step: nat, calls: seq<Call>, rank: map<string, nat>)
    requires DistinctCalls(calls) && CallsRanked(calls, rank)
    ensures Ranked(Deps(NewGraph(triggerId, step, calls)), rank)
  {
    hide Deps, NewGraph;
    DepsOfCalls(triggerId, step, calls);
  }

  /** The rule over the calls is the recursive specification of their graph. */
  lemma {:induction false} CallStatusIsSpec(
      env: SkillEnv, triggerId: string, step: nat, calls: seq<Call>, rank: map<string, nat>, k: nat)
    requires DistinctCalls(calls) && CallsRanked(calls, rank) && k < |calls|
    ensures
      var g := NewGraph(triggerId, step, calls);
      && Ranked(Deps(g), rank) && calls[k].callId in Deps(g)
      && Spec(Deps(g), OwnOutcomes(g, env), rank, calls[k].callId) == CallStatus(env, calls, rank, k)
    decreases rank[calls[k].callId]
  {
    hide NewGraph, Deps, OwnOutcomes, CallStatus, Spec, CallsRanked;
    var g := NewGraph(triggerId, step, calls);
    CallsRankedGraph(triggerId, step, calls, rank);
    DepsOfCalls(triggerId, step, calls);
    forall m | 0 <= m < |calls| && calls[m].callId in calls[k].dependsOn
      ensures SameStatus(env, g, calls, rank, m)
    {
      RankedBelow(calls, rank, k, m);
      CallStatusIsSpec(env, triggerId, step, calls, rank, m);
    }
    SpecOfCall(env, triggerId, step, calls, rank, k);
  }

  lemma RankedBelow(calls: seq<Call>, rank: map<string, nat>, k: nat, m: nat)
    requires CallsRanked(calls, rank) && k < |calls| && m < |calls| && calls[m].callId in calls[k].dependsOn
    ensures calls[k].callId in rank && calls[m].callId in rank && rank[calls[m].callId] < rank[calls[k].callId]
  {
  }

  ghost predicate SameStatus(env: SkillEnv, g: Graph, calls: seq<Call>, rank: map<string, nat>, m: nat)
    requires CallsRanked(calls, rank) && m < |calls| && Ranked(Deps(g), rank) && calls[m].callId in Deps(g)
  {
    Spec(Deps(g), OwnOutcomes(g, env), rank, calls[m].callId) == CallStatus(env, calls, rank, m)
  }

  lemma SpecOfCall(
      env: SkillEnv, triggerId: string, step: nat, calls: seq<Call>, rank: map<string, nat>, k: nat)
    requires DistinctCalls(calls) && CallsRanked(calls, rank) && k < |calls|
    requires
      var g := NewGraph(triggerId, step, calls);
      && Ranked(Deps(g), rank) && (forall m :: 0 <= m < |calls| ==> calls[m].callId in Deps(g))
      && forall m :: 0 <= m < |calls| && calls[m].callId in calls[k].dependsOn ==> SameStatus(env, g, calls, rank, m)
    ensures SameStatus(env, NewGraph(triggerId, step, calls), calls, rank, k)
  {
    hide NewGraph, Deps, OwnOutcomes, EffectiveOutput, Ranked, OwnResult, CallsRanked, DistinctCalls, Spec,
         CallStatus;
    DepsOfCalls(triggerId, step, calls);
    OwnOfCall(env, triggerId, step, calls, k);
    SpecUnfolds(env, NewGraph(triggerId, step, calls), calls, rank, k);
    StatusUnfolds(env, calls, rank, k);
  }

  /** Some call it depends on did not succeed. */
  ghost predicate Unmet(env: SkillEnv, calls: seq<Call>, rank: map<string, nat>, k: nat)
    requires CallsRanked(calls, rank) && k < |calls|
  {
    exists m :: 0 <= m < |calls| && calls[m].callId in calls[k].dependsOn
                && CallStatus(env, calls, rank, m) != Succeeded
  }

  lemma StatusUnfolds(env: SkillEnv, calls: seq<Call>, rank: map<string, nat>, k: nat)
    requires CallsRanked(calls, rank) && k < |calls|
    ensures
      CallStatus(env, calls, rank, k)
      == if Unmet(env, calls, rank, k) then Skipped
         else match OwnResult(env, calls, k)
              case Ok => Succeeded
              case Err(Timeout) => TimedOut
              case Err(_) => Failed
  {
    hide OwnResult, CallsRanked;
  }

  lemma SpecUnfolds(env: SkillEnv, g: Graph, calls: seq<Call>, rank: map<string, nat>, k: nat)
    requires CallsRanked(calls, rank) && k < |calls| && Ranked(Deps(g), rank)
    requires forall c :: c in Deps(g) <==> exists m :: 0 <= m < |calls| && calls[m].callId == c
    requires Deps(g)[calls[k].callId] == calls[k].dependsOn
    requires
      forall m :: 0 <= m < |calls| && calls[m].callId in calls[k].dependsOn ==> SameStatus(env, g, calls, rank, m)
    ensures
      Spec(Deps(g), OwnOutcomes(g, env), rank, calls[k].callId)
      == if Unmet(env, calls, rank, k) then Skipped else OwnOutcomes(g, env)(calls[k].callId)
  {
    hide Deps, OwnOutcomes, CallStatus, CallsRanked;
    if d :| d in Deps(g)[calls[k].callId] && Spec(Deps(g), OwnOutcomes(g, env), rank, d) != Succeeded {
      var m :| 0 <= m < |calls| && calls[m].callId == d;
      assert SameStatus(env, g, calls, rank, m);
    }
    if Unmet(env, calls, rank, k) {
      var m :| 0 <= m < |calls| && calls[m].callId in calls[k].dependsOn
               && CallStatus(env, calls, rank, m) != Succeeded;
      assert SameStatus(env, g, calls, rank, m);
    }
  }

  lemma OwnOfCall(env: SkillEnv, triggerId: string, step: nat, calls: seq<Call>, k: nat)
    requires DistinctCalls(calls) && k < |calls|
    ensures
      OwnOutcomes(NewGraph(triggerId, step, calls), env)(calls[k].callId)
      == match OwnResult(env, calls, k)
         case Ok => Succeeded
         case Err(Timeout) => TimedOut
         case Err(_) => Failed
  {
    hide EffectiveOutput;
    NodeOfCall(triggerId, step, calls, k);
  }

  /** No call has started before each call it depends on had a Succeeded checkpoint. */
  ghost predicate StartsAfterDeps(calls: seq<Call>, id: GraphId, L: seq<Record>) {
    forall i, k, d ::
      && 0 <= i < |L| && 0 <= k < |calls| && IsCheckpointOf(L[i], id, calls[k].callId)
      && L[i].checkpoint.status.Started? && d in calls[k].dependsOn ==>
        SucceededBefore(L, id, d, i)
  }

  ghost predicate SucceededBefore(L: seq<Record>, id: GraphId, d: string, i: nat) {
    exists j :: 0 <= j < i && j < |L| && IsCheckpointOf(L[j], id, d) && L[j].checkpoint.status.Succeeded?
  }

  /** Every call is settled as the recursive rule over the calls says, if they are acyclic. */
  ghost predicate CallsSettled(env: SkillEnv, calls: seq<Call>, g: Graph, L: seq<Record>) {
    forall rank, k: nat {:trigger CallStatus(env, calls, rank, k)} :: CallsRanked(calls, rank) && k < |calls| ==>
      Final(L, g.id, calls[k].callId) == Some(CallStatus(env, calls, rank, k))
  }

  /** A lawful ledger of a batch starts its calls in the order their dependencies ask for. */
  lemma LawfulStarts(triggerId: string, step: nat, calls: seq<Call>, L: seq<Record>)
    requires DistinctCalls(calls) && Lawful(NewGraph(triggerId, step, calls), L)
    ensures StartsAfterDeps(calls, GraphId(triggerId, step), L)
  {
    hide Lawful, NodeOf, Deps;
    var g := NewGraph(triggerId, step, calls);
    DepsOfCalls(triggerId, step, calls);
    forall i, k, d |
        && 0 <= i < |L| && 0 <= k < |calls| && IsCheckpointOf(L[i], g.id, calls[k].callId)
        && L[i].checkpoint.status.Started? && d in calls[k].dependsOn
      ensures SucceededBefore(L, g.id, d, i)
    {
      NodeOfCall(triggerId, step, calls, k);
      var j := StartedAfterDependencies(g, L, i, d);
    }
  }

  /** A lawful ledger of a batch at rest has settled acyclic calls by the recursive rule. */
  lemma LawfulSettles(env: SkillEnv, triggerId: string, step: nat, calls: seq<Call>, L: seq<Record>)
    requires DistinctCalls(calls)
    requires
      var g := NewGraph(triggerId, step, calls);
      Lawful(g, L) && Conforms(env, g, L, 0) && AtRest(g, L)
    ensures CallsSettled(env, calls, NewGraph(triggerId, step, calls), L)
  {
    hide Lawful, Conforms, AtRest, Spec, CallsRanked, FinalMap;
    var g := NewGraph(triggerId, step, calls);
    forall rank, k: nat | CallsRanked(calls, rank) && k < |calls|
      ensures Final(L, g.id, calls[k].callId) == Some(CallStatus(env, calls, rank, k))
    {
      CallStatusIsSpec(env, triggerId, step, calls, rank, k);
      AcyclicRunsMeetSpec(g, env, rank, L);
      assert calls[k].callId in FinalMap(L, g);
    }
  }
}
