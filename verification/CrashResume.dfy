/**
 Whole runs of one batch: any number of execution calls, each cut short anywhere or run to rest, each rebuilding
 its state from the ledger the one before left behind, with unrelated records appended in between.
 */
module CrashResume {
  import opened Options
  import opened Ledger
  import opened Evaluation
  import opened ToolGraphs
  import opened Batches
  import opened Scheduler

  /** One execution call that found the ledger `L`, perhaps extended by unrelated records, and left `M`. */
  ghost predicate CallStep(g: Graph, env: SkillEnv, L: seq<Record>, M: seq<Record>) {
    exists P :: Quiet(g, L, P) && Trail(g, env, P, M)
  }

  ghost predicate Quiet(g: Graph, L: seq<Record>, P: seq<Record>) {
    L <= P && forall i :: |L| <= i < |P| ==> !ConcernsGraph(P[i], g.id)
  }

  /** The ledgers after each call of a run that started before the graph was known. */
  ghost predicate Run(g: Graph, env: SkillEnv, ledgers: seq<seq<Record>>)
    requires ledgers != []
  {
    && Lawful(g, ledgers[0]) && !HasGraph(ledgers[0], g.id)
    && forall i :: 0 < i < |ledgers| ==> StepAt(g, env, ledgers, i)
  }

  ghost predicate StepAt(g: Graph, env: SkillEnv, ledgers: seq<seq<Record>>, i: nat)
    requires 0 < i < |ledgers|
  {
    CallStep(g, env, ledgers[i - 1], ledgers[i])
  }

  function Last(ledgers: seq<seq<Record>>): seq<Record>
    requires ledgers != []
  {
    ledgers[|ledgers| - 1]
  }

  lemma QuietKeeps(g: Graph, env: SkillEnv, L: seq<Record>, P: seq<Record>)
    requires Lawful(g, L) && Conforms(env, g, L, 0) && Quiet(g, L, P)
    ensures Lawful(g, P) && Conforms(env, g, P, 0)
  {
    forall i | 0 <= i < |P| && P[i].NodeCheckpoint? && P[i].checkpoint.graph == g.id
      ensures RuleAt(g, P, i)
    {
      assert i < |L|;
      assert RuleAt(g, L, i);
      assert P[..i] == L[..i] && P[i] == L[i];
    }
    forall i | 0 <= i < |P| ensures AfterRecord(g, P, i) {
      if i < |L| {
        assert AfterRecord(g, L, i);
        assert P[..i] == L[..i] && P[i] == L[i];
      }
    }
    assert forall i :: 0 <= i < |P| && ConcernsGraph(P[i], g.id) ==> i < |L| && P[i] == L[i];
  }

  lemma RunBefore(g: Graph, env: SkillEnv, ledgers: seq<seq<Record>>)
    requires |ledgers| > 1 && Run(g, env, ledgers)
    ensures
      var before := ledgers[..|ledgers| - 1];
      Run(g, env, before) && CallStep(g, env, Last(before), Last(ledgers))
  {
    hide CallStep, Lawful, HasGraph;
    var before := ledgers[..|ledgers| - 1];
    forall i | 0 < i < |before| ensures StepAt(g, env, before, i) {
      assert StepAt(g, env, ledgers, i);
    }
    assert StepAt(g, env, ledgers, |ledgers| - 1);
  }

  /** However often it was interrupted, a run leaves a lawful ledger in which executed nodes have their own outcome. */
  lemma {:induction false} RunKeeps(g: Graph, env: SkillEnv, ledgers: seq<seq<Record>>)
    requires ledgers != [] && Run(g, env, ledgers)
    ensures Lawful(g, Last(ledgers)) && Conforms(env, g, Last(ledgers), 0)
  {
    if |ledgers| == 1 {
      NoCheckpointsYet(g, ledgers[0]);
    } else {
      var before := ledgers[..|ledgers| - 1];
      RunBefore(g, env, ledgers);
      RunKeeps(g, env, before);
      var P :| Quiet(g, Last(before), P) && Trail(g, env, P, Last(ledgers));
      QuietKeeps(g, env, Last(before), P);
      TrailLawful(g, env, P, Last(ledgers));
      ConformsOn(g, env, P, Last(ledgers));
    }
  }

  lemma NoCheckpointsYet(g: Graph, L: seq<Record>)
    requires Lawful(g, L) && !HasGraph(L, g.id)
    ensures forall i :: 0 <= i < |L| && L[i].NodeCheckpoint? ==> L[i].checkpoint.graph != g.id
  {
    forall i | 0 <= i < |L| && L[i].NodeCheckpoint? ensures L[i].checkpoint.graph != g.id {
      if L[i].checkpoint.graph == g.id {
        CheckpointHasRecord(g, L, i);
        assert false;
      }
    }
  }

  /**
   Crash-and-resume equivalence: two runs of the same batch that came to rest agree on every status, whatever
   their caps, join orders and interruptions; both hold what the evaluation in rounds computes.
   */
  lemma RunsAgree(g: Graph, env: SkillEnv, a: seq<seq<Record>>, b: seq<seq<Record>>)
    requires a != [] && Run(g, env, a) && AtRest(g, Last(a))
    requires b != [] && Run(g, env, b) && AtRest(g, Last(b))
    ensures FinalMap(Last(a), g) == FinalMap(Last(b), g) == Settled(g, env)
  {
    RunKeeps(g, env, a);
    RunKeeps(g, env, b);
    ScheduleIndependence(g, env, Last(a));
    ScheduleIndependence(g, env, Last(b));
  }

  /** On an acyclic batch a run at rest has settled every node, each as the recursive specification says. */
  lemma AcyclicRun(g: Graph, env: SkillEnv, rank: map<string, nat>, ledgers: seq<seq<Record>>)
    requires ledgers != [] && Run(g, env, ledgers) && AtRest(g, Last(ledgers))
    requires Ranked(Deps(g), rank)
    ensures FinalMap(Last(ledgers), g).Keys == Ids(g)
    ensures forall c :: c in Ids(g) ==> FinalMap(Last(ledgers), g)[c] == Spec(Deps(g), OwnOutcomes(g, env), rank, c)
  {
    RunKeeps(g, env, ledgers);
    AcyclicRunsMeetSpec(g, env, rank, Last(ledgers));
  }

  /** On a batch whose every node got settled, a further call writes no checkpoint at all: nothing is repeated. */
  lemma FinishedStaysPut(g: Graph, env: SkillEnv, L: seq<Record>, M: seq<Record>, i: nat)
    requires Trail(g, env, L, M) && FinalMap(L, g).Keys == Ids(g) && |L| <= i < |M|
    ensures !(M[i].NodeCheckpoint? && M[i].checkpoint.graph == g.id)
  {
    hide FinalMap;
    OpenAt(g, M, |L|, i);
    if M[i].NodeCheckpoint? && M[i].checkpoint.graph == g.id {
      assert M[..|L|] == L && M[i].checkpoint.callId in FinalMap(L, g);
      FinalPersists(g, M, |L|, i, M[i].checkpoint.callId);
      assert false;
    }
  }

  /******* The results of one call *******/

  /** A call settled during one execution call was skipped or ended with its own outcome. */
  lemma SettledHow(g: Graph, env: SkillEnv, L0: seq<Record>, L: seq<Record>, c: string)
    requires Trail(g, env, L0, L) && c in FinalMap(L, g) && c !in FinalMap(L0, g)
    ensures FinalMap(L, g)[c] in {Skipped, OwnOutcomes(g, env)(c)}
  {
    hide OwnOutcomes, Ids, HasGraph, RuledFrom;
    var i := SettledHere(g, env, L0, L, c);
  }

  /** A call settled during an execution call got its terminal checkpoint then. */
  lemma SettledHere(g: Graph, env: SkillEnv, L0: seq<Record>, L: seq<Record>, c: string) returns (i: nat)
    requires Trail(g, env, L0, L) && c in FinalMap(L, g) && c !in FinalMap(L0, g)
    ensures |L0| <= i < |L| && IsCheckpointOf(L[i], g.id, c) && Some(L[i].checkpoint.status) == StatusOf(L, g.id, c)
  {
    hide RuledFrom, Conforms;
    i := FinalWitness(L, g.id, c);
    assert L[..|L0|] == L0;
    if i < |L0| {
      QuietSince(L, g.id, c, |L0|);
      assert false;
    }
  }

  /** With no checkpoint of the call at or after `k`, its status is what it was there. */
  lemma {:induction false} QuietSince(L: seq<Record>, id: GraphId, c: string, k: nat)
    requires k <= |L| && forall j :: k <= j < |L| ==> !IsCheckpointOf(L[j], id, c)
    ensures StatusOf(L, id, c) == StatusOf(L[..k], id, c)
    decreases |L|
  {
    if k == |L| {
      assert L[..k] == L;
    } else {
      QuietSince(L[..|L| - 1], id, c, k);
      assert L[..|L| - 1][..k] == L[..k];
    }
  }

  ghost predicate NewlySettled(m0: map<string, Status>, m: map<string, Status>, n: Node) {
    n.callId in m && n.callId !in m0
  }

  ghost predicate Increasing(at: seq<nat>) {
    forall i, j :: 0 <= i < j < |at| ==> at[i] < at[j]
  }

  ghost predicate OnlySettled(nodes: seq<Node>, m0: map<string, Status>, m: map<string, Status>, at: seq<nat>) {
    forall i :: 0 <= i < |at| ==> at[i] < |nodes| && NewlySettled(m0, m, nodes[at[i]])
  }

  ghost predicate Listed(at: seq<nat>, p: nat) {
    exists i :: 0 <= i < |at| && at[i] == p
  }

  ghost predicate AllSettled(nodes: seq<Node>, m0: map<string, Status>, m: map<string, Status>, at: seq<nat>) {
    forall p :: 0 <= p < |nodes| && NewlySettled(m0, m, nodes[p]) ==> Listed(at, p)
  }

  /** `at` lists, in increasing order, the positions of exactly the nodes settled between `m0` and `m`. */
  ghost predicate SettledPositions(nodes: seq<Node>, m0: map<string, Status>, m: map<string, Status>, at: seq<nat>) {
    OnlySettled(nodes, m0, m, at) && Increasing(at) && AllSettled(nodes, m0, m, at)
  }

  /** The results are those of the nodes at these positions, in this order. */
  ghost predicate ResultsAt(
      env: SkillEnv, nodes: seq<Node>, m: map<string, Status>, results: seq<ToolResult>, at: seq<nat>) {
    && |at| == |results|
    && forall i :: 0 <= i < |at| ==>
         && at[i] < |nodes| && nodes[at[i]].callId in m
         && results[i] == ResultFor(env, nodes[at[i]], m[nodes[at[i]].callId])
  }

  lemma OnlyStep(nodes: seq<Node>, k: nat, m0: map<string, Status>, m: map<string, Status>, at: seq<nat>)
    requires |nodes| == k + 1 && OnlySettled(nodes[..k], m0, m, at) && Increasing(at)
    ensures OnlySettled(nodes, m0, m, at) && Increasing(at + [k])
    ensures NewlySettled(m0, m, nodes[k]) ==> OnlySettled(nodes, m0, m, at + [k])
  {
    hide NewlySettled;
    forall i | 0 <= i < |at| ensures at[i] < k && NewlySettled(m0, m, nodes[at[i]]) {
      assert nodes[..k][at[i]] == nodes[at[i]];
    }
  }

  lemma AllStep(nodes: seq<Node>, k: nat, m0: map<string, Status>, m: map<string, Status>, at: seq<nat>)
    requires |nodes| == k + 1 && AllSettled(nodes[..k], m0, m, at)
    ensures AllSettled(nodes, m0, m, if NewlySettled(m0, m, nodes[k]) then at + [k] else at)
  {
    hide NewlySettled;
    var more := at + [k];
    assert more[|at|] == k;
    forall p | 0 <= p < k && NewlySettled(m0, m, nodes[p]) ensures Listed(at, p) && Listed(more, p) {
      assert nodes[..k][p] == nodes[p];
      var i :| 0 <= i < |at| && at[i] == p;
      assert more[i] == p;
    }
  }

  lemma ResultsStep(
      env: SkillEnv, nodes: seq<Node>, k: nat, m: map<string, Status>, results: seq<ToolResult>, at: seq<nat>)
    requires |nodes| == k + 1 && ResultsAt(env, nodes[..k], m, results, at)
    ensures ResultsAt(env, nodes, m, results, at)
    ensures
      nodes[k].callId in m ==>
        ResultsAt(env, nodes, m, results + [ResultFor(env, nodes[k], m[nodes[k].callId])], at + [k])
  {
    hide ResultFor;
    var init := nodes[..k];
    assert forall p :: 0 <= p < k ==> init[p] == nodes[p];
  }

  /** The results are those of exactly the nodes settled during the call, once each, in graph order. */
  lemma {:induction false} ResultPositions(
      env: SkillEnv, nodes: seq<Node>, m0: map<string, Status>, m: map<string, Status>)
    returns (at: seq<nat>)
    ensures SettledPositions(nodes, m0, m, at)
    ensures ResultsAt(env, nodes, m, NewResults(env, nodes, m0, m), at)
  {
    hide ResultFor, OnlySettled, AllSettled, Increasing, ResultsAt;
    if nodes == [] {
      at := [];
      NoPositions(env, m0, m);
    } else {
      var k := |nodes| - 1;
      at := ResultPositions(env, nodes[..k], m0, m);
      OnlyStep(nodes, k, m0, m, at);
      AllStep(nodes, k, m0, m, at);
      ResultsStep(env, nodes, k, m, NewResults(env, nodes[..k], m0, m), at);
      if NewlySettled(m0, m, nodes[k]) { at := at + [k]; }
    }
  }

  lemma NoPositions(env: SkillEnv, m0: map<string, Status>, m: map<string, Status>)
    ensures SettledPositions([], m0, m, []) && ResultsAt(env, [], m, [], [])
  {
  }

  lemma SettledNode(g: Graph, env: SkillEnv, L0: seq<Record>, L: seq<Record>, c: string) returns (k: nat)
    requires Trail(g, env, L0, L) && c in FinalMap(L, g) && c !in FinalMap(L0, g)
    ensures c in Ids(g) && k < |g.nodes| && g.nodes[k].callId == c
  {
    hide Conforms, HasGraph;
    var i := SettledHere(g, env, L0, L, c);
    OpenAt(g, L, |L0|, i);
    var n := NodeOf(g, c);
    k :| 0 <= k < |g.nodes| && g.nodes[k] == n;
  }

  /** An execution call reports that everything failed exactly when no node succeeded during it. */
  lemma AllFailedMeans(g: Graph, env: SkillEnv, L0: seq<Record>, L: seq<Record>)
    requires DistinctIds(g) && Trail(g, env, L0, L)
    ensures
      var results := NewResults(env, g.nodes, FinalMap(L0, g), FinalMap(L, g));
      (forall r :: r in results ==> !r.output.Ok?) <==>
      (forall c :: c in FinalMap(L, g) && c !in FinalMap(L0, g) ==> FinalMap(L, g)[c] != Succeeded)
  {
    hide Trail, FinalMap, NewResults, NodeOf, EffectiveOutput;
    var m0, m := FinalMap(L0, g), FinalMap(L, g);
    var results := NewResults(env, g.nodes, m0, m);
    var at := ResultPositions(env, g.nodes, m0, m);
    forall i | 0 <= i < |results|
      ensures results[i].callId in m && results[i].callId !in m0
      ensures results[i].output.Ok? <==> m[results[i].callId] == Succeeded
    {
      NodeOfUnique(g, g.nodes[at[i]]);
      SettledHow(g, env, L0, L, g.nodes[at[i]].callId);
    }
    forall c | c in m && c !in m0 ensures exists i :: 0 <= i < |results| && results[i].callId == c {
      var k := SettledNode(g, env, L0, L, c);
      var i :| 0 <= i < |at| && at[i] == k;
      assert results[i].callId == c;
    }
  }
}
