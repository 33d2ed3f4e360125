/**
 Checkpointed tool graphs: what a ledger says about one graph, which checkpoint may follow which,
 and the synchronous evaluation every run of the scheduler is measured against.
 */
module ToolGraphs {
  import opened Options
  import opened Ledger
  import opened Evaluation

  /******* The graph *******/

  function IdsOf(nodes: seq<Node>): set<string> {
    if nodes == [] then {} else {nodes[0].callId} + IdsOf(nodes[1..])
  }

  function Ids(g: Graph): set<string> {
    IdsOf(g.nodes)
  }

  ghost predicate DistinctIds(g: Graph) {
    forall i, j :: 0 <= i < j < |g.nodes| ==> g.nodes[i].callId != g.nodes[j].callId
  }

  /** The first node with the given call id. */
  function FindNode(nodes: seq<Node>, c: string): (n: Option<Node>)
    ensures n.Some? <==> c in IdsOf(nodes)
    ensures n.Some? ==> n.value in nodes && n.value.callId == c
  {
    if nodes == [] then None
    else if nodes[0].callId == c then Some(nodes[0])
    else FindNode(nodes[1..], c)
  }

  function NodeOf(g: Graph, c: string): Node
    requires c in Ids(g)
  {
    FindNode(g.nodes, c).value
  }

  lemma {:induction false} FindNodeAt(nodes: seq<Node>, i: nat)
    requires i < |nodes|
    requires forall j :: 0 <= j < i ==> nodes[j].callId != nodes[i].callId
    ensures nodes[i].callId in IdsOf(nodes) && FindNode(nodes, nodes[i].callId) == Some(nodes[i])
  {
    if i > 0 {
      assert nodes[0].callId != nodes[i].callId;
      FindNodeAt(nodes[1..], i - 1);
    }
  }

  /** Looking a node of the graph up by its own call id finds that node. */
  lemma NodeOfUnique(g: Graph, n: Node)
    requires DistinctIds(g) && n in g.nodes
    ensures n.callId in Ids(g) && NodeOf(g, n.callId) == n
  {
    var i :| 0 <= i < |g.nodes| && g.nodes[i] == n;
    FindNodeAt(g.nodes, i);
  }

  /** The declared calls of the graph with their dependencies. */
  function Deps(g: Graph): DepMap {
    map c | c in Ids(g) :: NodeOf(g, c).deps
  }

  /******* What the ledger says *******/

  predicate IsCheckpointOf(r: Record, id: GraphId, c: string) {
    r.NodeCheckpoint? && r.checkpoint.graph == id && r.checkpoint.callId == c
  }

  /** The status of the latest checkpoint of a call. */
  function StatusOf(L: seq<Record>, id: GraphId, c: string): Option<Status> {
    if L == [] then None
    else if IsCheckpointOf(L[|L| - 1], id, c) then Some(L[|L| - 1].checkpoint.status)
    else StatusOf(L[..|L| - 1], id, c)
  }

  /** The highest attempt number among the Started checkpoints of a call. */
  function AttemptsOf(L: seq<Record>, id: GraphId, c: string): nat {
    if L == [] then 0
    else
      var before := AttemptsOf(L[..|L| - 1], id, c);
      var last := L[|L| - 1];
      if IsCheckpointOf(last, id, c) && last.checkpoint.status.Started? && last.checkpoint.attempt > before
      then last.checkpoint.attempt
      else before
  }

  function OnlyTerminal(s: Option<Status>): Option<Status> {
    if s.Some? && s.value.Terminal() then s else None
  }

  /** The terminal status the ledger records for a call, if any. */
  function Final(L: seq<Record>, id: GraphId, c: string): Option<Status> {
    OnlyTerminal(StatusOf(L, id, c))
  }

  /** The call ids with a checkpoint under a graph id. */
  function NamedIds(L: seq<Record>, id: GraphId): (ids: set<string>)
    ensures forall c :: StatusOf(L, id, c).Some? ==> c in ids
  {
    if L == [] then {}
    else
      var last := L[|L| - 1];
      NamedIds(L[..|L| - 1], id)
      + if last.NodeCheckpoint? && last.checkpoint.graph == id then {last.checkpoint.callId} else {}
  }

  /** The terminal statuses recorded under the graph's id, whichever calls they name. */
  function FinalMap(L: seq<Record>, g: Graph): (m: map<string, Status>)
    ensures forall c :: c in m <==> Final(L, g.id, c).Some?
    ensures forall c :: c in m ==> Some(m[c]) == Final(L, g.id, c)
  {
    map c | c in NamedIds(L, g.id) && Final(L, g.id, c).Some? :: Final(L, g.id, c).value
  }

  ghost predicate Recorded(L: seq<Record>, g: Graph) {
    GraphRecord(g) in L
  }

  predicate HasGraph(L: seq<Record>, id: GraphId) {
    exists r :: r in L && r.GraphRecord? && r.graph.id == id
  }

  lemma StatusOfAppend(L: seq<Record>, r: Record, id: GraphId, c: string)
    ensures StatusOf(L + [r], id, c)
         == if IsCheckpointOf(r, id, c) then Some(r.checkpoint.status) else StatusOf(L, id, c)
    ensures AttemptsOf(L + [r], id, c)
         == if IsCheckpointOf(r, id, c) && r.checkpoint.status.Started? && r.checkpoint.attempt > AttemptsOf(L, id, c)
            then r.checkpoint.attempt else AttemptsOf(L, id, c)
  {
    assert (L + [r])[..|L|] == L;
  }

  /******* Which checkpoint may follow which *******/

  /** The checkpoint `ck` may follow what the ledger `P` says about the graph. */
  ghost predicate Rule(g: Graph, P: seq<Record>, ck: Checkpoint) {
    && ck.callId in Ids(g)
    && ck.skill == NodeOf(g, ck.callId).skill
    && Final(P, g.id, ck.callId).None?
    && var deps := Deps(g)[ck.callId];
       var attempts := AttemptsOf(P, g.id, ck.callId);
       match ck.status
       case Queued => ck.attempt == 0
       case Validated => ck.attempt == 0 && AllSucceeded(FinalMap(P, g), deps)
       case Started => ck.attempt == attempts + 1 && AllSucceeded(FinalMap(P, g), deps)
       case Succeeded => ck.attempt == attempts >= 1 && AllSucceeded(FinalMap(P, g), deps)
       case TimedOut => ck.attempt == attempts >= 1 && AllSucceeded(FinalMap(P, g), deps)
       case Failed => (ck.attempt == 0 || ck.attempt == attempts) && AllSucceeded(FinalMap(P, g), deps)
       case Skipped => ck.attempt == 0 && Blocked(FinalMap(P, g), deps)
  }

  predicate ConcernsGraph(r: Record, id: GraphId) {
    (r.NodeCheckpoint? && r.checkpoint.graph == id) || (r.GraphRecord? && r.graph.id == id)
  }

  /** The checkpoint at position `i` was allowed when it was appended. */
  ghost predicate RuleAt(g: Graph, L: seq<Record>, i: nat)
    requires i < |L| && L[i].NodeCheckpoint?
  {
    Rule(g, L[..i], L[i].checkpoint)
  }

  /** From position `from` on, every checkpoint under the graph's id was allowed when it was appended. */
  ghost predicate RuledFrom(g: Graph, L: seq<Record>, from: nat) {
    forall i :: from <= i < |L| && L[i].NodeCheckpoint? && L[i].checkpoint.graph == g.id ==> RuleAt(g, L, i)
  }

  /** The record at position `i`, if it is a checkpoint of the graph, comes after the record of the graph. */
  ghost predicate AfterRecord(g: Graph, L: seq<Record>, i: nat)
    requires i < |L|
  {
    L[i].NodeCheckpoint? && L[i].checkpoint.graph == g.id ==> Recorded(L[..i], g)
  }

  /** Every checkpoint of `g` was allowed and comes after its record, and no other graph uses its id. */
  ghost predicate Lawful(g: Graph, L: seq<Record>) {
    && RuledFrom(g, L, 0)
    && (forall i :: 0 <= i < |L| ==> AfterRecord(g, L, i))
    && (forall i :: 0 <= i < |L| && L[i].GraphRecord? && L[i].graph.id == g.id ==> L[i].graph == g)
  }

  /** Checkpoints come after the record of their graph. */
  lemma CheckpointHasRecord(g: Graph, L: seq<Record>, i: nat)
    requires Lawful(g, L) && i < |L| && L[i].NodeCheckpoint? && L[i].checkpoint.graph == g.id
    ensures HasGraph(L, g.id)
  {
    assert AfterRecord(g, L, i);
    assert GraphRecord(g) in L;
  }

  lemma RuledAppend(g: Graph, L: seq<Record>, from: nat, r: Record)
    requires RuledFrom(g, L, from)
    requires r.NodeCheckpoint? && r.checkpoint.graph == g.id ==> Rule(g, L, r.checkpoint)
    ensures RuledFrom(g, L + [r], from)
  {
    hide Rule;
    var M := L + [r];
    forall i | from <= i < |M| && M[i].NodeCheckpoint? && M[i].checkpoint.graph == g.id ensures RuleAt(g, M, i) {
      assert i < |L| ==> RuleAt(g, L, i);
      assert M[..i] == if i < |L| then L[..i] else L;
    }
  }

  lemma LawfulPrefix(g: Graph, L: seq<Record>, k: nat)
    requires Lawful(g, L) && k <= |L|
    ensures Lawful(g, L[..k])
  {
    hide Rule;
    forall i | 0 <= i < k && L[..k][i].NodeCheckpoint? && L[..k][i].checkpoint.graph == g.id
      ensures RuleAt(g, L[..k], i)
    {
      assert RuleAt(g, L, i);
      assert L[..k][..i] == L[..i];
    }
    forall i | 0 <= i < k ensures AfterRecord(g, L[..k], i) {
      assert AfterRecord(g, L, i);
      assert L[..k][..i] == L[..i];
    }
  }

  /** What one allowed append does to the terminal statuses. */
  lemma FinalMapAppend(g: Graph, L: seq<Record>, r: Record)
    requires r.NodeCheckpoint? && r.checkpoint.graph == g.id ==> Final(L, g.id, r.checkpoint.callId).None?
    ensures FinalMap(L + [r], g)
         == if r.NodeCheckpoint? && r.checkpoint.graph == g.id && r.checkpoint.status.Terminal()
            then FinalMap(L, g)[r.checkpoint.callId := r.checkpoint.status] else FinalMap(L, g)
  {
    forall c {
      StatusOfAppend(L, r, g.id, c);
    }
  }

  /** A record that does not concern the graph changes nothing the graph reads back. */
  lemma {:induction false} QuietSuffix(L: seq<Record>, M: seq<Record>, id: GraphId, c: string)
    requires L <= M
    requires forall i :: |L| <= i < |M| ==> !ConcernsGraph(M[i], id)
    ensures StatusOf(M, id, c) == StatusOf(L, id, c)
    ensures AttemptsOf(M, id, c) == AttemptsOf(L, id, c)
    decreases |M|
  {
    if |M| == |L| {
      assert M == L;
    } else {
      QuietSuffix(L, M[..|M| - 1], id, c);
    }
  }

  /** Only calls of the graph have a checkpoint under its id. */
  lemma LawfulWithin(g: Graph, L: seq<Record>)
    requires Lawful(g, L)
    ensures FinalMap(L, g).Keys <= Ids(g)
  {
    forall c | c in FinalMap(L, g) ensures c in Ids(g) {
      var i := FinalWitness(L, g.id, c);
      assert RuleAt(g, L, i);
    }
  }

  /******* Ledger safety *******/

  lemma OpenAt(g: Graph, L: seq<Record>, from: nat, k: nat)
    requires RuledFrom(g, L, from) && from <= k < |L|
    ensures
      L[k].NodeCheckpoint? && L[k].checkpoint.graph == g.id ==>
        L[k].checkpoint.callId in Ids(g) && Final(L[..k], g.id, L[k].checkpoint.callId).None?
  {
    if L[k].NodeCheckpoint? && L[k].checkpoint.graph == g.id {
      assert RuleAt(g, L, k);
    }
  }

  /** From the position on at which the rules were kept, a settled call stays settled. */
  lemma {:induction false} FinalPersists(g: Graph, L: seq<Record>, i: nat, j: nat, c: string)
    requires RuledFrom(g, L, i) && i <= j <= |L|
    requires Final(L[..i], g.id, c).Some?
    ensures Final(L[..j], g.id, c) == Final(L[..i], g.id, c)
    decreases j
  {
    if i < j {
      FinalPersists(g, L, i, j - 1, c);
      OpenAt(g, L, i, j - 1);
      assert L[..j] == L[..j - 1] + [L[j - 1]];
      StatusOfAppend(L[..j - 1], L[j - 1], g.id, c);
    }
  }

  /** A terminal status read off a ledger was written by a checkpoint in it. */
  lemma {:induction false} FinalWitness(L: seq<Record>, id: GraphId, c: string) returns (i: nat)
    requires StatusOf(L, id, c).Some?
    ensures i < |L| && IsCheckpointOf(L[i], id, c) && Some(L[i].checkpoint.status) == StatusOf(L, id, c)
    ensures forall j :: i < j < |L| ==> !IsCheckpointOf(L[j], id, c)
  {
    if IsCheckpointOf(L[|L| - 1], id, c) {
      i := |L| - 1;
    } else {
      i := FinalWitness(L[..|L| - 1], id, c);
    }
  }

  /** Each Started checkpoint comes after a Succeeded checkpoint of every dependency. */
  lemma StartedAfterDependencies(g: Graph, L: seq<Record>, i: nat, d: string) returns (j: nat)
    requires Lawful(g, L)
    requires i < |L| && L[i].NodeCheckpoint? && L[i].checkpoint.graph == g.id && L[i].checkpoint.status.Started?
    requires L[i].checkpoint.callId in Ids(g) && d in Deps(g)[L[i].checkpoint.callId]
    ensures j < i && IsCheckpointOf(L[j], g.id, d) && L[j].checkpoint.status.Succeeded?
  {
    assert RuleAt(g, L, i);
    assert d in FinalMap(L[..i], g);
    j := FinalWitness(L[..i], g.id, d);
  }

  /** After a terminal checkpoint of a call no checkpoint of it follows, so it has at most one. */
  lemma NothingAfterTerminal(g: Graph, L: seq<Record>, i: nat, j: nat, c: string)
    requires Lawful(g, L) && i < j < |L|
    requires IsCheckpointOf(L[i], g.id, c) && L[i].checkpoint.status.Terminal()
    ensures !IsCheckpointOf(L[j], g.id, c)
  {
    hide Rule;
    OpenAt(g, L, 0, j);
    if IsCheckpointOf(L[j], g.id, c) {
      assert L[..i + 1] == L[..i] + [L[i]];
      StatusOfAppend(L[..i], L[i], g.id, c);
      FinalPersists(g, L, i + 1, j, c);
      assert false;
    }
  }

  /** The attempt numbers of the Started checkpoints of a call, in ledger order. */
  function StartedAttempts(L: seq<Record>, id: GraphId, c: string): seq<nat> {
    if L == [] then []
    else
      var last := L[|L| - 1];
      StartedAttempts(L[..|L| - 1], id, c)
      + if IsCheckpointOf(last, id, c) && last.checkpoint.status.Started? then [last.checkpoint.attempt] else []
  }

  /** The Started attempts of a call read 1, 2, ..., k, and k is the count a resumed run starts from. */
  lemma {:induction false} AttemptsInOrder(g: Graph, L: seq<Record>, c: string)
    requires Lawful(g, L)
    ensures |StartedAttempts(L, g.id, c)| == AttemptsOf(L, g.id, c)
    ensures forall k :: 0 <= k < |StartedAttempts(L, g.id, c)| ==> StartedAttempts(L, g.id, c)[k] == k + 1
  {
    hide Lawful, Deps, FinalMap, AllSucceeded, Blocked;
    if L != [] {
      LawfulPrefix(g, L, |L| - 1);
      AttemptsInOrder(g, L[..|L| - 1], c);
      if IsCheckpointOf(L[|L| - 1], g.id, c) { LawfulLast(g, L); }
    }
  }

  lemma LawfulLast(g: Graph, L: seq<Record>)
    requires Lawful(g, L) && L != [] && L[|L| - 1].NodeCheckpoint? && L[|L| - 1].checkpoint.graph == g.id
    ensures Rule(g, L[..|L| - 1], L[|L| - 1].checkpoint)
  {
    assert RuleAt(g, L, |L| - 1);
  }

  /******* The skills, and the outcome each call has when it is executed *******/

  /** What the checks before execution find for one call, and what running it would return. */
  datatype SkillFacts = SkillFacts(
    registered: bool, argsValid: bool, scopesGranted: bool, nativeAllowed: bool, dryRunAllowed: bool,
    breakerOpen: bool, output: Output)

  datatype SkillEnv = SkillEnv(validateArgs: bool, facts: Node -> SkillFacts)

  function FinalStatus(o: Output): (s: Outcome)
    ensures s.Succeeded? <==> o.Ok?
    ensures s.TimedOut? <==> o == Err(Timeout)
    ensures s.Failed? <==> o.Err? && !o.kind.Timeout?
  {
    match o
    case Ok => Succeeded
    case Err(Timeout) => TimedOut
    case Err(_) => Failed
  }

  /** The failure the checks before execution report, in the order they are made. */
  function Refusal(env: SkillEnv, n: Node): Option<FailureKind> {
    var f := env.facts(n);
    if !f.registered then Some(Internal)
    else if env.validateArgs && !f.argsValid then Some(InvalidArguments)
    else if !f.scopesGranted then Some(PermissionDenied)
    else if !f.nativeAllowed then Some(PermissionDenied)
    else if !f.dryRunAllowed then Some(CapabilityDenied)
    else if f.breakerOpen then Some(CapabilityDenied)
    else None
  }

  function EffectiveOutput(env: SkillEnv, n: Node): Output {
    var refusal := Refusal(env, n);
    if refusal.Some? then Err(refusal.value) else env.facts(n).output
  }

  /** The status each call of the graph ends with when it is executed. */
  function OwnOutcomes(g: Graph, env: SkillEnv): string -> Outcome {
    (c: string) => if c in Ids(g) then FinalStatus(EffectiveOutput(env, NodeOf(g, c))) else Succeeded
  }

  /** From index `from` on, each executed node of `g` ended with its own outcome under `env`. */
  ghost predicate Conforms(env: SkillEnv, g: Graph, L: seq<Record>, from: nat) {
    forall i :: from <= i < |L| && L[i].NodeCheckpoint? && L[i].checkpoint.graph == g.id
                && L[i].checkpoint.status.Terminal() && !L[i].checkpoint.status.Skipped? ==>
      L[i].checkpoint.status == OwnOutcomes(g, env)(L[i].checkpoint.callId)
  }

  lemma ConformsOn(g: Graph, env: SkillEnv, P: seq<Record>, M: seq<Record>)
    requires Conforms(env, g, P, 0) && P <= M && Conforms(env, g, M, |P|)
    ensures Conforms(env, g, M, 0)
  {
    hide OwnOutcomes;
    assert forall i :: 0 <= i < |P| ==> M[i] == P[i];
  }

  /** Everything a lawful ledger has settled, the evaluation in rounds settles the same way. */
  lemma {:induction false} SettledIsSound(g: Graph, env: SkillEnv, L: seq<Record>)
    requires Lawful(g, L) && Conforms(env, g, L, 0)
    ensures SubMap(FinalMap(L, g), Rounds(Deps(g), OwnOutcomes(g, env), |FinalMap(L, g)|))
  {
    if L != [] {
      var P, r := L[..|L| - 1], L[|L| - 1];
      assert L == P + [r];
      LawfulPrefix(g, L, |L| - 1);
      SettledIsSound(g, env, P);
      FinalMapAppend(g, P, r);
      if FinalMap(L, g) != FinalMap(P, g) {
        assert RuleAt(g, L, |L| - 1);
        SettleOne(Deps(g), OwnOutcomes(g, env), FinalMap(P, g), r.checkpoint.callId, r.checkpoint.status);
      }
    }
  }

  /** The graph has come to rest on the ledger: no unfinished node is blocked, and none could run. */
  ghost predicate AtRest(g: Graph, L: seq<Record>) {
    Quiescent(Deps(g), FinalMap(L, g))
  }

  /** The final statuses of a batch: those its calls settle to, computed without any schedule. */
  ghost function Settled(g: Graph, env: SkillEnv): map<string, Status> {
    Rounds(Deps(g), OwnOutcomes(g, env), |Deps(g)|)
  }

  /**
   Schedule independence on every graph, cyclic or not: whatever order, caps and interruptions produced it,
   a lawful ledger at rest holds exactly the statuses of the evaluation in rounds.
   */
  lemma ScheduleIndependence(g: Graph, env: SkillEnv, L: seq<Record>)
    requires Lawful(g, L) && Conforms(env, g, L, 0) && AtRest(g, L)
    ensures FinalMap(L, g) == Settled(g, env)
  {
    hide Lawful, Conforms, FinalMap, OwnOutcomes;
    SettledIsSound(g, env, L);
    LawfulWithin(g, L);
    SettledIsAll(Deps(g), OwnOutcomes(g, env), FinalMap(L, g));
  }

  /** On an acyclic graph with every dependency declared, a ledger at rest holds the recursive specification. */
  lemma AcyclicRunsMeetSpec(g: Graph, env: SkillEnv, rank: map<string, nat>, L: seq<Record>)
    requires Lawful(g, L) && Conforms(env, g, L, 0) && AtRest(g, L)
    requires Ranked(Deps(g), rank)
    ensures FinalMap(L, g).Keys == Ids(g)
    ensures forall c :: c in Ids(g) ==> FinalMap(L, g)[c] == Spec(Deps(g), OwnOutcomes(g, env), rank, c)
  {
    hide Lawful, Conforms, AtRest, Ranked, Spec, OwnOutcomes, FinalMap, NodeOf, Rounds;
    ScheduleIndependence(g, env, L);
    AcyclicFinishes(Deps(g), OwnOutcomes(g, env), rank);
    forall c | c in Ids(g) {
      SpecAt(Deps(g), OwnOutcomes(g, env), rank, c);
    }
  }

  /** Rest is final: whatever lawful records follow, a graph at rest keeps its statuses and stays at rest. */
  lemma {:induction false} RestIsFinal(g: Graph, L: seq<Record>, M: seq<Record>)
    requires Lawful(g, M) && L <= M && AtRest(g, L)
    ensures AtRest(g, M) && FinalMap(M, g) == FinalMap(L, g)
    decreases |M|
  {
    if |L| == |M| {
      assert L == M;
    } else {
      var P, r := M[..|M| - 1], M[|M| - 1];
      assert M == P + [r];
      LawfulPrefix(g, M, |P|);
      RestIsFinal(g, L, P);
      if r.NodeCheckpoint? && r.checkpoint.graph == g.id {
        LawfulLast(g, M);
        NothingToSettle(g, P, r.checkpoint);
      }
      FinalMapAppend(g, P, r);
    }
  }

  lemma NothingToSettle(g: Graph, P: seq<Record>, ck: Checkpoint)
    requires AtRest(g, P) && Rule(g, P, ck)
    ensures !ck.status.Terminal() && ck.callId in Ids(g) && Final(P, g.id, ck.callId).None?
  {
    assert ck.callId in Deps(g) && ck.callId !in FinalMap(P, g);
  }

  /** Each unfinished node of a graph at rest waits for a dependency that is itself unfinished or undeclared. */
  lemma StuckNodesWait(g: Graph, L: seq<Record>, c: string) returns (d: string)
    requires AtRest(g, L)
    requires c in Ids(g) && Final(L, g.id, c).None?
    ensures d in Deps(g)[c] && (d !in Ids(g) || Final(L, g.id, d).None?)
  {
    assert c !in FinalMap(L, g);
    d :| d in Deps(g)[c] && !(d in FinalMap(L, g) && FinalMap(L, g)[d] == Succeeded);
  }
}
