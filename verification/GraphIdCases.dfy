/** Ledgers, reached in ordinary use, on which a batch ends up in another graph than its own. */
module GraphIdCases {
  import opened Options
  import opened Ledger
  import opened ToolGraphs
  import opened Batches
  import opened Scheduler
  import opened Projections
  import opened Sessions
  import opened GraphIds

  /******* Growing a segment by the rules *******/

  /** An orderly ledger whose current segment holds the trigger and has counted `n` steps. */
  ghost predicate Open(L: seq<Record>, gated: set<string>, t: TriggerRecord, n: nat) {
    Orderly(L, gated) && Trigger(t) in SinceOutcome(L) && CurrentStepCount(L) == n
  }

  lemma Opens(L: seq<Record>, gated: set<string>, t: TriggerRecord)
    requires Orderly(L, gated) && (L == [] || L[|L| - 1].OutcomeEntry?)
    requires !HasTrigger(L, t.id) && (t.key.Some? ==> OutcomeByKey(L, t.key.value).None?)
    ensures Open(L + [Trigger(t)], gated, t, 0)
  {
    hide Orderly, HasTrigger, OutcomeByKey;
    OrderAppend(L, Trigger(t), gated);
    SinceOutcomeAppend(L, Trigger(t));
    StepCountAppend(L, Trigger(t));
  }

  lemma Grows(L: seq<Record>, gated: set<string>, t: TriggerRecord, n: nat, r: Record)
    requires Open(L, gated, t, n) && Allowed(L, r, gated) && !r.OutcomeEntry?
    ensures Open(L + [r], gated, t, n + if IsStep(r) then 1 else 0)
  {
    hide Orderly, Allowed;
    OrderAppend(L, r, gated);
    SinceOutcomeAppend(L, r);
    StepCountAppend(L, r);
  }

  lemma Decides(L: seq<Record>, gated: set<string>, t: TriggerRecord, n: nat, action: Action)
    requires Open(L, gated, t, n)
    ensures Open(L + [ModelDecision(n, action)], gated, t, n + 1)
  {
    hide Orderly, SinceOutcome, CurrentStepCount;
    Grows(L, gated, t, n, ModelDecision(n, action));
  }

  lemma Plans(L: seq<Record>, gated: set<string>, t: TriggerRecord, n: nat, calls: seq<Call>)
    requires Open(L, gated, t, n + 1) && ModelDecision(n, CallSkills(calls)) in L && Ungated(calls, gated)
    ensures Open(L + [GraphRecord(NewGraph(t.id, n, calls))], gated, t, n + 1)
    ensures Sourced(L, NewGraph(t.id, n, calls), gated)
  {
    hide Orderly, SinceOutcome, CurrentStepCount, Ungated, NodesOf;
    var g := NewGraph(t.id, n, calls);
    assert PlannedFreely(L, g, gated);
    assert StepOf(L, t, g);
    Grows(L, gated, t, n + 1, GraphRecord(g));
  }

  lemma Checks(L: seq<Record>, gated: set<string>, t: TriggerRecord, n: nat, g: Graph, ck: Checkpoint)
    requires Open(L, gated, t, n) && Sourced(L, g, gated) && ck.graph == g.id && OfNode(g, ck)
    ensures Open(L + [NodeCheckpoint(ck)], gated, t, n) && Sourced(L + [NodeCheckpoint(ck)], g, gated)
  {
    hide Orderly, SinceOutcome, CurrentStepCount, Sourced, OfNode;
    assert CheckpointSourced(L, ck, gated);
    Grows(L, gated, t, n, NodeCheckpoint(ck));
    SourcedOn(L, L + [NodeCheckpoint(ck)], g, gated);
  }

  lemma Closes(L: seq<Record>, gated: set<string>, t: TriggerRecord, n: nat, o: OutcomeRecord)
    requires Open(L, gated, t, n) && o.triggerId == t.id && o.key == t.key
    ensures Orderly(L + [OutcomeEntry(o)], gated)
  {
    hide Orderly, SinceOutcome, CurrentStepCount;
    assert OutcomeRule(L, o);
    OrderAppend(L, OutcomeEntry(o), gated);
  }

  lemma CheckpointKept(P: seq<Record>, g: Graph, ck: Checkpoint)
    requires GraphsKept(P) && Recorded(P, g) && ck.graph == g.id && Rule(g, P, ck)
    ensures GraphsKept(P + [NodeCheckpoint(ck)]) && Recorded(P + [NodeCheckpoint(ck)], g)
  {
    hide Rule, GraphRule;
    var M := P + [NodeCheckpoint(ck)];
    Listed(P, M, GraphRecord(g));
    forall i | 0 <= i < |M| ensures GraphsAt(M, i) {
      assert M[..i] == if i < |P| then P[..i] else P;
      assert i < |P| ==> GraphsAt(P, i);
    }
  }

  /******* One call, run by one trigger *******/

  /** The trigger `t1` decided on the call `c` at step 0, ran it, and came to its outcome. */
  function FirstRun(t1: TriggerRecord, o1: OutcomeRecord, c: Call): seq<Record> {
    var g := NewGraph(t1.id, 0, [c]);
    [Trigger(t1), ModelDecision(0, CallSkills([c])), GraphRecord(g),
     NodeCheckpoint(Step(g, c, Queued, 0)), NodeCheckpoint(Step(g, c, Validated, 0)),
     NodeCheckpoint(Step(g, c, Started, 1)), NodeCheckpoint(Step(g, c, Succeeded, 1)),
     ResultRecord(ToolResult(c.callId, c.name, Ok)), OutcomeEntry(o1)]
  }

  function Step(g: Graph, c: Call, status: Status, attempt: nat): Checkpoint {
    Checkpoint(g.id, c.callId, c.name, status, attempt)
  }

  lemma OneCall(triggerId: string, c: Call)
    ensures
      var g := NewGraph(triggerId, 0, [c]);
      && CallIds([c]) == {c.callId} && Ids(g) == {c.callId} && DistinctIds(g)
      && NodeOf(g, c.callId).skill == c.name && NodeOf(g, c.callId).deps == c.dependsOn
      && NodeOf(g, c.callId) in g.nodes && NodeOf(g, c.callId).callId == c.callId
  {
    var nodes := NodesOf([c]);
    assert nodes[1..] == [] && IdsOf(nodes) == {nodes[0].callId} + IdsOf(nodes[1..]);
    assert FindNode(nodes, c.callId) == Some(nodes[0]);
  }

  /** For the only call of a graph, without dependencies, every next checkpoint in order is allowed. */
  lemma FreeRule(g: Graph, P: seq<Record>, c: Call, ck: Checkpoint)
    requires c.callId in Ids(g) && NodeOf(g, c.callId).skill == c.name && NodeOf(g, c.callId).deps == []
    requires ck.callId == c.callId && ck.skill == c.name && c.callId !in FinalMap(P, g)
    requires
      match ck.status
      case Queued => ck.attempt == 0
      case Validated => ck.attempt == 0
      case Started => ck.attempt == AttemptsOf(P, g.id, c.callId) + 1
      case Succeeded => ck.attempt == AttemptsOf(P, g.id, c.callId) >= 1
      case _ => false
    ensures Rule(g, P, ck)
  {
  }

  lemma OneGraphKept(t1: TriggerRecord, c: Call)
    ensures
      var g := NewGraph(t1.id, 0, [c]);
      var P := [Trigger(t1), ModelDecision(0, CallSkills([c])), GraphRecord(g)];
      GraphsKept(P) && Recorded(P, g) && FinalMap(P, g) == map[] && AttemptsOf(P, g.id, c.callId) == 0
  {
    hide NodesOf;
    var g := NewGraph(t1.id, 0, [c]);
    var P := [Trigger(t1), ModelDecision(0, CallSkills([c])), GraphRecord(g)];
    OneCall(t1.id, c);
    assert P[2] == GraphRecord(g);
    forall i | 0 <= i < |P| ensures GraphsAt(P, i) {
      assert forall r :: r in P[..2] ==> !r.GraphRecord?;
      assert MatchingGraph(P[..2], 0, Ids(g)).None?;
    }
    forall x ensures StatusOf(P, g.id, x).None? && AttemptsOf(P, g.id, x) == 0 { NoCheckpoints(P, g.id, x); }
    assert FinalMap(P, g) == map[];
  }

  /** The first run keeps to the rules of graphs: its call ran once, after it was queued and validated. */
  lemma FirstRunKept(t1: TriggerRecord, o1: OutcomeRecord, c: Call)
    requires c.dependsOn == []
    ensures GraphsKept(FirstRun(t1, o1, c))
  {
    hide GraphsKept, Rule, FinalMap, NodesOf, AttemptsOf, Ids, NodeOf, Recorded, HasGraph, DistinctIds;
    var L, g := FirstRun(t1, o1, c), NewGraph(t1.id, 0, [c]);
    var P3 := [Trigger(t1), ModelDecision(0, CallSkills([c])), GraphRecord(g)];
    var P4 := P3 + [NodeCheckpoint(Step(g, c, Queued, 0))];
    var P5 := P4 + [NodeCheckpoint(Step(g, c, Validated, 0))];
    var P6 := P5 + [NodeCheckpoint(Step(g, c, Started, 1))];
    OneGraphKept(t1, c);
    OneCall(t1.id, c);
    FreeRule(g, P3, c, Step(g, c, Queued, 0));
    CheckpointKept(P3, g, Step(g, c, Queued, 0));
    Written(g, P3, Step(g, c, Queued, 0));
    FreeRule(g, P4, c, Step(g, c, Validated, 0));
    CheckpointKept(P4, g, Step(g, c, Validated, 0));
    Written(g, P4, Step(g, c, Validated, 0));
    FreeRule(g, P5, c, Step(g, c, Started, 1));
    CheckpointKept(P5, g, Step(g, c, Started, 1));
    Written(g, P5, Step(g, c, Started, 1));
    FreeRule(g, P6, c, Step(g, c, Succeeded, 1));
    CheckpointKept(P6, g, Step(g, c, Succeeded, 1));
    var P7 := P6 + [NodeCheckpoint(Step(g, c, Succeeded, 1))];
    GraphsAppend(P7, ResultRecord(ToolResult(c.callId, c.name, Ok)));
    GraphsAppend(P7 + [ResultRecord(ToolResult(c.callId, c.name, Ok))], OutcomeEntry(o1));
    assert L == P7 + [ResultRecord(ToolResult(c.callId, c.name, Ok))] + [OutcomeEntry(o1)];
  }

  /** And to the rules of every run. */
  lemma FirstRunOrderly(t1: TriggerRecord, o1: OutcomeRecord, c: Call, gated: set<string>)
    requires c.name !in gated && o1.triggerId == t1.id && o1.key == t1.key
    ensures Orderly(FirstRun(t1, o1, c), gated)
  {
    hide Open, Orderly, Sourced, OfNode, NodesOf, HasTrigger, OutcomeByKey;
    var L, g := FirstRun(t1, o1, c), NewGraph(t1.id, 0, [c]);
    NothingYet(t1, gated);
    Opens([], gated, t1);
    var P1 := [] + [Trigger(t1)];
    Decides(P1, gated, t1, 0, CallSkills([c]));
    var P2 := P1 + [ModelDecision(0, CallSkills([c]))];
    assert P2[1] == ModelDecision(0, CallSkills([c]));
    Plans(P2, gated, t1, 0, [c]);
    var P3 := P2 + [GraphRecord(g)];
    SourcedOn(P2, P3, g, gated);
    OneCallNamed(t1.id, c);
    Checks(P3, gated, t1, 1, g, Step(g, c, Queued, 0));
    var P4 := P3 + [NodeCheckpoint(Step(g, c, Queued, 0))];
    Checks(P4, gated, t1, 1, g, Step(g, c, Validated, 0));
    var P5 := P4 + [NodeCheckpoint(Step(g, c, Validated, 0))];
    Checks(P5, gated, t1, 1, g, Step(g, c, Started, 1));
    var P6 := P5 + [NodeCheckpoint(Step(g, c, Started, 1))];
    Checks(P6, gated, t1, 1, g, Step(g, c, Succeeded, 1));
    var P7 := P6 + [NodeCheckpoint(Step(g, c, Succeeded, 1))];
    Grows(P7, gated, t1, 1, ResultRecord(ToolResult(c.callId, c.name, Ok)));
    var P8 := P7 + [ResultRecord(ToolResult(c.callId, c.name, Ok))];
    Closes(P8, gated, t1, 1, o1);
    assert L == P8 + [OutcomeEntry(o1)];
  }

  lemma NothingYet(t: TriggerRecord, gated: set<string>)
    ensures Orderly([], gated) && !HasTrigger([], t.id) && (t.key.Some? ==> OutcomeByKey([], t.key.value).None?)
  {
  }

  lemma OneCallNamed(triggerId: string, c: Call)
    ensures
      var g := NewGraph(triggerId, 0, [c]);
      forall status, attempt :: OfNode(g, Step(g, c, status, attempt))
  {
    OneCall(triggerId, c);
  }

  /** The second trigger may follow the first run. */
  lemma SecondOpens(t1: TriggerRecord, t2: TriggerRecord, o1: OutcomeRecord, c: Call, gated: set<string>)
    requires c.name !in gated && o1.triggerId == t1.id && o1.key == t1.key
    requires t2.id != t1.id && (t2.key.Some? ==> t2.key != t1.key)
    ensures Open(FirstRun(t1, o1, c) + [Trigger(t2)], gated, t2, 0)
  {
    hide Open, Orderly, NodesOf;
    var P := FirstRun(t1, o1, c);
    FirstRunOrderly(t1, o1, c, gated);
    assert forall r :: r in P && r.Trigger? ==> r.trigger == t1;
    assert forall r :: r in P && r.OutcomeEntry? ==> r.outcome == o1;
    if t2.key.Some? { OutcomeByKeyWitness(P, t2.key.value); }
    Opens(P, gated, t2);
  }

  /** After the first run its graph is the one found for the id of its call, and it is finished. */
  lemma FoundAfterFirstRun(t1: TriggerRecord, o1: OutcomeRecord, c: Call, d: Call, S: seq<Record>)
    requires c.callId == d.callId && forall r :: r in S ==> !r.GraphRecord? && !r.NodeCheckpoint?
    ensures
      var L, g := FirstRun(t1, o1, c) + S, NewGraph(t1.id, 0, [c]);
      && |L| > 2 && L[2] == GraphRecord(g) && MatchingGraph(L, 0, CallIds([d])) == Some(g)
      && FinalMap(L, g).Keys == Ids(g) && Repeats(L, 0, [d])
  {
    hide MatchingGraph, NodesOf, FinalMap, FirstRun;
    var L, g := FirstRun(t1, o1, c) + S, NewGraph(t1.id, 0, [c]);
    OneCall(t1.id, c);
    OneCall(t1.id, d);
    OnlyGraphOfFirstRun(t1, o1, c, S);
    FinishedInFirstRun(t1, o1, c, S);
    assert Deps(g).Keys == Ids(g);
  }

  lemma OnlyGraphOfFirstRun(t1: TriggerRecord, o1: OutcomeRecord, c: Call, S: seq<Record>)
    requires forall r :: r in S ==> !r.GraphRecord?
    ensures
      var L, g := FirstRun(t1, o1, c) + S, NewGraph(t1.id, 0, [c]);
      |L| > 2 && L[2] == GraphRecord(g) && Recorded(L, g) && forall h :: Recorded(L, h) ==> h == g
  {
    hide NodesOf;
    var L, g := FirstRun(t1, o1, c) + S, NewGraph(t1.id, 0, [c]);
    assert L[2] == GraphRecord(g);
    assert forall h :: Recorded(L, h) ==> GraphRecord(h) in FirstRun(t1, o1, c);
  }

  lemma FinishedInFirstRun(t1: TriggerRecord, o1: OutcomeRecord, c: Call, S: seq<Record>)
    requires forall r :: r in S ==> !r.GraphRecord? && !r.NodeCheckpoint?
    ensures
      var L, g := FirstRun(t1, o1, c) + S, NewGraph(t1.id, 0, [c]);
      FinalMap(L, g).Keys == {c.callId}
  {
    hide FinalMap, NodesOf;
    var g, L := NewGraph(t1.id, 0, [c]), FirstRun(t1, o1, c) + S;
    forall x ensures Final(L, g.id, x).Some? <==> x == c.callId {
      if x == c.callId {
        assert forall i :: 9 <= i < |L| ==> L[i] in S;
        QuietSuffix(L[..7], L, g.id, x);
        assert L[..7] == L[..6] + [L[6]];
        StatusOfAppend(L[..6], L[6], g.id, x);
      } else {
        NoCheckpoints(L, g.id, x);
      }
    }
  }

  /******* A call repeated by a later trigger *******/

  /** After the first run, `t2` decides on the very same call at its own step 0. */
  function RepeatedCall(t1: TriggerRecord, t2: TriggerRecord, o1: OutcomeRecord, c: Call): seq<Record> {
    FirstRun(t1, o1, c) + [Trigger(t2), ModelDecision(0, CallSkills([c]))]
  }

  /** Such a ledger keeps every rule, and its batches keep apart. */
  lemma RepeatedCallLawful(t1: TriggerRecord, t2: TriggerRecord, o1: OutcomeRecord, c: Call, gated: set<string>)
    requires c.dependsOn == [] && c.name !in gated && o1.triggerId == t1.id && o1.key == t1.key
    requires t2.id != t1.id && (t2.key.Some? ==> t2.key != t1.key)
    ensures
      var L := RepeatedCall(t1, t2, o1, c);
      SessionLawful(L, gated) && Clean(L)
  {
    hide Open, GraphsKept, FirstRun, Clean;
    var P := FirstRun(t1, o1, c);
    var Q := P + [Trigger(t2)];
    var decision := ModelDecision(0, CallSkills([c]));
    SecondOpens(t1, t2, o1, c, gated);
    Decides(Q, gated, t2, 0, CallSkills([c]));
    FirstRunKept(t1, o1, c);
    GraphsAppend(P, Trigger(t2));
    GraphsAppend(Q, decision);
    assert RepeatedCall(t1, t2, o1, c) == Q + [decision];
    RepeatedCallClean(t1, t2, o1, c);
    OpenOrderly(Q + [decision], gated, t2, 1);
  }

  lemma OpenOrderly(L: seq<Record>, gated: set<string>, t: TriggerRecord, n: nat)
    requires Open(L, gated, t, n)
    ensures Orderly(L, gated)
  {
  }

  lemma RepeatedCallClean(t1: TriggerRecord, t2: TriggerRecord, o1: OutcomeRecord, c: Call)
    ensures Clean(RepeatedCall(t1, t2, o1, c))
  {
    hide NodesOf, SinceOutcome;
    var L := RepeatedCall(t1, t2, o1, c);
    AfterTrigger([], t1);
    AfterTrigger(L[..9], t2);
    assert L[..1] == [] + [Trigger(t1)] && L[..10] == L[..9] + [Trigger(t2)];
    forall i | 0 <= i < |L| ensures CleanAt(L, i) {
      assert L[i].ModelDecision? ==> i == 1 || i == 10;
    }
  }

  lemma AfterTrigger(L: seq<Record>, t: TriggerRecord)
    requires L == [] || L[|L| - 1].OutcomeEntry?
    ensures SinceOutcome(L + [Trigger(t)]) == [Trigger(t)]
  {
    SinceOutcomeAppend(L, Trigger(t));
  }

  /** The repeated call finds the finished graph of the first run: nothing runs, now or later, and it has no result. */
  lemma RepeatedCallNeverRuns(
      t1: TriggerRecord, t2: TriggerRecord, o1: OutcomeRecord, c: Call, gated: set<string>, M: seq<Record>)
    requires c.dependsOn == [] && t1.id != t2.id
    requires RepeatedCall(t1, t2, o1, c) <= M && GraphsKept(M)
    ensures
      var L := RepeatedCall(t1, t2, o1, c);
      && ExistingOrNewGraph(L, t2.id, 0, [c]) == NewGraph(t1.id, 0, [c])
      && (Performed(L, M, t2.id, 0, [c]) ==> NothingRun(L, M))
      && !Ran(M, t2.id, 0, [c])
  {
    hide GraphsKept, NothingRun, AtRest;
    var L, S := RepeatedCall(t1, t2, o1, c), [Trigger(t2), ModelDecision(0, CallSkills([c]))];
    FoundAfterFirstRun(t1, o1, c, c, S);
    FirstRunKept(t1, o1, c);
    RepeatedCallClean(t1, t2, o1, c);
    GraphsPrefix(L, M);
    if Ran(M, t2.id, 0, [c]) {
      NewIds(t2.id, 0, [c]);
      SameGraph(L, M, NewGraph(t1.id, 0, [c]), NewGraph(t2.id, 0, [c]));
      assert false;
    }
  }

  /******* An approved call that never runs *******/

  /**
   After the first run of `c`, `t2` suspended a call `d` at its own step 0 under the same call id, as providers do that
   number the calls of each answer; `d` may call another skill, or be `c` itself.
   */
  function SharedCallId(t1: TriggerRecord, t2: TriggerRecord, o1: OutcomeRecord, o2: OutcomeRecord, token: string,
                        c: Call, d: Call): seq<Record> {
    FirstRun(t1, o1, c) + Suspension(t2, o2, token, d)
  }

  function Suspension(t2: TriggerRecord, o2: OutcomeRecord, token: string, d: Call): seq<Record> {
    [Trigger(t2), ModelDecision(0, Suspend([d], token)), Pending(PendingApproval(token, t2.id, 0, [d])),
     OutcomeEntry(o2)]
  }

  /** Such a ledger keeps every rule, and its batches keep apart. */
  lemma SharedCallIdLawful(
      t1: TriggerRecord, t2: TriggerRecord, o1: OutcomeRecord, o2: OutcomeRecord, token: string, c: Call, d: Call,
      gated: set<string>)
    requires c.dependsOn == [] && c.name !in gated && o1.triggerId == t1.id && o1.key == t1.key
    requires t2.id != t1.id && (t2.key.Some? ==> t2.key != t1.key) && o2.triggerId == t2.id && o2.key == t2.key
    ensures
      var L := SharedCallId(t1, t2, o1, o2, token, c, d);
      SessionLawful(L, gated) && Clean(L)
  {
    hide Open, GraphsKept, Orderly, FirstRun, Clean;
    var P := FirstRun(t1, o1, c);
    var Q := P + [Trigger(t2)];
    var decision, pending := ModelDecision(0, Suspend([d], token)), Pending(PendingApproval(token, t2.id, 0, [d]));
    SecondOpens(t1, t2, o1, c, gated);
    Decides(Q, gated, t2, 0, Suspend([d], token));
    Grows(Q + [decision], gated, t2, 1, pending);
    Closes(Q + [decision] + [pending], gated, t2, 1, o2);
    FirstRunKept(t1, o1, c);
    GraphsAppend(P, Trigger(t2));
    GraphsAppend(Q, decision);
    GraphsAppend(Q + [decision], pending);
    GraphsAppend(Q + [decision] + [pending], OutcomeEntry(o2));
    assert SharedCallId(t1, t2, o1, o2, token, c, d) == Q + [decision] + [pending] + [OutcomeEntry(o2)];
    SharedCallIdClean(t1, t2, o1, o2, token, c, d);
  }

  lemma SharedCallIdClean(
      t1: TriggerRecord, t2: TriggerRecord, o1: OutcomeRecord, o2: OutcomeRecord, token: string, c: Call, d: Call)
    ensures Clean(SharedCallId(t1, t2, o1, o2, token, c, d))
  {
    hide NodesOf, SinceOutcome;
    var L := SharedCallId(t1, t2, o1, o2, token, c, d);
    AfterTrigger([], t1);
    assert L[..1] == [] + [Trigger(t1)];
    forall i | 0 <= i < |L| ensures CleanAt(L, i) {
      assert L[i].ModelDecision? && L[i].action.CallSkills? ==> i == 1;
    }
  }

  /**
   The approval of `d` finds the finished graph of `c`, so it executes nothing: however the session goes on, `d` never
   runs, neither under this delivery nor under any other.
   */
  lemma ApprovedCallNeverRuns(
      t1: TriggerRecord, t2: TriggerRecord, t3: TriggerRecord, o1: OutcomeRecord, o2: OutcomeRecord, token: string,
      c: Call, d: Call, M: seq<Record>)
    requires c.callId == d.callId && t3.id != t1.id
    requires SharedCallId(t1, t2, o1, o2, token, c, d) <= M && GraphsKept(M)
    ensures
      var L := SharedCallId(t1, t2, o1, o2, token, c, d);
      var a := PendingApproval(token, t2.id, 0, [d]);
      && PendingByToken(L, token) == Some(a)
      && ExistingOrNewGraph(L, t3.id, 0, [d]) == NewGraph(t1.id, 0, [c]) && Repeats(L, 0, [d])
      && !Ran(M, t3.id, 0, [d]) && !ApprovalRan(M, a)
  {
    hide GraphsKept, PendingByToken, AtRest, Delivered, MatchingGraph;
    var L := SharedCallId(t1, t2, o1, o2, token, c, d);
    var a, g := PendingApproval(token, t2.id, 0, [d]), NewGraph(t1.id, 0, [c]);
    StillPending(t1, t2, o1, o2, token, c, d);
    FoundAfterFirstRun(t1, o1, c, d, Suspension(t2, o2, token, d));
    assert L[2] == GraphRecord(g);
    hide FirstRun, Suspension;
    if Ran(M, t3.id, 0, [d]) {
      NewIds(t3.id, 0, [d]);
      SameGraph(L, M, g, NewGraph(t3.id, 0, [d]));
      assert false;
    }
    if ApprovalRan(M, a) {
      var t :| Delivered(M, a, t) && AtRest(NewGraph(t.id, a.step, a.calls), M);
      NewIds(t.id, 0, [d]);
      DeliveredRecorded(M, a, t);
      SameGraph(L, M, g, NewGraph(t.id, 0, [d]));
      NotDeliveredSoEarly(t1, t2, o1, o2, token, c, d, M, t);
      assert false;
    }
  }

  /** The graph of the first run was recorded before any resolution. */
  lemma NotDeliveredSoEarly(
      t1: TriggerRecord, t2: TriggerRecord, o1: OutcomeRecord, o2: OutcomeRecord, token: string, c: Call, d: Call,
      M: seq<Record>, t: TriggerRecord)
    requires SharedCallId(t1, t2, o1, o2, token, c, d) <= M && GraphsKept(M)
    requires NewGraph(t.id, 0, [d]) == NewGraph(t1.id, 0, [c])
    ensures !Delivered(M, PendingApproval(token, t2.id, 0, [d]), t)
  {
    hide GraphsKept, NodesOf;
    var a, g := PendingApproval(token, t2.id, 0, [d]), NewGraph(t1.id, 0, [c]);
    assert M[0] == Trigger(t1) && M[1] == ModelDecision(0, CallSkills([c])) && M[2] == GraphRecord(g);
    if Delivered(M, a, t) {
      var i, j :| 0 <= i < j < |M| && M[i] == Resolution(token, Approved) && M[j] == GraphRecord(g);
      GraphIdUnique(M, j, 2);
      assert false;
    }
  }

  lemma StillPending(
      t1: TriggerRecord, t2: TriggerRecord, o1: OutcomeRecord, o2: OutcomeRecord, token: string, c: Call, d: Call)
    ensures
      var L := SharedCallId(t1, t2, o1, o2, token, c, d);
      PendingByToken(L, token) == Some(PendingApproval(token, t2.id, 0, [d]))
  {
    var L := SharedCallId(t1, t2, o1, o2, token, c, d);
    assert L[..|L| - 1][|L| - 2] == Pending(PendingApproval(token, t2.id, 0, [d]));
  }

  /******* An id used twice *******/

  /** The ledger after an approval of calls suspended at step 0 was resumed and the next decision planned `first`. */
  function ResumedAtZero(t1: TriggerRecord, t2: TriggerRecord, token: string, o: OutcomeRecord,
                         gatedCalls: seq<Call>, first: seq<Call>): seq<Record> {
    Suspended(t1, token, o, gatedCalls) + ResumedSegment(t2, token, gatedCalls, first)
  }

  function Suspended(t1: TriggerRecord, token: string, o: OutcomeRecord, gatedCalls: seq<Call>): seq<Record> {
    [Trigger(t1), ModelDecision(0, CallSkills(gatedCalls)), Pending(PendingApproval(token, t1.id, 0, gatedCalls)),
     OutcomeEntry(o)]
  }

  function ResumedSegment(t2: TriggerRecord, token: string, gatedCalls: seq<Call>, first: seq<Call>): seq<Record> {
    [Trigger(t2), Resolution(token, Approved), GraphRecord(NewGraph(t2.id, 0, gatedCalls)),
     ModelDecision(1, CallSkills(first)), GraphRecord(NewGraph(t2.id, 1, first))]
  }

  /** Such a ledger is reached in ordinary use: it keeps every rule. */
  lemma ResumedAtZeroLawful(
      t1: TriggerRecord, t2: TriggerRecord, token: string, o: OutcomeRecord, gatedCalls: seq<Call>, first: seq<Call>,
      gated: set<string>)
    requires o.triggerId == t1.id && o.key == t1.key && t2.id != t1.id && (t2.key.Some? ==> t2.key != t1.key)
    requires t2.kind == Approval(token, Approved) && Ungated(first, gated)
    requires DistinctCalls(gatedCalls) && DistinctCalls(first)
    ensures SessionLawful(ResumedAtZero(t1, t2, token, o, gatedCalls, first), gated)
  {
    hide Orderly, GraphsKept, Suspended, Ungated, NodesOf, Allowed;
    var P := Suspended(t1, token, o, gatedCalls);
    SuspendedOrderly(t1, t2, token, o, gatedCalls, gated);
    ResumedOrderly(P, t2, token, gatedCalls, first, gated, t1.id);
    ResumedKept(t1, t2, token, o, gatedCalls, first);
    assert ResumedAtZero(t1, t2, token, o, gatedCalls, first) == P + ResumedSegment(t2, token, gatedCalls, first);
  }

  lemma SuspendedOrderly(
      t1: TriggerRecord, t2: TriggerRecord, token: string, o: OutcomeRecord, gatedCalls: seq<Call>,
      gated: set<string>)
    requires o.triggerId == t1.id && o.key == t1.key && t2.id != t1.id && (t2.key.Some? ==> t2.key != t1.key)
    ensures
      var P := Suspended(t1, token, o, gatedCalls);
      var a := PendingApproval(token, t1.id, 0, gatedCalls);
      && Open(P + [Trigger(t2)], gated, t2, 0)
      && Pending(a) in P && PendingByToken(P + [Trigger(t2)], token) == Some(a)
  {
    hide Open, Orderly, HasTrigger, OutcomeByKey, PendingByToken;
    var P, a := Suspended(t1, token, o, gatedCalls), PendingApproval(token, t1.id, 0, gatedCalls);
    NothingYet(t1, gated);
    Opens([], gated, t1);
    var P1 := [] + [Trigger(t1)];
    Decides(P1, gated, t1, 0, CallSkills(gatedCalls));
    var P2 := P1 + [ModelDecision(0, CallSkills(gatedCalls))];
    Grows(P2, gated, t1, 1, Pending(a));
    Closes(P2 + [Pending(a)], gated, t1, 1, o);
    assert P == P2 + [Pending(a)] + [OutcomeEntry(o)];
    SecondUnused(t1, t2, token, o, gatedCalls);
    Opens(P, gated, t2);
    StillOpen(t1, t2, token, o, gatedCalls);
  }

  lemma StillOpen(t1: TriggerRecord, t2: TriggerRecord, token: string, o: OutcomeRecord, gatedCalls: seq<Call>)
    ensures
      var P := Suspended(t1, token, o, gatedCalls);
      var a := PendingApproval(token, t1.id, 0, gatedCalls);
      Pending(a) in P && PendingByToken(P + [Trigger(t2)], token) == Some(a)
  {
    var P := Suspended(t1, token, o, gatedCalls);
    var a := PendingApproval(token, t1.id, 0, gatedCalls);
    assert P[2] == Pending(a) && P[..3][2] == Pending(a);
    assert PendingByToken(P[..3], token) == Some(a);
    assert PendingByToken(P, token) == Some(a);
    assert (P + [Trigger(t2)])[..4] == P;
  }

  lemma SecondUnused(t1: TriggerRecord, t2: TriggerRecord, token: string, o: OutcomeRecord, gatedCalls: seq<Call>)
    requires o.key == t1.key && t2.id != t1.id && (t2.key.Some? ==> t2.key != t1.key)
    ensures
      var P := Suspended(t1, token, o, gatedCalls);
      !HasTrigger(P, t2.id) && (t2.key.Some? ==> OutcomeByKey(P, t2.key.value).None?)
  {
    var P := Suspended(t1, token, o, gatedCalls);
    assert forall r :: r in P && r.OutcomeEntry? ==> r.outcome == o;
    if t2.key.Some? { OutcomeByKeyWitness(P, t2.key.value); }
  }

  lemma ResumedOrderly(
      P: seq<Record>, t2: TriggerRecord, token: string, gatedCalls: seq<Call>, first: seq<Call>, gated: set<string>,
      id1: string)
    requires Open(P + [Trigger(t2)], gated, t2, 0)
    requires
      var a := PendingApproval(token, id1, 0, gatedCalls);
      Pending(a) in P && PendingByToken(P + [Trigger(t2)], token) == Some(a)
    requires t2.kind == Approval(token, Approved) && Ungated(first, gated)
    ensures Orderly(P + ResumedSegment(t2, token, gatedCalls, first), gated)
  {
    hide Open, NodesOf, Ungated, PendingByToken, Resolved, Orderly;
    var a := PendingApproval(token, id1, 0, gatedCalls);
    var Q1 := P + [Trigger(t2)];
    Grows(Q1, gated, t2, 0, Resolution(token, Approved));
    var Q2 := Q1 + [Resolution(token, Approved)];
    JustResolvedAt(P, t2, a);
    PlansApproved(Q2, gated, t2, 0, a);
    var Q3 := Q2 + [GraphRecord(NewGraph(t2.id, 0, gatedCalls))];
    PlansResumed(Q3, gated, t2, 0, a, first);
    assert P + ResumedSegment(t2, token, gatedCalls, first)
        == Q3 + [ModelDecision(1, CallSkills(first))] + [GraphRecord(NewGraph(t2.id, 1, first))];
    OpenOrderly(P + ResumedSegment(t2, token, gatedCalls, first), gated, t2, 1);
  }

  lemma PlansApproved(Q: seq<Record>, gated: set<string>, t: TriggerRecord, n: nat, a: PendingApproval)
    requires Open(Q, gated, t, n) && Resolved(Q, a, Approved) && Answering(Q, t, a)
    ensures
      var M := Q + [GraphRecord(NewGraph(t.id, a.step, a.calls))];
      Open(M, gated, t, n) && Answering(M, t, a)
  {
    hide Orderly, SinceOutcome, CurrentStepCount, Resolved, NodesOf;
    var g := NewGraph(t.id, a.step, a.calls);
    assert PlannedByApproval(Q, g);
    assert ResumedWith(Q, t, g, a);
    assert StepOf(Q, t, g);
    Grows(Q, gated, t, n, GraphRecord(g));
    Listed(Q, Q + [GraphRecord(g)], Pending(a));
  }

  lemma PlansResumed(
      Q: seq<Record>, gated: set<string>, t: TriggerRecord, n: nat, a: PendingApproval, calls: seq<Call>)
    requires Open(Q, gated, t, n) && Answering(Q, t, a) && Ungated(calls, gated)
    ensures
      var M := Q + [ModelDecision(a.step + 1, CallSkills(calls))];
      Open(M + [GraphRecord(NewGraph(t.id, a.step + 1, calls))], gated, t, n + 1)
  {
    hide Orderly, SinceOutcome, CurrentStepCount, Ungated, NodesOf;
    var decision, g := ModelDecision(a.step + 1, CallSkills(calls)), NewGraph(t.id, a.step + 1, calls);
    var M := Q + [decision];
    assert ResumesAt(Q, t, a.step + 1);
    Grows(Q, gated, t, n, decision);
    Listed(Q, M, Pending(a));
    SinceOutcomeAppend(Q, decision);
    var S := SinceOutcome(M);
    assert S[|S| - 1] == decision && M[|M| - 1] == decision;
    assert DecidedIn(S, g);
    assert PlannedFreely(M, g, gated);
    assert ResumedWith(M, t, g, a);
    assert StepOf(M, t, g);
    Grows(M, gated, t, n + 1, GraphRecord(g));
  }

  lemma JustResolvedAt(P: seq<Record>, t2: TriggerRecord, a: PendingApproval)
    requires Pending(a) in P
    ensures
      var Q := P + [Trigger(t2)] + [Resolution(a.token, Approved)];
      Pending(a) in Q && Resolved(Q, a, Approved)
  {
    var Q := P + [Trigger(t2)] + [Resolution(a.token, Approved)];
    var j :| 0 <= j < |P| && P[j] == Pending(a);
    assert Q[j] == Pending(a) && Q[|P| + 1] == Resolution(a.token, Approved);
  }

  lemma ResumedKept(
      t1: TriggerRecord, t2: TriggerRecord, token: string, o: OutcomeRecord, gatedCalls: seq<Call>, first: seq<Call>)
    requires DistinctCalls(gatedCalls) && DistinctCalls(first)
    ensures GraphsKept(ResumedAtZero(t1, t2, token, o, gatedCalls, first))
  {
    hide NodesOf;
    var L := ResumedAtZero(t1, t2, token, o, gatedCalls, first);
    NewDistinct(t2.id, 0, gatedCalls);
    NewDistinct(t2.id, 1, first);
    assert L[6] == GraphRecord(NewGraph(t2.id, 0, gatedCalls)) && L[8] == GraphRecord(NewGraph(t2.id, 1, first));
    forall i | 0 <= i < |L| ensures GraphsAt(L, i) {
      assert forall r :: r in L[..6] ==> !r.GraphRecord?;
      assert forall r :: r in L[..8] && r.GraphRecord? ==> r == L[6];
      assert L[i].GraphRecord? ==> i == 6 || i == 8;
      if i == 6 { assert forall h :: !Recorded(L[..6], h); }
      if i == 8 { assert forall h :: Recorded(L[..8], h) ==> GraphRecord(h) == L[6]; }
    }
  }

  lemma NewDistinct(triggerId: string, step: nat, calls: seq<Call>)
    requires DistinctCalls(calls)
    ensures DistinctIds(NewGraph(triggerId, step, calls))
  {
  }

  /**
   The continuation after such a resume counts one step, so its batch `later` gets the id the resumed decision's batch
   already has.
   */
  lemma ResumeReusesId(
      t1: TriggerRecord, t2: TriggerRecord, token: string, o: OutcomeRecord, gatedCalls: seq<Call>, first: seq<Call>,
      later: seq<Call>)
    requires CallIds(later) != CallIds(first)
    ensures
      var L := ResumedAtZero(t1, t2, token, o, gatedCalls, first);
      var g := ExistingOrNewGraph(L, t2.id, CurrentStepCount(L), later);
      g != NewGraph(t2.id, 1, first) && g.id == NewGraph(t2.id, 1, first).id && Recorded(L, NewGraph(t2.id, 1, first))
  {
    hide CallIds, MatchingGraph, SinceOutcome, CountSteps;
    var L := ResumedAtZero(t1, t2, token, o, gatedCalls, first);
    var S := ResumedSegment(t2, token, gatedCalls, first);
    SegmentAfter(L[..4], S);
    assert L == L[..4] + S;
    OneStep(t2, token, gatedCalls, first);
    assert L[8] == GraphRecord(NewGraph(t2.id, 1, first));
    assert CurrentStepCount(L) == 1;
    NewIds(t2.id, 1, first);
    NewIds(t2.id, 1, later);
    assert forall h :: Recorded(L, h) && h.step == 1 ==> h == NewGraph(t2.id, 1, first);
  }

  lemma OneStep(t2: TriggerRecord, token: string, gatedCalls: seq<Call>, first: seq<Call>)
    ensures CountSteps(ResumedSegment(t2, token, gatedCalls, first)) == 1
  {
    var S := ResumedSegment(t2, token, gatedCalls, first);
    var S1, S2, S3, S4 := S[..1], S[..2], S[..3], S[..4];
    assert S1[..0] == [] && S2[..1] == S1 && S3[..2] == S2 && S4[..3] == S3;
    assert CountSteps(S1) == 0;
    assert CountSteps(S2) == 0;
    assert CountSteps(S3) == 0;
    assert CountSteps(S4) == 1;
  }

  lemma {:induction false} SegmentAfter(before: seq<Record>, S: seq<Record>)
    requires before != [] && before[|before| - 1].OutcomeEntry?
    requires forall r :: r in S ==> !r.OutcomeEntry?
    ensures SinceOutcome(before + S) == S
  {
    var L := before + S;
    if S == [] {
      assert L == before;
    } else {
      assert L[..|L| - 1] == before + S[..|S| - 1];
      SegmentAfter(before, S[..|S| - 1]);
    }
  }
}
