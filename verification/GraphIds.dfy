/**
 Which graph a batch ends up in, and when a graph id names one graph only. A recorded graph is reused for a batch of the
 same step with the same call ids, whatever else the calls say. The id of a new graph is the trigger's id and a step
 number, and step numbers restart after an approval resume: the resumed decision counts on from the suspended step, the
 next one from the current segment.
 */
module GraphIds {
  import opened Ledger
  import opened ToolGraphs
  import opened Batches
  import opened Scheduler
  import opened Projections
  import opened ActiveGraphs
  import opened Sessions

  /******* Whose calls have run *******/

  /** No recorded graph of this step holds calls with exactly these ids. */
  ghost predicate Novel(P: seq<Record>, step: nat, calls: seq<Call>) {
    MatchingGraph(P, step, CallIds(calls)).None?
  }

  /** The batch has a graph of its own, planned under this trigger, and the graph is at rest. */
  ghost predicate Ran(M: seq<Record>, triggerId: string, step: nat, calls: seq<Call>) {
    var g := NewGraph(triggerId, step, calls);
    Recorded(M, g) && AtRest(g, M)
  }

  /** From `P` to `M` no graph was recorded, nothing was started or settled, and no result was kept. */
  ghost predicate NothingRun(P: seq<Record>, M: seq<Record>) {
    P <= M && forall i :: |P| <= i < |M| ==>
      !M[i].GraphRecord? && !M[i].ResultRecord? && (M[i].NodeCheckpoint? ==> M[i].checkpoint.status.Queued?)
  }

  /** The batch finds, in the place of its own, a graph that is already at rest. */
  ghost predicate Repeats(P: seq<Record>, step: nat, calls: seq<Call>) {
    var found := MatchingGraph(P, step, CallIds(calls));
    found.Some? && AtRest(found.value, P)
  }

  /**
   The batch, decided or approved when the ledger read `P`, has run in `M` exactly when no recorded graph of its step
   had its call ids; otherwise the graph found was brought to rest in its place.
   */
  ghost predicate RunsIfNovel(P: seq<Record>, M: seq<Record>, triggerId: string, step: nat, calls: seq<Call>) {
    && (Ran(M, triggerId, step, calls) <==> Novel(P, step, calls))
    && (!Novel(P, step, calls) ==> AtRest(MatchingGraph(P, step, CallIds(calls)).value, M))
  }

  /** A batch of a session whose batches kept apart runs if it is novel; what is already at rest does not run again. */
  ghost predicate Performed(P: seq<Record>, M: seq<Record>, triggerId: string, step: nat, calls: seq<Call>) {
    GraphsKept(P) && Clean(P) ==>
      RunsIfNovel(P, M, triggerId, step, calls) && (Repeats(P, step, calls) ==> NothingRun(P, M))
  }

  /** What has run stays run. */
  lemma RanStays(L: seq<Record>, M: seq<Record>, triggerId: string, step: nat, calls: seq<Call>)
    requires Ran(L, triggerId, step, calls) && L <= M && GraphsKept(M)
    ensures Ran(M, triggerId, step, calls)
  {
    hide AtRest, GraphsKept;
    var g := NewGraph(triggerId, step, calls);
    Listed(L, M, GraphRecord(g));
    GraphsLawful(M, g);
    RestIsFinal(g, L, M);
  }

  /**
   What has run, ran as its calls ask: each call started only after each call it depends on had succeeded, and acyclic
   calls ended as the recursive rule over them says.
   */
  lemma RanAsAsked(env: SkillEnv, M: seq<Record>, triggerId: string, step: nat, calls: seq<Call>)
    requires GraphsKept(M) && AllConform(env, M) && Ran(M, triggerId, step, calls) && DistinctCalls(calls)
    ensures StartsAfterDeps(calls, GraphId(triggerId, step), M)
    ensures CallsSettled(env, calls, NewGraph(triggerId, step, calls), M)
  {
    hide GraphsKept, AtRest, Lawful, Conforms, StartsAfterDeps, CallsSettled, NodesOf, DistinctCalls;
    GraphsLawful(M, NewGraph(triggerId, step, calls));
    LawfulStarts(triggerId, step, calls, M);
    LawfulSettles(env, triggerId, step, calls, M);
  }

  /** A batch that finds a recorded graph with its step and call ids never gets a graph of its own, now or later. */
  lemma RanOnlyIfNovel(P: seq<Record>, M: seq<Record>, triggerId: string, step: nat, calls: seq<Call>)
    requires GraphsKept(M) && P <= M && !HasGraph(P, GraphId(triggerId, step))
    requires Recorded(M, NewGraph(triggerId, step, calls))
    ensures Novel(P, step, calls)
  {
    hide GraphsKept, CallIds;
    var g := NewGraph(triggerId, step, calls);
    NewIds(triggerId, step, calls);
    if !Novel(P, step, calls) {
      var found := MatchingGraph(P, step, CallIds(calls)).value;
      SameGraph(P, M, found, g);
      assert false;
    }
  }

  /** Two recorded graphs of one step with the same call ids are one. */
  lemma SameGraph(P: seq<Record>, M: seq<Record>, g: Graph, h: Graph)
    requires GraphsKept(M) && P <= M && Recorded(P, g) && Recorded(M, h) && g.step == h.step && Ids(g) == Ids(h)
    ensures g == h
  {
    hide GraphsKept, Ids;
    Listed(P, M, GraphRecord(g));
    var i :| 0 <= i < |M| && M[i] == GraphRecord(g);
    var j :| 0 <= j < |M| && M[j] == GraphRecord(h);
    OneGraphPerBatch(M, i, j);
  }

  /** An execution by the rules finds the graph of its batch, or makes one, and brings it to rest. */
  lemma RunByTrail(
      L: seq<Record>, M: seq<Record>, g: Graph, env: SkillEnv, triggerId: string, step: nat, calls: seq<Call>)
    requires g == ExistingOrNewGraph(L, triggerId, step, calls) && Lawful(g, L)
    requires Trail(g, env, L, M) && HasGraph(M, g.id) && AtRest(g, M) && GraphsKept(M) && L <= M
    requires !HasGraph(L, GraphId(triggerId, step))
    ensures RunsIfNovel(L, M, triggerId, step, calls)
    ensures
      Repeats(L, step, calls) ==>
        NothingRun(L, M) && NewResults(env, g.nodes, FinalMap(L, g), FinalMap(M, g)) == []
  {
    hide GraphsKept, AtRest, Trail, Lawful, CallIds, HasGraph, NewResults, FinalMap;
    TrailLawful(g, env, L, M);
    OnlyItself(g, M);
    if Ran(M, triggerId, step, calls) { RanOnlyIfNovel(L, M, triggerId, step, calls); }
    if Repeats(L, step, calls) {
      assert GraphRecord(g) in L;
      IsListed(L, g);
      RestRunsNothing(g, env, L, M);
    }
  }

  lemma IsListed(L: seq<Record>, g: Graph)
    requires Recorded(L, g)
    ensures HasGraph(L, g.id)
  {
    assert GraphRecord(g) in L;
  }

  lemma OnlyItself(g: Graph, M: seq<Record>)
    requires Lawful(g, M) && HasGraph(M, g.id)
    ensures Recorded(M, g)
  {
    var r :| r in M && r.GraphRecord? && r.graph.id == g.id;
    var i :| 0 <= i < |M| && M[i] == r;
    assert M[i].graph == g;
  }

  /** Executing a graph that is at rest runs nothing and gives no results. */
  lemma RestRunsNothing(g: Graph, env: SkillEnv, L: seq<Record>, M: seq<Record>)
    requires Trail(g, env, L, M) && Lawful(g, L) && HasGraph(L, g.id) && AtRest(g, L)
    ensures NothingRun(L, M)
    ensures NewResults(env, g.nodes, FinalMap(L, g), FinalMap(M, g)) == []
  {
    hide Rule, AtRest, FinalMap, OfNode, HasGraph, Conforms, ResultFor, Lawful;
    TrailLawful(g, env, L, M);
    RestIsFinal(g, L, M);
    NothingNew(env, g.nodes, FinalMap(L, g));
    forall i | |L| <= i < |M|
      ensures !M[i].GraphRecord? && !M[i].ResultRecord? && (M[i].NodeCheckpoint? ==> M[i].checkpoint.status.Queued?)
    {
      assert BatchRecord(g, M[i]);
      if M[i].NodeCheckpoint? {
        assert RuleAt(g, M, i);
        LawfulPrefix(g, M, i);
        RestIsFinal(g, L, M[..i]);
        OnlyQueues(g, M[..i], M[i].checkpoint);
      }
    }
  }

  /** At rest a node may be queued again, nothing more. */
  lemma OnlyQueues(g: Graph, P: seq<Record>, ck: Checkpoint)
    requires AtRest(g, P) && Rule(g, P, ck)
    ensures ck.status.Queued?
  {
    assert ck.callId in Deps(g) && ck.callId !in FinalMap(P, g);
  }

  lemma {:induction false} NothingNew(env: SkillEnv, nodes: seq<Node>, m: map<string, Status>)
    ensures NewResults(env, nodes, m, m) == []
  {
    if nodes != [] { NothingNew(env, nodes[..|nodes| - 1], m); }
  }

  /******* Whose approval has run *******/

  ghost predicate After(L: seq<Record>, r: Record, s: Record) {
    exists i, j :: 0 <= i < j < |L| && L[i] == r && L[j] == s
  }

  /** The trigger delivered the approval of `a`, and a graph of the calls was planned under it after the resolution. */
  ghost predicate Delivered(L: seq<Record>, a: PendingApproval, t: TriggerRecord) {
    && Trigger(t) in L && t.kind.Approval? && t.kind.token == a.token
    && After(L, Resolution(a.token, Approved), GraphRecord(NewGraph(t.id, a.step, a.calls)))
  }

  /** The approved calls have a graph of their own under some delivery, and it is at rest. */
  ghost predicate ApprovalRan(M: seq<Record>, a: PendingApproval) {
    exists t :: Delivered(M, a, t) && AtRest(NewGraph(t.id, a.step, a.calls), M)
  }

  /** The only recorded graph of the suspended step with these call ids, if any, comes from a delivery. */
  ghost predicate ApprovalOwn(L: seq<Record>, a: PendingApproval) {
    var found := MatchingGraph(L, a.step, CallIds(a.calls));
    found.Some? ==> exists t :: Delivered(L, a, t) && found.value == NewGraph(t.id, a.step, a.calls)
  }

  lemma AfterLater(L: seq<Record>, M: seq<Record>, r: Record, s: Record)
    requires After(L, r, s) && L <= M
    ensures After(M, r, s)
  {
    var i, j :| 0 <= i < j < |L| && L[i] == r && L[j] == s;
    assert M[i] == r && M[j] == s;
  }

  lemma DeliveredLater(L: seq<Record>, M: seq<Record>, a: PendingApproval, t: TriggerRecord)
    requires Delivered(L, a, t) && L <= M
    ensures Delivered(M, a, t)
  {
    hide After;
    Listed(L, M, Trigger(t));
    AfterLater(L, M, Resolution(a.token, Approved), GraphRecord(NewGraph(t.id, a.step, a.calls)));
  }

  lemma AfterListed(L: seq<Record>, r: Record, s: Record)
    requires After(L, r, s)
    ensures s in L
  {
  }

  lemma ApprovalRanStays(L: seq<Record>, M: seq<Record>, a: PendingApproval)
    requires ApprovalRan(L, a) && L <= M && GraphsKept(M)
    ensures ApprovalRan(M, a)
  {
    hide AtRest, GraphsKept, Delivered;
    var t :| Delivered(L, a, t) && AtRest(NewGraph(t.id, a.step, a.calls), L);
    DeliveredLater(L, M, a, t);
    DeliveredRecorded(L, a, t);
    RanStays(L, M, t.id, a.step, a.calls);
  }

  lemma DeliveredRecorded(L: seq<Record>, a: PendingApproval, t: TriggerRecord)
    requires Delivered(L, a, t)
    ensures Recorded(L, NewGraph(t.id, a.step, a.calls))
  {
    AfterListed(L, Resolution(a.token, Approved), GraphRecord(NewGraph(t.id, a.step, a.calls)));
  }

  /** Approved calls whose place is taken never run, as long as no further delivery comes. */
  lemma ApprovalRanOnlyIfOwn(L: seq<Record>, M: seq<Record>, a: PendingApproval)
    requires ApprovalRan(M, a) && NoTriggers(L, M) && GraphsKept(M)
    ensures ApprovalOwn(L, a)
  {
    hide AtRest, GraphsKept, Delivered, CallIds, NodesOf;
    var found := MatchingGraph(L, a.step, CallIds(a.calls));
    if found.Some? {
      var t :| Delivered(M, a, t) && AtRest(NewGraph(t.id, a.step, a.calls), M);
      var g := NewGraph(t.id, a.step, a.calls);
      DeliveredRecorded(M, a, t);
      NewIds(t.id, a.step, a.calls);
      SameGraph(L, M, found.value, g);
      DeliveredEarlier(L, M, a, t);
    }
  }

  /** A delivery whose graph is recorded in `L` is complete in `L`. */
  lemma DeliveredEarlier(L: seq<Record>, M: seq<Record>, a: PendingApproval, t: TriggerRecord)
    requires Delivered(M, a, t) && NoTriggers(L, M) && GraphsKept(M)
    requires Recorded(L, NewGraph(t.id, a.step, a.calls))
    ensures Delivered(L, a, t)
  {
    hide GraphsKept, NodesOf;
    var g := NewGraph(t.id, a.step, a.calls);
    var k :| 0 <= k < |L| && L[k] == GraphRecord(g);
    var i, j :| 0 <= i < j < |M| && M[i] == Resolution(a.token, Approved) && M[j] == GraphRecord(g);
    assert M[k] == GraphRecord(g);
    GraphIdUnique(M, j, k);
    assert L[i] == Resolution(a.token, Approved);
    var m :| 0 <= m < |M| && M[m] == Trigger(t);
    assert m < |L|;
    assert Trigger(t) in L;
  }

  /** Executed to rest, approved calls whose place was free, or their own, have run. */
  lemma ApprovalRunByOwn(
      L: seq<Record>, M: seq<Record>, a: PendingApproval, trig: TriggerRecord)
    requires L <= M && Trigger(trig) in L && Answering(L, trig, a) && Resolved(L, a, Approved)
    requires RunsIfNovel(L, M, trig.id, a.step, a.calls) && !HasGraph(L, GraphId(trig.id, a.step))
    requires ApprovalOwn(L, a)
    ensures ApprovalRan(M, a)
  {
    hide AtRest, CallIds, Delivered, NodesOf;
    var found := MatchingGraph(L, a.step, CallIds(a.calls));
    if found.Some? {
      var t :| Delivered(L, a, t) && found.value == NewGraph(t.id, a.step, a.calls);
      DeliveredLater(L, M, a, t);
    } else {
      JustDelivered(L, M, a, trig);
    }
  }

  lemma JustDelivered(L: seq<Record>, M: seq<Record>, a: PendingApproval, trig: TriggerRecord)
    requires L <= M && Trigger(trig) in L && Answering(L, trig, a) && Resolved(L, a, Approved)
    requires Recorded(M, NewGraph(trig.id, a.step, a.calls)) && !HasGraph(L, GraphId(trig.id, a.step))
    ensures Delivered(M, a, trig)
  {
    hide NodesOf;
    var g := NewGraph(trig.id, a.step, a.calls);
    var j :| 0 <= j < |M| && M[j] == GraphRecord(g);
    assert !Recorded(L, g);
    assert j >= |L|;
    var i, k :| 0 <= i < k < |L| && L[i] == Pending(a) && L[k] == Resolution(a.token, Approved);
    assert M[k] == L[k];
    Listed(L, M, Trigger(trig));
  }

  /** A context with all graphs of a step finds the same match for it as the ledger. */
  lemma SameMatch(context: seq<Record>, L: seq<Record>, step: nat, ids: set<string>)
    requires GraphsKept(L) && forall r :: r in context ==> r in L
    requires forall r :: r in L && r.GraphRecord? && r.graph.step == step ==> r in context
    ensures MatchingGraph(context, step, ids) == MatchingGraph(L, step, ids)
  {
    hide GraphsKept, Ids;
    var f, h := MatchingGraph(context, step, ids), MatchingGraph(L, step, ids);
    assert f.Some? ==> Recorded(L, f.value);
    assert h.Some? ==> Recorded(context, h.value);
    if f.Some? && h.Some? {
      var i :| 0 <= i < |L| && L[i] == GraphRecord(f.value);
      var j :| 0 <= j < |L| && L[j] == GraphRecord(h.value);
      OneGraphPerBatch(L, i, j);
    }
  }

  /******* When a graph id is taken *******/

  /** No two graphs recorded in the ledger share an id. */
  ghost predicate IdsUnique(L: seq<Record>) {
    forall g, h :: Recorded(L, g) && Recorded(L, h) && g.id == h.id ==> g == h
  }

  /** Every recorded graph with the id of `g` is `g`. */
  ghost predicate OwnsItsId(L: seq<Record>, g: Graph) {
    forall h :: Recorded(L, h) && h.id == g.id ==> h == g
  }

  /**
   The graph chosen for a batch has its id to itself exactly when a recorded graph matches the batch or no graph was
   recorded for this trigger and step.
   */
  lemma OwnsItsIdIff(L: seq<Record>, triggerId: string, step: nat, calls: seq<Call>)
    requires IdsUnique(L)
    requires forall g :: Recorded(L, g) ==> g.step == g.id.step
    ensures
      OwnsItsId(L, ExistingOrNewGraph(L, triggerId, step, calls)) <==>
        MatchingGraph(L, step, CallIds(calls)).Some? || !HasGraph(L, GraphId(triggerId, step))
  {
    var g := ExistingOrNewGraph(L, triggerId, step, calls);
    if MatchingGraph(L, step, CallIds(calls)).None? {
      assert Ids(g) == CallIds(calls);
      assert !Recorded(L, g);
      if HasGraph(L, g.id) {
        var r :| r in L && r.GraphRecord? && r.graph.id == g.id;
        assert Recorded(L, r.graph);
      }
      assert forall h :: Recorded(L, h) ==> GraphRecord(h) in L;
    }
  }

  /** A batch that goes under another graph's id harms no third graph. */
  lemma OthersStayLawful(h: Graph, g: Graph, known: bool, L: seq<Record>, M: seq<Record>)
    requires Lawful(h, L) && Batch(g, known, L, M) && h.id != g.id
    ensures Lawful(h, M) && FinalMap(M, h) == FinalMap(L, h)
  {
    hide Rule, OfNode;
    forall i | |L| <= i < |M| ensures !ConcernsGraph(M[i], h.id) {
      assert BatchRecord(g, M[i]);
    }
    forall i | 0 <= i < |M| && M[i].NodeCheckpoint? && M[i].checkpoint.graph == h.id ensures RuleAt(h, M, i) {
      assert i < |L| && RuleAt(h, L, i);
      assert M[..i] == L[..i];
    }
    forall i | 0 <= i < |M| ensures AfterRecord(h, M, i) {
      assert i < |L| ==> AfterRecord(h, L, i) && M[..i] == L[..i];
    }
    forall c ensures StatusOf(M, h.id, c) == StatusOf(L, h.id, c) { QuietSuffix(L, M, h.id, c); }
    assert FinalMap(M, h) == FinalMap(L, h);
  }

  lemma NewIds(triggerId: string, step: nat, calls: seq<Call>)
    ensures Ids(NewGraph(triggerId, step, calls)) == CallIds(calls)
  {
  }

  /******* When the next id is taken *******/

  lemma TriggerUnique(L: seq<Record>, gated: set<string>, i: nat, j: nat)
    requires Orderly(L, gated) && i < |L| && j < |L| && L[i].Trigger? && L[j].Trigger?
    requires L[i].trigger.id == L[j].trigger.id
    ensures i == j
  {
    var k := if i < j then j else i;
    assert AllowedAt(L, k, gated);
    assert forall m :: 0 <= m < k ==> L[m] in L[..k];
  }

  /** A graph of a trigger of the current segment was recorded in this segment. */
  lemma GraphOfSegment(L: seq<Record>, gated: set<string>, t: TriggerRecord, g: Graph)
    requires Orderly(L, gated) && Trigger(t) in SinceOutcome(L)
    requires Recorded(L, g) && g.id.trigger == t.id
    ensures GraphRecord(g) in SinceOutcome(L)
    ensures forall t' :: StepOf(L, t', g) ==> t' == t
  {
    hide Sourced, CurrentStepCount;
    SegmentIsSuffix(L);
    var S := SinceOutcome(L);
    var from := |L| - |S|;
    var k :| 0 <= k < |S| && S[k] == Trigger(t);
    assert L[from + k] == S[k];
    var i :| 0 <= i < |L| && L[i] == GraphRecord(g);
    var t', j := TriggerBefore(L, gated, g, i);
    TriggerUnique(L, gated, from + k, j);
    assert S[i - from] == L[i];
    forall t' | StepOf(L, t', g) ensures t' == t {
      var m :| 0 <= m < |S| && S[m] == Trigger(t');
      assert L[from + m] == S[m];
      TriggerUnique(L, gated, from + k, from + m);
    }
  }

  lemma TriggerBefore(L: seq<Record>, gated: set<string>, g: Graph, i: nat) returns (t: TriggerRecord, j: nat)
    requires Orderly(L, gated) && i < |L| && L[i] == GraphRecord(g)
    ensures j < i && L[j] == Trigger(t) && t.id == g.id.trigger
  {
    hide Sourced, SinceOutcome, CurrentStepCount;
    assert AllowedAt(L, i, gated);
    t :| StepOf(L[..i], t, g);
    SegmentIsSuffix(L[..i]);
    assert Trigger(t) in L[..i];
    j :| 0 <= j < |L[..i]| && L[..i][j] == Trigger(t);
  }

  /**
   The id a continuation of the trigger `t` would use next is taken only when `t` delivered an approval and the step
   count has reached the suspended step or the one after it.
   */
  lemma NextIdTaken(L: seq<Record>, gated: set<string>, t: TriggerRecord)
    requires Orderly(L, gated) && Trigger(t) in SinceOutcome(L)
    ensures HasGraph(L, GraphId(t.id, CurrentStepCount(L))) ==> ResumedStep(L, t, CurrentStepCount(L))
  {
    hide Orderly, SinceOutcome, CurrentStepCount;
    var id := GraphId(t.id, CurrentStepCount(L));
    if HasGraph(L, id) {
      var r :| r in L && r.GraphRecord? && r.graph.id == id;
      assert Recorded(L, r.graph);
      GraphOfSegment(L, gated, t, r.graph);
      var t' := SegmentGraphStep(L, gated, r.graph);
      var a :| ResumedWith(L, t, r.graph, a);
      assert Answering(L, t, a);
    }
  }

  /** The batch of the resumed decision has a graph of its own under the trigger. */
  ghost predicate ResumedBatch(L: seq<Record>, t: TriggerRecord, a: PendingApproval) {
    exists calls ::
      ModelDecision(a.step + 1, CallSkills(calls)) in SinceOutcome(L) && Recorded(L, NewGraph(t.id, a.step + 1, calls))
  }

  /**
   With one pending record `a` to answer, the next id is taken exactly when the count of the segment stands at the
   suspended step and the approved calls got a graph of their own, or at the step after it and the resumed decision's
   calls did.
   */
  lemma NextIdTakenIff(L: seq<Record>, gated: set<string>, t: TriggerRecord, a: PendingApproval)
    requires Orderly(L, gated) && Trigger(t) in SinceOutcome(L)
    requires forall b :: Answering(L, t, b) ==> b == a
    ensures
      var count := CurrentStepCount(L);
      HasGraph(L, GraphId(t.id, count)) <==>
        || (count == a.step && Recorded(L, NewGraph(t.id, a.step, a.calls)))
        || (count == a.step + 1 && ResumedBatch(L, t, a))
  {
    hide Orderly, SinceOutcome, CurrentStepCount, Answering, NodesOf;
    var count := CurrentStepCount(L);
    if HasGraph(L, GraphId(t.id, count)) {
      var r :| r in L && r.GraphRecord? && r.graph.id == GraphId(t.id, count);
      var g := r.graph;
      assert Recorded(L, g);
      GraphOfSegment(L, gated, t, g);
      var t' := SegmentGraphStep(L, gated, g);
      var b :| ResumedWith(L, t, g, b);
      if g.step == a.step + 1 {
        var calls :| ModelDecision(g.step, CallSkills(calls)) in SinceOutcome(L) && g.nodes == NodesOf(calls);
        assert g == NewGraph(t.id, a.step + 1, calls);
      }
    }
    forall step, calls | Recorded(L, NewGraph(t.id, step, calls)) ensures HasGraph(L, GraphId(t.id, step)) {
      IsListed(L, NewGraph(t.id, step, calls));
    }
  }

  /**
   The graph a continuation's batch ends up in has its id to itself except in two cases: a novel batch at the suspended
   step when the approved calls got a graph of their own, and one at the step after it when the resumed decision did.
   */
  lemma OwnsNextIdIff(L: seq<Record>, gated: set<string>, t: TriggerRecord, a: PendingApproval, calls: seq<Call>)
    requires Orderly(L, gated) && GraphsKept(L) && Trigger(t) in SinceOutcome(L)
    requires forall b :: Answering(L, t, b) ==> b == a
    ensures
      var count := CurrentStepCount(L);
      !OwnsItsId(L, ExistingOrNewGraph(L, t.id, count, calls)) <==>
        && Novel(L, count, calls)
        && ((count == a.step && Recorded(L, NewGraph(t.id, a.step, a.calls)))
            || (count == a.step + 1 && ResumedBatch(L, t, a)))
  {
    hide Orderly, GraphsKept, SinceOutcome, CurrentStepCount, Answering, MatchingGraph, OwnsItsId, ResumedBatch,
         NodesOf, CallIds, HasGraph;
    UniqueIds(L);
    OwnSteps(L, gated);
    OwnsItsIdIff(L, t.id, CurrentStepCount(L), calls);
    NextIdTakenIff(L, gated, t, a);
  }

  lemma UniqueIds(L: seq<Record>)
    requires GraphsKept(L)
    ensures IdsUnique(L)
  {
    hide GraphsKept;
    forall g, h | Recorded(L, g) && Recorded(L, h) && g.id == h.id ensures g == h {
      var i :| 0 <= i < |L| && L[i] == GraphRecord(g);
      var j :| 0 <= j < |L| && L[j] == GraphRecord(h);
      GraphIdUnique(L, i, j);
    }
  }

  /** A graph id carries the step of its graph. */
  lemma OwnSteps(L: seq<Record>, gated: set<string>)
    requires Orderly(L, gated)
    ensures forall g :: Recorded(L, g) ==> g.step == g.id.step
  {
    hide Sourced, SinceOutcome, CurrentStepCount;
    forall g | Recorded(L, g) ensures g.step == g.id.step {
      var i :| 0 <= i < |L| && L[i] == GraphRecord(g);
      assert AllowedAt(L, i, gated);
    }
  }
}
