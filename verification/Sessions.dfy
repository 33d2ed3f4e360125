/**
 The rules every record of a session ledger obeys, whatever triggers, approvals, provider answers and interruptions
 produced it, the further rules about graphs, and what follows from both for whole runs.
 */
module Sessions {
  import opened Options
  import opened Ledger
  import opened ToolGraphs
  import opened Batches
  import opened Scheduler
  import opened Overlays
  import opened Projections
  import opened ActiveGraphs

  /******* The rules of every run *******/

  ghost predicate Ungated(calls: seq<Call>, gated: set<string>) {
    forall call :: call in calls ==> call.name !in gated
  }

  /** A pending record followed by a resolution of its token. */
  ghost predicate Resolved(P: seq<Record>, a: PendingApproval, d: Decision) {
    exists j, k :: 0 <= j < k < |P| && P[j] == Pending(a) && P[k] == Resolution(a.token, d)
  }

  /** The graph was planned by a decision none of whose calls needs an approval. */
  ghost predicate PlannedFreely(P: seq<Record>, g: Graph, gated: set<string>) {
    exists calls :: ModelDecision(g.step, CallSkills(calls)) in P && Ungated(calls, gated) && g.nodes == NodesOf(calls)
  }

  /** The graph holds the calls of an approved pending record. */
  ghost predicate PlannedByApproval(P: seq<Record>, g: Graph) {
    exists a :: Resolved(P, a, Approved) && g.step == a.step && g.nodes == NodesOf(a.calls)
  }

  ghost predicate Sourced(P: seq<Record>, g: Graph, gated: set<string>) {
    PlannedFreely(P, g, gated) || PlannedByApproval(P, g)
  }

  predicate HasTrigger(P: seq<Record>, id: string) {
    exists r :: r in P && r.Trigger? && r.trigger.id == id
  }

  /** The trigger delivers an approval for the pending record. */
  ghost predicate Answering(P: seq<Record>, t: TriggerRecord, a: PendingApproval) {
    t.kind.Approval? && Pending(a) in P && a.token == t.kind.token
  }

  /** The trigger of the current segment resumes a suspended step, and the next decision takes the step after it. */
  ghost predicate ResumesAt(P: seq<Record>, t: TriggerRecord, step: nat) {
    Trigger(t) in SinceOutcome(P) && exists a :: Answering(P, t, a) && step == a.step + 1
  }

  /** A decision takes the current step count for its step, except the first one after an approval was resumed. */
  ghost predicate DecisionRule(P: seq<Record>, step: nat) {
    step == CurrentStepCount(P) || exists t :: ResumesAt(P, t, step)
  }

  /** The graph holds the calls of a decision in these records. */
  ghost predicate DecidedIn(S: seq<Record>, g: Graph) {
    exists calls :: ModelDecision(g.step, CallSkills(calls)) in S && g.nodes == NodesOf(calls)
  }

  /** The graph holds the suspended calls the trigger resumes, or those of a decision about the step after them. */
  ghost predicate ResumedGraph(P: seq<Record>, t: TriggerRecord, g: Graph) {
    exists a :: ResumedWith(P, t, g, a)
  }

  ghost predicate ResumedWith(P: seq<Record>, t: TriggerRecord, g: Graph, a: PendingApproval) {
    && Answering(P, t, a)
    && ((g.step == a.step && g.nodes == NodesOf(a.calls))
        || (g.step == a.step + 1 && DecidedIn(SinceOutcome(P), g)))
  }

  /** A graph of the trigger `t` of the current segment: its step was counted, or it was resumed. */
  ghost predicate StepOf(P: seq<Record>, t: TriggerRecord, g: Graph) {
    && Trigger(t) in SinceOutcome(P) && t.id == g.id.trigger && g.id.step == g.step
    && (g.step < CurrentStepCount(P) || ResumedGraph(P, t, g))
  }

  ghost predicate ResumedStep(P: seq<Record>, t: TriggerRecord, step: nat) {
    exists a :: Answering(P, t, a) && (step == a.step || step == a.step + 1)
  }

  /** The outcome closes a trigger of the current segment, under the trigger's own key. */
  ghost predicate OutcomeRule(P: seq<Record>, o: OutcomeRecord) {
    exists t :: Trigger(t) in SinceOutcome(P) && t.id == o.triggerId && t.key == o.key
  }

  /** The checkpoint is of a call that was decided freely or approved. */
  ghost predicate CheckpointSourced(P: seq<Record>, ck: Checkpoint, gated: set<string>) {
    exists g: Graph :: g.id == ck.graph && Sourced(P, g, gated) && OfNode(g, ck)
  }

  /** The record `r` may be appended to the ledger `P`; `gated` are the skills that need a human approval. */
  ghost predicate Allowed(P: seq<Record>, r: Record, gated: set<string>) {
    match r
    case Trigger(t) => !HasTrigger(P, t.id) && (t.key.Some? ==> OutcomeByKey(P, t.key.value).None?)
    case OutcomeEntry(o) => OutcomeRule(P, o)
    case Resolution(token, _) => PendingByToken(P, token).Some?
    case ModelDecision(step, _) => DecisionRule(P, step)
    case GraphRecord(g) => Sourced(P, g, gated) && exists t :: StepOf(P, t, g)
    case NodeCheckpoint(ck) => CheckpointSourced(P, ck, gated)
    case PolicyTuning(t) => TuningRule(Tunings(P), t)
    case _ => true
  }

  /** The record at position `i` was allowed when it was appended. */
  ghost predicate AllowedAt(L: seq<Record>, i: nat, gated: set<string>)
    requires i < |L|
  {
    Allowed(L[..i], L[i], gated)
  }

  /** What every run keeps. */
  ghost predicate Orderly(L: seq<Record>, gated: set<string>) {
    forall i :: 0 <= i < |L| ==> AllowedAt(L, i, gated)
  }

  lemma EmptySession(gated: set<string>)
    ensures Orderly([], gated) && SessionLawful([], gated)
  {
  }

  lemma OrderAppend(L: seq<Record>, r: Record, gated: set<string>)
    requires Orderly(L, gated) && Allowed(L, r, gated)
    ensures Orderly(L + [r], gated)
  {
    hide Allowed;
    var M := L + [r];
    forall i | 0 <= i < |M| ensures AllowedAt(M, i, gated) {
      assert M[..i] == if i < |L| then L[..i] else L;
      assert i < |L| ==> AllowedAt(L, i, gated);
    }
  }

  lemma OrderPrefix(L: seq<Record>, k: nat, gated: set<string>)
    requires Orderly(L, gated) && k <= |L|
    ensures Orderly(L[..k], gated)
  {
    hide Allowed;
    forall i | 0 <= i < k ensures AllowedAt(L[..k], i, gated) {
      assert L[..k][..i] == L[..i];
      assert AllowedAt(L, i, gated);
    }
  }

  /******* The rules of graphs *******/

  /** The graph was recorded with distinct call ids, an unused id, and for calls no graph of its step holds. */
  ghost predicate GraphRule(P: seq<Record>, g: Graph) {
    DistinctIds(g) && !HasGraph(P, g.id) && MatchingGraph(P, g.step, Ids(g)).None?
  }

  ghost predicate CheckpointRule(P: seq<Record>, ck: Checkpoint) {
    exists g :: Recorded(P, g) && g.id == ck.graph && Rule(g, P, ck)
  }

  ghost predicate GraphsAt(L: seq<Record>, i: nat)
    requires i < |L|
  {
    && (L[i].GraphRecord? ==> GraphRule(L[..i], L[i].graph))
    && (L[i].NodeCheckpoint? ==> CheckpointRule(L[..i], L[i].checkpoint))
  }

  ghost predicate GraphsKept(L: seq<Record>) {
    forall i :: 0 <= i < |L| ==> GraphsAt(L, i)
  }

  ghost predicate SessionLawful(L: seq<Record>, gated: set<string>) {
    Orderly(L, gated) && GraphsKept(L)
  }

  lemma GraphsAppend(L: seq<Record>, r: Record)
    requires GraphsKept(L) && !r.GraphRecord? && !r.NodeCheckpoint?
    ensures GraphsKept(L + [r])
  {
    hide GraphRule, CheckpointRule;
    var M := L + [r];
    forall i | 0 <= i < |M| ensures GraphsAt(M, i) {
      assert i < |L| ==> M[..i] == L[..i] && GraphsAt(L, i);
    }
  }

  lemma GraphsPrefix(L: seq<Record>, M: seq<Record>)
    requires GraphsKept(M) && L <= M
    ensures GraphsKept(L)
  {
    hide GraphRule, CheckpointRule;
    forall i | 0 <= i < |L| ensures GraphsAt(L, i) {
      assert M[..i] == L[..i] && L[i] == M[i];
      assert GraphsAt(M, i);
    }
  }

  /** A graph id belongs to one graph, recorded once. */
  lemma GraphIdUnique(L: seq<Record>, i: nat, j: nat)
    requires GraphsKept(L) && i < |L| && j < |L|
    requires L[i].GraphRecord? && L[j].GraphRecord? && L[i].graph.id == L[j].graph.id
    ensures i == j
  {
    var k := if i < j then j else i;
    assert GraphsAt(L, k);
    assert forall m :: 0 <= m < k ==> L[m] in L[..k];
  }

  /** No two graphs of one step hold the same calls. */
  lemma OneGraphPerBatch(L: seq<Record>, i: nat, j: nat)
    requires GraphsKept(L) && i < |L| && j < |L| && L[i].GraphRecord? && L[j].GraphRecord?
    requires L[i].graph.step == L[j].graph.step && Ids(L[i].graph) == Ids(L[j].graph)
    ensures i == j
  {
    NotRecordedTwice(L, i, j);
    NotRecordedTwice(L, j, i);
  }

  lemma NotRecordedTwice(L: seq<Record>, i: nat, j: nat)
    requires GraphsKept(L) && i < |L| && j < |L| && L[i].GraphRecord? && L[j].GraphRecord?
    requires L[i].graph.step == L[j].graph.step && Ids(L[i].graph) == Ids(L[j].graph)
    ensures !(i < j)
  {
    hide Ids;
    assert GraphsAt(L, j);
    assert forall m :: 0 <= m < j ==> L[m] in L[..j];
  }

  /** In a lawful session every recorded graph is lawful on its own. */
  lemma GraphsLawful(L: seq<Record>, g: Graph)
    requires GraphsKept(L) && Recorded(L, g)
    ensures Lawful(g, L) && DistinctIds(g) && RecordedOnce(L, g)
  {
    hide Rule, Ids;
    var at :| 0 <= at < |L| && L[at] == GraphRecord(g);
    assert GraphsAt(L, at);
    forall i | 0 <= i < |L| && L[i].GraphRecord? && L[i].graph.id == g.id ensures i == at {
      GraphIdUnique(L, i, at);
    }
    forall i | 0 <= i < |L| && L[i].NodeCheckpoint? && L[i].checkpoint.graph == g.id
      ensures RuleAt(g, L, i) && AfterRecord(g, L, i)
    {
      assert GraphsAt(L, i);
      var h :| Recorded(L[..i], h) && h.id == g.id && Rule(h, L[..i], L[i].checkpoint);
      var k :| 0 <= k < |L[..i]| && L[..i][k] == GraphRecord(h);
      assert L[k] == GraphRecord(h);
    }
  }

  /******* Growth that ends no segment *******/

  /** From `L` to `M` no outcome and no tuning was recorded. */
  ghost predicate Extends(L: seq<Record>, M: seq<Record>) {
    L <= M && forall i :: |L| <= i < |M| ==> !M[i].OutcomeEntry? && !M[i].PolicyTuning?
  }

  lemma ExtendsOn(L: seq<Record>, M: seq<Record>, N: seq<Record>)
    requires Extends(L, M) && Extends(M, N)
    ensures Extends(L, N)
  {
    forall i | |L| <= i < |N| ensures !N[i].OutcomeEntry? && !N[i].PolicyTuning? {
      if i < |M| { assert N[i] == M[i]; }
    }
  }

  lemma {:induction false} ExtendsTunings(L: seq<Record>, M: seq<Record>)
    requires Extends(L, M)
    ensures Tunings(M) == Tunings(L)
    decreases |M|
  {
    if |M| == |L| {
      assert M == L;
    } else {
      var N, r := M[..|M| - 1], M[|M| - 1];
      assert M == N + [r];
      ExtendsTunings(L, N);
      TuningsAppend(N, r);
    }
  }

  lemma ExtendsGrows(L: seq<Record>, M: seq<Record>)
    requires Extends(L, M)
    ensures SinceOutcome(L) <= SinceOutcome(M) && CurrentStepCount(L) <= CurrentStepCount(M)
  {
    hide SinceOutcome, CurrentStepCount;
    SegmentGrows(L, M);
  }

  lemma {:induction false} ExtendsActive(L: seq<Record>, M: seq<Record>)
    requires Extends(L, M)
    ensures ActiveTrigger(L).Some? ==> ActiveTrigger(M) == ActiveTrigger(L)
    decreases |M|
  {
    if |M| == |L| {
      assert M == L;
    } else {
      var N, r := M[..|M| - 1], M[|M| - 1];
      assert M == N + [r];
      ExtendsActive(L, N);
      ActiveTriggerAppend(N, r);
    }
  }

  /** From `L` to `M` no trigger was recorded. */
  ghost predicate NoTriggers(L: seq<Record>, M: seq<Record>) {
    L <= M && forall i :: |L| <= i < |M| ==> !M[i].Trigger?
  }

  lemma NoTriggersOn(L: seq<Record>, M: seq<Record>, N: seq<Record>)
    requires NoTriggers(L, M) && NoTriggers(M, N)
    ensures NoTriggers(L, N)
  {
    forall i | |L| <= i < |N| ensures !N[i].Trigger? {
      if i < |M| { assert N[i] == M[i]; }
    }
  }

  lemma SourcedOn(P: seq<Record>, Q: seq<Record>, g: Graph, gated: set<string>)
    requires Sourced(P, g, gated) && P <= Q
    ensures Sourced(Q, g, gated)
  {
    if PlannedFreely(P, g, gated) {
      var calls :| ModelDecision(g.step, CallSkills(calls)) in P && Ungated(calls, gated) && g.nodes == NodesOf(calls);
      Listed(P, Q, ModelDecision(g.step, CallSkills(calls)));
    } else {
      var a :| Resolved(P, a, Approved) && g.step == a.step && g.nodes == NodesOf(a.calls);
      ResolvedLater(P, Q, a, Approved);
    }
  }

  lemma Listed(P: seq<Record>, Q: seq<Record>, r: Record)
    requires r in P && P <= Q
    ensures r in Q
  {
    var i :| 0 <= i < |P| && P[i] == r;
    assert Q[i] == r;
  }

  lemma ResolvedLater(P: seq<Record>, Q: seq<Record>, a: PendingApproval, d: Decision)
    requires Resolved(P, a, d) && P <= Q
    ensures Resolved(Q, a, d)
  {
    var j, k :| 0 <= j < k < |P| && P[j] == Pending(a) && P[k] == Resolution(a.token, d);
    assert Q[j] == Pending(a) && Q[k] == Resolution(a.token, d);
  }

  /******* Approvals over whole runs *******/

  /** The resume token was issued with one pending record only. */
  ghost predicate IssuedOnce(L: seq<Record>, token: string) {
    forall i, j :: 0 <= i < j < |L| ==>
      !(L[i].Pending? && L[i].approval.token == token && L[j].Pending? && L[j].approval.token == token)
  }

  lemma {:induction false} PendingBefore(L: seq<Record>, token: string) returns (p: nat)
    requires PendingByToken(L, token).Some?
    ensures p < |L| && L[p].Pending? && L[p].approval.token == token && Some(L[p].approval) == PendingByToken(L, token)
    ensures forall i :: p < i < |L| ==> !(L[i].Resolution? && L[i].token == token)
  {
    if L[|L| - 1].Pending? && L[|L| - 1].approval.token == token {
      p := |L| - 1;
    } else {
      p := PendingBefore(L[..|L| - 1], token);
    }
  }

  /** A token issued once is resolved at most once, however often its approval is delivered. */
  lemma ResolvedOnce(L: seq<Record>, gated: set<string>, token: string, i: nat, j: nat)
    requires Orderly(L, gated) && IssuedOnce(L, token) && i < |L| && j < |L|
    requires L[i].Resolution? && L[i].token == token && L[j].Resolution? && L[j].token == token
    ensures i == j
  {
    assert AllowedAt(L, i, gated) && AllowedAt(L, j, gated);
    var p := PendingBefore(L[..i], token);
    var q := PendingBefore(L[..j], token);
    assert L[p] == L[..i][p] && L[q] == L[..j][q];
    assert p == q;
  }

  predicate Carries(calls: seq<Call>, c: string) {
    exists call :: call in calls && call.callId == c
  }

  /** Outside the pending record `a` the call `c` was planned only together with a call that needs an approval. */
  ghost predicate OnlyPending(L: seq<Record>, gated: set<string>, a: PendingApproval, c: string) {
    && (forall b :: Pending(b) in L && Carries(b.calls, c) ==> b == a)
    && (forall s, calls :: ModelDecision(s, CallSkills(calls)) in L && Carries(calls, c) ==> !Ungated(calls, gated))
  }

  /** Where the calls of a batch came from: a free decision, or an approved pending record. */
  datatype Origin = FromDecision(step: nat, calls: seq<Call>) | FromApproval(approval: PendingApproval)

  lemma GraphOrigin(P: seq<Record>, g: Graph, gated: set<string>, n: Node) returns (o: Origin, call: Call)
    requires Sourced(P, g, gated) && n in g.nodes
    ensures o.FromDecision? ==> ModelDecision(o.step, CallSkills(o.calls)) in P && Ungated(o.calls, gated)
    ensures o.FromDecision? ==> call in o.calls
    ensures
      o.FromApproval? ==>
        && Resolved(P, o.approval, Approved) && g.step == o.approval.step && g.nodes == NodesOf(o.approval.calls)
        && call in o.approval.calls
    ensures call.callId == n.callId && call.name == n.skill
  {
    hide Resolved;
    var i :| 0 <= i < |g.nodes| && g.nodes[i] == n;
    if PlannedFreely(P, g, gated) {
      var calls :| ModelDecision(g.step, CallSkills(calls)) in P && Ungated(calls, gated) && g.nodes == NodesOf(calls);
      call, o := calls[i], FromDecision(g.step, calls);
    } else {
      var a :| Resolved(P, a, Approved) && g.step == a.step && g.nodes == NodesOf(a.calls);
      call, o := a.calls[i], FromApproval(a);
    }
  }

  /** The call a checkpoint belongs to was decided freely or approved. */
  lemma CheckpointOrigin(L: seq<Record>, gated: set<string>, i: nat) returns (o: Origin, call: Call)
    requires Orderly(L, gated) && i < |L| && L[i].NodeCheckpoint?
    ensures o.FromDecision? ==> ModelDecision(o.step, CallSkills(o.calls)) in L[..i] && Ungated(o.calls, gated)
    ensures o.FromDecision? ==> call in o.calls
    ensures o.FromApproval? ==> Resolved(L[..i], o.approval, Approved) && call in o.approval.calls
    ensures call.callId == L[i].checkpoint.callId && call.name == L[i].checkpoint.skill
  {
    hide Sourced, Ungated, Resolved;
    assert AllowedAt(L, i, gated);
    var ck := L[i].checkpoint;
    var g: Graph :| g.id == ck.graph && Sourced(L[..i], g, gated) && OfNode(g, ck);
    var n :| n in g.nodes && n.callId == ck.callId && n.skill == ck.skill;
    o, call := GraphOrigin(L[..i], g, gated, n);
  }

  /**
   A call of a skill that needs an approval starts only after an approved resolution of a pending record that
   contains it, on every path, resumed continuations included, whatever the provider names its calls.
   */
  lemma GatedNeedsApproval(L: seq<Record>, gated: set<string>, i: nat) returns (a: PendingApproval, call: Call)
    requires Orderly(L, gated) && i < |L| && L[i].NodeCheckpoint? && L[i].checkpoint.skill in gated
    ensures Resolved(L[..i], a, Approved)
    ensures call in a.calls && call.callId == L[i].checkpoint.callId && call.name == L[i].checkpoint.skill
  {
    hide Orderly, Resolved;
    var o;
    o, call := CheckpointOrigin(L, gated, i);
    assert call.name in gated;
    assert o.FromApproval?;
    a := o.approval;
  }

  /** After a rejection no pending call ever starts, or gets any other checkpoint, in any run. */
  lemma RejectedNeverStarts(L: seq<Record>, gated: set<string>, a: PendingApproval, c: string, r: nat, i: nat)
    requires Orderly(L, gated) && IssuedOnce(L, a.token) && OnlyPending(L, gated, a, c)
    requires r < |L| && L[r] == Resolution(a.token, Decision.Rejected) && i < |L|
    ensures !(L[i].NodeCheckpoint? && L[i].checkpoint.callId == c)
  {
    hide Orderly, IssuedOnce;
    if L[i].NodeCheckpoint? && L[i].checkpoint.callId == c {
      var s := PendingApproved(L, gated, a, c, i);
      ResolvedOnce(L, gated, a.token, r, s);
      assert false;
    }
  }

  /** A checkpoint of a call that is only pending comes after the approval of its pending record. */
  lemma PendingApproved(L: seq<Record>, gated: set<string>, a: PendingApproval, c: string, i: nat) returns (s: nat)
    requires Orderly(L, gated) && OnlyPending(L, gated, a, c)
    requires i < |L| && L[i].NodeCheckpoint? && L[i].checkpoint.callId == c
    ensures s < i && L[s] == Resolution(a.token, Approved)
  {
    hide Orderly;
    var o, call := CheckpointOrigin(L, gated, i);
    assert forall x :: x in L[..i] ==> x in L;
    assert o.FromDecision? ==> Carries(o.calls, c);
    assert o.FromApproval? ==> Carries(o.approval.calls, c) && Pending(o.approval) in L;
    assert o.FromApproval? && o.approval == a;
    var j, k :| 0 <= j < k < |L[..i]| && L[..i][j] == Pending(a) && L[..i][k] == Resolution(a.token, Approved);
    s := k;
  }

  /** The graph a checkpoint belongs to stands earlier in the ledger and obeyed its rule. */
  lemma GraphOfCheckpoint(L: seq<Record>, i: nat) returns (g: Graph, k: nat)
    requires GraphsKept(L) && i < |L| && L[i].NodeCheckpoint?
    ensures k < i && L[k] == GraphRecord(g) && GraphRule(L[..k], g)
    ensures g.id == L[i].checkpoint.graph && Rule(g, L[..i], L[i].checkpoint)
  {
    hide Rule, GraphRule;
    assert GraphsAt(L, i);
    g :| Recorded(L[..i], g) && g.id == L[i].checkpoint.graph && Rule(g, L[..i], L[i].checkpoint);
    k :| 0 <= k < |L[..i]| && L[..i][k] == GraphRecord(g);
    assert L[k] == GraphRecord(g);
    assert GraphsAt(L, k);
  }

  /** A checkpoint of a call that is only pending belongs to a graph made of an approval of that pending record. */
  lemma PendingGraph(L: seq<Record>, gated: set<string>, a: PendingApproval, c: string, i: nat)
    returns (g: Graph, k: nat)
    requires SessionLawful(L, gated) && OnlyPending(L, gated, a, c)
    requires i < |L| && L[i].NodeCheckpoint? && L[i].checkpoint.callId == c
    ensures k < i && L[k] == GraphRecord(g) && g.id == L[i].checkpoint.graph
    ensures g.step == a.step && g.nodes == NodesOf(a.calls)
  {
    hide Rule, GraphRule, Ids, NodeOf, Resolved, StepOf;
    g, k := GraphOfCheckpoint(L, i);
    RuleDeclares(g, L[..i], L[i].checkpoint);
    assert AllowedAt(L, k, gated);
    hide Orderly, GraphsKept, Sourced;
    var o, call := GraphOrigin(L[..k], g, gated, NodeOf(g, c));
    assert forall r :: r in L[..k] ==> r in L;
    ResolvedIsPending(L[..k]);
    assert o.FromApproval? ==> Carries(o.approval.calls, c) && Pending(o.approval) in L;
    assert o.FromDecision? ==> Carries(o.calls, c);
  }

  lemma ResolvedIsPending(P: seq<Record>)
    ensures forall a, d :: Resolved(P, a, d) ==> Pending(a) in P
  {
  }

  lemma RuleDeclares(g: Graph, P: seq<Record>, ck: Checkpoint)
    requires Rule(g, P, ck)
    ensures
      && ck.callId in Ids(g) && ck.skill == NodeOf(g, ck.callId).skill
      && NodeOf(g, ck.callId) in g.nodes && NodeOf(g, ck.callId).callId == ck.callId
  {
  }

  /** After an approval a pending call with a terminal checkpoint never starts again, however often it is delivered. */
  lemma ApprovedNeverRepeats(L: seq<Record>, gated: set<string>, a: PendingApproval, c: string, i: nat, j: nat)
    requires SessionLawful(L, gated) && OnlyPending(L, gated, a, c)
    requires i < j < |L| && L[i].NodeCheckpoint? && L[i].checkpoint.callId == c && L[i].checkpoint.status.Terminal()
    ensures !(L[j].NodeCheckpoint? && L[j].checkpoint.callId == c)
  {
    hide Orderly, GraphsKept, OnlyPending;
    if L[j].NodeCheckpoint? && L[j].checkpoint.callId == c {
      var g, k := PendingGraph(L, gated, a, c, i);
      var h, m := PendingGraph(L, gated, a, c, j);
      OneGraphPerBatch(L, k, m);
      assert Recorded(L, g);
      GraphsLawful(L, g);
      NothingAfterTerminal(g, L, i, j, c);
      assert false;
    }
  }

  /******* Segments and idempotency *******/

  /** Two outcomes never share an idempotency key. */
  lemma KeyUsedOnce(L: seq<Record>, gated: set<string>, i: nat, j: nat)
    requires Orderly(L, gated) && i < |L| && j < |L| && L[i].OutcomeEntry? && L[j].OutcomeEntry?
    requires L[i].outcome.key.Some? && L[i].outcome.key == L[j].outcome.key
    ensures i == j
  {
    var k, m := if i < j then j else i, if i < j then i else j;
    if m < k {
      var t := TriggerOfOutcome(L, gated, k);
      LastOutcomeBefore(L[..k], m);
      assert t > m;
      assert AllowedAt(L, t, gated);
      assert L[..t][m] == L[m];
      OutcomeByKeyWitness(L[..t], L[m].outcome.key.value);
    }
  }

  /** Where the trigger stands that an outcome closes: in the segment before it. */
  lemma TriggerOfOutcome(L: seq<Record>, gated: set<string>, k: nat) returns (t: nat)
    requires Orderly(L, gated) && k < |L| && L[k].OutcomeEntry?
    ensures k - |SinceOutcome(L[..k])| <= t < k
    ensures L[t].Trigger? && L[t].trigger.id == L[k].outcome.triggerId && L[t].trigger.key == L[k].outcome.key
  {
    hide SinceOutcome;
    var S := SinceOutcome(L[..k]);
    SegmentIsSuffix(L[..k]);
    assert AllowedAt(L, k, gated);
    var tr :| Trigger(tr) in S && tr.id == L[k].outcome.triggerId && tr.key == L[k].outcome.key;
    var i :| 0 <= i < |S| && S[i] == Trigger(tr);
    t := k - |S| + i;
    assert L[..k][t] == S[i];
  }

  lemma {:induction false} LastOutcomeBefore(P: seq<Record>, m: nat)
    requires m < |P| && P[m].OutcomeEntry?
    ensures |P| - |SinceOutcome(P)| > m
  {
    if !P[|P| - 1].OutcomeEntry? { LastOutcomeBefore(P[..|P| - 1], m); }
  }

  /** Each trigger arrived when no other was still waiting for its outcome. */
  ghost predicate Driven(L: seq<Record>) {
    forall i :: 0 <= i < |L| && L[i].Trigger? ==> ActiveTrigger(L[..i]).None?
  }

  lemma {:induction false} FirstTriggerNone(S: seq<Record>, i: nat)
    requires FirstTrigger(S).None? && i < |S|
    ensures !S[i].Trigger?
  {
    if i > 0 { FirstTriggerNone(S[1..], i - 1); }
  }

  /**
   When every trigger is driven to its outcome before the next arrives, the records between two consecutive outcomes
   hold exactly one trigger, and the outcome that closes them carries its id and its key.
   */
  lemma SegmentExact(L: seq<Record>, gated: set<string>, from: nat, k: nat) returns (t: nat)
    requires Orderly(L, gated) && Driven(L)
    requires from <= k < |L| && L[k].OutcomeEntry? && (from == 0 || L[from - 1].OutcomeEntry?)
    requires forall i :: from <= i < k ==> !L[i].OutcomeEntry?
    ensures from <= t < k && L[t].Trigger?
    ensures L[t].trigger.id == L[k].outcome.triggerId && L[t].trigger.key == L[k].outcome.key
    ensures forall i :: from <= i < k && L[i].Trigger? ==> i == t
  {
    hide Orderly, SinceOutcome, Driven;
    SegmentBetween(L[..k], from);
    t := TriggerOfOutcome(L, gated, k);
    forall i | from <= i < k && L[i].Trigger? ensures i == t {
      if i < t { OneTrigger(L, from, i, t); }
      if t < i { OneTrigger(L, from, t, i); }
    }
  }

  lemma OneTrigger(L: seq<Record>, from: nat, a: nat, b: nat)
    requires Driven(L) && from <= a < b < |L| && (from == 0 || L[from - 1].OutcomeEntry?)
    requires forall i :: from <= i < b ==> !L[i].OutcomeEntry?
    ensures !(L[a].Trigger? && L[b].Trigger?)
  {
    hide SinceOutcome;
    if L[b].Trigger? {
      SegmentBetween(L[..b], from);
      assert SinceOutcome(L[..b])[a - from] == L[a];
      FirstTriggerNone(SinceOutcome(L[..b]), a - from);
    }
  }

  /** With no outcome from `from` on, the current segment starts there or later exactly at the last outcome. */
  lemma {:induction false} SegmentBetween(P: seq<Record>, from: nat)
    requires from <= |P| && (from == 0 || P[from - 1].OutcomeEntry?)
    requires forall i :: from <= i < |P| ==> !P[i].OutcomeEntry?
    ensures SinceOutcome(P) == P[from..]
    decreases |P|
  {
    if |P| > from {
      SegmentBetween(P[..|P| - 1], from);
    }
  }

  /** The first decision recorded for a token issued once stays the decision, however the ledger grows. */
  lemma FirstDecisionGoverns(L: seq<Record>, M: seq<Record>, gated: set<string>, token: string, r: nat)
    requires Orderly(M, gated) && IssuedOnce(M, token) && L <= M
    requires r < |L| && L[r].Resolution? && L[r].token == token
    ensures FirstResolution(M, token) == Some(L[r].decision)
    ensures forall i :: 0 <= i < |M| && M[i].Resolution? && M[i].token == token ==> i == r
  {
    forall i | 0 <= i < |M| && M[i].Resolution? && M[i].token == token ensures i == r {
      ResolvedOnce(M, gated, token, i, r);
    }
    FirstResolutionAt(M, token, r);
  }

  lemma {:induction false} FirstResolutionAt(S: seq<Record>, token: string, r: nat)
    requires r < |S| && S[r].Resolution? && S[r].token == token
    requires forall i :: 0 <= i < r ==> !(S[i].Resolution? && S[i].token == token)
    ensures FirstResolution(S, token) == Some(S[r].decision)
  {
    if r > 0 {
      assert S[0] == S[0];
      FirstResolutionAt(S[1..], token, r - 1);
    }
  }

  /******* What execution does to a session *******/

  /** Executing a batch that was decided freely or approved keeps the session orderly, to the end or not. */
  lemma BatchKeepsOrder(L: seq<Record>, M: seq<Record>, gated: set<string>, g: Graph, known: bool)
    requires Orderly(L, gated) && Batch(g, known, L, M) && Sourced(L, g, gated)
    requires known || exists t :: StepOf(L, t, g)
    ensures Orderly(M, gated) && Extends(L, M) && NoTriggers(L, M)
  {
    hide Allowed, Sourced, StepOf, OfNode;
    forall i | 0 <= i < |M| ensures AllowedAt(M, i, gated) {
      if i < |L| {
        assert AllowedAt(L, i, gated);
        assert M[..i] == L[..i] && M[i] == L[i];
      } else {
        assert BatchRecord(g, M[i]);
        assert M[i].GraphRecord? ==> M[..i] == L;
        SourcedOn(L, M[..i], g, gated);
        BatchAllowed(M[..i], M[i], gated, g);
      }
    }
  }

  lemma BatchAllowed(P: seq<Record>, r: Record, gated: set<string>, g: Graph)
    requires BatchRecord(g, r) && Sourced(P, g, gated)
    requires r.GraphRecord? ==> exists t :: StepOf(P, t, g)
    ensures Allowed(P, r, gated)
  {
    hide Sourced, StepOf, OfNode;
    assert r.NodeCheckpoint? ==> CheckpointSourced(P, r.checkpoint, gated);
  }

  /** Executing a batch by the rules keeps the rules of graphs. */
  lemma TrailKeepsGraphs(L: seq<Record>, M: seq<Record>, g: Graph, env: SkillEnv)
    requires GraphsKept(L) && Trail(g, env, L, M) && Lawful(g, L)
    requires HasGraph(L, g.id) || GraphRule(L, g)
    ensures GraphsKept(M)
  {
    hide Rule, GraphRule, Conforms, OfNode, HasGraph, MatchingGraph, RuledFrom;
    TrailLawful(g, env, L, M);
    forall i | 0 <= i < |M| ensures GraphsAt(M, i) {
      if i < |L| {
        assert GraphsAt(L, i);
        assert M[..i] == L[..i] && M[i] == L[i];
      } else {
        assert BatchRecord(g, M[i]);
        assert M[i].GraphRecord? ==> M[..i] == L;
        if M[i].NodeCheckpoint? { LawfulCheckpoint(g, M, i); }
      }
    }
  }

  /** Each executed call of each recorded graph ended with its own outcome. */
  ghost predicate AllConform(env: SkillEnv, L: seq<Record>) {
    forall g :: Recorded(L, g) ==> Conforms(env, g, L, 0)
  }

  /** Executing a batch by the rules, every call ends with its own outcome. */
  lemma TrailConforms(L: seq<Record>, M: seq<Record>, g: Graph, env: SkillEnv)
    requires GraphsKept(L) && GraphsKept(M) && AllConform(env, L) && Trail(g, env, L, M) && Lawful(g, L)
    ensures AllConform(env, M)
  {
    hide GraphsKept, Lawful, Conforms, OfNode, HasGraph, RuledFrom;
    TrailLawful(g, env, L, M);
    forall h | Recorded(M, h) ensures Conforms(env, h, M, 0) {
      var i :| 0 <= i < |M| && M[i] == GraphRecord(h);
      if h.id == g.id {
        OnlyThis(g, M, i);
        if Recorded(L, g) { ConformsOn(g, env, L, M); } else { ConformsAnew(L, M, g, env); }
      } else {
        assert i >= |L| ==> BatchRecord(g, M[i]);
        assert Recorded(L, h);
        OthersConform(L, M, g, h, env);
      }
    }
  }

  lemma OnlyThis(g: Graph, M: seq<Record>, i: nat)
    requires Lawful(g, M) && i < |M| && M[i].GraphRecord? && M[i].graph.id == g.id
    ensures M[i].graph == g
  {
  }

  lemma ConformsAnew(L: seq<Record>, M: seq<Record>, g: Graph, env: SkillEnv)
    requires Lawful(g, L) && !Recorded(L, g) && L <= M && Conforms(env, g, M, |L|)
    ensures Conforms(env, g, M, 0)
  {
    hide Rule, OwnOutcomes;
    forall i | 0 <= i < |L| && L[i].NodeCheckpoint? ensures L[i].checkpoint.graph != g.id {
      assert AfterRecord(g, L, i);
      assert forall r :: r in L[..i] ==> r in L;
    }
  }

  lemma OthersConform(L: seq<Record>, M: seq<Record>, g: Graph, h: Graph, env: SkillEnv)
    requires Conforms(env, h, L, 0) && Batch(g, HasGraph(L, g.id), L, M) && h.id != g.id
    ensures Conforms(env, h, M, 0)
  {
    hide OwnOutcomes, OfNode, HasGraph;
    forall i | |L| <= i < |M| && M[i].NodeCheckpoint? ensures M[i].checkpoint.graph != h.id {
      assert BatchRecord(g, M[i]);
    }
  }

  /** In a session served by one host, a graph at rest holds the statuses its batch evaluates to. */
  lemma RestIsSettled(env: SkillEnv, L: seq<Record>, g: Graph)
    requires GraphsKept(L) && AllConform(env, L) && Recorded(L, g) && AtRest(g, L)
    ensures FinalMap(L, g) == Settled(g, env)
  {
    hide GraphsKept, Lawful, AtRest, Conforms, Settled;
    GraphsLawful(L, g);
    ScheduleIndependence(g, env, L);
  }

  lemma LawfulCheckpoint(g: Graph, L: seq<Record>, i: nat)
    requires Lawful(g, L) && i < |L| && L[i].NodeCheckpoint? && L[i].checkpoint.graph == g.id
    ensures CheckpointRule(L[..i], L[i].checkpoint)
  {
    hide Rule;
    assert RuleAt(g, L, i) && AfterRecord(g, L, i);
  }

  lemma NoCheckpoints(S: seq<Record>, id: GraphId, c: string)
    requires forall r :: r in S ==> !IsCheckpointOf(r, id, c)
    ensures StatusOf(S, id, c).None? && AttemptsOf(S, id, c) == 0
  {
    if S != [] {
      var P := S[..|S| - 1];
      forall r | r in P ensures !IsCheckpointOf(r, id, c) { assert r in S; }
      NoCheckpoints(P, id, c);
    }
  }

  /** A checkpoint in a lawful session belongs to a recorded graph. */
  lemma CheckpointHasGraph(L: seq<Record>, r: Record)
    requires GraphsKept(L) && r in L && r.NodeCheckpoint?
    ensures HasGraph(L, r.checkpoint.graph)
  {
    hide Rule, GraphRule;
    var i :| 0 <= i < |L| && L[i] == r;
    var g, k := GraphOfCheckpoint(L, i);
    assert L[k] in L && L[k].graph.id == r.checkpoint.graph;
  }

  /** A graph id nobody used has left no trace. */
  lemma UnusedId(L: seq<Record>, g: Graph)
    requires GraphsKept(L) && !HasGraph(L, g.id)
    ensures Lawful(g, L) && Blank(L, g.id)
    ensures forall r :: r in L ==> !(r.NodeCheckpoint? && r.checkpoint.graph == g.id)
  {
    hide GraphsKept;
    forall r | r in L && r.NodeCheckpoint? ensures r.checkpoint.graph != g.id {
      CheckpointHasGraph(L, r);
    }
    forall i | 0 <= i < |L|
      ensures L[i].GraphRecord? ==> L[i].graph.id != g.id
      ensures L[i].NodeCheckpoint? ==> L[i].checkpoint.graph != g.id
    {
      assert L[i] in L;
    }
    forall c { NoCheckpoints(L, g.id, c); }
  }

  /******* Steps and graph ids *******/

  /** No graph of this step was recorded since the last outcome. */
  ghost predicate StepUnused(P: seq<Record>, step: nat) {
    forall r :: r in SinceOutcome(P) && r.GraphRecord? ==> r.graph.step != step
  }

  /** Where a graph of the current segment got its step from. */
  lemma SegmentGraphStep(L: seq<Record>, gated: set<string>, g: Graph) returns (t: TriggerRecord)
    requires Orderly(L, gated) && GraphRecord(g) in SinceOutcome(L)
    ensures StepOf(L, t, g)
  {
    hide Sourced, SinceOutcome, CurrentStepCount, StepOf;
    SegmentIsSuffix(L);
    var S := SinceOutcome(L);
    var k :| 0 <= k < |S| && S[k] == GraphRecord(g);
    var i := |L| - |S| + k;
    assert L[i] == S[k];
    assert AllowedAt(L, i, gated);
    t :| StepOf(L[..i], t, g);
    SegmentOpen(L, i);
    StepOfOn(L[..i], L, t, g);
  }

  /** From a position inside the current segment on, no outcome was recorded. */
  lemma SegmentOpen(L: seq<Record>, i: nat)
    requires |L| - |SinceOutcome(L)| <= i <= |L|
    ensures forall j :: i <= j < |L| ==> !L[j].OutcomeEntry?
    decreases |L|
  {
    if i < |L| { SegmentOpen(L[..|L| - 1], i); }
  }

  /** While no outcome comes, segment and step count only grow. */
  lemma {:induction false} SegmentGrows(L: seq<Record>, M: seq<Record>)
    requires L <= M && forall j :: |L| <= j < |M| ==> !M[j].OutcomeEntry?
    ensures SinceOutcome(L) <= SinceOutcome(M) && CurrentStepCount(L) <= CurrentStepCount(M)
    decreases |M|
  {
    if |M| == |L| {
      assert M == L;
    } else {
      var N, r := M[..|M| - 1], M[|M| - 1];
      assert M == N + [r];
      SegmentGrows(L, N);
      SinceOutcomeAppend(N, r);
      StepCountAppend(N, r);
    }
  }

  lemma DecidedLater(S: seq<Record>, R: seq<Record>, g: Graph)
    requires DecidedIn(S, g) && S <= R
    ensures DecidedIn(R, g)
  {
    var calls :| ModelDecision(g.step, CallSkills(calls)) in S && g.nodes == NodesOf(calls);
    Listed(S, R, ModelDecision(g.step, CallSkills(calls)));
  }

  lemma StepOfOn(L: seq<Record>, M: seq<Record>, t: TriggerRecord, g: Graph)
    requires StepOf(L, t, g) && L <= M && forall j :: |L| <= j < |M| ==> !M[j].OutcomeEntry?
    ensures StepOf(M, t, g)
  {
    hide SinceOutcome, CurrentStepCount;
    SegmentGrows(L, M);
    Listed(SinceOutcome(L), SinceOutcome(M), Trigger(t));
    if ResumedGraph(L, t, g) {
      var a :| ResumedWith(L, t, g, a);
      Listed(L, M, Pending(a));
      if DecidedIn(SinceOutcome(L), g) { DecidedLater(SinceOutcome(L), SinceOutcome(M), g); }
      assert ResumedWith(M, t, g, a);
    }
  }

  /** No approval was delivered since the last outcome. */
  ghost predicate NoApproval(P: seq<Record>) {
    forall r :: r in SinceOutcome(P) && r.Trigger? ==> !r.trigger.kind.Approval?
  }

  /**
   The step a continuation is about to take was used since the last outcome only when an approval of this segment
   resumed this very step or the one before it.
   */
  lemma StepUsedOnlyByResume(L: seq<Record>, gated: set<string>) returns (t: TriggerRecord)
    requires Orderly(L, gated) && !StepUnused(L, CurrentStepCount(L))
    ensures Trigger(t) in SinceOutcome(L) && ResumedStep(L, t, CurrentStepCount(L))
  {
    hide Orderly, SinceOutcome, CurrentStepCount;
    var r :| r in SinceOutcome(L) && r.GraphRecord? && r.graph.step == CurrentStepCount(L);
    t := SegmentGraphStep(L, gated, r.graph);
    var a :| ResumedWith(L, t, r.graph, a);
    assert Answering(L, t, a);
  }

  /** In a segment without an approval the next step is always unused. */
  lemma NextStepUnused(L: seq<Record>, gated: set<string>)
    requires Orderly(L, gated) && NoApproval(L)
    ensures StepUnused(L, CurrentStepCount(L))
  {
    hide Orderly, SinceOutcome, CurrentStepCount, StepUnused;
    if !StepUnused(L, CurrentStepCount(L)) {
      var t := StepUsedOnlyByResume(L, gated);
      assert false;
    }
  }

  /******* Batches that keep apart *******/

  /** A decision's calls, and a pending record's, have distinct ids, and a decision's step was not used before. */
  ghost predicate CleanAt(L: seq<Record>, i: nat)
    requires i < |L|
  {
    && (L[i].ModelDecision? && L[i].action.CallSkills? ==>
          DistinctCalls(L[i].action.calls) && StepUnused(L[..i], L[i].step))
    && (L[i].Pending? ==> DistinctCalls(L[i].approval.calls))
  }

  ghost predicate Clean(L: seq<Record>) {
    forall i :: 0 <= i < |L| ==> CleanAt(L, i)
  }

  lemma CleanPrefix(L: seq<Record>, M: seq<Record>)
    requires Clean(M) && L <= M
    ensures Clean(L)
  {
    hide StepUnused, DistinctCalls;
    forall i | 0 <= i < |L| ensures CleanAt(L, i) {
      assert CleanAt(M, i);
      assert M[..i] == L[..i];
    }
  }

  /** Every batch names its calls apart. */
  ghost predicate DistinctBatches(L: seq<Record>) {
    forall r :: r in L ==>
      && (r.ModelDecision? && r.action.CallSkills? ==> DistinctCalls(r.action.calls))
      && (r.Pending? ==> DistinctCalls(r.approval.calls))
  }

  /** In a session without approvals the steps take care of themselves: distinct call ids per batch are enough. */
  lemma CleanWithoutApprovals(L: seq<Record>, gated: set<string>)
    requires Orderly(L, gated) && DistinctBatches(L)
    requires forall r :: r in L && r.Trigger? ==> !r.trigger.kind.Approval?
    ensures Clean(L)
  {
    hide StepUnused, DistinctCalls, SinceOutcome, CurrentStepCount, Sourced;
    forall i | 0 <= i < |L| ensures CleanAt(L, i) {
      assert L[i] in L;
      assert AllowedAt(L, i, gated);
      OrderPrefix(L, i, gated);
      SegmentIsSuffix(L[..i]);
      assert forall r :: r in SinceOutcome(L[..i]) ==> r in L[..i];
      assert forall r :: r in L[..i] ==> r in L;
      NextStepUnused(L[..i], gated);
      assert L[i].ModelDecision? ==> DecisionRule(L[..i], L[i].step);
    }
  }
}
