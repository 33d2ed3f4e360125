/**
 The scheduler that executes one batch of dependent skill calls in waves, writing a checkpoint for every change.
 Every append can fail or be the last thing the process does; all a later call has is the ledger.
 */
module Scheduler {
  import opened Options
  import opened Ledger
  import opened Evaluation
  import opened ToolGraphs
  import opened Batches

  /******* Rebuilding the volatile state *******/

  function TerminalPart(m: map<string, Status>): map<string, Status> {
    map c | c in m && m[c].Terminal() :: m[c]
  }

  function CountOf(attempts: map<string, nat>, c: string): nat {
    if c in attempts then attempts[c] else 0
  }

  method LatestToolStatuses(context: seq<Record>, id: GraphId) returns (statuses: map<string, Status>)
    ensures forall c :: StatusOf(context, id, c) == if c in statuses then Some(statuses[c]) else None
  {
    statuses := map[];
    for i := 0 to |context|
      invariant forall c :: StatusOf(context[..i], id, c) == if c in statuses then Some(statuses[c]) else None
    {
      assert context[..i + 1] == context[..i] + [context[i]];
      forall c { StatusOfAppend(context[..i], context[i], id, c); }
      if context[i].NodeCheckpoint? && context[i].checkpoint.graph == id {
        statuses := statuses[context[i].checkpoint.callId := context[i].checkpoint.status];
      }
    }
    assert context[..|context|] == context;
  }

  method StartedAttemptCounts(context: seq<Record>, id: GraphId) returns (attempts: map<string, nat>)
    ensures forall c :: AttemptsOf(context, id, c) == CountOf(attempts, c)
  {
    attempts := map[];
    for i := 0 to |context|
      invariant forall c :: AttemptsOf(context[..i], id, c) == CountOf(attempts, c)
    {
      assert context[..i + 1] == context[..i] + [context[i]];
      forall c { StatusOfAppend(context[..i], context[i], id, c); }
      if context[i].NodeCheckpoint? && context[i].checkpoint.graph == id && context[i].checkpoint.status.Started? {
        var ck := context[i].checkpoint;
        var current := CountOf(attempts, ck.callId);
        attempts := attempts[ck.callId := if current > ck.attempt then current else ck.attempt];
      }
    }
    assert context[..|context|] == context;
  }

  /******* Ready nodes *******/

  predicate IsReady(status: map<string, Status>, n: Node) {
    !(n.callId in status && status[n.callId].Terminal()) && AllSucceeded(status, n.deps)
  }

  predicate IdAtMost(a: string, b: string) {
    a == [] || (b != [] && (a[0] < b[0] || (a[0] == b[0] && IdAtMost(a[1..], b[1..]))))
  }

  /** Higher priority first, then the provider's order, then the call id. */
  predicate Precedes(a: Node, b: Node) {
    || a.priority > b.priority
    || (a.priority == b.priority && (a.order < b.order || (a.order == b.order && IdAtMost(a.callId, b.callId))))
  }

  function Filtered(nodes: seq<Node>, status: map<string, Status>): (ready: seq<Node>)
    ensures forall n :: n in ready <==> n in nodes && IsReady(status, n)
  {
    if nodes == [] then []
    else (if IsReady(status, nodes[0]) then [nodes[0]] else []) + Filtered(nodes[1..], status)
  }

  function Insert(n: Node, sorted: seq<Node>): (out: seq<Node>)
    ensures multiset(out) == multiset(sorted) + multiset{n}
  {
    if sorted == [] then [n]
    else if Precedes(n, sorted[0]) then [n] + sorted
    else
      assert sorted == [sorted[0]] + sorted[1..];
      [sorted[0]] + Insert(n, sorted[1..])
  }

  function Sorted(nodes: seq<Node>): (out: seq<Node>)
    ensures multiset(out) == multiset(nodes)
  {
    if nodes == [] then []
    else
      assert nodes == [nodes[0]] + nodes[1..];
      Insert(nodes[0], Sorted(nodes[1..]))
  }

  function ReadyNodes(g: Graph, status: map<string, Status>): seq<Node> {
    Sorted(Filtered(g.nodes, status))
  }

  lemma ReadyNodesExact(g: Graph, status: map<string, Status>, n: Node)
    ensures n in ReadyNodes(g, status) <==> n in g.nodes && IsReady(status, n)
  {
    var f := Filtered(g.nodes, status);
    assert n in Sorted(f) <==> n in multiset(Sorted(f));
    assert n in f <==> n in multiset(f);
  }

  lemma {:induction false} IdOrderTotal(a: string, b: string)
    ensures IdAtMost(a, b) || IdAtMost(b, a)
  {
    if a != [] && b != [] { IdOrderTotal(a[1..], b[1..]); }
  }

  lemma {:induction false} IdOrderTransitive(a: string, b: string, c: string)
    requires IdAtMost(a, b) && IdAtMost(b, c)
    ensures IdAtMost(a, c)
  {
    if a != [] && b != [] && c != [] && a[0] == b[0] == c[0] { IdOrderTransitive(a[1..], b[1..], c[1..]); }
  }

  /** The ids agree up to `k`, and there `a` ends or has the smaller character. */
  ghost predicate SmallerAt(a: string, b: string, k: nat) {
    && k <= |a| && k <= |b| && (forall i :: 0 <= i < k ==> a[i] == b[i])
    && (k == |a| || (k < |b| && a[k] < b[k]))
  }

  /** The ids are compared lexicographically. */
  lemma IdOrderMeans(a: string, b: string)
    ensures IdAtMost(a, b) <==> exists k: nat :: SmallerAt(a, b, k)
  {
    hide IdAtMost, SmallerAt;
    if IdAtMost(a, b) { var k := FirstSmaller(a, b); }
    if k: nat :| SmallerAt(a, b, k) { SmallerIsAtMost(a, b, k); }
  }

  lemma {:induction false} FirstSmaller(a: string, b: string) returns (k: nat)
    requires IdAtMost(a, b)
    ensures SmallerAt(a, b, k)
  {
    k := 0;
    if a != [] && a[0] == b[0] {
      var j := FirstSmaller(a[1..], b[1..]);
      k := j + 1;
      forall i | 0 <= i < k ensures a[i] == b[i] {
        if i > 0 { assert a[1..][i - 1] == b[1..][i - 1]; }
      }
    }
  }

  lemma {:induction false} SmallerIsAtMost(a: string, b: string, k: nat)
    requires SmallerAt(a, b, k)
    ensures IdAtMost(a, b)
  {
    if k > 0 {
      assert forall i :: 0 <= i < k - 1 ==> a[1..][i] == a[i + 1] && b[1..][i] == b[i + 1];
      SmallerIsAtMost(a[1..], b[1..], k - 1);
    }
  }

  lemma PrecedesTransitive(a: Node, b: Node, c: Node)
    requires Precedes(a, b) && Precedes(b, c)
    ensures Precedes(a, c)
  {
    if a.order == b.order == c.order && a.priority == b.priority == c.priority {
      IdOrderTransitive(a.callId, b.callId, c.callId);
    }
  }

  ghost predicate InOrder(nodes: seq<Node>) {
    forall i, j :: 0 <= i < j < |nodes| ==> Precedes(nodes[i], nodes[j])
  }

  lemma {:induction false} InsertInOrder(n: Node, sorted: seq<Node>)
    requires InOrder(sorted)
    ensures InOrder(Insert(n, sorted))
  {
    if sorted != [] {
      var head, rest := sorted[0], sorted[1..];
      if Precedes(n, head) {
        forall j | 0 <= j < |sorted| ensures Precedes(n, sorted[j]) {
          if j > 0 { PrecedesTransitive(n, head, sorted[j]); }
        }
      } else {
        IdOrderTotal(n.callId, head.callId);
        InsertInOrder(n, rest);
        forall m | m in Insert(n, rest) ensures Precedes(head, m) {
          assert m in multiset(Insert(n, rest));
          assert m == n || m in multiset(rest);
        }
      }
    }
  }

  /** A wave takes the ready nodes of highest priority: whatever it leaves out comes after everything it takes. */
  lemma SortedInOrder(nodes: seq<Node>)
    ensures multiset(Sorted(nodes)) == multiset(nodes)
    ensures
      var out := Sorted(nodes);
      forall i, j :: 0 <= i < j < |out| ==>
        && out[i].priority >= out[j].priority
        && (out[i].priority == out[j].priority ==> out[i].order <= out[j].order)
        && (out[i].priority == out[j].priority && out[i].order == out[j].order ==>
              IdAtMost(out[i].callId, out[j].callId))
  {
    hide Sorted, IdAtMost;
    SortedIsInOrder(nodes);
  }

  lemma {:induction false} SortedIsInOrder(nodes: seq<Node>)
    ensures InOrder(Sorted(nodes))
  {
    if nodes != [] {
      SortedIsInOrder(nodes[1..]);
      InsertInOrder(nodes[0], Sorted(nodes[1..]));
    }
  }

  /******* What one execution call may do to the ledger *******/

  /** The checkpoint names a node of the graph and its skill. */
  ghost predicate OfNode(g: Graph, ck: Checkpoint) {
    exists n :: n in g.nodes && n.callId == ck.callId && n.skill == ck.skill
  }

  ghost predicate BatchRecord(g: Graph, r: Record) {
    || r == GraphRecord(g)
    || (r.NodeCheckpoint? && r.checkpoint.graph == g.id && OfNode(g, r.checkpoint))
    || r.InputValidation?
    || r.ToolCalled?
  }

  /**
   From `L0` to `L` only records of this batch were appended; its graph was recorded, first of all, only if the id was
   not `known` to be in use.
   */
  ghost predicate Batch(g: Graph, known: bool, L0: seq<Record>, L: seq<Record>) {
    && L0 <= L
    && (forall i :: |L0| <= i < |L| ==> BatchRecord(g, L[i]))
    && (forall i :: |L0| <= i < |L| && L[i].GraphRecord? ==> i == |L0| && !known)
  }

  /** The batch kept to the rules: each checkpoint was allowed, each executed node has its own outcome. */
  ghost predicate Trail(g: Graph, env: SkillEnv, L0: seq<Record>, L: seq<Record>) {
    && Batch(g, HasGraph(L0, g.id), L0, L)
    && RuledFrom(g, L, |L0|)
    && Conforms(env, g, L, |L0|)
    && (HasGraph(L0, g.id) || L == L0 || L[|L0|] == GraphRecord(g))
  }

  lemma BatchAppend(g: Graph, known: bool, L0: seq<Record>, L: seq<Record>, r: Record)
    requires Batch(g, known, L0, L) && BatchRecord(g, r)
    requires r.GraphRecord? ==> L == L0 && !known
    ensures Batch(g, known, L0, L + [r])
  {
    hide BatchRecord;
  }

  lemma TrailAppend(g: Graph, env: SkillEnv, L0: seq<Record>, L: seq<Record>, r: Record)
    requires Trail(g, env, L0, L)
    requires BatchRecord(g, r)
    requires if r.GraphRecord? then L == L0 && !HasGraph(L0, g.id) else HasGraph(L, g.id)
    requires r.NodeCheckpoint? ==> Rule(g, L, r.checkpoint)
    requires
      r.NodeCheckpoint? && r.checkpoint.status.Terminal() && !r.checkpoint.status.Skipped? ==>
        r.checkpoint.status == OwnOutcomes(g, env)(r.checkpoint.callId)
    ensures Trail(g, env, L0, L + [r])
  {
    hide Rule, OwnOutcomes;
    BatchAppend(g, HasGraph(L0, g.id), L0, L, r);
    RuledAppend(g, L, |L0|, r);
  }

  /** A lawful graph stays lawful through an execution call. */
  lemma TrailLawful(g: Graph, env: SkillEnv, L0: seq<Record>, L: seq<Record>)
    requires Lawful(g, L0) && Trail(g, env, L0, L)
    ensures Lawful(g, L)
  {
    hide Rule, Conforms;
    forall i | 0 <= i < |L| && L[i].NodeCheckpoint? && L[i].checkpoint.graph == g.id ensures RuleAt(g, L, i) {
      if i < |L0| {
        assert RuleAt(g, L0, i);
        assert L[..i] == L0[..i];
      }
    }
    forall i | 0 <= i < |L| ensures AfterRecord(g, L, i) {
      if i < |L0| {
        assert AfterRecord(g, L0, i);
        assert L[..i] == L0[..i];
      } else if L[i].NodeCheckpoint? {
        RecordedBy(g, L0, L, i);
      }
    }
  }

  /** Once a lawful graph has records of its own, it is recorded. */
  lemma RecordedBy(g: Graph, L0: seq<Record>, L: seq<Record>, i: nat)
    requires forall j :: 0 <= j < |L0| && L0[j].GraphRecord? && L0[j].graph.id == g.id ==> L0[j].graph == g
    requires L0 <= L && |L0| <= i < |L| && L[i].NodeCheckpoint?
    requires HasGraph(L0, g.id) || L == L0 || L[|L0|] == GraphRecord(g)
    ensures Recorded(L[..i], g)
  {
    if HasGraph(L0, g.id) {
      var r :| r in L0 && r.GraphRecord? && r.graph.id == g.id;
      var j :| 0 <= j < |L0| && L0[j] == r;
      assert L[..i][j] == GraphRecord(g);
    } else {
      assert L[..i][|L0|] == GraphRecord(g);
    }
  }

  /** From `L` to `M` checkpoints were written for the call `c` only. */
  ghost predicate Touches(L: seq<Record>, M: seq<Record>, c: string) {
    L <= M && forall i :: |L| <= i < |M| && M[i].NodeCheckpoint? ==> M[i].checkpoint.callId == c
  }

  lemma TouchesOn(L: seq<Record>, M: seq<Record>, N: seq<Record>, c: string)
    requires Touches(L, M, c) && Touches(M, N, c)
    ensures Touches(L, N, c)
  {
    forall i | |L| <= i < |N| && N[i].NodeCheckpoint? ensures N[i].checkpoint.callId == c {
      if i < |M| { assert N[i] == M[i]; }
    }
  }

  /** From `L` to `M` no call was started. */
  ghost predicate StartsNothing(L: seq<Record>, M: seq<Record>) {
    L <= M && forall i :: |L| <= i < |M| && M[i].NodeCheckpoint? ==> !M[i].checkpoint.status.Started?
  }

  lemma StartsNothingOn(L: seq<Record>, M: seq<Record>, N: seq<Record>)
    ensures StartsNothing(L, L)
    ensures StartsNothing(L, M) && StartsNothing(M, N) ==> StartsNothing(L, N)
  {
    assert forall i :: |L| <= i < |M| && M <= N ==> N[i] == M[i];
  }

  /******* Waves *******/

  /** The first `size` ready nodes, by priority, when the ledger reads `L`. */
  function WaveAt(g: Graph, L: seq<Record>, size: nat): seq<Node> {
    var ready := ReadyNodes(g, FinalMap(L, g));
    ready[..Min(|ready|, size)]
  }

  ghost predicate OfWave(wave: seq<Node>, c: string) {
    exists n :: n in wave && n.callId == c
  }

  /** Since the ledger had length `j` checkpoints were written for the calls of the wave only. */
  ghost predicate WaveOnly(wave: seq<Node>, L: seq<Record>, j: nat) {
    j <= |L| && forall k :: j <= k < |L| && L[k].NodeCheckpoint? ==> OfWave(wave, L[k].checkpoint.callId)
  }

  ghost predicate StartedInWave(g: Graph, size: nat, L: seq<Record>, i: nat, j: nat)
    requires i < |L|
  {
    j <= i && WaveOnly(WaveAt(g, L[..j], size), L[..i + 1], j)
  }

  /** Every call started since `L0` was, when it started, one of the wave then under way. */
  ghost predicate InWaves(g: Graph, size: nat, L0: seq<Record>, L: seq<Record>) {
    && L0 <= L
    && forall i :: |L0| <= i < |L| && L[i].NodeCheckpoint? && L[i].checkpoint.status.Started? ==>
         exists j :: |L0| <= j && StartedInWave(g, size, L, i, j)
  }

  lemma InWavesQuiet(g: Graph, size: nat, L0: seq<Record>, L: seq<Record>, M: seq<Record>)
    requires InWaves(g, size, L0, L) && StartsNothing(L, M)
    ensures InWaves(g, size, L0, M)
  {
    hide WaveAt, WaveOnly;
    forall i | |L0| <= i < |M| && M[i].NodeCheckpoint? && M[i].checkpoint.status.Started?
      ensures exists j :: |L0| <= j && StartedInWave(g, size, M, i, j)
    {
      assert M[..i + 1] == L[..i + 1];
      var j :| |L0| <= j && StartedInWave(g, size, L, i, j);
      assert M[..j] == L[..j];
      assert StartedInWave(g, size, M, i, j);
    }
  }

  /** A wave keeps every start inside it. */
  lemma InWavesWave(g: Graph, size: nat, L0: seq<Record>, L: seq<Record>, M: seq<Record>)
    requires InWaves(g, size, L0, L) && L <= M && WaveOnly(WaveAt(g, L, size), M, |L|)
    ensures InWaves(g, size, L0, M)
  {
    hide WaveAt, WaveOnly;
    forall i | |L0| <= i < |M| && M[i].NodeCheckpoint? && M[i].checkpoint.status.Started?
      ensures exists j :: |L0| <= j && StartedInWave(g, size, M, i, j)
    {
      if i < |L| {
        assert M[..i + 1] == L[..i + 1];
        var j :| |L0| <= j && StartedInWave(g, size, L, i, j);
        assert M[..j] == L[..j];
        assert StartedInWave(g, size, M, i, j);
      } else {
        assert M[..|L|] == L;
        WaveOnlyPrefix(WaveAt(g, L, size), M, |L|, i + 1);
        assert StartedInWave(g, size, M, i, |L|);
      }
    }
  }

  lemma WaveOnlyPrefix(wave: seq<Node>, M: seq<Record>, j: nat, k: nat)
    requires WaveOnly(wave, M, j) && j <= k <= |M|
    ensures WaveOnly(wave, M[..k], j)
  {
  }

  lemma WaveOnlyTouch(wave: seq<Node>, L: seq<Record>, M: seq<Record>, j: nat, n: Node)
    requires WaveOnly(wave, L, j) && n in wave && Touches(L, M, n.callId)
    ensures WaveOnly(wave, M, j)
  {
    assert OfWave(wave, n.callId);
    forall k | j <= k < |M| && M[k].NodeCheckpoint? ensures OfWave(wave, M[k].checkpoint.callId) {
      if k < |L| { assert M[k] == L[k]; }
    }
  }

  /******* Executions in flight *******/

  /** The calls started at or after position `from`. */
  function StartedSince(L: seq<Record>, id: GraphId, from: nat): set<string> {
    if |L| <= from then {}
    else
      var last := L[|L| - 1];
      StartedSince(L[..|L| - 1], id, from)
      + if last.NodeCheckpoint? && last.checkpoint.graph == id && last.checkpoint.status.Started?
        then {last.checkpoint.callId} else {}
  }

  /** The calls this execution call started that have no terminal checkpoint yet. */
  function Flying(g: Graph, from: nat, L: seq<Record>): set<string> {
    StartedSince(L, g.id, from) - FinalMap(L, g).Keys
  }

  /** At no point of the execution call were more than `size` of its calls in flight. */
  ghost predicate WithinCap(g: Graph, from: nat, size: nat, L: seq<Record>) {
    forall i :: from <= i <= |L| ==> |Flying(g, from, L[..i])| <= size
  }

  predicate Starts(r: Record) {
    r.NodeCheckpoint? && r.checkpoint.status.Started?
  }

  /** Only a start takes off, and only for its own call, unless a settled call is reopened. */
  lemma FlyingAppend(g: Graph, from: nat, L: seq<Record>, r: Record, c: string)
    requires c in Flying(g, from, L + [r])
    ensures c in Flying(g, from, L) || IsCheckpointOf(r, g.id, c)
    ensures c in Flying(g, from, L) || Starts(r) || Final(L, g.id, c).Some?
  {
    assert |L| + 1 > from ==> (L + [r])[..|L|] == L;
    StatusOfAppend(L, r, g.id, c);
  }

  /** While checkpoints are written for the wave only, at most its calls are in flight. */
  lemma {:induction false} FlyingInWave(g: Graph, from: nat, wave: seq<Node>, L: seq<Record>, M: seq<Record>)
    requires L <= M && Flying(g, from, L) <= IdsOf(wave) && WaveOnly(wave, M, |L|)
    ensures Flying(g, from, M) <= IdsOf(wave)
    decreases |M|
  {
    hide Flying, OfWave, WaveOnly;
    if |L| == |M| {
      assert L == M;
    } else {
      var P, r := M[..|M| - 1], M[|M| - 1];
      assert M == P + [r];
      WaveOnlyPrefix(wave, M, |L|, |P|);
      FlyingInWave(g, from, wave, L, P);
      if r.NodeCheckpoint? { OfWaveAt(wave, M, |L|, |P|); }
      forall c | c in Flying(g, from, M) ensures c in IdsOf(wave) {
        FlyingAppend(g, from, P, r, c);
      }
    }
  }

  lemma OfWaveAt(wave: seq<Node>, M: seq<Record>, j: nat, k: nat)
    requires WaveOnly(wave, M, j) && j <= k < |M| && M[k].NodeCheckpoint?
    ensures M[k].checkpoint.callId in IdsOf(wave)
  {
    var n :| n in wave && n.callId == M[k].checkpoint.callId;
    IdListed(wave, n);
  }

  lemma {:induction false} IdListed(nodes: seq<Node>, n: Node)
    requires n in nodes
    ensures n.callId in IdsOf(nodes)
  {
    if n != nodes[0] { IdListed(nodes[1..], n); }
  }

  lemma {:induction false} IdsCount(nodes: seq<Node>)
    ensures |IdsOf(nodes)| <= |nodes|
  {
    if nodes != [] { IdsCount(nodes[1..]); }
  }

  lemma CapInWave(g: Graph, from: nat, size: nat, wave: seq<Node>, L: seq<Record>, M: seq<Record>)
    requires from <= |L| && L <= M && WithinCap(g, from, size, L) && |wave| <= size
    requires Flying(g, from, L) <= IdsOf(wave) && WaveOnly(wave, M, |L|)
    ensures WithinCap(g, from, size, M)
  {
    hide Flying, WaveOnly;
    forall i | from <= i <= |M| ensures |Flying(g, from, M[..i])| <= size {
      if i <= |L| {
        assert M[..i] == L[..i];
      } else {
        WaveOnlyPrefix(wave, M, |L|, i);
        FlyingInWave(g, from, wave, L, M[..i]);
        SubsetSize(Flying(g, from, M[..i]), IdsOf(wave));
        IdsCount(wave);
      }
    }
  }

  /** Where nothing starts and the rules are kept, nothing takes off. */
  lemma {:induction false} GroundedOn(g: Graph, from: nat, L: seq<Record>, M: seq<Record>)
    requires from <= |L| && StartsNothing(L, M) && RuledFrom(g, M, from)
    requires Flying(g, from, L) == {}
    ensures Flying(g, from, M) == {}
    decreases |M|
  {
    hide Flying, Rule;
    if |L| == |M| {
      assert L == M;
    } else {
      var P, r := M[..|M| - 1], M[|M| - 1];
      assert M == P + [r];
      RuledPrefix(g, M, from, |P|);
      GroundedOn(g, from, L, P);
      OpenAt(g, M, from, |P|);
      forall c | c in Flying(g, from, M) ensures c in Flying(g, from, P) {
        FlyingAppend(g, from, P, r, c);
      }
    }
  }

  lemma RuledPrefix(g: Graph, L: seq<Record>, from: nat, k: nat)
    requires RuledFrom(g, L, from) && k <= |L|
    ensures RuledFrom(g, L[..k], from)
  {
    hide Rule;
    forall i | from <= i < k && L[..k][i].NodeCheckpoint? && L[..k][i].checkpoint.graph == g.id
      ensures RuleAt(g, L[..k], i)
    {
      assert RuleAt(g, L, i);
      assert L[..k][..i] == L[..i];
    }
  }

  lemma CapGrounded(g: Graph, from: nat, size: nat, L: seq<Record>, M: seq<Record>)
    requires from <= |L| && WithinCap(g, from, size, L) && StartsNothing(L, M) && RuledFrom(g, M, from)
    requires Flying(g, from, L) == {}
    ensures WithinCap(g, from, size, M) && Flying(g, from, M) == {}
  {
    hide Flying, RuledFrom;
    forall i | from <= i <= |M| ensures |Flying(g, from, M[..i])| <= size {
      if i <= |L| {
        assert M[..i] == L[..i];
      } else {
        RuledPrefix(g, M, from, i);
        GroundedOn(g, from, L, M[..i]);
      }
    }
    GroundedOn(g, from, L, M);
  }

  lemma CapBegins(g: Graph, size: nat, L: seq<Record>)
    ensures Flying(g, |L|, L) == {} && WithinCap(g, |L|, size, L)
  {
  }

  /******* The state of one execution call *******/

  /**
   One execution call: its graph, the ledger it found, whether its context showed the graph id in use, and whether it
   is `sound`: distinct call ids, and a context that shows the graph as the ledger does.
   */
  datatype Work = Work(g: Graph, env: SkillEnv, found: seq<Record>, known: bool, sound: bool)

  /** What holds at every point of the call, also where it is cut short. */
  ghost predicate Kept(w: Work, L: seq<Record>) {
    && Batch(w.g, w.known, w.found, L)
    && (w.sound ==> w.known == HasGraph(w.found, w.g.id) && Trail(w.g, w.env, w.found, L))
  }

  ghost predicate Counted(g: Graph, L: seq<Record>, attempts: map<string, nat>) {
    forall c :: CountOf(attempts, c) == AttemptsOf(L, g.id, c)
  }

  /** The volatile maps agree with the ledger on everything the scheduler reads from them. */
  ghost predicate InSync(g: Graph, L: seq<Record>, status: map<string, Status>, attempts: map<string, nat>) {
    TerminalPart(status) == FinalMap(L, g) && Counted(g, L, attempts)
  }

  /** The result reported for a node that ended with status `s`. */
  function ResultFor(env: SkillEnv, n: Node, s: Status): ToolResult {
    ToolResult(n.callId, n.skill, if s.Skipped? then Err(Internal) else EffectiveOutput(env, n))
  }

  /** `results` holds, in some order, the result of every call settled since `m0` and of no other. */
  ghost predicate Reports(
      g: Graph, env: SkillEnv, m0: map<string, Status>, m: map<string, Status>, results: seq<ToolResult>) {
    && (forall r :: r in results ==>
          && r.callId in m && r.callId !in m0 && r.callId in Ids(g)
          && r == ResultFor(env, NodeOf(g, r.callId), m[r.callId]))
    && (forall c :: c in m && c !in m0 ==> exists r :: r in results && r.callId == c)
  }

  /** What a sound call keeps true between two steps. */
  ghost predicate Tracked(
      w: Work, L: seq<Record>, status: map<string, Status>, attempts: map<string, nat>, results: seq<ToolResult>) {
    && DistinctIds(w.g) && HasGraph(L, w.g.id)
    && InSync(w.g, L, status, attempts)
    && Reports(w.g, w.env, FinalMap(w.found, w.g), FinalMap(L, w.g), results)
  }

  ghost predicate Running(
      w: Work, L: seq<Record>, status: map<string, Status>, attempts: map<string, nat>, results: seq<ToolResult>) {
    Kept(w, L) && (w.sound ==> Tracked(w, L, status, attempts, results))
  }

  /** The call ids the volatile map does not know to be settled: the measure of the scheduling loop. */
  function Left(g: Graph, status: map<string, Status>): set<string> {
    set c | c in Ids(g) && !(c in status && status[c].Terminal())
  }

  lemma LeftUpdate(g: Graph, status: map<string, Status>, c: string, s: Status)
    requires s.Terminal()
    ensures Left(g, status[c := s]) == Left(g, status) - {c}
  {
  }

  lemma ReportsMore(
      g: Graph, env: SkillEnv, m0: map<string, Status>, m: map<string, Status>, results: seq<ToolResult>,
      n: Node, s: Status, r: ToolResult)
    requires Reports(g, env, m0, m, results)
    requires DistinctIds(g) && n in g.nodes && n.callId !in m && n.callId !in m0 && r == ResultFor(env, n, s)
    ensures Reports(g, env, m0, m[n.callId := s], results + [r])
  {
    NodeOfUnique(g, n);
    var m1 := m[n.callId := s];
    forall c | c in m1 && c !in m0
      ensures exists r' :: r' in results + [r] && r'.callId == c
    {
      if c == n.callId {
        assert r in results + [r];
      } else {
        var r' :| r' in results && r'.callId == c;
        assert r' in results + [r];
      }
    }
  }

  /** A call settled on entry stays settled. */
  lemma FoundSettled(w: Work, L: seq<Record>, c: string)
    requires w.sound && Kept(w, L) && c !in FinalMap(L, w.g)
    ensures c !in FinalMap(w.found, w.g)
  {
    hide FinalMap, Conforms, Rule;
    if c in FinalMap(w.found, w.g) {
      assert L[..|w.found|] == w.found && L[..|L|] == L;
      FinalPersists(w.g, L, |w.found|, |L|, c);
    }
  }

  lemma RunningReads(
      w: Work, L: seq<Record>, status: map<string, Status>, attempts: map<string, nat>, results: seq<ToolResult>)
    requires Running(w, L, status, attempts, results)
    ensures Kept(w, L) && w.found <= L
    ensures
      w.sound ==>
        && DistinctIds(w.g) && HasGraph(L, w.g.id) && TerminalPart(status) == FinalMap(L, w.g)
        && Counted(w.g, L, attempts) && RuledFrom(w.g, L, |w.found|)
  {
  }

  /******* Appending *******/

  /** The checkpoint may be written now. */
  ghost predicate Writable(w: Work, L: seq<Record>, ck: Checkpoint) {
    && HasGraph(L, w.g.id) && Rule(w.g, L, ck)
    && (ck.status.Terminal() && !ck.status.Skipped? ==> ck.status == OwnOutcomes(w.g, w.env)(ck.callId))
  }

  method AppendToolCheckpoint(store: LedgerStore, ghost w: Work, g: Graph, n: Node, s: Status, attempt: nat)
    returns (ok: bool)
    requires w.g == g && n in g.nodes && Kept(w, store.records)
    requires w.sound ==> Writable(w, store.records, Checkpoint(g.id, n.callId, n.skill, s, attempt))
    modifies store
    ensures store.reliable ==> ok
    ensures Kept(w, store.records) && old(store.records) <= store.records
    ensures
      ok ==>
        store.records == old(store.records) + [NodeCheckpoint(Checkpoint(g.id, n.callId, n.skill, s, attempt))]
    ensures Touches(old(store.records), store.records, n.callId)
    ensures !s.Started? ==> StartsNothing(old(store.records), store.records)
  {
    hide Batch, Trail, Rule;
    var ck := Checkpoint(g.id, n.callId, n.skill, s, attempt);
    ghost var L := store.records;
    assert OfNode(g, ck);
    BatchAppend(g, w.known, w.found, L, NodeCheckpoint(ck));
    if w.sound { TrailAppend(g, w.env, w.found, L, NodeCheckpoint(ck)); }
    var status := store.Append(NodeCheckpoint(ck));
    ok := status == Stored;
  }

  /** What a checkpoint just written does to what the ledger says about its graph. */
  lemma Written(g: Graph, L: seq<Record>, ck: Checkpoint)
    requires ck.graph == g.id && Rule(g, L, ck)
    ensures
      var M := L + [NodeCheckpoint(ck)];
      && FinalMap(M, g) == (if ck.status.Terminal() then FinalMap(L, g)[ck.callId := ck.status] else FinalMap(L, g))
      && (forall c :: AttemptsOf(M, g.id, c)
                   == if ck.status.Started? && c == ck.callId then ck.attempt else AttemptsOf(L, g.id, c))
      && (HasGraph(L, g.id) ==> HasGraph(M, g.id))
      && ck.callId in Ids(g) && ck.callId !in FinalMap(L, g)
  {
    FinalMapAppend(g, L, NodeCheckpoint(ck));
    forall c { StatusOfAppend(L, NodeCheckpoint(ck), g.id, c); }
    HasGraphMore(L, NodeCheckpoint(ck), g.id);
  }

  lemma HasGraphMore(L: seq<Record>, r: Record, id: GraphId)
    ensures HasGraph(L + [r], id) <==> HasGraph(L, id) || (r.GraphRecord? && r.graph.id == id)
  {
    var M := L + [r];
    assert M[|L|] == r;
    assert forall x :: x in M <==> x in L || x == r;
  }

  /** The two ledgers say the same about the graph. */
  ghost predicate SameView(g: Graph, L: seq<Record>, M: seq<Record>) {
    && FinalMap(M, g) == FinalMap(L, g)
    && (forall c :: AttemptsOf(M, g.id, c) == AttemptsOf(L, g.id, c))
    && (HasGraph(L, g.id) ==> HasGraph(M, g.id))
  }

  /** An append the graph never reads back: a validation record or a tool-call record. */
  method AppendAside(store: LedgerStore, ghost w: Work, r: Record) returns (ok: bool)
    requires Kept(w, store.records) && (r.InputValidation? || r.ToolCalled?)
    requires w.sound ==> HasGraph(store.records, w.g.id)
    modifies store
    ensures store.reliable ==> ok
    ensures Kept(w, store.records) && old(store.records) <= store.records
    ensures SameView(w.g, old(store.records), store.records)
    ensures forall c :: Touches(old(store.records), store.records, c)
  {
    hide Batch, Trail, SameView;
    ghost var L := store.records;
    BatchAppend(w.g, w.known, w.found, L, r);
    if w.sound { TrailAppend(w.g, w.env, w.found, L, r); }
    AsideSame(w.g, L, r);
    var status := store.Append(r);
    ok := status == Stored;
  }

  lemma AsideSame(g: Graph, L: seq<Record>, r: Record)
    requires !r.NodeCheckpoint?
    ensures SameView(g, L, L) && SameView(g, L, L + [r])
  {
    FinalMapAppend(g, L, r);
    forall c { StatusOfAppend(L, r, g.id, c); }
    HasGraphMore(L, r, g.id);
  }

  /** The ledger says nothing about the calls of a graph with this id. */
  ghost predicate Blank(L: seq<Record>, id: GraphId) {
    forall c :: StatusOf(L, id, c).None? && AttemptsOf(L, id, c) == 0
  }

  ghost predicate Untried(g: Graph, L: seq<Record>) {
    FinalMap(L, g) == map[] && forall c :: AttemptsOf(L, g.id, c) == 0
  }

  /** Records a fresh graph and queues its nodes. */
  method RecordGraph(store: LedgerStore, ghost w: Work, g: Graph) returns (ok: bool)
    requires w.g == g && !w.known && store.records == w.found
    requires w.sound ==> DistinctIds(g) && !HasGraph(w.found, g.id) && Blank(w.found, g.id)
    modifies store
    ensures store.reliable ==> ok
    ensures Kept(w, store.records)
    ensures StartsNothing(old(store.records), store.records)
    ensures ok && w.sound ==> HasGraph(store.records, g.id) && Untried(g, store.records)
  {
    hide Batch, Trail, Rule, FinalMap, Blank, StartsNothing;
    WorkBegins(w);
    RecordBegins(w);
    ghost var L0 := store.records;
    StartsNothingOn(L0, L0, L0);
    StartsNothingMore(L0, L0, GraphRecord(g));
    var status := store.Append(GraphRecord(g));
    if status != Stored { return false; }
    for i := 0 to |g.nodes|
      invariant Kept(w, store.records) && StartsNothing(L0, store.records)
      invariant w.sound ==> HasGraph(store.records, g.id) && Untried(g, store.records)
    {
      ghost var L := store.records;
      ghost var ck := Checkpoint(g.id, g.nodes[i].callId, g.nodes[i].skill, Queued, 0);
      if w.sound { QueueAllowed(g, L, g.nodes[i]); }
      ok := AppendToolCheckpoint(store, w, g, g.nodes[i], Queued, 0);
      StartsNothingOn(L0, L, store.records);
      if !ok { return false; }
      if w.sound { Written(g, L, ck); }
    }
    return true;
  }

  lemma WorkBegins(w: Work)
    requires w.sound ==> w.known == HasGraph(w.found, w.g.id)
    ensures Kept(w, w.found)
  {
  }

  lemma RecordBegins(w: Work)
    requires !w.known && Kept(w, w.found)
    requires w.sound ==> !HasGraph(w.found, w.g.id) && Blank(w.found, w.g.id)
    ensures Kept(w, w.found + [GraphRecord(w.g)])
    ensures w.sound ==> HasGraph(w.found + [GraphRecord(w.g)], w.g.id) && Untried(w.g, w.found + [GraphRecord(w.g)])
  {
    BatchAppend(w.g, w.known, w.found, w.found, GraphRecord(w.g));
    if w.sound {
      TrailAppend(w.g, w.env, w.found, w.found, GraphRecord(w.g));
      AsideSame(w.g, w.found, GraphRecord(w.g));
      HasGraphMore(w.found, GraphRecord(w.g), w.g.id);
    }
  }

  lemma StartsNothingMore(L0: seq<Record>, L: seq<Record>, r: Record)
    requires StartsNothing(L0, L) && !Starts(r)
    ensures StartsNothing(L0, L + [r])
  {
  }

  lemma QueueAllowed(g: Graph, L: seq<Record>, n: Node)
    requires DistinctIds(g) && n in g.nodes && Untried(g, L)
    ensures Rule(g, L, Checkpoint(g.id, n.callId, n.skill, Queued, 0))
  {
    NodeOfUnique(g, n);
    assert n.callId !in FinalMap(L, g);
  }

  /******* One pass over the blocked nodes *******/

  lemma StatusReads(g: Graph, L: seq<Record>, status: map<string, Status>, n: Node)
    requires DistinctIds(g) && n in g.nodes && TerminalPart(status) == FinalMap(L, g)
    ensures n.callId in Ids(g) && NodeOf(g, n.callId) == n && Deps(g)[n.callId] == n.deps
    ensures Blocked(status, n.deps) <==> Blocked(FinalMap(L, g), n.deps)
    ensures IsReady(status, n) <==> n.callId !in FinalMap(L, g) && AllSucceeded(FinalMap(L, g), n.deps)
    ensures n.callId in FinalMap(L, g) <==> n.callId in status && status[n.callId].Terminal()
    ensures n.callId !in FinalMap(L, g) ==> Final(L, g.id, n.callId).None?
  {
    NodeOfUnique(g, n);
    var m := FinalMap(L, g);
    forall d ensures d in m <==> d in status && status[d].Terminal() {
      assert d in TerminalPart(status) <==> d in m;
    }
  }

  lemma SkipAllowed(g: Graph, L: seq<Record>, n: Node)
    requires DistinctIds(g) && n in g.nodes
    requires n.callId !in FinalMap(L, g) && Blocked(FinalMap(L, g), n.deps)
    ensures Rule(g, L, Checkpoint(g.id, n.callId, n.skill, Skipped, 0))
  {
    NodeOfUnique(g, n);
    assert Final(L, g.id, n.callId).None?;
  }

  /** Settles one node: its terminal checkpoint is appended and its result is kept. */
  method Settle(
      store: LedgerStore, ghost w: Work, g: Graph, n: Node, s: Status, attempt: nat, result: ToolResult,
      status: map<string, Status>, results: seq<ToolResult>, ghost attempts: map<string, nat>)
    returns (ok: bool, status': map<string, Status>, results': seq<ToolResult>)
    requires w.g == g && n in g.nodes && s.Terminal()
    requires Running(w, store.records, status, attempts, results)
    requires
      w.sound ==>
        && result == ResultFor(w.env, n, s)
        && Writable(w, store.records, Checkpoint(g.id, n.callId, n.skill, s, attempt))
    modifies store
    ensures store.reliable ==> ok
    ensures Kept(w, store.records) && old(store.records) <= store.records
    ensures ok ==> Running(w, store.records, status', attempts, results')
    ensures status' == status[n.callId := s] && results' == results + [result]
    ensures w.sound && ok ==> FinalMap(store.records, g) == FinalMap(old(store.records), g)[n.callId := s]
    ensures w.sound && ok ==> forall c :: AttemptsOf(store.records, g.id, c) == AttemptsOf(old(store.records), g.id, c)
    ensures StartsNothing(old(store.records), store.records)
    ensures Touches(old(store.records), store.records, n.callId)
  {
    hide Running, Batch, Trail, Rule, Writable, FinalMap, StartsNothing, Touches;
    ghost var L := store.records;
    ghost var ck := Checkpoint(g.id, n.callId, n.skill, s, attempt);
    RunningReads(w, L, status, attempts, results);
    status' := status[n.callId := s];
    results' := results + [result];
    ok := AppendToolCheckpoint(store, w, g, n, s, attempt);
    if ok { SettledRuns(w, L, n, ck, result, status, attempts, results); }
  }

  lemma SettledRuns(
      w: Work, L: seq<Record>, n: Node, ck: Checkpoint, result: ToolResult,
      status: map<string, Status>, attempts: map<string, nat>, results: seq<ToolResult>)
    requires Running(w, L, status, attempts, results) && n in w.g.nodes && ck.status.Terminal()
    requires ck.graph == w.g.id && ck.callId == n.callId
    requires w.sound ==> result == ResultFor(w.env, n, ck.status) && Writable(w, L, ck)
    requires Kept(w, L + [NodeCheckpoint(ck)])
    ensures Running(w, L + [NodeCheckpoint(ck)], status[n.callId := ck.status], attempts, results + [result])
    ensures
      w.sound ==>
        && FinalMap(L + [NodeCheckpoint(ck)], w.g) == FinalMap(L, w.g)[n.callId := ck.status]
        && forall c :: AttemptsOf(L + [NodeCheckpoint(ck)], w.g.id, c) == AttemptsOf(L, w.g.id, c)
  {
    hide Kept, FinalMap, Rule, OwnOutcomes, ResultFor, Ids, NodeOf, Reports;
    if w.sound {
      Written(w.g, L, ck);
      FoundSettled(w, L, n.callId);
      ReportsMore(w.g, w.env, FinalMap(w.found, w.g), FinalMap(L, w.g), results, n, ck.status, result);
      TerminalMore(status, n.callId, ck.status);
    }
  }

  lemma TerminalMore(status: map<string, Status>, c: string, s: Status)
    requires s.Terminal()
    ensures TerminalPart(status[c := s]) == TerminalPart(status)[c := s]
  {
  }

  method SkipBlockedNodes(
      store: LedgerStore, ghost w: Work, g: Graph, status: map<string, Status>, results: seq<ToolResult>,
      ghost attempts: map<string, nat>)
    returns (ok: bool, changed: bool, status': map<string, Status>, results': seq<ToolResult>)
    requires w.g == g && Running(w, store.records, status, attempts, results)
    modifies store
    ensures store.reliable ==> ok
    ensures Kept(w, store.records) && old(store.records) <= store.records
    ensures ok ==> Running(w, store.records, status', attempts, results')
    ensures ok ==> if changed then Left(g, status') < Left(g, status) else status' == status
    ensures ok && !changed ==> store.records == old(store.records)
    ensures ok && !changed && w.sound ==> NoneBlocked(g, FinalMap(store.records, g), |g.nodes|)
    ensures StartsNothing(old(store.records), store.records)
  {
    hide StartsNothing, DistinctIds, Kept, FinalMap, Running, Rule, Blocked, Deps, EffectiveOutput, TerminalPart,
         Left, Touches;
    ok, changed, status', results' := true, false, status, results;
    RunningReads(w, store.records, status, attempts, results);
    StartsNothingOn(store.records, store.records, store.records);
    for i := 0 to |g.nodes|
      invariant old(store.records) <= store.records && ok
      invariant Running(w, store.records, status', attempts, results')
      invariant if changed then Left(g, status') < Left(g, status) else status' == status
      invariant !changed ==> store.records == old(store.records)
      invariant !changed && w.sound ==> NoneBlocked(g, FinalMap(store.records, g), i)
      invariant StartsNothing(old(store.records), store.records)
    {
      var n := g.nodes[i];
      ghost var L := store.records;
      RunningReads(w, L, status', attempts, results');
      if w.sound { StatusReads(g, L, status', n); }
      if !(n.callId in status' && status'[n.callId].Terminal()) {
        if Blocked(status', n.deps) {
          if w.sound { SkipAllowed(g, L, n); }
          LeftStrict(g, status', n, Skipped);
          ok, status', results' := Settle(
            store, w, g, n, Skipped, 0, ToolResult(n.callId, n.skill, Err(Internal)), status', results', attempts);
          StartsNothingOn(old(store.records), L, store.records);
          if !ok { return; }
          changed := true;
        }
      }
    }
    RunningReads(w, store.records, status', attempts, results');
  }

  /** Settling an unsettled node leaves strictly less to do. */
  lemma LeftStrict(g: Graph, status: map<string, Status>, n: Node, s: Status)
    requires n in g.nodes && s.Terminal()
    ensures Left(g, status[n.callId := s]) <= Left(g, status)
    ensures n.callId !in Left(g, status[n.callId := s])
    ensures !(n.callId in status && status[n.callId].Terminal()) ==> Left(g, status[n.callId := s]) < Left(g, status)
  {
    LeftUpdate(g, status, n.callId, s);
    IdListed(g.nodes, n);
    assert !(n.callId in status && status[n.callId].Terminal()) ==> n.callId in Left(g, status);
  }

  /** None of the first `k` nodes is unfinished and blocked. */
  ghost predicate NoneBlocked(g: Graph, m: map<string, Status>, k: nat)
    requires k <= |g.nodes|
  {
    forall j :: 0 <= j < k && g.nodes[j].callId !in m ==> !Blocked(m, g.nodes[j].deps)
  }

  /******* Preparing one node *******/

  datatype Prepared = Executable | Immediate(result: ToolResult) | Interrupted

  /** A node that may start: unfinished, with every dependency succeeded. */
  ghost predicate MayRun(g: Graph, m: map<string, Status>, n: Node) {
    n in g.nodes && n.callId in Ids(g) && NodeOf(g, n.callId) == n && n.callId !in m && AllSucceeded(m, n.deps)
  }

  ghost predicate Startable(w: Work, L: seq<Record>, attempts: map<string, nat>, n: Node) {
    HasGraph(L, w.g.id) && Counted(w.g, L, attempts) && MayRun(w.g, FinalMap(L, w.g), n)
  }

  /** How a sound call finds the ledger after it prepared a node. */
  ghost predicate AfterPrepare(
      w: Work, L: seq<Record>, M: seq<Record>, n: Node, p: Prepared, attempts: map<string, nat>) {
    && HasGraph(M, w.g.id) && Counted(w.g, M, attempts)
    && (forall c :: AttemptsOf(M, w.g.id, c) >= AttemptsOf(L, w.g.id, c))
    && (p.Immediate? ==>
          && Refusal(w.env, n).Some? && p.result == ResultFor(w.env, n, Failed)
          && FinalMap(M, w.g) == FinalMap(L, w.g)[n.callId := Failed])
    && (p.Executable? ==>
          && Refusal(w.env, n).None?
          && FinalMap(M, w.g) == FinalMap(L, w.g)
          && AttemptsOf(M, w.g.id, n.callId) == AttemptsOf(L, w.g.id, n.callId) + 1)
  }

  /** A refusal never reports a timeout, so the node fails. */
  ghost predicate Refused(p: Prepared, n: Node) {
    p.Immediate? ==> p.result.callId == n.callId && FinalStatus(p.result.output) == Failed
  }

  lemma StartableSame(w: Work, L: seq<Record>, M: seq<Record>, attempts: map<string, nat>, n: Node)
    requires SameView(w.g, L, M) && Startable(w, L, attempts, n)
    ensures Startable(w, M, attempts, n)
  {
    hide FinalMap, MayRun;
  }

  lemma StartableReads(w: Work, L: seq<Record>, attempts: map<string, nat>, n: Node)
    requires Startable(w, L, attempts, n)
    ensures HasGraph(L, w.g.id) && n in w.g.nodes && n.callId !in FinalMap(L, w.g)
    ensures AttemptsOf(L, w.g.id, n.callId) == CountOf(attempts, n.callId)
  {
  }

  method PrepareNode(
      store: LedgerStore, ghost w: Work, g: Graph, n: Node, step: nat, env: SkillEnv, attempts: map<string, nat>)
    returns (p: Prepared, attempts': map<string, nat>)
    requires w.g == g && w.env == env && n in g.nodes && Kept(w, store.records)
    requires w.sound ==> Startable(w, store.records, attempts, n)
    modifies store
    ensures store.reliable ==> !p.Interrupted?
    ensures Kept(w, store.records) && old(store.records) <= store.records
    ensures Touches(old(store.records), store.records, n.callId) && Refused(p, n)
    ensures w.sound && !p.Interrupted? ==> AfterPrepare(w, old(store.records), store.records, n, p, attempts')
  {
    hide Kept, Startable, AfterPrepare, Refused, SameView, Touches, HasGraph;
    ghost var L := store.records;
    TouchesItself(L, n.callId);
    if w.sound { StartableReads(w, L, attempts, n); }
    var facts := env.facts(n);
    var ok: bool;
    if !facts.registered {
      ok := AppendAside(store, w, InputValidation(n.callId, false));
      if !ok { p, attempts' := Interrupted, attempts; NothingRefused(n); return; }
      if w.sound { StartableSame(w, L, store.records, attempts, n); }
      p, attempts' := Refuse(store, w, g, n, Internal, attempts, L);
      return;
    }
    if env.validateArgs {
      ok := AppendAside(store, w, InputValidation(n.callId, facts.argsValid));
      if !ok { p, attempts' := Interrupted, attempts; NothingRefused(n); return; }
      if w.sound { StartableSame(w, L, store.records, attempts, n); }
      if !facts.argsValid {
        p, attempts' := Refuse(store, w, g, n, InvalidArguments, attempts, L);
        return;
      }
    } else {
      AsideSame(g, L, InputValidation(n.callId, true));
    }
    p, attempts' := StartValidated(store, w, g, n, step, env, attempts, L);
  }

  lemma TouchesItself(L: seq<Record>, c: string)
    ensures Touches(L, L, c)
  {
  }

  lemma NothingRefused(n: Node)
    ensures Refused(Interrupted, n) && Refused(Executable, n)
  {
  }

  /** The checks after the arguments were found valid, and the start. */
  method StartValidated(
      store: LedgerStore, ghost w: Work, g: Graph, n: Node, step: nat, env: SkillEnv, attempts: map<string, nat>,
      ghost L: seq<Record>)
    returns (p: Prepared, attempts': map<string, nat>)
    requires w.g == g && w.env == env && n in g.nodes && Kept(w, store.records)
    requires w.sound ==> Startable(w, store.records, attempts, n)
    requires env.facts(n).registered && (env.validateArgs ==> env.facts(n).argsValid)
    requires Touches(L, store.records, n.callId) && (w.sound ==> SameView(g, L, store.records))
    modifies store
    ensures store.reliable ==> !p.Interrupted?
    ensures Kept(w, store.records) && old(store.records) <= store.records
    ensures Touches(L, store.records, n.callId) && Refused(p, n)
    ensures w.sound && !p.Interrupted? ==> AfterPrepare(w, L, store.records, n, p, attempts')
  {
    hide Kept, Startable, AfterPrepare, Refused, SameView, Touches, HasGraph, Rule;
    var facts := env.facts(n);
    ghost var M := store.records;
    if w.sound { ValidatedAllowed(w, M, attempts, n); }
    var ok := AppendToolCheckpoint(store, w, g, n, Validated, 0);
    TouchesOn(L, M, store.records, n.callId);
    if !ok { p, attempts' := Interrupted, attempts; NothingRefused(n); return; }
    if w.sound { ValidatedSame(w, L, M, attempts, n); }
    if !facts.scopesGranted {
      p, attempts' := Refuse(store, w, g, n, PermissionDenied, attempts, L);
      return;
    }
    if !facts.nativeAllowed {
      p, attempts' := Refuse(store, w, g, n, PermissionDenied, attempts, L);
      return;
    }
    if !facts.dryRunAllowed {
      p, attempts' := Refuse(store, w, g, n, CapabilityDenied, attempts, L);
      return;
    }
    if facts.breakerOpen {
      p, attempts' := Refuse(store, w, g, n, CapabilityDenied, attempts, L);
      return;
    }
    p, attempts' := StartNode(store, w, g, n, step, attempts, L);
  }

  lemma ValidatedAllowed(w: Work, L: seq<Record>, attempts: map<string, nat>, n: Node)
    requires Startable(w, L, attempts, n)
    ensures Writable(w, L, Checkpoint(w.g.id, n.callId, n.skill, Validated, 0))
  {
  }

  lemma ValidatedSame(w: Work, L: seq<Record>, M: seq<Record>, attempts: map<string, nat>, n: Node)
    requires SameView(w.g, L, M) && Startable(w, M, attempts, n)
    ensures
      var N := M + [NodeCheckpoint(Checkpoint(w.g.id, n.callId, n.skill, Validated, 0))];
      SameView(w.g, L, N) && Startable(w, N, attempts, n)
  {
    hide FinalMap, MayRun, Rule;
    ValidatedAllowed(w, M, attempts, n);
    Written(w.g, M, Checkpoint(w.g.id, n.callId, n.skill, Validated, 0));
  }

  /** The node fails before it starts. */
  method Refuse(
      store: LedgerStore, ghost w: Work, g: Graph, n: Node, kind: FailureKind, attempts: map<string, nat>,
      ghost L: seq<Record>)
    returns (p: Prepared, attempts': map<string, nat>)
    requires w.g == g && n in g.nodes && Kept(w, store.records) && kind != Timeout
    requires w.sound ==> Startable(w, store.records, attempts, n)
    requires Refusal(w.env, n) == Some(kind)
    requires Touches(L, store.records, n.callId) && (w.sound ==> SameView(g, L, store.records))
    modifies store
    ensures store.reliable ==> !p.Interrupted?
    ensures !p.Executable? && Refused(p, n)
    ensures Kept(w, store.records) && old(store.records) <= store.records
    ensures Touches(L, store.records, n.callId)
    ensures w.sound && !p.Interrupted? ==> AfterPrepare(w, L, store.records, n, p, attempts')
  {
    hide Kept, Startable, AfterPrepare, SameView, Touches, HasGraph, Rule, Refusal, FinalMap;
    attempts' := attempts;
    ghost var M := store.records;
    if w.sound { RefusalAllowed(w, M, attempts, n); }
    var ok := AppendToolCheckpoint(store, w, g, n, Failed, 0);
    TouchesOn(L, M, store.records, n.callId);
    if !ok { return Interrupted, attempts; }
    p := Immediate(ToolResult(n.callId, n.skill, Err(kind)));
    if w.sound { RefusalDone(w, L, M, attempts, n, kind); }
  }

  lemma RefusalAllowed(w: Work, L: seq<Record>, attempts: map<string, nat>, n: Node)
    requires Startable(w, L, attempts, n) && Refusal(w.env, n).Some? && Refusal(w.env, n).value != Timeout
    ensures Writable(w, L, Checkpoint(w.g.id, n.callId, n.skill, Failed, 0))
  {
  }

  lemma RefusalDone(
      w: Work, L: seq<Record>, M: seq<Record>, attempts: map<string, nat>, n: Node, kind: FailureKind)
    requires SameView(w.g, L, M) && Startable(w, M, attempts, n)
    requires Refusal(w.env, n) == Some(kind) && kind != Timeout
    ensures
      var N := M + [NodeCheckpoint(Checkpoint(w.g.id, n.callId, n.skill, Failed, 0))];
      AfterPrepare(w, L, N, n, Immediate(ToolResult(n.callId, n.skill, Err(kind))), attempts)
  {
    hide FinalMap, MayRun, Rule, Refusal, OwnOutcomes;
    RefusalAllowed(w, M, attempts, n);
    Written(w.g, M, Checkpoint(w.g.id, n.callId, n.skill, Failed, 0));
  }

  method StartNode(
      store: LedgerStore, ghost w: Work, g: Graph, n: Node, step: nat, attempts: map<string, nat>,
      ghost L: seq<Record>)
    returns (p: Prepared, attempts': map<string, nat>)
    requires w.g == g && n in g.nodes && Kept(w, store.records)
    requires w.sound ==> Startable(w, store.records, attempts, n)
    requires Refusal(w.env, n).None?
    requires Touches(L, store.records, n.callId) && (w.sound ==> SameView(g, L, store.records))
    modifies store
    ensures store.reliable ==> !p.Interrupted?
    ensures !p.Immediate? && Refused(p, n)
    ensures Kept(w, store.records) && old(store.records) <= store.records
    ensures Touches(L, store.records, n.callId)
    ensures w.sound && !p.Interrupted? ==> AfterPrepare(w, L, store.records, n, p, attempts')
  {
    hide Kept, Startable, AfterPrepare, SameView, Touches, HasGraph, Rule, Refusal, FinalMap;
    ghost var M := store.records;
    var attempt := CountOf(attempts, n.callId) + 1;
    attempts' := attempts[n.callId := attempt];
    if w.sound { StartAllowed(w, M, attempts, n); }
    var ok := AppendToolCheckpoint(store, w, g, n, Started, attempt);
    TouchesOn(L, M, store.records, n.callId);
    if !ok { return Interrupted, attempts; }
    ghost var N := store.records;
    if w.sound { StartDone(w, L, M, attempts, n); }
    ok := AppendAside(store, w, ToolCalled(n.callId, step));
    TouchesOn(L, N, store.records, n.callId);
    if !ok { return Interrupted, attempts; }
    p := Executable;
    if w.sound { AfterAside(w, L, N, store.records, n, attempts'); }
  }

  lemma StartAllowed(w: Work, L: seq<Record>, attempts: map<string, nat>, n: Node)
    requires Startable(w, L, attempts, n)
    ensures Writable(w, L, Checkpoint(w.g.id, n.callId, n.skill, Started, CountOf(attempts, n.callId) + 1))
  {
  }

  lemma StartDone(w: Work, L: seq<Record>, M: seq<Record>, attempts: map<string, nat>, n: Node)
    requires SameView(w.g, L, M) && Startable(w, M, attempts, n) && Refusal(w.env, n).None?
    ensures
      var attempt := CountOf(attempts, n.callId) + 1;
      var N := M + [NodeCheckpoint(Checkpoint(w.g.id, n.callId, n.skill, Started, attempt))];
      HasGraph(N, w.g.id) && AfterPrepare(w, L, N, n, Executable, attempts[n.callId := attempt])
  {
    hide FinalMap, MayRun, Rule, Refusal;
    StartAllowed(w, M, attempts, n);
    Written(w.g, M, Checkpoint(w.g.id, n.callId, n.skill, Started, CountOf(attempts, n.callId) + 1));
  }

  lemma AfterAside(
      w: Work, L: seq<Record>, M: seq<Record>, N: seq<Record>, n: Node, attempts: map<string, nat>)
    requires AfterPrepare(w, L, M, n, Executable, attempts) && SameView(w.g, M, N)
    ensures AfterPrepare(w, L, N, n, Executable, attempts)
  {
    hide FinalMap, Refusal, ResultFor;
  }

  /******* One wave *******/

  /** A started node whose terminal checkpoint is still to come. */
  ghost predicate InFlight(g: Graph, env: SkillEnv, L: seq<Record>, n: Node) {
    MayRun(g, FinalMap(L, g), n) && Refusal(env, n).None? && AttemptsOf(L, g.id, n.callId) >= 1
  }

  ghost predicate DistinctNodes(nodes: seq<Node>) {
    forall i, j :: 0 <= i < j < |nodes| ==> nodes[i].callId != nodes[j].callId
  }

  /** Settling another call keeps a node ready to run. */
  lemma MayRunStable(g: Graph, m: map<string, Status>, c: string, s: Status, n: Node)
    requires MayRun(g, m, n) && c !in m && n.callId != c
    ensures MayRun(g, m[c := s], n)
  {
  }

  lemma FinishAllowed(w: Work, L: seq<Record>, n: Node)
    requires InFlight(w.g, w.env, L, n) && HasGraph(L, w.g.id)
    ensures
      Writable(w, L, Checkpoint(w.g.id, n.callId, n.skill, FinalStatus(w.env.facts(n).output),
                                AttemptsOf(L, w.g.id, n.callId)))
    ensures EffectiveOutput(w.env, n) == w.env.facts(n).output
    ensures n.callId !in FinalMap(L, w.g)
  {
    assert Final(L, w.g.id, n.callId).None?;
  }

  ghost predicate AllOf(g: Graph, nodes: seq<Node>) {
    forall n :: n in nodes ==> n in g.nodes
  }

  /** Every node of the wave is among `running` or known to be settled. */
  ghost predicate Covered(g: Graph, wave: seq<Node>, running: seq<Node>, status: map<string, Status>) {
    && (forall n :: n in running ==> n in wave)
    && (forall n :: n in wave ==> n in running || n.callId !in Left(g, status))
  }

  /** Prepares the nodes of a wave in order; those that may execute are left in flight. */
  method StartWave(
      store: LedgerStore, ghost w: Work, g: Graph, wave: seq<Node>, step: nat, env: SkillEnv,
      status: map<string, Status>, attempts: map<string, nat>, results: seq<ToolResult>)
    returns (ok: bool, running: seq<Node>, status': map<string, Status>, attempts': map<string, nat>,
             results': seq<ToolResult>)
    requires w.g == g && w.env == env && AllOf(g, wave)
    requires Running(w, store.records, status, attempts, results)
    requires w.sound ==> Preparing(g, env, store.records, wave, 0, []) && DistinctNodes(wave)
    modifies store
    ensures store.reliable ==> ok
    ensures Kept(w, store.records) && old(store.records) <= store.records
    ensures WaveOnly(wave, store.records, |old(store.records)|)
    ensures ok ==> Running(w, store.records, status', attempts', results')
    ensures ok ==> Left(g, status') <= Left(g, status) && Covered(g, wave, running, status')
    ensures w.sound && ok ==> Preparing(g, env, store.records, wave, |wave|, running)
  {
    hide Kept, Running, WaveOnly, Preparing, Left, MayRun, FinalMap, DistinctNodes, Touches, AfterPrepare, Startable;
    ok, running, status', attempts', results' := true, [], status, attempts, results;
    RunningReads(w, store.records, status, attempts, results);
    WaveOnlyNothing(wave, store.records);
    for i := 0 to |wave|
      invariant ok && old(store.records) <= store.records
      invariant WaveOnly(wave, store.records, |old(store.records)|)
      invariant Running(w, store.records, status', attempts', results')
      invariant Left(g, status') <= Left(g, status) && Covered(g, wave[..i], running, status')
      invariant w.sound ==> Preparing(g, env, store.records, wave, i, running)
    {
      ghost var L := store.records;
      var p: Prepared;
      ghost var before := status';
      if w.sound { PreparingNext(g, env, L, wave, i, running); }
      p, status', attempts', results' := StartOne(store, w, g, wave[i], step, env, status', attempts', results');
      WaveOnlyTouch(wave, L, store.records, |old(store.records)|, wave[i]);
      if p.Interrupted? { ok := false; return; }
      if w.sound { PreparedOne(g, env, L, store.records, wave, i, running, p.Executable?); }
      CoveredMore(g, wave, i, running, before, status', p.Executable?);
      if p.Executable? { running := running + [wave[i]]; }
    }
    assert wave[..|wave|] == wave;
    RunningReads(w, store.records, status', attempts', results');
  }

  lemma CoveredMore(
      g: Graph, wave: seq<Node>, i: nat, running: seq<Node>, before: map<string, Status>, after: map<string, Status>,
      executable: bool)
    requires i < |wave| && Covered(g, wave[..i], running, before) && Left(g, after) <= Left(g, before)
    requires executable || wave[i].callId !in Left(g, after)
    ensures Covered(g, wave[..i + 1], if executable then running + [wave[i]] else running, after)
  {
    hide Left;
    assert wave[..i + 1] == wave[..i] + [wave[i]];
    assert forall n :: n in running + [wave[i]] <==> n in running || n == wave[i];
  }

  /** The first `i` nodes of the wave are in flight or settled, the others may still run. */
  ghost predicate Preparing(g: Graph, env: SkillEnv, L: seq<Record>, wave: seq<Node>, i: nat, running: seq<Node>)
    requires i <= |wave|
  {
    && DistinctNodes(running)
    && (forall n :: n in running ==> n in wave[..i] && InFlight(g, env, L, n))
    && (forall j :: 0 <= j < i ==> wave[j] in running || wave[j].callId in FinalMap(L, g))
    && (forall j :: i <= j < |wave| ==> MayRun(g, FinalMap(L, g), wave[j]))
  }

  lemma PreparingBegins(g: Graph, env: SkillEnv, L: seq<Record>, wave: seq<Node>)
    requires forall n :: n in wave ==> MayRun(g, FinalMap(L, g), n)
    ensures Preparing(g, env, L, wave, 0, [])
  {
    hide FinalMap, MayRun, InFlight;
  }

  lemma PreparingNext(g: Graph, env: SkillEnv, L: seq<Record>, wave: seq<Node>, i: nat, running: seq<Node>)
    requires i < |wave| && Preparing(g, env, L, wave, i, running)
    ensures MayRun(g, FinalMap(L, g), wave[i]) && wave[i].callId !in FinalMap(L, g)
  {
    hide FinalMap, InFlight;
  }

  lemma PreparingDone(g: Graph, env: SkillEnv, L: seq<Record>, wave: seq<Node>, running: seq<Node>)
    requires Preparing(g, env, L, wave, |wave|, running)
    ensures DistinctNodes(running) && forall n :: n in running ==> InFlight(g, env, L, n)
    ensures forall n :: n in wave ==> n in running || n.callId in FinalMap(L, g)
  {
    hide FinalMap, MayRun, InFlight, DistinctNodes;
  }

  lemma PreparedOne(
      g: Graph, env: SkillEnv, L: seq<Record>, L': seq<Record>, wave: seq<Node>, i: nat, running: seq<Node>,
      executable: bool)
    requires i < |wave| && DistinctNodes(wave) && Preparing(g, env, L, wave, i, running)
    requires wave[i].callId !in FinalMap(L, g)
    requires
      if executable then FinalMap(L', g) == FinalMap(L, g) && InFlight(g, env, L', wave[i])
      else FinalMap(L', g) == FinalMap(L, g)[wave[i].callId := Failed]
    requires forall c :: AttemptsOf(L', g.id, c) >= AttemptsOf(L, g.id, c)
    ensures Preparing(g, env, L', wave, i + 1, if executable then running + [wave[i]] else running)
  {
    hide FinalMap, MayRun, InFlight, AttemptsOf;
    UndisturbedNodes(g, env, L, L', wave, i, running);
    assert wave[..i + 1] == wave[..i] + [wave[i]];
  }

  /** Preparing `wave[i]` disturbs neither the nodes in flight nor those still to be prepared. */
  lemma UndisturbedNodes(
      g: Graph, env: SkillEnv, L: seq<Record>, L': seq<Record>, wave: seq<Node>, i: nat, running: seq<Node>)
    requires i < |wave| && DistinctNodes(wave) && wave[i].callId !in FinalMap(L, g)
    requires
      || FinalMap(L', g) == FinalMap(L, g)
      || FinalMap(L', g) == FinalMap(L, g)[wave[i].callId := Failed]
    requires forall c :: AttemptsOf(L', g.id, c) >= AttemptsOf(L, g.id, c)
    requires forall n :: n in running ==> n in wave[..i] && InFlight(g, env, L, n)
    requires forall j :: i <= j < |wave| ==> MayRun(g, FinalMap(L, g), wave[j])
    ensures forall n :: n in running ==> n.callId != wave[i].callId && InFlight(g, env, L', n)
    ensures forall j :: i < j < |wave| ==> MayRun(g, FinalMap(L', g), wave[j])
  {
    hide Ids, NodeOf, FinalMap, AttemptsOf;
    forall n | n in running ensures n.callId != wave[i].callId && InFlight(g, env, L', n) {
      var j :| 0 <= j < |wave[..i]| && wave[..i][j] == n;
      assert wave[j] == n;
      MayRunStable(g, FinalMap(L, g), wave[i].callId, Failed, n);
    }
    forall j | i < j < |wave| ensures MayRun(g, FinalMap(L', g), wave[j]) {
      MayRunStable(g, FinalMap(L, g), wave[i].callId, Failed, wave[j]);
    }
  }

  method StartOne(
      store: LedgerStore, ghost w: Work, g: Graph, n: Node, step: nat, env: SkillEnv, status: map<string, Status>,
      attempts: map<string, nat>, results: seq<ToolResult>)
    returns (p: Prepared, status': map<string, Status>, attempts': map<string, nat>, results': seq<ToolResult>)
    requires w.g == g && w.env == env && n in g.nodes
    requires Running(w, store.records, status, attempts, results)
    requires w.sound ==> MayRun(g, FinalMap(store.records, g), n)
    modifies store
    ensures store.reliable ==> !p.Interrupted?
    ensures Kept(w, store.records) && old(store.records) <= store.records
    ensures Touches(old(store.records), store.records, n.callId)
    ensures !p.Interrupted? ==> Running(w, store.records, status', attempts', results')
    ensures Left(g, status') <= Left(g, status) && (p.Immediate? ==> n.callId !in Left(g, status'))
    ensures
      w.sound && !p.Interrupted? ==>
        forall c :: AttemptsOf(store.records, g.id, c) >= AttemptsOf(old(store.records), g.id, c)
    ensures
      w.sound && p.Executable? ==>
        FinalMap(store.records, g) == FinalMap(old(store.records), g) && InFlight(g, env, store.records, n)
    ensures
      w.sound && p.Immediate? ==>
        FinalMap(store.records, g) == FinalMap(old(store.records), g)[n.callId := Failed]
  {
    hide Kept, Running, Touches, Left, AfterPrepare, FinalMap, MayRun;
    ghost var L := store.records;
    status', results' := status, results;
    RunningReads(w, L, status, attempts, results);
    p, attempts' := PrepareNode(store, w, g, n, step, env, attempts);
    if p.Immediate? {
      LeftStrict(g, status, n, FinalStatus(p.result.output));
      status' := status[n.callId := FinalStatus(p.result.output)];
      results' := results + [p.result];
    }
    if !p.Interrupted? { PreparedRuns(w, L, store.records, n, p, status, attempts, attempts', results); }
  }

  lemma PreparedRuns(
      w: Work, L: seq<Record>, M: seq<Record>, n: Node, p: Prepared, status: map<string, Status>,
      attempts: map<string, nat>, attempts': map<string, nat>, results: seq<ToolResult>)
    requires Running(w, L, status, attempts, results) && Kept(w, M) && !p.Interrupted? && Refused(p, n)
    requires w.sound ==> MayRun(w.g, FinalMap(L, w.g), n) && AfterPrepare(w, L, M, n, p, attempts')
    ensures
      if p.Executable? then Running(w, M, status, attempts', results)
      else Running(w, M, status[n.callId := Failed], attempts', results + [p.result])
    ensures w.sound ==> forall c :: AttemptsOf(M, w.g.id, c) >= AttemptsOf(L, w.g.id, c)
    ensures w.sound && p.Executable? ==> FinalMap(M, w.g) == FinalMap(L, w.g) && InFlight(w.g, w.env, M, n)
    ensures w.sound && p.Immediate? ==> FinalMap(M, w.g) == FinalMap(L, w.g)[n.callId := Failed]
  {
    hide Kept, FinalMap, Refusal, ResultFor, Ids, NodeOf, Reports;
    if w.sound && p.Immediate? {
      MayRunReads(w.g, FinalMap(L, w.g), n);
      FoundSettled(w, L, n.callId);
      ReportsMore(w.g, w.env, FinalMap(w.found, w.g), FinalMap(L, w.g), results, n, Failed, p.result);
      TerminalMore(status, n.callId, Failed);
    }
  }

  lemma MayRunReads(g: Graph, m: map<string, Status>, n: Node)
    requires MayRun(g, m, n)
    ensures n in g.nodes && n.callId !in m
  {
  }

  /** Joins the executions in flight in any order, settling each with the status of its result. */
  method JoinWave(
      store: LedgerStore, ghost w: Work, g: Graph, started: seq<Node>, env: SkillEnv, status: map<string, Status>,
      attempts: map<string, nat>, results: seq<ToolResult>)
    returns (ok: bool, status': map<string, Status>, results': seq<ToolResult>)
    requires w.g == g && w.env == env && AllOf(g, started)
    requires Running(w, store.records, status, attempts, results)
    requires w.sound ==> Aloft(g, env, store.records, started)
    modifies store
    ensures store.reliable ==> ok
    ensures Kept(w, store.records) && old(store.records) <= store.records
    ensures StartsNothing(old(store.records), store.records)
    ensures WaveOnly(started, store.records, |old(store.records)|)
    ensures ok ==> Running(w, store.records, status', attempts, results')
    ensures ok ==> Left(g, status') <= Left(g, status) && Covered(g, started, [], status')
    ensures
      w.sound && ok ==>
        && FinalMap(old(store.records), g).Keys <= FinalMap(store.records, g).Keys
        && forall n :: n in started ==> n.callId in FinalMap(store.records, g)
  {
    hide Kept, Running, Left, StartsNothing, WaveOnly, Touches, FinalMap, Aloft, AllOf, FindNode, IdsOf, Writable;
    ok, status', results' := true, status, results;
    var running := started;
    RunningReads(w, store.records, status, attempts, results);
    StartsNothingOn(store.records, store.records, store.records);
    WaveOnlyNothing(started, store.records);
    while running != []
      invariant ok && old(store.records) <= store.records && AllOf(g, running)
      invariant StartsNothing(old(store.records), store.records)
      invariant WaveOnly(started, store.records, |old(store.records)|)
      invariant Running(w, store.records, status', attempts, results')
      invariant Left(g, status') <= Left(g, status) && Covered(g, started, running, status')
      invariant w.sound ==> Aloft(g, env, store.records, running)
      invariant w.sound ==> FinalMap(old(store.records), g).Keys <= FinalMap(store.records, g).Keys
      invariant w.sound ==> forall n :: n in started ==> n in running || n.callId in FinalMap(store.records, g)
      decreases |running|
    {
      var k :| 0 <= k < |running|;
      var n := running[k];
      ghost var L, before := store.records, status';
      RunningReads(w, L, status', attempts, results');
      NodeFound(g, running, n);
      var node := FindNode(g.nodes, n.callId).value;
      var output := env.facts(n).output;
      var attempt := if n.callId in attempts then attempts[n.callId] else 1;
      if w.sound { AloftAt(w, L, running, k, attempts); }
      LeftStrict(g, status', node, FinalStatus(output));
      ok, status', results' := Settle(
        store, w, g, node, FinalStatus(output), attempt, ToolResult(n.callId, n.skill, output), status', results',
        attempts);
      StartsNothingOn(old(store.records), L, store.records);
      WaveOnlyTouch(started, L, store.records, |old(store.records)|, n);
      if !ok { return; }
      var rest := running[..k] + running[k + 1..];
      if w.sound { StillAloft(g, env, L, store.records, running, k, FinalStatus(output), rest); }
      CoveredLess(g, started, running, k, rest, before, status');
      running := rest;
    }
    RunningReads(w, store.records, status', attempts, results');
  }

  lemma WaveOnlyNothing(wave: seq<Node>, L: seq<Record>)
    ensures WaveOnly(wave, L, |L|)
  {
  }

  lemma NodeFound(g: Graph, nodes: seq<Node>, n: Node)
    requires AllOf(g, nodes) && n in nodes
    ensures FindNode(g.nodes, n.callId).Some? && n in g.nodes
  {
    IdListed(g.nodes, n);
  }

  /** Distinct nodes, all in flight. */
  ghost predicate Aloft(g: Graph, env: SkillEnv, L: seq<Record>, nodes: seq<Node>) {
    DistinctNodes(nodes) && forall n :: n in nodes ==> InFlight(g, env, L, n)
  }

  lemma AloftAt(w: Work, L: seq<Record>, running: seq<Node>, k: nat, attempts: map<string, nat>)
    requires Aloft(w.g, w.env, L, running) && k < |running|
    requires DistinctIds(w.g) && HasGraph(L, w.g.id) && Counted(w.g, L, attempts)
    ensures
      var n := running[k];
      var output := w.env.facts(n).output;
      var attempt := if n.callId in attempts then attempts[n.callId] else 1;
      && FindNode(w.g.nodes, n.callId) == Some(n)
      && ToolResult(n.callId, n.skill, output) == ResultFor(w.env, n, FinalStatus(output))
      && Writable(w, L, Checkpoint(w.g.id, n.callId, n.skill, FinalStatus(output), attempt))
      && n.callId !in FinalMap(L, w.g)
  {
    var n := running[k];
    assert InFlight(w.g, w.env, L, n);
    NodeOfUnique(w.g, n);
    FinishAllowed(w, L, n);
    assert CountOf(attempts, n.callId) == AttemptsOf(L, w.g.id, n.callId);
  }

  lemma CoveredLess(
      g: Graph, wave: seq<Node>, running: seq<Node>, k: nat, rest: seq<Node>, before: map<string, Status>,
      after: map<string, Status>)
    requires k < |running| && rest == running[..k] + running[k + 1..] && Covered(g, wave, running, before)
    requires Left(g, after) <= Left(g, before) && running[k].callId !in Left(g, after)
    ensures Covered(g, wave, rest, after)
    ensures forall g' :: AllOf(g', running) ==> AllOf(g', rest)
  {
    hide Left;
    forall n | n in running ensures n in rest || n == running[k] {
      var j :| 0 <= j < |running| && running[j] == n;
      if j != k { assert n == rest[if j < k then j else j - 1]; }
    }
  }

  lemma StillAloft(
      g: Graph, env: SkillEnv, L: seq<Record>, L': seq<Record>, running: seq<Node>, k: nat, s: Status,
      rest: seq<Node>)
    requires k < |running| && rest == running[..k] + running[k + 1..] && Aloft(g, env, L, running)
    requires running[k].callId !in FinalMap(L, g)
    requires FinalMap(L', g) == FinalMap(L, g)[running[k].callId := s]
    requires forall c :: AttemptsOf(L', g.id, c) == AttemptsOf(L, g.id, c)
    ensures Aloft(g, env, L', rest)
    ensures forall n :: n in running ==> n in rest || n == running[k]
  {
    hide Ids, NodeOf, FinalMap, AttemptsOf;
    forall n | n in rest ensures InFlight(g, env, L', n) {
      var j :| 0 <= j < |rest| && rest[j] == n;
      var i := if j < k then j else j + 1;
      assert n == running[i] && InFlight(g, env, L, running[i]);
      MayRunStable(g, FinalMap(L, g), running[k].callId, s, n);
    }
    forall n | n in running ensures n in rest || n == running[k] {
      var j :| 0 <= j < |running| && running[j] == n;
      if j != k { assert n == rest[if j < k then j else j - 1]; }
    }
  }

  /******* The batch *******/

  datatype Caps = Caps(maxParallel: nat, maxReady: nat)

  datatype BatchExecution =
    | Executed(results: seq<ToolResult>, allFailed: bool)
    | NeedsApproval(skills: seq<string>, pending: seq<Call>)
    | Fault

  function AtLeastOne(n: nat): nat {
    if n == 0 then 1 else n
  }

  /** How many ready nodes one wave starts at most. */
  function WaveSize(caps: Caps): nat {
    Min(AtLeastOne(caps.maxParallel), AtLeastOne(caps.maxReady))
  }

  /** The names of the calls whose skill needs a human approval. */
  function GatedNames(calls: seq<Call>, gated: set<string>): seq<string> {
    if calls == [] then []
    else (if calls[0].name in gated then [calls[0].name] else []) + GatedNames(calls[1..], gated)
  }

  lemma {:induction false} GatedNamesMeans(calls: seq<Call>, gated: set<string>)
    ensures
      forall s :: s in GatedNames(calls, gated) <==> s in gated && exists call :: call in calls && call.name == s
    ensures GatedNames(calls, gated) == [] <==> forall call :: call in calls ==> call.name !in gated
  {
    if calls != [] {
      GatedNamesMeans(calls[1..], gated);
      assert calls == [calls[0]] + calls[1..];
    }
  }

  /** A wave starts as many nodes as both limits allow, but always at least one. */
  lemma WaveSizeIs(caps: Caps)
    ensures
      var n := WaveSize(caps);
      if caps.maxParallel == 0 || caps.maxReady == 0 then n == 1
      else n <= caps.maxParallel && n <= caps.maxReady && (n == caps.maxParallel || n == caps.maxReady)
  {
  }

  /** The results of the calls settled between `m0` and `m`, in graph order. */
  function NewResults(env: SkillEnv, nodes: seq<Node>, m0: map<string, Status>, m: map<string, Status>)
    : seq<ToolResult> {
    if nodes == [] then []
    else
      var n := nodes[|nodes| - 1];
      var before := NewResults(env, nodes[..|nodes| - 1], m0, m);
      if n.callId in m && n.callId !in m0 then before + [ResultFor(env, n, m[n.callId])] else before
  }

  function FindResult(results: seq<ToolResult>, c: string): (r: Option<ToolResult>)
    ensures r.Some? ==> r.value in results && r.value.callId == c
    ensures r.None? ==> forall r' :: r' in results ==> r'.callId != c
  {
    if results == [] then None
    else if results[0].callId == c then Some(results[0])
    else FindResult(results[1..], c)
  }

  lemma ReportedResult(
      g: Graph, env: SkillEnv, m0: map<string, Status>, m: map<string, Status>, results: seq<ToolResult>, n: Node)
    requires DistinctIds(g) && n in g.nodes && Reports(g, env, m0, m, results)
    ensures FindResult(results, n.callId)
         == if n.callId in m && n.callId !in m0 then Some(ResultFor(env, n, m[n.callId])) else None
  {
    hide IdsOf;
    NodeOfUnique(g, n);
  }

  method InGraphOrder(g: Graph, results: seq<ToolResult>, ghost sound: bool, ghost env: SkillEnv,
                      ghost m0: map<string, Status>, ghost m: map<string, Status>)
    returns (ordered: seq<ToolResult>)
    requires sound ==> DistinctIds(g) && Reports(g, env, m0, m, results)
    ensures sound ==> ordered == NewResults(env, g.nodes, m0, m)
  {
    hide Reports, FindResult, ResultFor, DistinctIds;
    ordered := [];
    for i := 0 to |g.nodes|
      invariant sound ==> ordered == NewResults(env, g.nodes[..i], m0, m)
    {
      if sound { ReportedResult(g, env, m0, m, results, g.nodes[i]); }
      assert g.nodes[..i + 1][..i] == g.nodes[..i];
      var found := FindResult(results, g.nodes[i].callId);
      if found.Some? { ordered := ordered + [found.value]; }
    }
    assert g.nodes[..|g.nodes|] == g.nodes;
  }

  /** The context a call works from shows the graph exactly as the ledger does. */
  ghost predicate Faithful(context: seq<Record>, L: seq<Record>, g: Graph) {
    && (HasGraph(context, g.id) <==> HasGraph(L, g.id))
    && forall c :: StatusOf(context, g.id, c) == StatusOf(L, g.id, c)
                && AttemptsOf(context, g.id, c) == AttemptsOf(L, g.id, c)
  }

  lemma {:induction false} FilteredDistinct(nodes: seq<Node>, status: map<string, Status>)
    requires DistinctNodes(nodes)
    ensures DistinctNodes(Filtered(nodes, status))
  {
    if nodes != [] {
      FilteredDistinct(nodes[1..], status);
      assert forall n :: n in Filtered(nodes[1..], status) ==> n in nodes[1..];
      var rest := Filtered(nodes[1..], status);
      forall j | 0 <= j < |rest| ensures rest[j].callId != nodes[0].callId {
        assert rest[j] in nodes[1..];
      }
    }
  }

  lemma {:induction false} InsertDistinct(n: Node, sorted: seq<Node>)
    requires DistinctNodes(sorted) && forall m :: m in sorted ==> m.callId != n.callId
    ensures DistinctNodes(Insert(n, sorted))
  {
    if sorted != [] && !Precedes(n, sorted[0]) {
      var head, rest := sorted[0], sorted[1..];
      assert sorted == [head] + rest;
      InsertDistinct(n, rest);
      InsertMembers(n, rest);
      hide Insert, Precedes;
      var out := Insert(n, rest);
      assert forall m :: m in out ==> m.callId != head.callId;
      assert DistinctNodes([head] + out);
    }
  }

  lemma InsertMembers(n: Node, sorted: seq<Node>)
    ensures forall m :: m in Insert(n, sorted) <==> m in sorted || m == n
  {
    hide Insert;
    forall m ensures m in Insert(n, sorted) <==> m in sorted || m == n {
      assert m in Insert(n, sorted) <==> m in multiset(Insert(n, sorted));
      assert m in sorted <==> m in multiset(sorted);
    }
  }

  lemma {:induction false} SortedDistinct(nodes: seq<Node>)
    requires DistinctNodes(nodes)
    ensures DistinctNodes(Sorted(nodes))
  {
    if nodes != [] {
      SortedDistinct(nodes[1..]);
      var rest := Sorted(nodes[1..]);
      forall m | m in rest ensures m.callId != nodes[0].callId {
        assert m in multiset(rest);
        assert m in nodes[1..];
      }
      InsertDistinct(nodes[0], rest);
    }
  }

  /** A wave holds distinct nodes, each free to run. */
  lemma WaveMayRun(g: Graph, L: seq<Record>, status: map<string, Status>, k: nat)
    requires DistinctIds(g) && TerminalPart(status) == FinalMap(L, g) && k <= |ReadyNodes(g, status)|
    ensures DistinctNodes(ReadyNodes(g, status)[..k])
    ensures forall n :: n in ReadyNodes(g, status)[..k] ==> MayRun(g, FinalMap(L, g), n)
  {
    FilteredDistinct(g.nodes, status);
    SortedDistinct(Filtered(g.nodes, status));
    forall n | n in ReadyNodes(g, status)[..k] ensures MayRun(g, FinalMap(L, g), n) {
      assert n in ReadyNodes(g, status);
      ReadyNodesExact(g, status, n);
      StatusReads(g, L, status, n);
    }
  }

  /** The scheduler's own status map picks the wave the ledger calls for. */
  lemma WaveChosen(g: Graph, L: seq<Record>, status: map<string, Status>, size: nat)
    requires TerminalPart(status) == FinalMap(L, g)
    ensures ReadyNodes(g, status) == ReadyNodes(g, FinalMap(L, g))
    ensures var all := ReadyNodes(g, status); WaveAt(g, L, size) == all[..Min(|all|, size)]
  {
    FilteredTerminal(g.nodes, status);
    assert TerminalPart(FinalMap(L, g)) == FinalMap(L, g);
    FilteredTerminal(g.nodes, FinalMap(L, g));
  }

  lemma {:induction false} FilteredTerminal(nodes: seq<Node>, status: map<string, Status>)
    ensures Filtered(nodes, TerminalPart(status)) == Filtered(nodes, status)
  {
    if nodes != [] {
      FilteredTerminal(nodes[1..], status);
      var t, n := TerminalPart(status), nodes[0];
      assert forall d :: d in n.deps ==> (d in t && t[d] == Succeeded <==> d in status && status[d] == Succeeded);
      assert IsReady(t, n) <==> IsReady(status, n);
    }
  }

  /** With nothing blocked and nothing ready, the graph is at rest. */
  lemma NothingLeft(g: Graph, L: seq<Record>, status: map<string, Status>)
    requires DistinctIds(g) && TerminalPart(status) == FinalMap(L, g)
    requires NoneBlocked(g, FinalMap(L, g), |g.nodes|) && ReadyNodes(g, status) == []
    ensures AtRest(g, L)
  {
    forall c | c in Deps(g) && c !in FinalMap(L, g) ensures !Decided(Deps(g), FinalMap(L, g), c) {
      var n := NodeOf(g, c);
      assert n in g.nodes && n.callId == c;
      StatusReads(g, L, status, n);
      ReadyNodesExact(g, status, n);
    }
  }

  /** The volatile state a call starts from, rebuilt from the ledger alone. */
  lemma Rebuilt(g: Graph, L: seq<Record>, status: map<string, Status>, attempts: map<string, nat>)
    requires forall c :: StatusOf(L, g.id, c) == if c in status then Some(status[c]) else None
    requires forall c :: AttemptsOf(L, g.id, c) == CountOf(attempts, c)
    ensures InSync(g, L, status, attempts)
  {
  }

  /**
   The call ids are distinct and the context shows the graph as the ledger does; a graph id not yet in use has left no
   trace.
   */
  ghost predicate SoundCall(context: seq<Record>, L: seq<Record>, g: Graph) {
    DistinctIds(g) && Faithful(context, L, g) && (!HasGraph(L, g.id) ==> Blank(L, g.id))
  }

  /** Calls start in waves of the highest-ranked ready nodes, and never more than `size` of them are in flight. */
  ghost predicate Paced(g: Graph, size: nat, L0: seq<Record>, L: seq<Record>) {
    InWaves(g, size, L0, L) && WithinCap(g, |L0|, size, L)
  }

  ghost predicate Idle(g: Graph, L0: seq<Record>, L: seq<Record>) {
    Flying(g, |L0|, L) == {}
  }

  lemma PaceBegins(g: Graph, size: nat, L: seq<Record>)
    ensures Paced(g, size, L, L) && Idle(g, L, L)
  {
    CapBegins(g, size, L);
  }

  lemma PaceQuiet(g: Graph, size: nat, L0: seq<Record>, L: seq<Record>, M: seq<Record>)
    requires Paced(g, size, L0, L) && Idle(g, L0, L) && StartsNothing(L, M) && RuledFrom(g, M, |L0|)
    ensures Paced(g, size, L0, M) && Idle(g, L0, M)
  {
    hide WithinCap, Flying, RuledFrom;
    InWavesQuiet(g, size, L0, L, M);
    CapGrounded(g, |L0|, size, L, M);
  }

  lemma PaceWave(g: Graph, size: nat, wave: seq<Node>, L0: seq<Record>, L: seq<Record>, M: seq<Record>)
    requires Paced(g, size, L0, L) && Idle(g, L0, L) && L <= M
    requires wave == WaveAt(g, L, size) && WaveOnly(wave, M, |L|)
    ensures Paced(g, size, L0, M)
    ensures (forall n :: n in wave ==> n.callId in FinalMap(M, g)) ==> Idle(g, L0, M)
  {
    WaveSmall(g, L, size);
    hide WaveAt, WaveOnly, FinalMap, Flying;
    InWavesWave(g, size, L0, L, M);
    CapInWave(g, |L0|, size, wave, L, M);
    FlyingInWave(g, |L0|, wave, L, M);
    NothingFlies(g, |L0|, wave, M);
  }

  lemma WaveSmall(g: Graph, L: seq<Record>, size: nat)
    ensures |WaveAt(g, L, size)| <= size
  {
  }

  lemma NothingFlies(g: Graph, from: nat, wave: seq<Node>, M: seq<Record>)
    requires Flying(g, from, M) <= IdsOf(wave)
    ensures (forall n :: n in wave ==> n.callId in FinalMap(M, g)) ==> Flying(g, from, M) == {}
  {
    if forall n :: n in wave ==> n.callId in FinalMap(M, g) {
      forall c | c in IdsOf(wave) ensures c in FinalMap(M, g) {
        assert FindNode(wave, c).Some?;
      }
    }
  }

  lemma WaveOnlyJoin(wave: seq<Node>, running: seq<Node>, L: seq<Record>, M: seq<Record>, j: nat)
    requires WaveOnly(wave, L, j) && L <= M && WaveOnly(running, M, |L|)
    requires forall n :: n in running ==> n in wave
    ensures WaveOnly(wave, M, j)
  {
    forall k | j <= k < |M| && M[k].NodeCheckpoint? ensures OfWave(wave, M[k].checkpoint.callId) {
      if k < |L| {
        assert M[k] == L[k];
      } else {
        var n :| n in running && n.callId == M[k].checkpoint.callId;
        assert n in wave;
      }
    }
  }

  /**
   Executes a batch. Only records of this batch are appended, whatever its calls are named and however stale the
   context is; a sound call also keeps to the rules, to the order of the waves and to the cap, and ends at rest.
   */
  method ExecutePlannedCalls(
      store: LedgerStore, context: seq<Record>, triggerId: string, step: nat, calls: seq<Call>,
      approvalOverride: bool, gated: set<string>, env: SkillEnv, caps: Caps)
    returns (b: BatchExecution)
    modifies store
    ensures store.reliable ==> !b.Fault?
    ensures b.NeedsApproval? <==> !approvalOverride && exists call :: call in calls && call.name in gated
    ensures b.NeedsApproval? ==> store.records == old(store.records)
    ensures b.NeedsApproval? ==> b.pending == calls && b.skills == GatedNames(calls, gated)
    ensures
      b.NeedsApproval? ==>
        forall s :: s in b.skills <==> s in gated && exists call :: call in calls && call.name == s
    ensures
      var g := ExistingOrNewGraph(context, triggerId, step, calls);
      Batch(g, HasGraph(context, g.id), old(store.records), store.records)
    ensures b.Executed? ==> b.allFailed == forall r :: r in b.results ==> !r.output.Ok?
    ensures
      var g := ExistingOrNewGraph(context, triggerId, step, calls);
      SoundCall(context, old(store.records), g) ==>
        && Trail(g, env, old(store.records), store.records)
        && Paced(g, WaveSize(caps), old(store.records), store.records)
        && (b.Executed? ==>
              && HasGraph(store.records, g.id) && AtRest(g, store.records)
              && b.results == NewResults(env, g.nodes, FinalMap(old(store.records), g), FinalMap(store.records, g)))
    ensures
      var g := NewGraph(triggerId, step, calls);
      && MatchingGraph(context, step, CallIds(calls)).None? && !HasGraph(context, g.id)
      && SoundCall(context, old(store.records), g) ==>
        && StartsAfterDeps(calls, g.id, store.records)
        && (b.Executed? ==> CallsSettled(env, calls, g, store.records))
  {
    hide Batch, Trail, Paced, DistinctIds, Faithful, AtRest, NewResults, Idle, Blank, FinalMap, StartsAfterDeps,
         CallsSettled, NodesOf, MatchingGraph, CallIds;
    GatedNamesMeans(calls, gated);
    var g := ExistingOrNewGraph(context, triggerId, step, calls);
    ghost var L0 := store.records;
    ghost var w := Work(g, env, L0, HasGraph(context, g.id), SoundCall(context, L0, g));
    if w.sound { FaithfulReads(context, L0, g); }
    WorkBegins(w);
    KeptReads(w, L0);
    PaceBegins(g, WaveSize(caps), L0);
    if w.sound && !w.known { NovelObeyed(triggerId, step, calls, env, L0); }
    if !approvalOverride {
      var names := GatedNames(calls, gated);
      if names != [] {
        return NeedsApproval(names, calls);
      }
    }

    var status := LatestToolStatuses(context, g.id);
    var attempts := StartedAttemptCounts(context, g.id);
    var ok: bool;
    if !HasGraph(context, g.id) {
      ok := RecordGraph(store, w, g);
      KeptReads(w, store.records);
      if w.sound { PaceQuiet(g, WaveSize(caps), L0, L0, store.records); }
      if !ok { return Fault; }
    }
    if w.sound { WorkTracked(w, context, store.records, status, attempts); }
    b := RunToRest(store, w, g, step, env, caps, status, attempts);
    KeptReads(w, store.records);
  }

  /** A batch that gets a graph of its own is executed as its calls ask, however far it gets. */
  lemma NovelObeyed(triggerId: string, step: nat, calls: seq<Call>, env: SkillEnv, L0: seq<Record>)
    requires
      var g := NewGraph(triggerId, step, calls);
      DistinctIds(g) && !HasGraph(L0, g.id) && Blank(L0, g.id)
    ensures
      var g := NewGraph(triggerId, step, calls);
      forall L :: Trail(g, env, L0, L) ==>
        StartsAfterDeps(calls, g.id, L) && (AtRest(g, L) ==> CallsSettled(env, calls, g, L))
  {
    hide Trail, Lawful, AtRest, StartsAfterDeps, CallsSettled, Conforms, Blank, HasGraph;
    var g := NewGraph(triggerId, step, calls);
    DistinctByIds(triggerId, step, calls);
    hide NewGraph, DistinctIds;
    BlankLawful(g, env, L0);
    forall L | Trail(g, env, L0, L)
      ensures StartsAfterDeps(calls, g.id, L) && (AtRest(g, L) ==> CallsSettled(env, calls, g, L))
    {
      TrailLawful(g, env, L0, L);
      TrailConformsOn(g, env, L0, L);
      LawfulStarts(triggerId, step, calls, L);
      if AtRest(g, L) { LawfulSettles(env, triggerId, step, calls, L); }
    }
  }

  lemma DistinctByIds(triggerId: string, step: nat, calls: seq<Call>)
    requires DistinctIds(NewGraph(triggerId, step, calls))
    ensures DistinctCalls(calls) && NewGraph(triggerId, step, calls).id == GraphId(triggerId, step)
  {
    var nodes := NodesOf(calls);
    assert forall i :: 0 <= i < |calls| ==> nodes[i].callId == calls[i].callId;
  }

  lemma TrailConformsOn(g: Graph, env: SkillEnv, L0: seq<Record>, L: seq<Record>)
    requires Trail(g, env, L0, L) && Conforms(env, g, L0, 0)
    ensures Conforms(env, g, L, 0)
  {
    hide Conforms;
    ConformsOn(g, env, L0, L);
  }

  /** A graph id that left no trace is lawful and conforms. */
  lemma BlankLawful(g: Graph, env: SkillEnv, L: seq<Record>)
    requires !HasGraph(L, g.id) && Blank(L, g.id)
    ensures Lawful(g, L) && Conforms(env, g, L, 0)
  {
    hide Rule, OwnOutcomes;
    forall i | 0 <= i < |L|
      ensures L[i].GraphRecord? ==> L[i].graph.id != g.id
      ensures L[i].NodeCheckpoint? ==> L[i].checkpoint.graph != g.id
    {
      assert L[i] in L;
      if L[i].NodeCheckpoint? { TracedBy(L, i); }
    }
  }

  /** A checkpoint leaves its call with a status. */
  lemma {:induction false} TracedBy(L: seq<Record>, i: nat)
    requires i < |L| && L[i].NodeCheckpoint?
    ensures StatusOf(L, L[i].checkpoint.graph, L[i].checkpoint.callId).Some?
  {
    if i < |L| - 1 { TracedBy(L[..|L| - 1], i); }
  }

  lemma KeptReads(w: Work, L: seq<Record>)
    requires Kept(w, L)
    ensures Batch(w.g, w.known, w.found, L)
    ensures w.sound ==> Trail(w.g, w.env, w.found, L) && RuledFrom(w.g, L, |w.found|)
  {
  }

  lemma FaithfulReads(context: seq<Record>, L: seq<Record>, g: Graph)
    requires SoundCall(context, L, g)
    ensures DistinctIds(g) && (HasGraph(context, g.id) <==> HasGraph(L, g.id))
    ensures !HasGraph(L, g.id) ==> Blank(L, g.id)
  {
  }

  /** What the call rebuilds from its context is what the ledger says when the loop begins. */
  lemma WorkTracked(
      w: Work, context: seq<Record>, L: seq<Record>, status: map<string, Status>, attempts: map<string, nat>)
    requires SoundCall(context, w.found, w.g)
    requires if w.known then L == w.found && HasGraph(L, w.g.id) else HasGraph(L, w.g.id) && Untried(w.g, L)
    requires w.known <==> HasGraph(context, w.g.id)
    requires forall c :: StatusOf(context, w.g.id, c) == if c in status then Some(status[c]) else None
    requires forall c :: AttemptsOf(context, w.g.id, c) == CountOf(attempts, c)
    ensures Tracked(w, L, status, attempts, [])
  {
    if w.known {
      Rebuilt(w.g, L, status, attempts);
    } else {
      assert TerminalPart(status) == map[];
      assert FinalMap(w.found, w.g) == map[];
    }
  }

  /** Runs one wave to its end: every node of it is settled. */
  method RunWave(
      store: LedgerStore, ghost w: Work, g: Graph, wave: seq<Node>, step: nat, env: SkillEnv,
      status: map<string, Status>, attempts: map<string, nat>, results: seq<ToolResult>, ghost size: nat)
    returns (ok: bool, status': map<string, Status>, attempts': map<string, nat>, results': seq<ToolResult>)
    requires w.g == g && w.env == env && AllOf(g, wave)
    requires wave != [] && wave[0].callId in Left(g, status)
    requires Running(w, store.records, status, attempts, results)
    requires
      w.sound ==>
        && wave == WaveAt(g, store.records, size) && DistinctNodes(wave)
        && (forall n :: n in wave ==> MayRun(g, FinalMap(store.records, g), n))
        && Paced(g, size, w.found, store.records) && Idle(g, w.found, store.records)
    modifies store
    ensures store.reliable ==> ok
    ensures Kept(w, store.records) && old(store.records) <= store.records
    ensures ok ==> Running(w, store.records, status', attempts', results')
    ensures ok ==> Left(g, status') < Left(g, status)
    ensures w.sound ==> Paced(g, size, w.found, store.records) && (ok ==> Idle(g, w.found, store.records))
  {
    hide Running, Kept, WaveAt, Paced, Idle, Left, FinalMap, MayRun, Preparing, Aloft, DistinctNodes, InFlight,
         StartsNothing, WaveOnly;
    ghost var L := store.records;
    if w.sound { PreparingBegins(g, env, L, wave); }
    var running: seq<Node>;
    ok, running, status', attempts', results' :=
      StartWave(store, w, g, wave, step, env, status, attempts, results);
    if w.sound { PaceWave(g, size, wave, w.found, L, store.records); }
    if !ok { return; }
    ghost var M, before := store.records, status';
    if w.sound { PreparingAloft(g, env, M, wave, running); }
    ok, status', results' := JoinWave(store, w, g, running, env, status', attempts', results');
    WaveOnlyJoin(wave, running, M, store.records, |L|);
    if w.sound { PaceWave(g, size, wave, w.found, L, store.records); }
    if !ok { return; }
    WaveSettled(g, wave, running, before, status');
  }

  lemma PreparingAloft(g: Graph, env: SkillEnv, L: seq<Record>, wave: seq<Node>, running: seq<Node>)
    requires Preparing(g, env, L, wave, |wave|, running)
    ensures Aloft(g, env, L, running)
    ensures forall n :: n in wave ==> n in running || n.callId in FinalMap(L, g)
  {
    PreparingDone(g, env, L, wave, running);
  }

  lemma WaveSettled(
      g: Graph, wave: seq<Node>, running: seq<Node>, before: map<string, Status>, after: map<string, Status>)
    requires wave != [] && Covered(g, wave, running, before) && Covered(g, running, [], after)
    requires Left(g, after) <= Left(g, before)
    ensures wave[0].callId !in Left(g, after)
  {
    hide Left;
  }

  method RunToRest(
      store: LedgerStore, ghost w: Work, g: Graph, step: nat, env: SkillEnv, caps: Caps,
      status0: map<string, Status>, attempts0: map<string, nat>)
    returns (b: BatchExecution)
    requires w.g == g && w.env == env
    requires Running(w, store.records, status0, attempts0, [])
    requires w.sound ==> Paced(g, WaveSize(caps), w.found, store.records) && Idle(g, w.found, store.records)
    modifies store
    ensures store.reliable ==> !b.Fault?
    ensures !b.NeedsApproval? && Kept(w, store.records) && old(store.records) <= store.records
    ensures w.sound ==> Paced(g, WaveSize(caps), w.found, store.records)
    ensures b.Executed? ==> b.allFailed == forall r :: r in b.results ==> !r.output.Ok?
    ensures
      b.Executed? && w.sound ==>
        && HasGraph(store.records, g.id) && AtRest(g, store.records)
        && b.results == NewResults(env, g.nodes, FinalMap(w.found, g), FinalMap(store.records, g))
  {
    hide Running, Kept, FinalMap, Left, MayRun, AtRest, NoneBlocked, ReadyNodes, NewResults, DistinctIds, Paced, Idle,
         StartsNothing, DistinctNodes, WaveAt, RuledFrom;
    var status, attempts, results := status0, attempts0, [];
    var maxParallel := WaveSize(caps);
    var ok: bool;
    RunningReads(w, store.records, status, attempts, results);
    while true
      invariant old(store.records) <= store.records
      invariant Running(w, store.records, status, attempts, results)
      invariant w.sound ==> Paced(g, maxParallel, w.found, store.records) && Idle(g, w.found, store.records)
      decreases Left(g, status)
    {
      var skipped: bool;
      ghost var L := store.records;
      ok, skipped, status, results := SkipBlockedNodes(store, w, g, status, results, attempts);
      KeptReads(w, store.records);
      if w.sound { PaceQuiet(g, maxParallel, w.found, L, store.records); }
      if !ok { return Fault; }
      RunningReads(w, store.records, status, attempts, results);
      var all := ReadyNodes(g, status);
      var ready := all[..Min(|all|, AtLeastOne(caps.maxReady))];
      if ready == [] {
        if !skipped {
          if w.sound { NothingLeft(g, store.records, status); }
          break;
        }
        continue;
      }
      var size := Min(|ready|, maxParallel);
      assert ready[..size] == all[..size];
      WaveLeft(g, status, size);
      if w.sound {
        WaveMayRun(g, store.records, status, size);
        WaveChosen(g, store.records, status, maxParallel);
      }
      ok, status, attempts, results :=
        RunWave(store, w, g, ready[..size], step, env, status, attempts, results, maxParallel);
      if !ok { return Fault; }
    }
    if w.sound { TrackedReports(w, store.records, status, attempts, results); }
    var ordered := InGraphOrder(g, results, w.sound, env, FinalMap(w.found, g), FinalMap(store.records, g));
    RunningReads(w, store.records, status, attempts, results);
    return Executed(ordered, forall r | r in ordered :: !r.output.Ok?);
  }

  lemma TrackedReports(
      w: Work, L: seq<Record>, status: map<string, Status>, attempts: map<string, nat>, results: seq<ToolResult>)
    requires w.sound && Running(w, L, status, attempts, results)
    ensures Reports(w.g, w.env, FinalMap(w.found, w.g), FinalMap(L, w.g), results)
  {
  }

  /** A wave holds nodes of the graph not known to be settled. */
  lemma WaveLeft(g: Graph, status: map<string, Status>, k: nat)
    requires k <= |ReadyNodes(g, status)|
    ensures AllOf(g, ReadyNodes(g, status)[..k])
    ensures k > 0 ==> ReadyNodes(g, status)[0].callId in Left(g, status)
  {
    var all := ReadyNodes(g, status);
    forall n | n in all[..k] ensures n in g.nodes { ReadyNodesExact(g, status, n); }
    if k > 0 {
      ReadyNodesExact(g, status, all[0]);
      IdListed(g.nodes, all[0]);
    }
  }

  function Min(a: nat, b: nat): nat {
    if a < b then a else b
  }
}
