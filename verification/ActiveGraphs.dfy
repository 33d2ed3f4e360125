/** The graph a continuation resumes, found by counting terminal checkpoints since the last outcome. */
module ActiveGraphs {
  import opened Options
  import opened Ledger
  import opened Evaluation
  import opened ToolGraphs
  import opened Batches
  import opened Scheduler
  import opened Projections

  function LastGraph(S: seq<Record>): Option<Graph> {
    if S == [] then None
    else if S[|S| - 1].GraphRecord? then Some(S[|S| - 1].graph)
    else LastGraph(S[..|S| - 1])
  }

  /** The calls with a terminal checkpoint under a graph id. */
  function TerminalIds(S: seq<Record>, id: GraphId): set<string> {
    if S == [] then {}
    else
      var last := S[|S| - 1];
      TerminalIds(S[..|S| - 1], id)
      + if last.NodeCheckpoint? && last.checkpoint.graph == id && last.checkpoint.status.Terminal()
        then {last.checkpoint.callId} else {}
  }

  /** The last graph since the last outcome, if fewer calls than nodes have a terminal checkpoint. */
  function ActiveGraph(L: seq<Record>): Option<Graph> {
    var S := SinceOutcome(L);
    var g := LastGraph(S);
    if g.None? then None
    else if |TerminalIds(S, g.value.id)| < |g.value.nodes| then g
    else None
  }

  /** The calls a graph was made of, as a continuation rebuilds them. */
  function CallsOf(g: Graph): seq<Call> {
    seq(|g.nodes|, i requires 0 <= i < |g.nodes| =>
      Call(g.nodes[i].callId, g.nodes[i].skill, g.nodes[i].payload, g.nodes[i].priority, g.nodes[i].deps))
  }

  /** Planning calls and rebuilding them from their graph gives the same calls. */
  lemma CallsRebuilt(triggerId: string, step: nat, calls: seq<Call>)
    ensures CallsOf(NewGraph(triggerId, step, calls)) == calls
  {
  }

  /** Rebuilding the calls of a planned graph and planning them gives the same nodes. */
  lemma NodesRebuilt(g: Graph, calls: seq<Call>)
    requires g.nodes == NodesOf(calls)
    ensures NodesOf(CallsOf(g)) == g.nodes
  {
  }

  lemma {:induction false} SameIds(a: seq<Node>, b: seq<Node>)
    requires |a| == |b| && forall i :: 0 <= i < |a| ==> a[i].callId == b[i].callId
    ensures IdsOf(a) == IdsOf(b)
  {
    if a != [] { SameIds(a[1..], b[1..]); }
  }

  /** A continuation that looks the rebuilt calls up finds the active graph itself. */
  lemma RebuiltFindsGraph(L: seq<Record>, g: Graph, triggerId: string)
    requires ActiveGraph(L) == Some(g)
    ensures ExistingOrNewGraph(L, triggerId, g.step, CallsOf(g)) == g
  {
    SameIds(NodesOf(CallsOf(g)), g.nodes);
    SegmentGraphIsLast(L);
    LastMatches(L, g);
  }

  lemma {:induction false} SegmentGraphIsLast(L: seq<Record>)
    ensures LastGraph(SinceOutcome(L)).Some? ==> LastGraph(L) == LastGraph(SinceOutcome(L))
  {
    if L != [] && !L[|L| - 1].OutcomeEntry? {
      SegmentGraphIsLast(L[..|L| - 1]);
      var S := SinceOutcome(L);
      assert S[..|S| - 1] == SinceOutcome(L[..|L| - 1]);
    }
  }

  lemma {:induction false} LastMatches(L: seq<Record>, g: Graph)
    requires LastGraph(L) == Some(g)
    ensures MatchingGraph(L, g.step, Ids(g)) == Some(g)
  {
    if !L[|L| - 1].GraphRecord? { LastMatches(L[..|L| - 1], g); }
  }

  /******* Counting is exact *******/

  ghost predicate RecordedOnce(L: seq<Record>, g: Graph) {
    forall i, j :: 0 <= i < j < |L| ==> !(L[i] == GraphRecord(g) && L[j] == GraphRecord(g))
  }

  lemma {:induction false} LastGraphRecorded(S: seq<Record>)
    ensures LastGraph(S).Some? ==> Recorded(S, LastGraph(S).value)
  {
    if S != [] {
      LastGraphRecorded(S[..|S| - 1]);
      assert S == S[..|S| - 1] + [S[|S| - 1]];
    }
  }

  /** The current segment is a suffix of the ledger. */
  lemma {:induction false} SegmentIsSuffix(L: seq<Record>)
    ensures |SinceOutcome(L)| <= |L| && SinceOutcome(L) == L[|L| - |SinceOutcome(L)|..]
  {
    if L != [] && !L[|L| - 1].OutcomeEntry? {
      SegmentIsSuffix(L[..|L| - 1]);
    }
  }

  lemma {:induction false} TerminalIdsExact(S: seq<Record>, id: GraphId, c: string)
    ensures c in TerminalIds(S, id) <==>
      exists i :: 0 <= i < |S| && IsCheckpointOf(S[i], id, c) && S[i].checkpoint.status.Terminal()
  {
    if S != [] { TerminalIdsExact(S[..|S| - 1], id, c); }
  }

  lemma {:induction false} DistinctIdsCount(nodes: seq<Node>)
    requires DistinctNodes(nodes)
    ensures |IdsOf(nodes)| == |nodes|
  {
    if nodes != [] {
      DistinctIdsCount(nodes[1..]);
      assert FindNode(nodes[1..], nodes[0].callId).None?;
    }
  }

  /** A call has a terminal checkpoint in the segment that recorded its graph exactly when the ledger settled it. */
  lemma TerminalInSegment(L: seq<Record>, g: Graph, c: string)
    requires Lawful(g, L) && RecordedOnce(L, g) && Recorded(SinceOutcome(L), g)
    ensures c in TerminalIds(SinceOutcome(L), g.id) <==> c in FinalMap(L, g)
  {
    var S := SinceOutcome(L);
    TerminalIdsExact(S, g.id, c);
    SegmentIsSuffix(L);
    hide TerminalIds, SinceOutcome, FinalMap, Lawful, RecordedOnce;
    if c in FinalMap(L, g) {
      var i := TerminalAfterGraph(L, g, c, |L| - |S|);
      assert S[i - (|L| - |S|)] == L[i];
    }
    if i :| 0 <= i < |S| && IsCheckpointOf(S[i], g.id, c) && S[i].checkpoint.status.Terminal() {
      assert L[|L| - |S| + i] == S[i];
      TerminalSettles(g, L, |L| - |S| + i, c);
    }
  }

  /** When the only record of the graph stands at or after `k`, so does every terminal checkpoint of it. */
  lemma TerminalAfterGraph(L: seq<Record>, g: Graph, c: string, k: nat) returns (i: nat)
    requires Lawful(g, L) && RecordedOnce(L, g) && k <= |L| && Recorded(L[k..], g)
    requires c in FinalMap(L, g)
    ensures k <= i < |L| && IsCheckpointOf(L[i], g.id, c) && L[i].checkpoint.status.Terminal()
  {
    i := FinalWitness(L, g.id, c);
    assert AfterRecord(g, L, i);
    hide Rule, FinalMap, Lawful;
    var j :| 0 <= j < |L[k..]| && L[k..][j] == GraphRecord(g);
    var j' :| 0 <= j' < |L[..i]| && L[..i][j'] == GraphRecord(g);
    assert L[k + j] == GraphRecord(g) && L[j'] == GraphRecord(g);
  }

  /** A terminal checkpoint settles its call for the rest of the ledger. */
  lemma TerminalSettles(g: Graph, L: seq<Record>, i: nat, c: string)
    requires Lawful(g, L) && i < |L| && IsCheckpointOf(L[i], g.id, c) && L[i].checkpoint.status.Terminal()
    ensures c in FinalMap(L, g)
  {
    assert RuleAt(g, L, i);
    assert L[..i + 1] == L[..i] + [L[i]] && L[..|L|] == L;
    StatusOfAppend(L[..i], L[i], g.id, c);
    FinalPersists(g, L, i + 1, |L|, c);
  }

  /**
   Although it only compares two counts, the look-up returns the last graph since the last outcome exactly when one
   of its nodes has no terminal checkpoint.
   */
  lemma ActiveIffUnfinished(L: seq<Record>, g: Graph)
    requires LastGraph(SinceOutcome(L)) == Some(g)
    requires DistinctIds(g) && Lawful(g, L) && RecordedOnce(L, g)
    ensures ActiveGraph(L) == Some(g) <==> exists n :: n in g.nodes && Final(L, g.id, n.callId).None?
  {
    var S := SinceOutcome(L);
    LastGraphRecorded(S);
    var settled, terminal := FinalMap(L, g).Keys, TerminalIds(S, g.id);
    forall c ensures c in terminal <==> c in settled {
      TerminalInSegment(L, g, c);
    }
    LawfulWithin(g, L);
    assert terminal == settled <= Ids(g);
    DistinctIdsCount(g.nodes);
    if terminal == Ids(g) {
      forall n | n in g.nodes ensures Final(L, g.id, n.callId).Some? {
        NodeOfUnique(g, n);
        assert n.callId in settled;
      }
    } else {
      ProperSubsetSize(terminal, Ids(g));
      var c :| c in Ids(g) && c !in terminal;
      assert NodeOf(g, c) in g.nodes && NodeOf(g, c).callId == c;
      assert c !in FinalMap(L, g);
    }
  }
}
