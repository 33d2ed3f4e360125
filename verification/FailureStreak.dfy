/**
 The failure streak: how many of the latest decisions called skills that all failed. The engine rebuilds it with one
 loop that cuts the current segment into windows, one per decision.
 */
module FailureStreak {
  import opened Options
  import opened Ledger
  import opened Projections

  datatype Window = Window(action: Action, results: seq<ToolResult>)

  predicate Failing(w: Window) {
    && w.action.CallSkills? && w.action.calls != []
    && |w.results| == |w.action.calls|
    && forall r :: r in w.results ==> r.output.Err?
  }

  function TrailingFailures(ws: seq<Window>): nat {
    if ws != [] && Failing(ws[|ws| - 1]) then TrailingFailures(ws[..|ws| - 1]) + 1 else 0
  }

  /** The trailing count is the length of the longest run of failing windows at the end. */
  lemma {:induction false} TrailingIsLongest(ws: seq<Window>)
    ensures var n := TrailingFailures(ws);
            && n <= |ws|
            && (forall k :: |ws| - n <= k < |ws| ==> Failing(ws[k]))
            && (n < |ws| ==> !Failing(ws[|ws| - n - 1]))
  {
    if ws != [] && Failing(ws[|ws| - 1]) {
      TrailingIsLongest(ws[..|ws| - 1]);
    }
  }

  /******* The loop *******/

  /** The windows closed so far, the action whose window is open, and the results kept for the next window. */
  datatype Cutting = Cutting(closed: seq<Window>, open: Option<Action>, results: seq<ToolResult>)

  function Cut(c: Cutting, r: Record): Cutting {
    match r
    case ModelDecision(_, action) =>
      if c.open.Some? then Cutting(c.closed + [Window(c.open.value, c.results)], Some(action), [])
      else c.(open := Some(action))
    case Deliberation =>
      if c.open.Some? then Cutting(c.closed + [Window(c.open.value, c.results)], None, []) else c
    case ResultRecord(result) => c.(results := c.results + [result])
    case _ => c
  }

  function CutAll(S: seq<Record>): Cutting {
    if S == [] then Cutting([], None, []) else Cut(CutAll(S[..|S| - 1]), S[|S| - 1])
  }

  /** The windows the loop ends with. */
  function CodeWindows(S: seq<Record>): seq<Window> {
    var c := CutAll(S);
    if c.open.Some? then c.closed + [Window(c.open.value, c.results)] else c.closed
  }

  function ConsecutiveFailures(L: seq<Record>): nat {
    TrailingFailures(CodeWindows(SinceOutcome(L)))
  }

  method CurrentConsecutiveToolFailureSteps(L: seq<Record>) returns (trailing: nat)
    ensures trailing == ConsecutiveFailures(L)
  {
    var windows := CutWindows(SinceOutcome(L));
    trailing := 0;
    var k: nat := |windows|;
    assert windows[..k] == windows;
    while k > 0 && Failing(windows[k - 1])
      invariant k <= |windows|
      invariant TrailingFailures(windows) == trailing + TrailingFailures(windows[..k])
    {
      assert windows[..k][..k - 1] == windows[..k - 1];
      trailing, k := trailing + 1, k - 1;
    }
  }

  method CutWindows(S: seq<Record>) returns (windows: seq<Window>)
    ensures windows == CodeWindows(S)
  {
    var open: Option<Action>, results: seq<ToolResult> := None, [];
    windows := [];
    for i := 0 to |S|
      invariant CutAll(S[..i]) == Cutting(windows, open, results)
    {
      assert S[..i + 1][..i] == S[..i];
      match S[i]
      case ModelDecision(_, action) =>
        if open.Some? {
          windows := windows + [Window(open.value, results)];
          results := [];
        }
        open := Some(action);
      case Deliberation =>
        if open.Some? {
          windows := windows + [Window(open.value, results)];
          results := [];
        }
        open := None;
      case ResultRecord(result) =>
        results := results + [result];
      case _ =>
    }
    assert S[..|S|] == S;
    if open.Some? {
      windows := windows + [Window(open.value, results)];
    }
  }

  /******* The reference: positions *******/

  /** The positions of the decisions, in order. */
  function Decisions(S: seq<Record>): (at: seq<nat>)
    ensures forall k :: 0 <= k < |at| ==> at[k] < |S| && S[at[k]].ModelDecision?
  {
    if S == [] then []
    else
      var before := Decisions(S[..|S| - 1]);
      assert forall k :: 0 <= k < |before| ==> S[before[k]] == S[..|S| - 1][before[k]];
      before + if S[|S| - 1].ModelDecision? then [|S| - 1] else []
  }

  /** The first decision or deliberation at or after `i`, or the end. */
  function NextStep(S: seq<Record>, i: nat): (j: nat)
    requires i <= |S|
    ensures i <= j <= |S|
    decreases |S| - i
  {
    if i == |S| || IsStep(S[i]) then i else NextStep(S, i + 1)
  }

  function ResultsIn(S: seq<Record>): seq<ToolResult> {
    if S == [] then []
    else ResultsIn(S[..|S| - 1]) + if S[|S| - 1].ResultRecord? then [S[|S| - 1].result] else []
  }

  /** The results recorded after the decision at `p` and before the next decision or deliberation. */
  function OwnResults(S: seq<Record>, p: nat): seq<ToolResult>
    requires p < |S|
  {
    ResultsIn(S[p + 1..NextStep(S, p + 1)])
  }

  function OwnWindow(S: seq<Record>, p: nat): Window
    requires p < |S| && S[p].ModelDecision?
  {
    Window(S[p].action, OwnResults(S, p))
  }

  /** One window per decision, holding the results that follow it. */
  function OwnWindows(S: seq<Record>): seq<Window> {
    var at := Decisions(S);
    seq(|at|, k requires 0 <= k < |at| => OwnWindow(S, at[k]))
  }

  /** The latest decision or deliberation is a decision. */
  predicate Open(S: seq<Record>) {
    if S == [] then false
    else if IsStep(S[|S| - 1]) then S[|S| - 1].ModelDecision?
    else Open(S[..|S| - 1])
  }

  /** No result that belongs to no open decision is followed by a decision. */
  ghost predicate NoStrays(S: seq<Record>) {
    forall i, p :: 0 <= i < p < |S| && S[i].ResultRecord? && S[p].ModelDecision? ==> Open(S[..i])
  }

  /** The results waiting, with no decision open, for the next decision to pick them up. */
  function Strays(S: seq<Record>): seq<ToolResult> {
    if S == [] || Open(S) then []
    else Strays(S[..|S| - 1]) + if S[|S| - 1].ResultRecord? then [S[|S| - 1].result] else []
  }

  lemma {:induction false} NextStepAppend(S: seq<Record>, r: Record, i: nat)
    requires i <= |S|
    ensures NextStep(S + [r], i)
         == if NextStep(S, i) < |S| then NextStep(S, i) else if IsStep(r) then |S| else |S| + 1
    decreases |S| - i
  {
    if i < |S| && !IsStep(S[i]) {
      NextStepAppend(S, r, i + 1);
    }
  }

  lemma OwnResultsAppend(S: seq<Record>, r: Record, p: nat)
    requires p < |S|
    ensures OwnResults(S + [r], p)
         == OwnResults(S, p) + if NextStep(S, p + 1) == |S| && r.ResultRecord? then [r.result] else []
  {
    NextStepAppend(S, r, p + 1);
    var j := NextStep(S, p + 1);
    if j < |S| || IsStep(r) {
      assert (S + [r])[p + 1..j] == S[p + 1..j];
    } else {
      var own := (S + [r])[p + 1..|S| + 1];
      assert own[..|own| - 1] == S[p + 1..|S|];
    }
  }

  /** What the loop's window for the decision at `p` holds: the strays before it, then its own results. */
  function CodeWindow(S: seq<Record>, p: nat): Window
    requires p < |S| && S[p].ModelDecision?
  {
    Window(S[p].action, Strays(S[..p]) + OwnResults(S, p))
  }

  /** How the loop's state relates to the positions of the decisions. */
  ghost predicate CutMatches(S: seq<Record>, c: Cutting) {
    var at := Decisions(S);
    && (Open(S) <==> c.open.Some?)
    && |at| == |c.closed| + (if Open(S) then 1 else 0)
    && (forall k :: 0 <= k < |c.closed| ==> c.closed[k] == CodeWindow(S, at[k]) && NextStep(S, at[k] + 1) < |S|)
    && (if Open(S)
        then NextStep(S, at[|at| - 1] + 1) == |S| && Window(c.open.value, c.results) == CodeWindow(S, at[|at| - 1])
        else c.results == Strays(S))
  }

  /** What one more record does to the window of an earlier decision. */
  lemma WindowAppend(P: seq<Record>, r: Record, p: nat)
    requires p < |P| && P[p].ModelDecision?
    ensures (P + [r])[p] == P[p]
    ensures
      if NextStep(P, p + 1) < |P| then
        CodeWindow(P + [r], p) == CodeWindow(P, p) && NextStep(P + [r], p + 1) < |P|
      else
        && CodeWindow(P + [r], p).action == CodeWindow(P, p).action
        && CodeWindow(P + [r], p).results
           == CodeWindow(P, p).results + (if r.ResultRecord? then [r.result] else [])
        && NextStep(P + [r], p + 1) == if IsStep(r) then |P| else |P| + 1
  {
    var S := P + [r];
    assert S[..p] == P[..p];
    NextStepAppend(P, r, p + 1);
    OwnResultsAppend(P, r, p);
    var strays, own := Strays(P[..p]), OwnResults(P, p);
    if NextStep(P, p + 1) == |P| && r.ResultRecord? {
      assert strays + (own + [r.result]) == (strays + own) + [r.result];
    }
  }

  /** A decision just recorded has the strays before it and no results of its own. */
  lemma NewWindow(P: seq<Record>, r: Record)
    requires r.ModelDecision?
    ensures CodeWindow(P + [r], |P|) == Window(r.action, Strays(P)) && NextStep(P + [r], |P| + 1) == |P| + 1
  {
    var S := P + [r];
    assert S[..|P|] == P && NextStep(S, |S|) == |S|;
    assert OwnResults(S, |P|) == [] by {
      assert S[|S|..|S|] == [];
    }
  }

  lemma {:induction false} CutAllMatches(S: seq<Record>)
    ensures CutMatches(S, CutAll(S))
  {
    if S != [] {
      var P, r := S[..|S| - 1], S[|S| - 1];
      assert S == P + [r];
      CutAllMatches(P);
      CutStep(P, r, CutAll(P));
    }
  }

  lemma Appended(P: seq<Record>, r: Record)
    ensures Decisions(P + [r]) == Decisions(P) + if r.ModelDecision? then [|P|] else []
    ensures Open(P + [r]) == if IsStep(r) then r.ModelDecision? else Open(P)
    ensures Open(P) ==> Strays(P) == []
    ensures Strays(P + [r])
         == if Open(P + [r]) then [] else Strays(P) + if r.ResultRecord? then [r.result] else []
  {
    assert (P + [r])[..|P|] == P;
  }

  /** One more record leaves the closed windows as they are. */
  lemma ClosedKept(P: seq<Record>, r: Record, c: Cutting)
    requires CutMatches(P, c)
    ensures |c.closed| <= |Decisions(P)| <= |Decisions(P + [r])|
    ensures
      forall k :: 0 <= k < |c.closed| ==>
        && Decisions(P + [r])[k] == Decisions(P)[k]
        && c.closed[k] == CodeWindow(P + [r], Decisions(P)[k])
        && NextStep(P + [r], Decisions(P)[k] + 1) < |P| + 1
  {
    hide CodeWindow, NextStep, Decisions, Open, Strays;
    var at := Decisions(P);
    Appended(P, r);
    forall k | 0 <= k < |c.closed|
      ensures (P + [r])[at[k]] == P[at[k]] && CodeWindow(P + [r], at[k]) == c.closed[k]
      ensures NextStep(P + [r], at[k] + 1) < |P| + 1
    {
      WindowAppend(P, r, at[k]);
    }
  }

  lemma CutStep(P: seq<Record>, r: Record, c: Cutting)
    requires CutMatches(P, c)
    ensures CutMatches(P + [r], Cut(c, r))
  {
    hide CodeWindow, NextStep, Decisions, Open, Strays;
    var at, S := Decisions(P), P + [r];
    Appended(P, r);
    ClosedKept(P, r, c);
    if Open(P) { WindowAppend(P, r, at[|at| - 1]); }
    if r.ModelDecision? {
      NewWindow(P, r);
      assert Decisions(S)[|at|] == |P|;
    }
    if Open(P) && IsStep(r) {
      assert Cut(c, r).closed[|c.closed|] == CodeWindow(S, at[|at| - 1]);
    }
  }

  /** The loop's windows are those of the decisions, each opened by the strays before its decision. */
  lemma CodeWindowsExact(S: seq<Record>)
    ensures |CodeWindows(S)| == |Decisions(S)|
    ensures forall k :: 0 <= k < |Decisions(S)| ==> CodeWindows(S)[k] == CodeWindow(S, Decisions(S)[k])
  {
    hide CodeWindow, NextStep, Decisions, Open, Strays, CutAll;
    CutAllMatches(S);
  }

  /** No decision opens with strays. */
  ghost predicate CleanDecisions(S: seq<Record>) {
    forall p :: 0 <= p < |S| && S[p].ModelDecision? ==> Strays(S[..p]) == []
  }

  lemma {:induction false} NoneStray(T: seq<Record>)
    requires forall i :: 0 <= i < |T| && T[i].ResultRecord? ==> Open(T[..i])
    ensures Strays(T) == []
  {
    if T != [] {
      var P := T[..|T| - 1];
      forall i | 0 <= i < |P| && P[i].ResultRecord? ensures Open(P[..i]) {
        assert T[..i] == P[..i];
      }
      NoneStray(P);
    }
  }

  /** A stray result waits as long as no decision comes. */
  lemma {:induction false} StrayWaits(S: seq<Record>, i: nat, j: nat)
    requires i < j <= |S| && S[i].ResultRecord? && !Open(S[..i])
    requires forall k :: i < k < j ==> !S[k].ModelDecision?
    ensures !Open(S[..j]) && Strays(S[..j]) != []
  {
    assert S[..j] == S[..j - 1] + [S[j - 1]];
    Appended(S[..j - 1], S[j - 1]);
    if i + 1 < j { StrayWaits(S, i, j - 1); }
  }

  lemma {:induction false} DecisionAfterStray(S: seq<Record>, i: nat, p: nat)
    requires CleanDecisions(S) && i < p < |S| && S[i].ResultRecord? && S[p].ModelDecision?
    ensures Open(S[..i])
    decreases p
  {
    if q :| i < q < p && S[q].ModelDecision? {
      DecisionAfterStray(S, i, q);
    } else if !Open(S[..i]) {
      StrayWaits(S, i, p);
    }
  }

  lemma CleanIffNoStrays(S: seq<Record>)
    ensures CleanDecisions(S) <==> NoStrays(S)
  {
    if CleanDecisions(S) {
      forall i, p | 0 <= i < p < |S| && S[i].ResultRecord? && S[p].ModelDecision? ensures Open(S[..i]) {
        DecisionAfterStray(S, i, p);
      }
    }
    if NoStrays(S) {
      forall p | 0 <= p < |S| && S[p].ModelDecision? ensures Strays(S[..p]) == [] {
        forall i | 0 <= i < p && S[..p][i].ResultRecord? ensures Open(S[..p][..i]) {
          assert S[..p][..i] == S[..i];
        }
        NoneStray(S[..p]);
      }
    }
  }

  lemma {:induction false} DecisionListed(S: seq<Record>, p: nat)
    requires p < |S| && S[p].ModelDecision?
    ensures p in Decisions(S)
  {
    if p < |S| - 1 {
      DecisionListed(S[..|S| - 1], p);
      var before := Decisions(S[..|S| - 1]);
      var k :| 0 <= k < |before| && before[k] == p;
      assert Decisions(S)[k] == p;
    } else {
      assert Decisions(S)[|Decisions(S)| - 1] == p;
    }
  }

  /**
   The loop cuts the segment into the decisions' own windows exactly when no result that belongs to no open decision
   is followed by a decision.
   */
  lemma WindowsExactIff(S: seq<Record>)
    ensures CodeWindows(S) == OwnWindows(S) <==> NoStrays(S)
  {
    var at := Decisions(S);
    CodeWindowsExact(S);
    CleanIffNoStrays(S);
    if CodeWindows(S) == OwnWindows(S) {
      forall p | 0 <= p < |S| && S[p].ModelDecision? ensures Strays(S[..p]) == [] {
        DecisionListed(S, p);
        var k :| 0 <= k < |at| && at[k] == p;
        assert CodeWindows(S)[k] == CodeWindow(S, p) && OwnWindows(S)[k] == OwnWindow(S, p);
        assert |Strays(S[..p]) + OwnResults(S, p)| == |OwnResults(S, p)|;
      }
    }
    if CleanDecisions(S) {
      forall k | 0 <= k < |at| ensures CodeWindows(S)[k] == OwnWindows(S)[k] {
        assert Strays(S[..at[k]]) == [];
        assert [] + OwnResults(S, at[k]) == OwnResults(S, at[k]);
      }
    }
  }

  /** The decision called at least one skill, and got one result per call, each an error. */
  ghost predicate EveryCallFailed(w: Window) {
    exists calls ::
      && w.action == CallSkills(calls) && 0 < |calls| == |w.results|
      && forall i :: 0 <= i < |calls| ==> w.results[i].output != Ok
  }

  lemma FailingMeans(w: Window)
    ensures Failing(w) <==> EveryCallFailed(w)
  {
    if Failing(w) {
      assert w.action == CallSkills(w.action.calls);
      forall i | 0 <= i < |w.action.calls| ensures w.results[i].output != Ok { assert w.results[i] in w.results; }
    }
  }

  /**
   On a ledger whose current segment has no strays, the streak is the longest run of latest decisions that each
   called skills and got one failed result per call.
   */
  lemma StreakIsLongestRun(L: seq<Record>)
    requires NoStrays(SinceOutcome(L))
    ensures var own, n := OwnWindows(SinceOutcome(L)), ConsecutiveFailures(L);
            && n <= |own|
            && (forall k :: |own| - n <= k < |own| ==> EveryCallFailed(own[k]))
            && (n < |own| ==> !EveryCallFailed(own[|own| - n - 1]))
  {
    hide SinceOutcome, OwnWindows, CodeWindows, NoStrays, TrailingFailures, Failing, EveryCallFailed;
    WindowsExactIff(SinceOutcome(L));
    TrailingIsLongest(OwnWindows(SinceOutcome(L)));
    forall w { FailingMeans(w); }
  }

  /** The last `n` decisions of the current segment each called skills and got one failed result per call. */
  ghost predicate LastFailed(L: seq<Record>, n: nat) {
    var own := OwnWindows(SinceOutcome(L));
    n <= |own| && forall k :: |own| - n <= k < |own| ==> EveryCallFailed(own[k])
  }

  /** Without strays, the streak reaches a limit exactly when that many latest decisions failed. */
  lemma StreakReaches(L: seq<Record>, n: nat)
    requires NoStrays(SinceOutcome(L))
    ensures ConsecutiveFailures(L) >= n <==> LastFailed(L, n)
  {
    hide SinceOutcome, OwnWindows, CodeWindows, NoStrays, ConsecutiveFailures, EveryCallFailed;
    StreakIsLongestRun(L);
  }

  /** A record that is no outcome, no step and no result leaves the streak as it is. */
  lemma StreakQuiet(L: seq<Record>, r: Record)
    requires !r.OutcomeEntry? && !r.ModelDecision? && !r.Deliberation? && !r.ResultRecord?
    ensures ConsecutiveFailures(L + [r]) == ConsecutiveFailures(L)
  {
    SinceOutcomeAppend(L, r);
    var S := SinceOutcome(L);
    assert (S + [r])[..|S|] == S;
  }

  /** On every ledger the streak is at most the step count. */
  lemma StreakAtMostSteps(L: seq<Record>)
    ensures ConsecutiveFailures(L) <= CurrentStepCount(L)
  {
    var S := SinceOutcome(L);
    CodeWindowsExact(S);
    TrailingIsLongest(CodeWindows(S));
    DecisionsAreSteps(S);
  }

  lemma {:induction false} DecisionsAreSteps(S: seq<Record>)
    ensures |Decisions(S)| <= CountSteps(S)
  {
    if S != [] { DecisionsAreSteps(S[..|S| - 1]); }
  }

  /**
   The strays matter: after an approval resume the failed results of the resumed calls stand before the first
   decision, and the failed step that follows is not counted.
   */
  lemma StrayHidesFailure(call: Call, resumed: ToolResult, own: ToolResult, step: nat)
    requires resumed.output.Err? && own.output.Err?
    ensures var S := [ResultRecord(resumed), ModelDecision(step, CallSkills([call])), ResultRecord(own)];
            && TrailingFailures(OwnWindows(S)) == 1
            && TrailingFailures(CodeWindows(S)) == 0
  {
    var d, r := ModelDecision(step, CallSkills([call])), ResultRecord(own);
    var S1, S2 := [ResultRecord(resumed)], [ResultRecord(resumed), d];
    var S := [ResultRecord(resumed), d, r];
    assert S[..2] == S2 && S2[..1] == S1 && S1[..0] == [];
    assert CutAll(S1) == Cutting([], None, [resumed]);
    assert CutAll(S2) == Cutting([], Some(CallSkills([call])), [resumed]);
    assert CutAll(S) == Cutting([], Some(CallSkills([call])), [resumed, own]);
    assert Decisions(S1) == [] && Decisions(S2) == [1] && Decisions(S) == [1];
    assert NextStep(S, 2) == 3;
    assert S[2..3] == [r];
    assert ResultsIn([r]) == [own];
    assert OwnWindows(S) == [Window(CallSkills([call]), [own])];
  }
}
