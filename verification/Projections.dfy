/** What the engine reads back from a session ledger before each advance. */
module Projections {
  import opened Options
  import opened Policies
  import opened Ledger

  /******* The current segment *******/

  /** The records after the last outcome. */
  function SinceOutcome(L: seq<Record>): seq<Record> {
    if L == [] || L[|L| - 1].OutcomeEntry? then []
    else SinceOutcome(L[..|L| - 1]) + [L[|L| - 1]]
  }

  function FirstTrigger(S: seq<Record>): Option<TriggerRecord> {
    if S == [] then None
    else if S[0].Trigger? then Some(S[0].trigger)
    else FirstTrigger(S[1..])
  }

  function ActiveTrigger(L: seq<Record>): Option<TriggerRecord> {
    FirstTrigger(SinceOutcome(L))
  }

  predicate IsStep(r: Record) {
    r.ModelDecision? || r.Deliberation?
  }

  function CountSteps(S: seq<Record>): nat {
    if S == [] then 0 else CountSteps(S[..|S| - 1]) + if IsStep(S[|S| - 1]) then 1 else 0
  }

  function CurrentStepCount(L: seq<Record>): nat {
    CountSteps(SinceOutcome(L))
  }

  lemma SinceOutcomeAppend(L: seq<Record>, r: Record)
    ensures SinceOutcome(L + [r]) == if r.OutcomeEntry? then [] else SinceOutcome(L) + [r]
  {
    assert (L + [r])[..|L|] == L;
  }

  lemma {:induction false} FirstTriggerAppend(S: seq<Record>, r: Record)
    ensures FirstTrigger(S + [r])
         == if FirstTrigger(S).Some? then FirstTrigger(S) else if r.Trigger? then Some(r.trigger) else None
  {
    if S != [] {
      assert (S + [r])[1..] == S[1..] + [r];
      FirstTriggerAppend(S[1..], r);
    }
  }

  lemma ActiveTriggerAppend(L: seq<Record>, r: Record)
    ensures ActiveTrigger(L + [r])
         == if r.OutcomeEntry? then None
            else if ActiveTrigger(L).Some? then ActiveTrigger(L)
            else if r.Trigger? then Some(r.trigger) else None
  {
    SinceOutcomeAppend(L, r);
    FirstTriggerAppend(SinceOutcome(L), r);
  }

  /** A decision or a deliberation counts one step, an outcome starts the count anew, no other record matters. */
  lemma StepCountAppend(L: seq<Record>, r: Record)
    ensures CurrentStepCount(L + [r])
         == if r.OutcomeEntry? then 0
            else CurrentStepCount(L) + if r.ModelDecision? || r.Deliberation? then 1 else 0
    ensures IsStep(r) <==> r.ModelDecision? || r.Deliberation?
  {
    SinceOutcomeAppend(L, r);
    var S := SinceOutcome(L);
    assert (S + [r])[..|S|] == S;
  }

  /******* Look-ups *******/

  /** The latest outcome recorded under an idempotency key. */
  function OutcomeByKey(L: seq<Record>, key: string): Option<OutcomeRecord> {
    if L == [] then None
    else
      var last := L[|L| - 1];
      if last.OutcomeEntry? && last.outcome.key == Some(key) then Some(last.outcome)
      else OutcomeByKey(L[..|L| - 1], key)
  }

  /** The latest pending record of a resume token that no later resolution closed. */
  function PendingByToken(L: seq<Record>, token: string): Option<PendingApproval> {
    if L == [] then None
    else
      var last := L[|L| - 1];
      if last.Pending? && last.approval.token == token then Some(last.approval)
      else if last.Resolution? && last.token == token then None
      else PendingByToken(L[..|L| - 1], token)
  }

  method FindPendingByToken(L: seq<Record>, token: string) returns (pending: Option<PendingApproval>)
    ensures pending == PendingByToken(L, token)
  {
    pending := None;
    for i := 0 to |L|
      invariant pending == PendingByToken(L[..i], token)
    {
      assert L[..i + 1][..i] == L[..i];
      if L[i].Pending? && L[i].approval.token == token {
        pending := Some(L[i].approval);
      } else if L[i].Resolution? && L[i].token == token {
        pending := None;
      }
    }
    assert L[..|L|] == L;
  }

  function FirstResolution(L: seq<Record>, token: string): Option<Decision> {
    if L == [] then None
    else if L[0].Resolution? && L[0].token == token then Some(L[0].decision)
    else FirstResolution(L[1..], token)
  }

  function FirstPending(L: seq<Record>, token: string): Option<PendingApproval> {
    if L == [] then None
    else if L[0].Pending? && L[0].approval.token == token then Some(L[0].approval)
    else FirstPending(L[1..], token)
  }

  function CountOutcomes(L: seq<Record>): nat {
    if L == [] then 0 else CountOutcomes(L[..|L| - 1]) + if L[|L| - 1].OutcomeEntry? then 1 else 0
  }

  function OutcomePositions(L: seq<Record>): set<nat> {
    set i: nat | i < |L| && L[i].OutcomeEntry?
  }

  /** The count is the number of positions that hold an outcome. */
  lemma {:induction false} CountOutcomesExact(L: seq<Record>)
    ensures CountOutcomes(L) == |OutcomePositions(L)|
  {
    if L != [] {
      var P, n := L[..|L| - 1], |L| - 1;
      CountOutcomesExact(P);
      assert OutcomePositions(L) == OutcomePositions(P) + if L[n].OutcomeEntry? then {n} else {};
    }
  }

  lemma CountOutcomesAppend(L: seq<Record>, r: Record)
    ensures CountOutcomes(L + [r]) == CountOutcomes(L) + if r.OutcomeEntry? then 1 else 0
  {
    assert (L + [r])[..|L|] == L;
  }

  /** The tuning records of a ledger, oldest first. */
  function Tunings(L: seq<Record>): seq<Tuning> {
    if L == [] then []
    else
      var before := Tunings(L[..|L| - 1]);
      if L[|L| - 1].PolicyTuning? then before + [L[|L| - 1].tuning] else before
  }

  lemma TuningsAppend(L: seq<Record>, r: Record)
    ensures Tunings(L + [r]) == if r.PolicyTuning? then Tunings(L) + [r.tuning] else Tunings(L)
  {
    assert (L + [r])[..|L|] == L;
  }

  lemma {:induction false} OutcomeByKeyWitness(L: seq<Record>, key: string)
    ensures OutcomeByKey(L, key).Some? <==> exists r :: r in L && r.OutcomeEntry? && r.outcome.key == Some(key)
    ensures
      OutcomeByKey(L, key).Some? ==>
        OutcomeEntry(OutcomeByKey(L, key).value) in L && OutcomeByKey(L, key).value.key == Some(key)
  {
    if L != [] {
      OutcomeByKeyWitness(L[..|L| - 1], key);
      assert L == L[..|L| - 1] + [L[|L| - 1]];
    }
  }

  /** The outcome found under a key is the latest one recorded with that key. */
  lemma {:induction false} OutcomeByKeyLatest(L: seq<Record>, key: string) returns (i: nat)
    requires OutcomeByKey(L, key).Some?
    ensures i < |L| && L[i] == OutcomeEntry(OutcomeByKey(L, key).value) && L[i].outcome.key == Some(key)
    ensures forall j :: i < j < |L| && L[j].OutcomeEntry? ==> L[j].outcome.key != Some(key)
  {
    var last := L[|L| - 1];
    if last.OutcomeEntry? && last.outcome.key == Some(key) {
      i := |L| - 1;
    } else {
      i := OutcomeByKeyLatest(L[..|L| - 1], key);
    }
  }

  lemma {:induction false} PendingByTokenWitness(L: seq<Record>, token: string)
    requires PendingByToken(L, token).Some?
    ensures Pending(PendingByToken(L, token).value) in L && PendingByToken(L, token).value.token == token
  {
    if !(L[|L| - 1].Pending? && L[|L| - 1].approval.token == token) {
      PendingByTokenWitness(L[..|L| - 1], token);
      assert L == L[..|L| - 1] + [L[|L| - 1]];
    }
  }

  /** Position `i` holds the pending record, and its token is neither issued again nor resolved later. */
  ghost predicate LastPending(L: seq<Record>, a: PendingApproval, i: nat) {
    && i < |L| && L[i] == Pending(a)
    && forall j :: i < j < |L| ==>
         && (L[j].Pending? ==> L[j].approval.token != a.token)
         && (L[j].Resolution? ==> L[j].token != a.token)
  }

  /** A record is found by its token exactly when it is the last one pending under it and was not resolved since. */
  lemma {:induction false} PendingIff(L: seq<Record>, a: PendingApproval)
    ensures PendingByToken(L, a.token) == Some(a) <==> exists i: nat :: LastPending(L, a, i)
  {
    if L != [] {
      var P, n := L[..|L| - 1], |L| - 1;
      PendingIff(P, a);
      forall i: nat | i < n
        ensures LastPending(L, a, i) <==>
          && LastPending(P, a, i)
          && !(L[n].Pending? && L[n].approval.token == a.token) && !(L[n].Resolution? && L[n].token == a.token)
      {
        assert forall j :: 0 <= j < n ==> P[j] == L[j];
      }
      if L[n] == Pending(a) { assert LastPending(L, a, n); }
      assert forall i: nat :: LastPending(P, a, i) ==> i < n;
      assert forall i: nat :: LastPending(L, a, i) ==> i <= n;
    }
  }
}
