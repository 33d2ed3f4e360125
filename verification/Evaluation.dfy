/**
 The outcome of a batch of dependent calls, computed in rounds: every call looks at the statuses settled in the
 round before. This is the reference the scheduler is measured against; it knows no order, cap or interruption.
 */
module Evaluation {
  import opened Ledger

  /** The dependencies of each declared call. */
  type DepMap = map<string, seq<string>>

  /** The statuses an executed call can end with. */
  type Outcome = s: Status | s.Succeeded? || s.Failed? || s.TimedOut? witness Succeeded

  predicate AllSucceeded(m: map<string, Status>, deps: seq<string>) {
    forall d {:trigger d in deps} :: d in deps ==> d in m && m[d] == Succeeded
  }

  predicate Blocked(m: map<string, Status>, deps: seq<string>) {
    exists d {:trigger d in deps} :: d in deps && d in m && m[d].Unsuccessful()
  }

  ghost predicate Decided(deps: DepMap, m: map<string, Status>, c: string)
    requires c in deps
  {
    Blocked(m, deps[c]) || AllSucceeded(m, deps[c])
  }

  /** One round: every call looks at the statuses `m` settled before it. */
  ghost function Round(deps: DepMap, own: string -> Outcome, m: map<string, Status>): map<string, Status> {
    map c | c in deps && Decided(deps, m, c) :: if Blocked(m, deps[c]) then Skipped else own(c)
  }

  /** The statuses settled after `k` rounds. */
  ghost function Rounds(deps: DepMap, own: string -> Outcome, k: nat): map<string, Status> {
    if k == 0 then map[] else Round(deps, own, Rounds(deps, own, k - 1))
  }

  ghost predicate SubMap<K, V>(m: map<K, V>, n: map<K, V>) {
    forall k :: k in m ==> k in n && n[k] == m[k]
  }

  lemma {:induction false} RoundsGrow(deps: DepMap, own: string -> Outcome, j: nat, k: nat)
    requires j <= k
    ensures SubMap(Rounds(deps, own, j), Rounds(deps, own, k))
    decreases k
  {
    hide Decided;
    if 0 < j < k {
      RoundsGrow(deps, own, j - 1, k - 1);
      RoundMonotone(deps, own, Rounds(deps, own, j - 1), Rounds(deps, own, k - 1));
    }
  }

  lemma RoundMonotone(deps: DepMap, own: string -> Outcome, m: map<string, Status>, n: map<string, Status>)
    requires SubMap(m, n)
    ensures SubMap(Round(deps, own, m), Round(deps, own, n))
  {
    forall c | c in Round(deps, own, m)
      ensures c in Round(deps, own, n) && Round(deps, own, n)[c] == Round(deps, own, m)[c]
    {
      DecisionStable(deps, m, n, c);
    }
  }

  /** More settled statuses never change a decision already made. */
  lemma DecisionStable(deps: DepMap, m: map<string, Status>, n: map<string, Status>, c: string)
    requires SubMap(m, n) && c in deps && Decided(deps, m, c)
    ensures Decided(deps, n, c)
    ensures Blocked(m, deps[c]) <==> Blocked(n, deps[c])
  {
  }

  /** No unsettled call is blocked, and none could run. */
  ghost predicate Quiescent(deps: DepMap, m: map<string, Status>) {
    forall c :: c in deps && c !in m ==> !Decided(deps, m, c)
  }

  /** Settling one more call the way its dependencies decide stays within the evaluation. */
  lemma SettleOne(deps: DepMap, own: string -> Outcome, m: map<string, Status>, c: string, s: Status)
    requires SubMap(m, Rounds(deps, own, |m|)) && c in deps && c !in m
    requires if s.Skipped? then Blocked(m, deps[c]) else AllSucceeded(m, deps[c]) && s == own(c)
    ensures SubMap(m[c := s], Rounds(deps, own, |m[c := s]|))
  {
    var n := m[c := s];
    assert n.Keys == m.Keys + {c};
    assert |n.Keys| == |m.Keys| + 1;
    RoundsGrow(deps, own, |m|, |m| + 1);
    DecisionStable(deps, m, Rounds(deps, own, |m|), c);
  }

  lemma {:induction false} SettledIsComplete(
      deps: DepMap, own: string -> Outcome, m: map<string, Status>, size: nat, k: nat)
    requires Quiescent(deps, m) && SubMap(m, Rounds(deps, own, size))
    ensures SubMap(Rounds(deps, own, k), m)
  {
    hide Decided;
    if k > 0 {
      SettledIsComplete(deps, own, m, size, k - 1);
      if size < k { RoundsGrow(deps, own, size, k); } else { RoundsGrow(deps, own, k, size); }
      forall c | c in Rounds(deps, own, k)
        ensures c in m && m[c] == Rounds(deps, own, k)[c]
      {
        DecisionStable(deps, Rounds(deps, own, k - 1), m, c);
      }
    }
  }

  /** A settled part of the evaluation that no call can extend is all of it. */
  lemma SettledIsAll(deps: DepMap, own: string -> Outcome, m: map<string, Status>)
    requires m.Keys <= deps.Keys && Quiescent(deps, m) && SubMap(m, Rounds(deps, own, |m|))
    ensures m == Rounds(deps, own, |deps|)
  {
    hide Decided, Round;
    SubsetSize(m.Keys, deps.Keys);
    RoundsGrow(deps, own, |m|, |deps|);
    SettledIsComplete(deps, own, m, |m|, |deps|);
  }

  lemma {:induction false} SubsetSize<T>(a: set<T>, b: set<T>)
    requires a <= b
    ensures |a| <= |b|
    decreases a
  {
    if a != {} {
      var x :| x in a;
      SubsetSize(a - {x}, b - {x});
    }
  }

  /** The evaluation has settled after as many rounds as there are calls. */
  lemma RoundsSettle(deps: DepMap, own: string -> Outcome)
    ensures Rounds(deps, own, |deps| + 1) == Rounds(deps, own, |deps|)
    ensures Quiescent(deps, Rounds(deps, own, |deps|))
  {
    var n := |deps|;
    RoundsProgress(deps, own, n + 1);
    RoundsWithin(deps, own, n + 1);
    SubsetSize(Rounds(deps, own, n + 1).Keys, deps.Keys);
    assert Rounds(deps, own, n + 1) == Round(deps, own, Rounds(deps, own, n));
  }

  lemma {:induction false} RoundsProgress(deps: DepMap, own: string -> Outcome, k: nat)
    ensures k == 0 || Rounds(deps, own, k) == Rounds(deps, own, k - 1) || |Rounds(deps, own, k)| >= k
  {
    hide Round, SubMap;
    if k > 0 {
      RoundsProgress(deps, own, k - 1);
      if Rounds(deps, own, k) != Rounds(deps, own, k - 1) {
        RoundsGrow(deps, own, k - 1, k);
        SubMapSize(Rounds(deps, own, k - 1), Rounds(deps, own, k));
      }
    }
  }

  lemma SubMapSize<K, V>(m: map<K, V>, n: map<K, V>)
    requires SubMap(m, n) && m != n
    ensures |m| < |n|
  {
    assert m.Keys == n.Keys ==> m == n;
    ProperSubsetSize(m.Keys, n.Keys);
  }

  lemma ProperSubsetSize<T>(a: set<T>, b: set<T>)
    requires a < b
    ensures |a| < |b|
  {
    assert b - a != {};
    var x :| x in b - a;
    SubsetSize(a, b - {x});
  }

  /******* Acyclic dependencies *******/

  /** `rank` orders the calls: every dependency is declared and ranks below its dependent. */
  ghost predicate Ranked(deps: DepMap, rank: map<string, nat>) {
    forall c :: c in deps ==>
      c in rank && forall d :: d in deps[c] ==> d in deps && d in rank && rank[d] < rank[c]
  }

  /** The recursive specification: Skipped if some dependency did not succeed, else the call's own outcome. */
  ghost function Spec(deps: DepMap, own: string -> Outcome, rank: map<string, nat>, c: string): Status
    requires Ranked(deps, rank) && c in deps
    decreases rank[c]
  {
    if exists d :: d in deps[c] && Spec(deps, own, rank, d) != Succeeded then Skipped else own(c)
  }

  lemma {:induction false} SpecAt(deps: DepMap, own: string -> Outcome, rank: map<string, nat>, c: string)
    requires Ranked(deps, rank) && c in deps
    ensures var m := Rounds(deps, own, |deps|); c in m && m[c] == Spec(deps, own, rank, c)
    decreases rank[c]
  {
    var n := |deps|;
    var m := Rounds(deps, own, n);
    RoundsSettle(deps, own);
    forall d | d in deps[c]
      ensures d in m && m[d] == Spec(deps, own, rank, d) && m[d].Terminal()
    {
      SpecAt(deps, own, rank, d);
    }
    assert Decided(deps, m, c);
    assert m == Rounds(deps, own, n + 1);
    assert m[c] == if Blocked(m, deps[c]) then Skipped else own(c);
    if Blocked(m, deps[c]) {
      var d :| d in deps[c] && d in m && m[d].Unsuccessful();
      assert Spec(deps, own, rank, d) != Succeeded;
    }
  }

  /** With these outcomes every call is settled in the end. */
  ghost predicate Finishes(deps: DepMap, own: string -> Outcome) {
    Rounds(deps, own, |deps|).Keys == deps.Keys
  }

  /**
   Every call is settled whatever the skills return exactly when the calls are acyclic and declare their dependencies.
   */
  lemma FinishesIffAcyclic(deps: DepMap)
    ensures (forall own :: Finishes(deps, own)) <==> (exists rank :: Ranked(deps, rank))
  {
    if rank :| Ranked(deps, rank) {
      forall own ensures Finishes(deps, own) {
        AcyclicFinishes(deps, own, rank);
      }
    }
    if forall own :: Finishes(deps, own) {
      var own := (c: string) => Succeeded;
      assert Finishes(deps, own);
      var rank := RankOfRounds(deps, own);
    }
  }

  lemma AcyclicFinishes(deps: DepMap, own: string -> Outcome, rank: map<string, nat>)
    requires Ranked(deps, rank)
    ensures Finishes(deps, own)
  {
    forall c | c in deps ensures c in Rounds(deps, own, |deps|) {
      SpecAt(deps, own, rank, c);
    }
    RoundsWithin(deps, own, |deps|);
  }

  lemma RoundsWithin(deps: DepMap, own: string -> Outcome, k: nat)
    ensures Rounds(deps, own, k).Keys <= deps.Keys
  {
    hide Decided;
  }

  lemma {:induction false} NothingSkipped(deps: DepMap, own: string -> Outcome, k: nat)
    requires forall c :: own(c) == Succeeded
    ensures forall c :: c in Rounds(deps, own, k) ==> Rounds(deps, own, k)[c] == Succeeded
  {
    if k > 0 {
      NothingSkipped(deps, own, k - 1);
    }
  }

  /** The first round, no later than `k`, at which `c` is settled. */
  lemma {:induction false} FirstRound(deps: DepMap, own: string -> Outcome, c: string, k: nat) returns (j: nat)
    requires c in Rounds(deps, own, k)
    ensures j < k && c in Round(deps, own, Rounds(deps, own, j)) && c !in Rounds(deps, own, j)
  {
    hide Decided;
    if c in Rounds(deps, own, k - 1) {
      j := FirstRound(deps, own, c, k - 1);
    } else {
      j := k - 1;
    }
  }

  ghost predicate SettlesAfter(deps: DepMap, own: string -> Outcome, c: string, j: nat) {
    c in deps && c !in Rounds(deps, own, j) && AllSucceeded(Rounds(deps, own, j), deps[c])
  }

  lemma SettlesSometime(deps: DepMap, own: string -> Outcome, c: string) returns (j: nat)
    requires c in deps && Finishes(deps, own) && forall c' :: own(c') == Succeeded
    ensures SettlesAfter(deps, own, c, j)
  {
    j := FirstRound(deps, own, c, |deps|);
    NothingSkipped(deps, own, j);
  }

  /** When every skill succeeds, the round at which a call is settled ranks the calls. */
  lemma RankOfRounds(deps: DepMap, own: string -> Outcome) returns (rank: map<string, nat>)
    requires forall c :: own(c) == Succeeded
    requires Finishes(deps, own)
    ensures Ranked(deps, rank)
  {
    hide Finishes, SettlesAfter, Rounds;
    forall c | c in deps ensures exists j: nat :: SettlesAfter(deps, own, c, j) {
      var j := SettlesSometime(deps, own, c);
    }
    rank := map c | c in deps :: var j: nat :| SettlesAfter(deps, own, c, j); j;
    forall c, d | c in deps && d in deps[c]
      ensures d in deps && rank[d] < rank[c]
    {
      DependencySettlesFirst(deps, own, c, rank[c], d);
      DependencyRanksLower(deps, own, rank[c], d, rank[d]);
    }
  }

  lemma DependencySettlesFirst(deps: DepMap, own: string -> Outcome, c: string, j: nat, d: string)
    requires SettlesAfter(deps, own, c, j) && d in deps[c]
    ensures d in Rounds(deps, own, j) && d in deps
  {
    RoundsWithin(deps, own, j);
  }

  lemma DependencyRanksLower(deps: DepMap, own: string -> Outcome, j: nat, d: string, i: nat)
    requires d in Rounds(deps, own, j) && SettlesAfter(deps, own, d, i)
    ensures i < j
  {
    hide Decided;
    if i >= j {
      RoundsGrow(deps, own, j, i);
      assert false;
    }
  }
}
