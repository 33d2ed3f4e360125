/**
 The research planner: it turns a decomposition proposed by the model into planned tasks, numbered after the tasks the
 session already has, whose dependencies point backwards only.
 */
module Planner {
  import opened Options
  import opened AgentStates

  datatype PlannedTask = PlannedTask(id: string, dependsOn: seq<string>, content: string)

  datatype ResearchPlan = ResearchPlan(goal: string, tasks: seq<PlannedTask>)

  /******* Task names *******/

  function Digit(d: nat): char
    requires d < 10
  {
    "0123456789"[d]
  }

  function Decimal(n: nat): (s: string)
    ensures s != []
  {
    if n < 10 then [Digit(n)] else Decimal(n / 10) + [Digit(n % 10)]
  }

  function TaskName(n: nat): string {
    "task-" + Decimal(n)
  }

  /** The name of task `j` of a plan made in a session that had `base` tasks. */
  function NameAt(base: nat, j: nat): string {
    TaskName(base + j + 1)
  }

  lemma {:induction false} DecimalInjective(m: nat, n: nat)
    requires Decimal(m) == Decimal(n)
    ensures m == n
  {
    var s, t := Decimal(m), Decimal(n);
    assert s[|s| - 1] == Digit(m % 10) && t[|t| - 1] == Digit(n % 10);
    if m >= 10 && n >= 10 {
      assert s[..|s| - 1] == Decimal(m / 10) && t[..|t| - 1] == Decimal(n / 10);
      DecimalInjective(m / 10, n / 10);
    }
  }

  lemma NamesInjective(m: nat, n: nat)
    ensures TaskName(m) == TaskName(n) <==> m == n
  {
    if TaskName(m) == TaskName(n) {
      assert TaskName(m)[5..] == Decimal(m) && TaskName(n)[5..] == Decimal(n);
      DecimalInjective(m, n);
    }
  }

  lemma NamesAtDiffer(base: nat, i: nat, j: nat)
    ensures NameAt(base, i) == NameAt(base, j) <==> i == j
  {
    NamesInjective(base + i + 1, base + j + 1);
  }

  /******* One plan *******/

  predicate HasActiveTasks(s: State) {
    exists t :: t in s.tasks && !(t.status in {Done, TaskStatus.Failed, Abandoned})
  }

  /** The position of the last of these tasks with the given planned id. */
  function LastNamed(tasks: seq<PlannedTask>, id: string): (j: Option<nat>)
    ensures j.Some? ==> j.value < |tasks| && tasks[j.value].id == id
    ensures j.None? ==> forall k :: 0 <= k < |tasks| ==> tasks[k].id != id
  {
    if tasks == [] then None
    else if tasks[|tasks| - 1].id == id then Some(|tasks| - 1)
    else LastNamed(tasks[..|tasks| - 1], id)
  }

  /** The names of the tasks these dependencies resolve to among `known`; the others are dropped. */
  function Blockers(known: seq<PlannedTask>, base: nat, deps: seq<string>): seq<string> {
    if deps == [] then []
    else
      var before, j := Blockers(known, base, deps[..|deps| - 1]), LastNamed(known, deps[|deps| - 1]);
      if j.Some? then before + [NameAt(base, j.value)] else before
  }

  /** What task `i` of a plan is recorded as, in a session that had `base` tasks. */
  function TaskOf(tasks: seq<PlannedTask>, base: nat, i: nat): Task
    requires i < |tasks|
  {
    var blockedBy := Blockers(tasks[..i + 1], base, tasks[i].dependsOn);
    Task(NameAt(base, i), if blockedBy == [] then Ready else TaskStatus.Blocked, None, blockedBy,
         tasks[i].content)
  }

  function GoalOf(s: State, goal: string): Entry {
    Entry("goal-" + Decimal(|s.goals| + 1), goal)
  }

  /** The events of the first `k` tasks. */
  function TaskEvents(tasks: seq<PlannedTask>, base: nat, k: nat): (events: seq<KernelEvent>)
    requires k <= |tasks|
    ensures |events| == k
  {
    if k == 0 then [] else TaskEvents(tasks, base, k - 1) + [TaskPlanned(TaskOf(tasks, base, k - 1))]
  }

  /** The events a plan becomes; `answer` is None when there is nothing to plan or no plan could be read. */
  function PlanEvents(s: State, answer: Option<ResearchPlan>): seq<KernelEvent> {
    if HasActiveTasks(s) || answer.None? then []
    else
      var tasks := answer.value.tasks;
      [GoalCreated(GoalOf(s, answer.value.goal))] + TaskEvents(tasks, |s.tasks|, |tasks|)
  }

  method Plan(s: State, answer: Option<ResearchPlan>) returns (events: seq<KernelEvent>)
    ensures events == PlanEvents(s, answer)
  {
    hide TaskName, Decimal, Blockers, LastNamed, Maps;
    if HasActiveTasks(s) || answer.None? { return []; }
    var plan := answer.value;
    ghost var goal := [GoalCreated(GoalOf(s, plan.goal))];
    events := [GoalCreated(GoalOf(s, plan.goal))];
    var idMap: map<string, string> := map[];
    MapsNothing(|s.tasks|);
    for i := 0 to |plan.tasks|
      invariant events == goal + TaskEvents(plan.tasks, |s.tasks|, i)
      invariant Maps(idMap, plan.tasks[..i], |s.tasks|)
    {
      var planned := plan.tasks[i];
      var taskId := NameAt(|s.tasks|, i);
      MapsMore(idMap, plan.tasks, |s.tasks|, i);
      idMap := idMap[planned.id := taskId];
      var blockedBy := BlockersOf(planned.dependsOn, idMap, plan.tasks[..i + 1], |s.tasks|);
      events := events + [TaskPlanned(Task(
        taskId, if blockedBy == [] then Ready else TaskStatus.Blocked, None, blockedBy, planned.content))];
    }
  }

  /** The map holds the names of exactly the planned ids seen so far. */
  ghost predicate Maps(idMap: map<string, string>, known: seq<PlannedTask>, base: nat) {
    forall id :: if LastNamed(known, id).None? then id !in idMap
                 else id in idMap && idMap[id] == NameAt(base, LastNamed(known, id).value)
  }

  lemma MapsNothing(base: nat)
    ensures Maps(map[], [], base)
  {
  }

  lemma MapsMore(idMap: map<string, string>, tasks: seq<PlannedTask>, base: nat, i: nat)
    requires i < |tasks| && Maps(idMap, tasks[..i], base)
    ensures Maps(idMap[tasks[i].id := NameAt(base, i)], tasks[..i + 1], base)
  {
    hide NameAt;
    assert tasks[..i + 1][..i] == tasks[..i];
  }

  method BlockersOf(deps: seq<string>, idMap: map<string, string>, ghost known: seq<PlannedTask>, ghost base: nat)
    returns (blockedBy: seq<string>)
    requires Maps(idMap, known, base)
    ensures blockedBy == Blockers(known, base, deps)
  {
    blockedBy := [];
    for k := 0 to |deps|
      invariant blockedBy == Blockers(known, base, deps[..k])
    {
      assert deps[..k + 1][..k] == deps[..k];
      assert LastNamed(known, deps[k]).None? <==> deps[k] !in idMap;
      if deps[k] in idMap { blockedBy := blockedBy + [idMap[deps[k]]]; }
    }
    assert deps[..|deps|] == deps;
  }

  /******* What a plan becomes *******/

  /** The number a decimal numeral stands for. */
  function ValueOf(s: string): int {
    if s == [] then 0 else 10 * ValueOf(s[..|s| - 1]) + (s[|s| - 1] as int - '0' as int)
  }

  /** Numerals stand for their numbers, without leading zeros. */
  lemma {:induction false} DecimalValue(n: nat)
    ensures ValueOf(Decimal(n)) == n
    ensures n > 0 ==> Decimal(n)[0] != '0'
  {
    if n >= 10 {
      DecimalValue(n / 10);
      var s := Decimal(n);
      assert s[..|s| - 1] == Decimal(n / 10);
    } else {
      assert Decimal(n)[..0] == [];
    }
  }

  /** A plan is turned into events exactly when no task is still to be done. */
  lemma PlansIffIdle(s: State, answer: Option<ResearchPlan>)
    ensures
      PlanEvents(s, answer) != [] <==>
        && answer.Some?
        && forall t :: t in s.tasks ==>
             && t.status != Pending && t.status != Ready && t.status != Running && t.status != TaskStatus.Blocked
             && t.status != WaitingHuman
  {
  }

  /**
   The goal comes first, then one task per planned task, numbered on from the goals and tasks there are; a task starts
   blocked exactly when something blocks it, and nobody is assigned to it.
   */
  lemma PlanShape(s: State, plan: ResearchPlan, i: nat)
    requires PlanEvents(s, Some(plan)) != [] && i < |plan.tasks|
    ensures
      var events := PlanEvents(s, Some(plan));
      && |events| == |plan.tasks| + 1
      && events[0] == GoalCreated(Entry("goal-" + Decimal(|s.goals| + 1), plan.goal))
      && events[i + 1].TaskPlanned?
      && var t := events[i + 1].task;
         && t.id == "task-" + Decimal(|s.tasks| + i + 1) && t.content == plan.tasks[i].content
         && t.assignee == None && t.status == if t.blockedBy == [] then Ready else TaskStatus.Blocked
  {
    hide Decimal, Blockers;
    TaskEventAt(plan.tasks, |s.tasks|, |plan.tasks|, i);
  }

  lemma {:induction false} TaskEventAt(tasks: seq<PlannedTask>, base: nat, k: nat, i: nat)
    requires i < k <= |tasks|
    ensures TaskEvents(tasks, base, k)[i] == TaskPlanned(TaskOf(tasks, base, i))
  {
    hide TaskOf;
    if i < k - 1 { TaskEventAt(tasks, base, k - 1, i); }
  }

  /******* Acyclicity *******/

  /** No planned task lists its own id. */
  predicate NoSelfDependency(tasks: seq<PlannedTask>) {
    forall i :: 0 <= i < |tasks| ==> tasks[i].id !in tasks[i].dependsOn
  }

  /** The name is that of one of the first `i` tasks of the plan. */
  ghost predicate NamesEarlier(name: string, base: nat, i: nat) {
    exists j: nat :: j < i && name == NameAt(base, j)
  }

  ghost predicate PointsBack(tasks: seq<PlannedTask>, base: nat, i: nat)
    requires i < |tasks|
  {
    forall b :: b in TaskOf(tasks, base, i).blockedBy ==> NamesEarlier(b, base, i)
  }

  /** A name is among the blockers exactly when some dependency resolves to it. */
  lemma {:induction false} BlockersExact(known: seq<PlannedTask>, base: nat, deps: seq<string>, j: nat)
    ensures NameAt(base, j) in Blockers(known, base, deps)
       <==> exists d :: d in deps && LastNamed(known, d) == Some(j)
    ensures forall b :: b in Blockers(known, base, deps) ==> NamesEarlier(b, base, |known|)
  {
    hide NameAt, NamesEarlier;
    if deps != [] {
      var init, d := deps[..|deps| - 1], deps[|deps| - 1];
      assert deps == init + [d];
      BlockersExact(known, base, init, j);
      var k := LastNamed(known, d);
      if k.Some? {
        NamesAtDiffer(base, k.value, j);
        EarlierName(base, k.value, |known|);
      }
      hide LastNamed;
      assert forall x :: x in deps <==> x in init || x == d;
    }
  }

  lemma EarlierName(base: nat, j: nat, i: nat)
    requires j < i
    ensures NamesEarlier(NameAt(base, j), base, i)
  {
  }

  /**
   Every dependency of a plan's tasks points to an earlier task of the same plan, whatever its base, exactly when no
   planned task lists its own id: the id is entered in the map before the dependencies are looked up.
   */
  lemma AcyclicIffNoSelf(tasks: seq<PlannedTask>, base: nat)
    ensures (forall i :: 0 <= i < |tasks| ==> PointsBack(tasks, base, i)) <==> NoSelfDependency(tasks)
  {
    hide PointsBack;
    if NoSelfDependency(tasks) {
      forall i | 0 <= i < |tasks| ensures PointsBack(tasks, base, i) { PointsBackIff(tasks, base, i); }
    } else {
      var i :| 0 <= i < |tasks| && tasks[i].id in tasks[i].dependsOn;
      PointsBackIff(tasks, base, i);
    }
  }

  lemma PointsBackIff(tasks: seq<PlannedTask>, base: nat, i: nat)
    requires i < |tasks|
    ensures PointsBack(tasks, base, i) <==> tasks[i].id !in tasks[i].dependsOn
  {
    hide NameAt;
    var known, deps := tasks[..i + 1], tasks[i].dependsOn;
    assert LastNamed(known, tasks[i].id) == Some(i);
    BlockersExact(known, base, deps, i);
    NotEarlier(base, i);
    forall b | b in Blockers(known, base, deps) && b != NameAt(base, i) ensures NamesEarlier(b, base, i) {
      var j: nat :| j < i + 1 && b == NameAt(base, j);
    }
  }

  lemma NotEarlier(base: nat, i: nat)
    ensures !NamesEarlier(NameAt(base, i), base, i)
  {
    if j: nat :| j < i && NameAt(base, i) == NameAt(base, j) { NamesAtDiffer(base, i, j); }
  }

  ghost predicate Named(known: seq<PlannedTask>, id: string) {
    exists j :: 0 <= j < |known| && known[j].id == id
  }

  /**
   A task keeps all its dependencies exactly when each names a task planned no later than it, and starts out ready
   exactly when none does: a dependency on a later task is dropped.
   */
  lemma DependenciesKept(tasks: seq<PlannedTask>, base: nat, i: nat)
    requires i < |tasks|
    ensures
      var t, deps := TaskOf(tasks, base, i), tasks[i].dependsOn;
      && (|t.blockedBy| == |deps| <==> forall d :: d in deps ==> Named(tasks[..i + 1], d))
      && (t.status.Ready? <==> forall d :: d in deps ==> !Named(tasks[..i + 1], d))
  {
    BlockersCount(tasks[..i + 1], base, tasks[i].dependsOn);
  }

  lemma {:induction false} BlockersCount(known: seq<PlannedTask>, base: nat, deps: seq<string>)
    ensures |Blockers(known, base, deps)| <= |deps|
    ensures |Blockers(known, base, deps)| == |deps| <==> forall d :: d in deps ==> Named(known, d)
    ensures Blockers(known, base, deps) == [] <==> forall d :: d in deps ==> !Named(known, d)
  {
    if deps != [] {
      var init, d := deps[..|deps| - 1], deps[|deps| - 1];
      assert deps == init + [d];
      BlockersCount(known, base, init);
      assert Named(known, d) <==> LastNamed(known, d).Some?;
      hide Named, LastNamed;
      assert forall x :: x in deps <==> x in init || x == d;
    }
  }

  /******* Whole sessions *******/

  /**
   One planning call: the plan it read, which of its events reached the ledger (a failed append is ignored), and the
   events recorded until the next call.
   */
  datatype Planning = Planning(answer: Option<ResearchPlan>, kept: nat -> bool, others: seq<KernelEvent>)

  function Stored(events: seq<KernelEvent>, kept: nat -> bool): seq<KernelEvent> {
    if events == [] then []
    else
      var n := |events| - 1;
      Stored(events[..n], kept) + if kept(n) then [events[n]] else []
  }

  function History(calls: seq<Planning>): seq<KernelEvent> {
    if calls == [] then []
    else
      var before, last := History(calls[..|calls| - 1]), calls[|calls| - 1];
      before + Stored(PlanEvents(Replay(before), last.answer), last.kept) + last.others
  }

  ghost predicate PlansNothing(events: seq<KernelEvent>) {
    forall e :: e in events ==> !e.TaskPlanned?
  }

  /** Only the planner plans tasks. */
  ghost predicate SolePlanner(calls: seq<Planning>) {
    forall i :: 0 <= i < |calls| ==> PlansNothing(calls[i].others)
  }

  function TaskIds(E: seq<KernelEvent>): seq<string> {
    IdsOf(Replay(E), Tasks)
  }

  /** The ids are exactly task-1, ..., task-n, in this order. */
  ghost predicate Numbered(ids: seq<string>) {
    forall i :: 0 <= i < |ids| ==> ids[i] == NameAt(i, 0)
  }

  /** Some number up to the count of the ids is missing. */
  ghost predicate Gap(ids: seq<string>) {
    exists g :: 0 <= g < |ids| && NameAt(g, 0) !in ids
  }

  /** Of the first `k` planned tasks those recorded are the first ones; event 0 is the goal. */
  ghost predicate PrefixKept(kept: nat -> bool, k: nat) {
    forall i: nat, j: nat :: 1 <= i < j <= k && kept(j) ==> kept(i)
  }

  function CountKept(kept: nat -> bool, k: nat): (n: nat)
    ensures n <= k
  {
    if k == 0 then 0 else CountKept(kept, k - 1) + if kept(k) then 1 else 0
  }

  lemma {:induction false} AllCounted(kept: nat -> bool, k: nat)
    ensures CountKept(kept, k) == k <==> forall i: nat :: 1 <= i <= k ==> kept(i)
  {
    if k > 0 { AllCounted(kept, k - 1); }
  }

  lemma NumberedNames(ids: seq<string>, m: nat)
    requires Numbered(ids)
    ensures NameAt(m, 0) in ids <==> m < |ids|
  {
    hide TaskName;
    if NameAt(m, 0) in ids {
      var i :| 0 <= i < |ids| && ids[i] == NameAt(m, 0);
      NamesInjective(i + 1, m + 1);
    }
    assert m < |ids| ==> ids[m] == NameAt(m, 0);
  }

  lemma NoGapIfNumbered(ids: seq<string>)
    requires Numbered(ids)
    ensures !Gap(ids)
  {
    if g :| 0 <= g < |ids| && NameAt(g, 0) !in ids { NumberedNames(ids, g); }
  }

  /** What adding the next number, a later one, or one after a gap does. */
  lemma AddNumber(ids: seq<string>, m: nat)
    requires |ids| <= m
    ensures Numbered(ids) && m == |ids| ==> Numbered(Add(ids, NameAt(m, 0))) && |Add(ids, NameAt(m, 0))| == m + 1
    ensures Numbered(ids) && m > |ids| ==> Gap(Add(ids, NameAt(m, 0)))
    ensures Gap(ids) ==> Gap(Add(ids, NameAt(m, 0)))
    ensures |Add(ids, NameAt(m, 0))| <= |ids| + 1
  {
    hide NameAt;
    var more := Add(ids, NameAt(m, 0));
    if Numbered(ids) {
      NumberedNames(ids, m);
      NumberedNames(ids, |ids|);
      NamesDistinct(|ids|, m);
      assert m > |ids| ==> NameAt(|ids|, 0) !in more && |ids| < |more|;
    }
    if g :| 0 <= g < |ids| && NameAt(g, 0) !in ids {
      NamesDistinct(g, m);
      assert NameAt(g, 0) !in more && g < |more|;
    }
  }

  lemma NamesDistinct(m: nat, n: nat)
    ensures NameAt(m, 0) == NameAt(n, 0) <==> m == n
  {
    NamesInjective(m + 1, n + 1);
  }

  lemma {:induction false} OthersKeepIds(E: seq<KernelEvent>, others: seq<KernelEvent>)
    requires PlansNothing(others)
    ensures TaskIds(E + others) == TaskIds(E)
  {
    if others == [] {
      assert E + others == E;
    } else {
      var init, e := others[..|others| - 1], others[|others| - 1];
      assert E + others == (E + init) + [e];
      OthersKeepIds(E, init);
      OneMoreId(E + init, e);
    }
  }

  lemma OneMoreId(E: seq<KernelEvent>, e: KernelEvent)
    ensures TaskIds(E + [e]) == if e.TaskPlanned? then Add(TaskIds(E), e.task.id) else TaskIds(E)
  {
    hide Next, IdsOf;
    assert (E + [e])[..|E|] == E;
    IdsStep(Replay(E), e, Tasks);
  }

  /** The ids after the goal and the first `k` planned tasks went to the ledger, as far as they were kept. */
  lemma {:induction false} PlanIds(
      E: seq<KernelEvent>, goal: KernelEvent, tasks: seq<PlannedTask>, kept: nat -> bool, k: nat)
    requires k <= |tasks| && goal.GoalCreated?
    ensures
      var before := TaskIds(E);
      var after := TaskIds(E + Stored([goal] + TaskEvents(tasks, |before|, k), kept));
      && |after| <= |before| + k
      && (Gap(before) ==> Gap(after))
      && (Numbered(before) && PrefixKept(kept, k) ==>
            Numbered(after) && |after| == |before| + CountKept(kept, k))
      && (Numbered(before) && !PrefixKept(kept, k) ==> Gap(after))
  {
    hide TaskIds, TaskOf, NameAt, Numbered, Gap, Add, Stored, TaskEvents, PrefixKept;
    var before := TaskIds(E);
    if k == 0 {
      GoalStored(E, goal, tasks, |before|, kept);
      KeptNone(kept);
    } else {
      var last := TaskPlanned(TaskOf(tasks, |before|, k - 1));
      PlanIds(E, goal, tasks, kept, k - 1);
      StoredStep(E, goal, tasks, |before|, kept, k - 1);
      KeptStep(kept, k - 1);
      if kept(k) {
        var P := E + Stored([goal] + TaskEvents(tasks, |before|, k - 1), kept);
        OneMoreId(P, last);
        TaskOfId(tasks, |before|, k - 1);
        AddNumber(TaskIds(P), |before| + k - 1);
      }
    }
  }

  lemma GoalStored(E: seq<KernelEvent>, goal: KernelEvent, tasks: seq<PlannedTask>, base: nat, kept: nat -> bool)
    requires goal.GoalCreated?
    ensures TaskIds(E + Stored([goal] + TaskEvents(tasks, base, 0), kept)) == TaskIds(E)
  {
    var events := [goal] + TaskEvents(tasks, base, 0);
    assert events == [goal] && events[..0] == [];
    assert E + Stored(events, kept) == if kept(0) then E + [goal] else E;
    OneMoreId(E, goal);
  }

  lemma StoredStep(
      E: seq<KernelEvent>, goal: KernelEvent, tasks: seq<PlannedTask>, base: nat, kept: nat -> bool, k: nat)
    requires k < |tasks|
    ensures
      var P := E + Stored([goal] + TaskEvents(tasks, base, k), kept);
      E + Stored([goal] + TaskEvents(tasks, base, k + 1), kept)
      == if kept(k + 1) then P + [TaskPlanned(TaskOf(tasks, base, k))] else P
  {
    var earlier, events := [goal] + TaskEvents(tasks, base, k), [goal] + TaskEvents(tasks, base, k + 1);
    assert events == earlier + [TaskPlanned(TaskOf(tasks, base, k))];
    assert events[..k + 1] == earlier;
  }

  lemma KeptNone(kept: nat -> bool)
    ensures PrefixKept(kept, 0)
  {
  }

  lemma TaskOfId(tasks: seq<PlannedTask>, base: nat, i: nat)
    requires i < |tasks|
    ensures TaskOf(tasks, base, i).id == NameAt(base + i, 0)
  {
  }

  lemma KeptStep(kept: nat -> bool, k: nat)
    ensures PrefixKept(kept, k + 1) <==> PrefixKept(kept, k) && (kept(k + 1) ==> CountKept(kept, k) == k)
  {
    AllCounted(kept, k);
  }

  /** Every call's recorded tasks were the first ones of its plan. */
  ghost predicate AllPrefixes(calls: seq<Planning>) {
    calls != [] ==>
      var init, last := calls[..|calls| - 1], calls[|calls| - 1];
      && AllPrefixes(init)
      && (last.answer.Some? && !HasActiveTasks(Replay(History(init))) ==>
            PrefixKept(last.kept, |last.answer.value.tasks|))
  }

  /**
   The session's tasks are numbered task-1 to task-n exactly when no failed append left a hole in a plan: failed
   appends are ignored and the next event is appended all the same, and a hole is never filled by a later plan.
   */
  lemma {:induction false} NumberedIffPrefixes(calls: seq<Planning>)
    requires SolePlanner(calls)
    ensures Numbered(TaskIds(History(calls))) <==> AllPrefixes(calls)
    ensures !AllPrefixes(calls) ==> Gap(TaskIds(History(calls)))
  {
    hide TaskIds, Stored, PrefixKept, Numbered, Gap, HasActiveTasks, TaskEvents;
    if calls == [] {
      NothingNumbered();
    } else {
      var init, last := calls[..|calls| - 1], calls[|calls| - 1];
      NumberedIffPrefixes(init);
      var E := History(init);
      var events := PlanEvents(Replay(E), last.answer);
      var P := E + Stored(events, last.kept);
      OthersKeepIds(P, last.others);
      if events == [] {
        NothingStored(E, last.kept);
      } else {
        TaskCount(E);
        PlanIds(E, events[0], last.answer.value.tasks, last.kept, |last.answer.value.tasks|);
      }
      if Numbered(TaskIds(E)) { NoGapIfNumbered(TaskIds(E)); }
      if Numbered(TaskIds(P)) { NoGapIfNumbered(TaskIds(P)); }
    }
  }

  lemma NothingNumbered()
    ensures Numbered(TaskIds([]))
  {
  }

  lemma NothingStored(E: seq<KernelEvent>, kept: nat -> bool)
    ensures E + Stored([], kept) == E
  {
  }

  lemma TaskCount(E: seq<KernelEvent>)
    ensures |TaskIds(E)| == |Replay(E).tasks|
  {
  }

  /** The task has a number, and is blocked by lower numbers only. */
  ghost predicate BlockedBelow(id: string, blockedBy: seq<string>) {
    exists m :: id == NameAt(m, 0) && forall b :: b in blockedBy ==> NamesEarlier(b, 0, m)
  }

  ghost predicate PlannedLike(e: KernelEvent, t: Task) {
    e.TaskPlanned? && e.task.id == t.id && e.task.blockedBy == t.blockedBy
  }

  /** Replaying changes a task's status and assignee, never its dependencies. */
  lemma {:induction false} TaskWasPlanned(E: seq<KernelEvent>, t: Task)
    requires t in Replay(E).tasks
    ensures exists e :: e in E && PlannedLike(e, t)
  {
    hide Upsert, AmendFirst;
    var P, e := E[..|E| - 1], E[|E| - 1];
    assert E == P + [e];
    var tasks := Replay(P).tasks;
    if e.TaskPlanned? {
      UpsertMember(tasks, e.task, t);
      assert t == e.task ==> PlannedLike(e, t);
      if t in tasks { TaskWasPlanned(P, t); }
    } else if Subject(e).Some? {
      var earlier := AmendMember(tasks, e, t);
      TaskWasPlanned(P, earlier);
      var o :| o in P && PlannedLike(o, earlier);
      assert PlannedLike(o, t);
    } else {
      TaskWasPlanned(P, t);
    }
  }

  lemma {:induction false} UpsertMember(tasks: seq<Task>, v: Task, t: Task)
    requires t in Upsert(tasks, v, TASK_ID)
    ensures t == v || t in tasks
  {
    if tasks != [] && t in Upsert(tasks[1..], v, TASK_ID) { UpsertMember(tasks[1..], v, t); }
  }

  lemma {:induction false} AmendMember(tasks: seq<Task>, e: KernelEvent, t: Task) returns (before: Task)
    requires Subject(e).Some? && t in AmendFirst(tasks, e)
    ensures before in tasks && before.id == t.id && before.blockedBy == t.blockedBy
  {
    if tasks[0].id == Subject(e).value {
      before := if t == Amended(tasks[0], e) then tasks[0] else t;
    } else if t == tasks[0] {
      before := t;
    } else {
      before := AmendMember(tasks[1..], e, t);
    }
  }

  lemma {:induction false} StoredMember(events: seq<KernelEvent>, kept: nat -> bool, e: KernelEvent)
    requires e in Stored(events, kept)
    ensures e in events
  {
    var n := |events| - 1;
    if e in Stored(events[..n], kept) { StoredMember(events[..n], kept, e); }
  }

  lemma {:induction false} TaskEventsBelow(tasks: seq<PlannedTask>, base: nat, k: nat, e: KernelEvent)
    requires NoSelfDependency(tasks) && k <= |tasks| && e in TaskEvents(tasks, base, k)
    ensures e.TaskPlanned? && BlockedBelow(e.task.id, e.task.blockedBy)
  {
    hide NoSelfDependency, TaskOf, NameAt;
    var t := TaskOf(tasks, base, k - 1);
    if e == TaskPlanned(t) {
      TaskOfId(tasks, base, k - 1);
      NoSelfAt(tasks, k - 1);
      PointsBackIff(tasks, base, k - 1);
      forall b | b in t.blockedBy ensures NamesEarlier(b, 0, base + k - 1) {
        var j: nat :| j < k - 1 && b == NameAt(base, j);
        Shift(base, j);
      }
    } else {
      TaskEventsBelow(tasks, base, k - 1, e);
    }
  }

  lemma NoSelfAt(tasks: seq<PlannedTask>, i: nat)
    requires NoSelfDependency(tasks) && i < |tasks|
    ensures tasks[i].id !in tasks[i].dependsOn
  {
  }

  lemma Shift(base: nat, j: nat)
    ensures NameAt(base, j) == NameAt(0, base + j) == NameAt(base + j, 0)
  {
  }

  ghost predicate SoundPlans(calls: seq<Planning>) {
    forall i :: 0 <= i < |calls| && calls[i].answer.Some? ==> NoSelfDependency(calls[i].answer.value.tasks)
  }

  lemma {:induction false} PlannedBelow(calls: seq<Planning>, e: KernelEvent)
    requires SolePlanner(calls) && SoundPlans(calls)
    requires e in History(calls) && e.TaskPlanned?
    ensures BlockedBelow(e.task.id, e.task.blockedBy)
  {
    hide BlockedBelow, Stored, NoSelfDependency, HasActiveTasks, TaskEvents;
    var init, last := calls[..|calls| - 1], calls[|calls| - 1];
    assert last == calls[|calls| - 1];
    var s := Replay(History(init));
    if e in History(init) {
      PlannedBelow(init, e);
    } else {
      StoredMember(PlanEvents(s, last.answer), last.kept, e);
      var tasks := last.answer.value.tasks;
      TaskEventsBelow(tasks, |s.tasks|, |tasks|, e);
    }
  }

  /**
   Over a whole session, lost appends included, tasks wait only for lower-numbered tasks: the session's task graph is
   acyclic as long as no plan lists a task among its own dependencies.
   */
  lemma SessionAcyclic(calls: seq<Planning>, t: Task)
    requires SolePlanner(calls) && SoundPlans(calls)
    requires t in Replay(History(calls)).tasks
    ensures BlockedBelow(t.id, t.blockedBy)
  {
    TaskWasPlanned(History(calls), t);
    var e :| e in History(calls) && PlannedLike(e, t);
    PlannedBelow(calls, e);
  }
}
