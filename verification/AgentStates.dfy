/** The working state of an agent, replayed from the kernel events of its session. */
module AgentStates {
  import opened Options

  /** A goal, an artifact or a resource: its id and all else it carries. */
  datatype Entry = Entry(id: string, content: string)

  datatype TaskStatus = Pending | Ready | Running | Blocked | WaitingHuman | Done | Failed | Abandoned

  datatype Task = Task(
    id: string, status: TaskStatus, assignee: Option<string>, blockedBy: seq<string>, content: string)

  datatype Wake = Wake(id: string, content: string)

  datatype KernelEvent =
    | GoalCreated(goal: Entry)
    | TaskPlanned(task: Task)
    | TaskClaimed(taskId: string, assignee: Option<string>)
    | TaskBlocked(taskId: string)
    | TaskCompleted(taskId: string)
    | TaskFailed(taskId: string)
    | TaskAbandoned(taskId: string)
    | HumanInputRequested(maybeTask: Option<string>)
    | ObservationAppended(observation: string)
    | ArtifactProduced(artifact: Entry)
    | WakeRequested(wake: Wake)
    | WakeScheduled(wake: Wake)
    | WakeCompleted(wakeId: string)
    | DelegationRequested(delegation: Entry)
    | DelegationResolved
    | ResourceRegistered(resource: Entry)
    | RelationshipObserved(edge: string)
    | MemorySearched
    | MemoryArchived

  datatype State = State(
    goals: seq<Entry>, tasks: seq<Task>, observations: seq<string>, artifacts: seq<Entry>, resources: seq<Entry>,
    relationships: seq<string>, pendingWake: Option<Wake>)

  const INITIAL := State([], [], [], [], [], [], None)

  /******* One event *******/

  /** Replaces the first element with the value's key, or appends the value. */
  function Upsert<T>(items: seq<T>, value: T, key: T -> string): seq<T> {
    if items == [] then [value]
    else if key(items[0]) == key(value) then [value] + items[1..]
    else [items[0]] + Upsert(items[1..], value, key)
  }

  /** The task whose progress the event reports. */
  function Subject(e: KernelEvent): Option<string> {
    match e
    case TaskClaimed(id, _) => Some(id)
    case TaskBlocked(id) => Some(id)
    case TaskCompleted(id) => Some(id)
    case TaskFailed(id) => Some(id)
    case TaskAbandoned(id) => Some(id)
    case HumanInputRequested(id) => id
    case _ => None
  }

  /** The status the event gives its subject. */
  function NewStatus(e: KernelEvent): TaskStatus
    requires Subject(e).Some?
  {
    match e
    case TaskClaimed(_, _) => Running
    case TaskBlocked(_) => TaskStatus.Blocked
    case TaskCompleted(_) => Done
    case TaskFailed(_) => TaskStatus.Failed
    case TaskAbandoned(_) => Abandoned
    case HumanInputRequested(_) => WaitingHuman
  }

  function Amended(t: Task, e: KernelEvent): Task
    requires Subject(e).Some?
  {
    var moved := t.(status := NewStatus(e));
    if e.TaskClaimed? then moved.(assignee := e.assignee) else moved
  }

  /** Amends the first task with the subject's id, if there is one. */
  function AmendFirst(tasks: seq<Task>, e: KernelEvent): seq<Task>
    requires Subject(e).Some?
  {
    if tasks == [] then []
    else if tasks[0].id == Subject(e).value then [Amended(tasks[0], e)] + tasks[1..]
    else [tasks[0]] + AmendFirst(tasks[1..], e)
  }

  const ENTRY_ID := (e: Entry) => e.id
  const TASK_ID := (t: Task) => t.id

  function Next(s: State, e: KernelEvent): State {
    match e
    case GoalCreated(goal) => s.(goals := Upsert(s.goals, goal, ENTRY_ID))
    case TaskPlanned(task) => s.(tasks := Upsert(s.tasks, task, TASK_ID))
    case ObservationAppended(o) => s.(observations := s.observations + [o])
    case ArtifactProduced(a) => s.(artifacts := Upsert(s.artifacts, a, ENTRY_ID))
    case WakeRequested(w) => s.(pendingWake := Some(w))
    case WakeScheduled(w) => s.(pendingWake := Some(w))
    case WakeCompleted(id) =>
      if s.pendingWake.Some? && s.pendingWake.value.id == id then s.(pendingWake := None) else s
    case DelegationRequested(d) => s.(resources := Upsert(s.resources, d, ENTRY_ID))
    case ResourceRegistered(r) => s.(resources := Upsert(s.resources, r, ENTRY_ID))
    case RelationshipObserved(edge) => s.(relationships := s.relationships + [edge])
    case _ => if Subject(e).Some? then s.(tasks := AmendFirst(s.tasks, e)) else s
  }

  function Replay(E: seq<KernelEvent>): State {
    if E == [] then INITIAL else Next(Replay(E[..|E| - 1]), E[|E| - 1])
  }

  lemma NothingReplayed()
    ensures Replay([]) == INITIAL
  {
  }

  lemma ReplayStep(E: seq<KernelEvent>, i: nat)
    requires i < |E|
    ensures Replay(E[..i + 1]) == Next(Replay(E[..i]), E[i])
  {
    assert E[..i + 1][..i] == E[..i];
  }

  /** The loop over the events, each amending the lists it concerns. */
  method AgentState(events: seq<KernelEvent>) returns (state: State)
    ensures state == Replay(events)
  {
    hide Upsert, AmendFirst, Replay, NewStatus, Amended;
    var goals: seq<Entry>, tasks: seq<Task>, observations: seq<string> := [], [], [];
    var artifacts: seq<Entry>, resources: seq<Entry>, relationships: seq<string> := [], [], [];
    var pendingWake: Option<Wake> := None;
    NothingReplayed();
    for i := 0 to |events|
      invariant State(goals, tasks, observations, artifacts, resources, relationships, pendingWake)
             == Replay(events[..i])
    {
      ReplayStep(events, i);
      var e := events[i];
      match e {
        case GoalCreated(goal) => goals := Upsert(goals, goal, ENTRY_ID);
        case TaskPlanned(task) => tasks := Upsert(tasks, task, TASK_ID);
        case TaskClaimed(_, _) => tasks := AmendFirst(tasks, e);
        case TaskBlocked(_) => tasks := AmendFirst(tasks, e);
        case TaskCompleted(_) => tasks := AmendFirst(tasks, e);
        case TaskFailed(_) => tasks := AmendFirst(tasks, e);
        case TaskAbandoned(_) => tasks := AmendFirst(tasks, e);
        case HumanInputRequested(id) => if id.Some? { tasks := AmendFirst(tasks, e); }
        case ObservationAppended(o) => observations := observations + [o];
        case ArtifactProduced(a) => artifacts := Upsert(artifacts, a, ENTRY_ID);
        case WakeRequested(w) => pendingWake := Some(w);
        case WakeScheduled(w) => pendingWake := Some(w);
        case WakeCompleted(id) =>
          if pendingWake.Some? && pendingWake.value.id == id { pendingWake := None; }
        case DelegationRequested(d) => resources := Upsert(resources, d, ENTRY_ID);
        case DelegationResolved =>
        case ResourceRegistered(r) => resources := Upsert(resources, r, ENTRY_ID);
        case RelationshipObserved(edge) => relationships := relationships + [edge];
        case MemorySearched =>
        case MemoryArchived =>
      }
    }
    assert events[..|events|] == events;
    state := State(goals, tasks, observations, artifacts, resources, relationships, pendingWake);
  }

  /******* Ids *******/

  datatype Kind = Goals | Tasks | Artifacts | Resources

  function Keys<T>(items: seq<T>, key: T -> string): seq<string> {
    seq(|items|, i requires 0 <= i < |items| => key(items[i]))
  }

  function IdsOf(s: State, kind: Kind): seq<string> {
    match kind
    case Goals => Keys(s.goals, ENTRY_ID)
    case Tasks => Keys(s.tasks, TASK_ID)
    case Artifacts => Keys(s.artifacts, ENTRY_ID)
    case Resources => Keys(s.resources, ENTRY_ID)
  }

  /** The id of the thing of this kind that the event creates or replaces. */
  function Created(e: KernelEvent, kind: Kind): Option<string> {
    match kind
    case Goals => if e.GoalCreated? then Some(e.goal.id) else None
    case Tasks => if e.TaskPlanned? then Some(e.task.id) else None
    case Artifacts => if e.ArtifactProduced? then Some(e.artifact.id) else None
    case Resources =>
      if e.ResourceRegistered? then Some(e.resource.id)
      else if e.DelegationRequested? then Some(e.delegation.id) else None
  }

  /** The ids created, in order and with repetitions. */
  function CreatedIds(E: seq<KernelEvent>, kind: Kind): seq<string> {
    if E == [] then []
    else
      var before, id := CreatedIds(E[..|E| - 1], kind), Created(E[|E| - 1], kind);
      if id.Some? then before + [id.value] else before
  }

  function Add(ids: seq<string>, id: string): seq<string> {
    if id in ids then ids else ids + [id]
  }

  lemma KeysCons<T>(head: T, rest: seq<T>, key: T -> string)
    ensures Keys([head] + rest, key) == [key(head)] + Keys(rest, key)
  {
  }

  lemma AddCons(x: string, ids: seq<string>, y: string)
    ensures Add([x] + ids, y) == if x == y then [x] + ids else [x] + Add(ids, y)
  {
    assert ([x] + ids) + [y] == [x] + (ids + [y]);
  }

  lemma {:induction false} UpsertKeys<T>(items: seq<T>, value: T, key: T -> string)
    ensures Keys(Upsert(items, value, key), key) == Add(Keys(items, key), key(value))
  {
    hide Keys, Add;
    if items == [] {
      UpsertFirst(value, key);
    } else {
      var head, rest := items[0], items[1..];
      assert items == [head] + rest;
      KeysCons(head, rest, key);
      AddCons(key(head), Keys(rest, key), key(value));
      if key(head) == key(value) {
        KeysCons(value, rest, key);
      } else {
        UpsertKeys(rest, value, key);
        KeysCons(head, Upsert(rest, value, key), key);
      }
    }
  }

  lemma UpsertFirst<T>(value: T, key: T -> string)
    ensures Keys([value], key) == Add(Keys([], key), key(value))
  {
  }

  lemma {:induction false} AmendKeys(tasks: seq<Task>, e: KernelEvent)
    requires Subject(e).Some?
    ensures Keys(AmendFirst(tasks, e), TASK_ID) == Keys(tasks, TASK_ID)
  {
    hide Keys, Amended, NewStatus;
    if tasks != [] {
      var head, rest := tasks[0], tasks[1..];
      assert tasks == [head] + rest;
      KeysCons(head, rest, TASK_ID);
      if head.id == Subject(e).value {
        AmendedId(head, e);
        KeysCons(Amended(head, e), rest, TASK_ID);
      } else {
        AmendKeys(rest, e);
        KeysCons(head, AmendFirst(rest, e), TASK_ID);
      }
    }
  }

  lemma AmendedId(t: Task, e: KernelEvent)
    requires Subject(e).Some?
    ensures Amended(t, e).id == t.id
  {
  }

  /** One more event adds at most the id it creates, at the end. */
  lemma IdsStep(s: State, e: KernelEvent, kind: Kind)
    ensures IdsOf(Next(s, e), kind)
         == if Created(e, kind).Some? then Add(IdsOf(s, kind), Created(e, kind).value) else IdsOf(s, kind)
  {
    hide Upsert, AmendFirst, Keys, Add, NewStatus, Amended;
    match e
    case GoalCreated(goal) => UpsertKeys(s.goals, goal, ENTRY_ID);
    case TaskPlanned(task) => UpsertKeys(s.tasks, task, TASK_ID);
    case ArtifactProduced(a) => UpsertKeys(s.artifacts, a, ENTRY_ID);
    case DelegationRequested(d) => UpsertKeys(s.resources, d, ENTRY_ID);
    case ResourceRegistered(r) => UpsertKeys(s.resources, r, ENTRY_ID);
    case _ => if Subject(e).Some? { AmendKeys(s.tasks, e); }
  }

  /** The position of the first occurrence. */
  function FirstAt(s: seq<string>, x: string): (i: nat)
    requires x in s
    ensures i < |s| && s[i] == x && x !in s[..i]
  {
    if s[0] == x then 0 else FirstAt(s[1..], x) + 1
  }

  lemma {:induction false} FirstAtIs(s: seq<string>, x: string, j: nat)
    requires j < |s| && s[j] == x && x !in s[..j]
    ensures FirstAt(s, x) == j
  {
    if j > 0 {
      assert s[..j][0] == s[0];
      assert s[1..][..j - 1] == s[1..j];
      FirstAtIs(s[1..], x, j - 1);
    }
  }

  lemma FirstAtAppend(s: seq<string>, y: string, x: string)
    requires x in s + [y]
    ensures FirstAt(s + [y], x) == if x in s then FirstAt(s, x) else |s|
  {
    var j := if x in s then FirstAt(s, x) else |s|;
    assert (s + [y])[..j] == s[..j];
    FirstAtIs(s + [y], x, j);
  }

  /** `ids` lists the distinct elements of `created` in the order of their first occurrence. */
  ghost predicate FirstSeenOrder(ids: seq<string>, created: seq<string>) {
    && (forall x :: x in ids <==> x in created)
    && (forall i, j :: 0 <= i < j < |ids| ==> ids[i] != ids[j] && FirstAt(created, ids[i]) < FirstAt(created, ids[j]))
  }

  /** The ids of each kind stay distinct, in the order they were first seen. */
  lemma {:induction false} IdsInFirstSeenOrder(E: seq<KernelEvent>, kind: Kind)
    ensures FirstSeenOrder(IdsOf(Replay(E), kind), CreatedIds(E, kind))
  {
    if E != [] {
      var P, e := E[..|E| - 1], E[|E| - 1];
      IdsInFirstSeenOrder(P, kind);
      IdsStep(Replay(P), e, kind);
      if Created(e, kind).Some? {
        OrderStep(IdsOf(Replay(P), kind), CreatedIds(P, kind), Created(e, kind).value);
      }
    }
  }

  lemma OrderStep(ids: seq<string>, created: seq<string>, y: string)
    requires FirstSeenOrder(ids, created)
    ensures FirstSeenOrder(Add(ids, y), created + [y])
  {
    var more := Add(ids, y);
    assert forall i :: 0 <= i < |ids| ==> ids[i] in ids && more[i] == ids[i];
    forall i, j | 0 <= i < j < |more|
      ensures more[i] != more[j] && FirstAt(created + [y], more[i]) < FirstAt(created + [y], more[j])
    {
      FirstAtAppend(created, y, more[i]);
      FirstAtAppend(created, y, more[j]);
    }
  }

  /******* What a task has become *******/

  function TaskAmong(tasks: seq<Task>, id: string): (t: Option<Task>)
    ensures t.Some? ==> t.value in tasks && t.value.id == id
    ensures t.None? ==> forall t' :: t' in tasks ==> t'.id != id
  {
    if tasks == [] then None
    else if tasks[0].id == id then Some(tasks[0])
    else TaskAmong(tasks[1..], id)
  }

  lemma {:induction false} TaskUpsert(tasks: seq<Task>, t: Task, id: string)
    ensures TaskAmong(Upsert(tasks, t, TASK_ID), id) == if t.id == id then Some(t) else TaskAmong(tasks, id)
  {
    if tasks != [] && tasks[0].id != t.id {
      TaskUpsert(tasks[1..], t, id);
      assert ([tasks[0]] + Upsert(tasks[1..], t, TASK_ID))[1..] == Upsert(tasks[1..], t, TASK_ID);
    }
  }

  lemma {:induction false} TaskAmend(tasks: seq<Task>, e: KernelEvent, id: string)
    requires Subject(e).Some?
    ensures TaskAmong(AmendFirst(tasks, e), id)
         == if Subject(e).value == id && TaskAmong(tasks, id).Some? then Some(Amended(TaskAmong(tasks, id).value, e))
            else TaskAmong(tasks, id)
  {
    if tasks != [] && tasks[0].id != Subject(e).value {
      TaskAmend(tasks[1..], e, id);
      assert ([tasks[0]] + AmendFirst(tasks[1..], e))[1..] == AmendFirst(tasks[1..], e);
    }
  }

  ghost predicate Plans(e: KernelEvent, id: string) {
    e.TaskPlanned? && e.task.id == id
  }

  /** The event plans the task or reports something of it. */
  ghost predicate About(e: KernelEvent, id: string) {
    || Plans(e, id)
    || (e.TaskClaimed? && e.taskId == id)
    || e == TaskBlocked(id) || e == TaskCompleted(id) || e == TaskFailed(id) || e == TaskAbandoned(id)
    || e == HumanInputRequested(Some(id))
  }

  /** Event `p` is the last one that plans the task. */
  ghost predicate LastPlan(E: seq<KernelEvent>, id: string, p: nat) {
    p < |E| && Plans(E[p], id) && forall j :: p < j < |E| ==> !Plans(E[j], id)
  }

  /** Event `i` is the last one about the task, which was planned by then. */
  ghost predicate LastAbout(E: seq<KernelEvent>, id: string, i: nat) {
    && i < |E| && About(E[i], id) && (forall j :: i < j < |E| ==> !About(E[j], id))
    && exists p :: 0 <= p <= i && Plans(E[p], id)
  }

  /** Event `i` is the last one since the task's last plan, that plan included, that says who does it. */
  ghost predicate LastAssignment(E: seq<KernelEvent>, id: string, i: nat) {
    && i < |E| && (Plans(E[i], id) || (E[i].TaskClaimed? && E[i].taskId == id))
    && (forall j :: i < j < |E| ==> !Plans(E[j], id) && !(E[j].TaskClaimed? && E[j].taskId == id))
    && exists p :: 0 <= p <= i && Plans(E[p], id)
  }

  /** What the replayed state knows of a task: its plan, its status and who does it. */
  ghost predicate KnownAs(E: seq<KernelEvent>, id: string, t: Task) {
    && t.id == id
    && (forall p: nat :: LastPlan(E, id, p) ==> t.blockedBy == E[p].task.blockedBy && t.content == E[p].task.content)
    && (forall i: nat :: LastAbout(E, id, i) ==> LeftWith(E[i], t.status))
    && (forall i: nat :: LastAssignment(E, id, i) ==>
          t.assignee == if E[i].TaskPlanned? then E[i].task.assignee else E[i].assignee)
  }

  /** The event, about a task, leaves it with this status. */
  ghost predicate LeftWith(e: KernelEvent, status: TaskStatus) {
    match status
    case Done => e.TaskCompleted? || (e.TaskPlanned? && e.task.status == Done)
    case Running => e.TaskClaimed? || (e.TaskPlanned? && e.task.status == Running)
    case Blocked => e.TaskBlocked? || (e.TaskPlanned? && e.task.status == TaskStatus.Blocked)
    case Failed => e.TaskFailed? || (e.TaskPlanned? && e.task.status == TaskStatus.Failed)
    case Abandoned => e.TaskAbandoned? || (e.TaskPlanned? && e.task.status == Abandoned)
    case WaitingHuman => e.HumanInputRequested? || (e.TaskPlanned? && e.task.status == WaitingHuman)
    case Pending => e.TaskPlanned? && e.task.status == Pending
    case Ready => e.TaskPlanned? && e.task.status == Ready
  }

  ghost predicate Planned(E: seq<KernelEvent>, id: string) {
    exists p :: 0 <= p < |E| && Plans(E[p], id)
  }

  lemma TaskStep(s: State, e: KernelEvent, id: string)
    ensures
      var before := TaskAmong(s.tasks, id);
      TaskAmong(Next(s, e).tasks, id)
      == if Plans(e, id) then Some(e.task)
         else if Subject(e) == Some(id) && before.Some? then Some(Amended(before.value, e))
         else before
  {
    hide Upsert, AmendFirst, Amended, TaskAmong, NewStatus;
    if e.TaskPlanned? { TaskUpsert(s.tasks, e.task, id); }
    if Subject(e).Some? { TaskAmend(s.tasks, e, id); }
  }

  lemma SubjectMeans(e: KernelEvent, id: string)
    ensures Subject(e) == Some(id) <==> About(e, id) && !Plans(e, id)
  {
  }

  lemma AmendedMeans(t: Task, e: KernelEvent, id: string)
    requires Subject(e) == Some(id)
    ensures
      var after := Amended(t, e);
      && after.id == t.id && after.blockedBy == t.blockedBy && after.content == t.content
      && LeftWith(e, after.status)
      && after.assignee == if e.TaskClaimed? then e.assignee else t.assignee
  {
  }

  /** The replayed state knows exactly the planned tasks, each by its plan, its last report and its last assignment. */
  lemma {:induction false} TaskExact(E: seq<KernelEvent>, id: string)
    ensures
      var t := TaskAmong(Replay(E).tasks, id);
      (t.Some? <==> Planned(E, id)) && (t.Some? ==> KnownAs(E, id, t.value))
  {
    hide Next, Amended, LeftWith, About, TaskAmong, KnownAs;
    if E != [] {
      var P, e := E[..|E| - 1], E[|E| - 1];
      assert E == P + [e];
      TaskExact(P, id);
      TaskStep(Replay(P), e, id);
      if Plans(e, id) {
        JustPlanned(P, e, id);
      } else if Planned(P, id) {
        KnownStep(P, e, id, TaskAmong(Replay(P).tasks, id).value);
      }
    } else {
      NoTasksYet(id);
    }
  }

  lemma NoTasksYet(id: string)
    ensures TaskAmong(Replay([]).tasks, id).None?
  {
  }

  lemma JustPlanned(P: seq<KernelEvent>, e: KernelEvent, id: string)
    requires Plans(e, id)
    ensures Planned(P + [e], id) && KnownAs(P + [e], id, e.task)
  {
    hide About, LeftWith;
    var E := P + [e];
    PlansAbout(e, id);
    assert Plans(E[|P|], id);
    forall p: nat | LastPlan(E, id, p) ensures p == |P| {}
    forall i: nat | LastAbout(E, id, i) ensures i == |P| {}
    forall i: nat | LastAssignment(E, id, i) ensures i == |P| {}
    PlansLeave(e);
  }

  lemma PlansLeave(e: KernelEvent)
    requires e.TaskPlanned?
    ensures LeftWith(e, e.task.status)
  {
  }

  lemma KnownStep(P: seq<KernelEvent>, e: KernelEvent, id: string, t: Task)
    requires !Plans(e, id) && Planned(P, id) && KnownAs(P, id, t)
    ensures Planned(P + [e], id)
    ensures KnownAs(P + [e], id, if Subject(e) == Some(id) then Amended(t, e) else t)
  {
    hide Amended, LeftWith, About, LastPlan, LastAbout, LastAssignment;
    var E := P + [e];
    SubjectMeans(e, id);
    if Subject(e) == Some(id) { AmendedMeans(t, e, id); }
    var p :| 0 <= p < |P| && Plans(P[p], id);
    assert Plans(E[p], id);
    LastsStep(P, e, id);
    ClaimIsAbout(e, id);
  }

  lemma ClaimIsAbout(e: KernelEvent, id: string)
    ensures e.TaskClaimed? && e.taskId == id ==> About(e, id)
  {
  }

  /** What one more event, not a plan of the task, does to the last events about it. */
  lemma LastsStep(P: seq<KernelEvent>, e: KernelEvent, id: string)
    requires !Plans(e, id)
    ensures
      var E := P + [e];
      && (forall p: nat :: LastPlan(E, id, p) ==> LastPlan(P, id, p) && p < |P|)
      && (forall i: nat :: LastAbout(E, id, i) ==>
            if About(e, id) then i == |P| else i < |P| && LastAbout(P, id, i))
      && (forall i: nat :: LastAssignment(E, id, i) ==>
            if e.TaskClaimed? && e.taskId == id then i == |P| else i < |P| && LastAssignment(P, id, i))
  {
    hide About;
    var E := P + [e];
    assert forall j :: 0 <= j < |P| ==> E[j] == P[j];
    assert E[|P|] == e;
    forall i: nat | LastAbout(E, id, i) ensures if About(e, id) then i == |P| else i < |P| && LastAbout(P, id, i) {
      var q :| 0 <= q <= i && Plans(E[q], id);
      if i < |P| { assert Plans(P[q], id); }
    }
    forall i: nat | LastAssignment(E, id, i)
      ensures if e.TaskClaimed? && e.taskId == id then i == |P| else i < |P| && LastAssignment(P, id, i)
    {
      var q :| 0 <= q <= i && Plans(E[q], id);
      if i < |P| { assert Plans(P[q], id); }
    }
  }

  /** The event is the last one about the planned task. */
  ghost predicate LastIs(E: seq<KernelEvent>, id: string, e: KernelEvent) {
    exists i: nat :: LastAbout(E, id, i) && E[i] == e
  }

  lemma {:induction false} SomeLast(E: seq<KernelEvent>, id: string) returns (i: nat)
    requires Planned(E, id)
    ensures i < |E| && LastAbout(E, id, i)
  {
    hide About;
    var P, e := E[..|E| - 1], E[|E| - 1];
    var p :| 0 <= p < |E| && Plans(E[p], id);
    PlansAbout(e, id);
    if About(e, id) {
      i := |E| - 1;
    } else {
      assert Plans(P[p], id);
      i := SomeLast(P, id);
      var q :| 0 <= q <= i && Plans(P[q], id);
      assert Plans(E[q], id);
      assert forall j :: 0 <= j < |P| ==> E[j] == P[j];
    }
  }

  lemma PlansAbout(e: KernelEvent, id: string)
    ensures Plans(e, id) ==> About(e, id)
  {
  }

  /** A task is planned as `e` says with this status, and nothing was reported of it since. */
  ghost predicate LastPlannedAs(E: seq<KernelEvent>, id: string, status: TaskStatus) {
    exists i: nat :: LastAbout(E, id, i) && E[i].TaskPlanned? && E[i].task.status == status
  }

  /**
   A planned task is Done exactly when the last event about it is its completion or a plan with that status; and so for
   every other status. A task nobody planned is unknown, whatever is reported of it.
   */
  lemma TaskStatusExact(E: seq<KernelEvent>, id: string)
    ensures TaskAmong(Replay(E).tasks, id).Some? <==> Planned(E, id)
    ensures
      Planned(E, id) ==>
        var status := TaskAmong(Replay(E).tasks, id).value.status;
        && (status == Done <==> LastIs(E, id, TaskCompleted(id)) || LastPlannedAs(E, id, Done))
        && (status == TaskStatus.Failed <==>
              LastIs(E, id, TaskFailed(id)) || LastPlannedAs(E, id, TaskStatus.Failed))
        && (status == TaskStatus.Blocked <==>
              LastIs(E, id, TaskBlocked(id)) || LastPlannedAs(E, id, TaskStatus.Blocked))
        && (status == Abandoned <==> LastIs(E, id, TaskAbandoned(id)) || LastPlannedAs(E, id, Abandoned))
        && (status == WaitingHuman <==>
              LastIs(E, id, HumanInputRequested(Some(id))) || LastPlannedAs(E, id, WaitingHuman))
        && (status == Running <==>
              (exists who :: LastIs(E, id, TaskClaimed(id, who))) || LastPlannedAs(E, id, Running))
        && (status == Pending <==> LastPlannedAs(E, id, Pending))
        && (status == Ready <==> LastPlannedAs(E, id, Ready))
  {
    hide TaskAmong, LastAbout, KnownAs, Replay, LeftWith, About, LastIs, LastPlannedAs, Planned;
    TaskExact(E, id);
    if Planned(E, id) {
      var i := SomeLast(E, id);
      OnlyLast(E, id, i);
      LeftBy(E, id, i, TaskAmong(Replay(E).tasks, id).value);
      StatusLeft(E[i], id, TaskAmong(Replay(E).tasks, id).value.status);
    }
  }

  lemma LeftBy(E: seq<KernelEvent>, id: string, i: nat, t: Task)
    requires KnownAs(E, id, t) && LastAbout(E, id, i)
    ensures LeftWith(E[i], t.status)
  {
    hide LeftWith, About, LastPlan, LastAssignment;
  }

  /** The last event about a task is the only one. */
  lemma OnlyLast(E: seq<KernelEvent>, id: string, i: nat)
    requires LastAbout(E, id, i)
    ensures About(E[i], id)
    ensures forall e :: LastIs(E, id, e) <==> e == E[i]
    ensures forall s :: LastPlannedAs(E, id, s) <==> E[i].TaskPlanned? && E[i].task.status == s
  {
    hide About;
    forall k: nat | LastAbout(E, id, k) ensures k == i { OneLast(E, id, i, k); }
  }

  /** An event about a task and the status it leaves it with determine each other, plans apart. */
  lemma StatusLeft(e: KernelEvent, id: string, status: TaskStatus)
    requires About(e, id) && LeftWith(e, status)
    ensures status == Done <==> e == TaskCompleted(id) || (e.TaskPlanned? && e.task.status == Done)
    ensures
      status == TaskStatus.Failed <==> e == TaskFailed(id) || (e.TaskPlanned? && e.task.status == TaskStatus.Failed)
    ensures
      status == TaskStatus.Blocked <==> e == TaskBlocked(id) || (e.TaskPlanned? && e.task.status == TaskStatus.Blocked)
    ensures status == Abandoned <==> e == TaskAbandoned(id) || (e.TaskPlanned? && e.task.status == Abandoned)
    ensures
      status == WaitingHuman <==>
        e == HumanInputRequested(Some(id)) || (e.TaskPlanned? && e.task.status == WaitingHuman)
    ensures
      status == Running <==> (exists who :: e == TaskClaimed(id, who)) || (e.TaskPlanned? && e.task.status == Running)
    ensures status == Pending <==> e.TaskPlanned? && e.task.status == Pending
    ensures status == Ready <==> e.TaskPlanned? && e.task.status == Ready
  {
    if e.TaskClaimed? { assert e == TaskClaimed(id, e.assignee); }
  }

  lemma OneLast(E: seq<KernelEvent>, id: string, i: nat, k: nat)
    requires LastAbout(E, id, i) && LastAbout(E, id, k)
    ensures i == k
  {
    hide About;
  }

  /******* The pending wake *******/

  predicate SchedulesWake(e: KernelEvent) {
    e.WakeRequested? || e.WakeScheduled?
  }

  /** Event `i` schedules `w`, and afterwards no other wake is scheduled and no completion carries its id. */
  ghost predicate LastWake(E: seq<KernelEvent>, w: Wake, i: nat) {
    && i < |E| && SchedulesWake(E[i]) && E[i].wake == w
    && forall j :: i < j < |E| ==> !SchedulesWake(E[j]) && E[j] != WakeCompleted(w.id)
  }

  lemma WakeStep(s: State, e: KernelEvent)
    ensures Next(s, e).pendingWake
         == if SchedulesWake(e) then Some(e.wake)
            else if s.pendingWake.Some? && e == WakeCompleted(s.pendingWake.value.id) then None
            else s.pendingWake
  {
  }

  lemma LastWakeStep(P: seq<KernelEvent>, e: KernelEvent, w: Wake, i: nat)
    ensures LastWake(P + [e], w, i)
       <==> if i == |P| then SchedulesWake(e) && e.wake == w
            else LastWake(P, w, i) && !SchedulesWake(e) && e != WakeCompleted(w.id)
  {
    var E := P + [e];
    assert E[|P|] == e;
    assert forall j :: 0 <= j < |P| ==> E[j] == P[j];
  }

  /** A wake is pending exactly when it is the last one scheduled and was not completed since. */
  lemma {:induction false} PendingWakeIff(E: seq<KernelEvent>, w: Wake)
    ensures Replay(E).pendingWake == Some(w) <==> exists i: nat :: LastWake(E, w, i)
  {
    hide Next, LastWake, SchedulesWake;
    if E == [] {
      NoWakes(w);
    } else {
      var P, e := E[..|E| - 1], E[|E| - 1];
      assert E == P + [e];
      PendingWakeIff(P, w);
      WakeStep(Replay(P), e);
      forall i: nat { LastWakeStep(P, e, w, i); }
      LastWakeStep(P, e, w, |P|);
      if i: nat :| LastWake(P, w, i) {
        LastWakeStep(P, e, w, i);
        LastWakeInside(P, w, i);
      }
    }
  }

  lemma LastWakeInside(P: seq<KernelEvent>, w: Wake, i: nat)
    requires LastWake(P, w, i)
    ensures i < |P|
  {
  }

  lemma NoWakes(w: Wake)
    ensures forall i: nat :: !LastWake([], w, i)
  {
  }
}
