/** Optional values, in place of a missing key or an absent field. */
module Options {
  datatype Option<+T> = None | Some(value: T)
}

/** Execution limits, and the overlays self-improvement lays over them. */
module Policies {
  import opened Options

  datatype ImprovementMode = Advisory | AutoWithGuardrails | Shadow

  datatype SelfImprovement = SelfImprovement(
    enabled: bool, mode: ImprovementMode, minObservations: nat, maxDeltaPercent: real, rollbackOnRegression: bool)

  datatype EnginePolicy = EnginePolicy(
    maxSteps: nat, maxExecutionMs: nat, providerTimeoutMs: nat, maxToolTimeoutMs: nat, maxParallel: nat,
    maxFailures: nat, maxReady: nat, validateArgs: bool, selfImprovement: SelfImprovement)

  datatype Patch = Patch(
    maxSteps: Option<nat>, maxExecutionMs: Option<nat>, providerTimeoutMs: Option<nat>,
    maxToolTimeoutMs: Option<nat>, maxParallel: Option<nat>)

  datatype OverlayStatus = Proposed | Applied | RolledBack | Rejected

  datatype Overlay = Overlay(id: string, status: OverlayStatus, patch: Patch)

  datatype TuningAction = TuningProposed | TuningApplied | TuningRolledBack | TuningRejectedUnsafe

  datatype Tuning = Tuning(action: TuningAction, overlay: Overlay, prior: EnginePolicy, projected: EnginePolicy)
}

/** The append-only session ledger: what each record carries, and the store that appends to it. */
module Ledger {
  import opened Options
  import opened Policies

  datatype Status = Queued | Validated | Started | Succeeded | Failed | Skipped | TimedOut {
    predicate Terminal() {
      Succeeded? || Failed? || Skipped? || TimedOut?
    }

    /** The terminal statuses that block every dependent node. */
    predicate Unsuccessful() {
      Failed? || Skipped? || TimedOut?
    }
  }

  datatype FailureKind =
    | PermissionDenied | CapabilityDenied | InvalidArguments | Timeout
    | MemoryLimitExceeded | Trap | InvalidResponse | Internal

  datatype Output = Ok | Err(kind: FailureKind)

  /** A planned skill call; `payload` stands for the arguments, the retry policy and the dry-run flag. */
  datatype Call = Call(callId: string, name: string, payload: string, priority: int, dependsOn: seq<string>)

  datatype Node = Node(
    callId: string, skill: string, payload: string, priority: int, deps: seq<string>, order: nat)

  /** A graph id: the text `trigger:step`, kept as its two parts. */
  datatype GraphId = GraphId(trigger: string, step: nat)

  datatype Graph = Graph(id: GraphId, step: nat, nodes: seq<Node>)

  datatype Checkpoint = Checkpoint(graph: GraphId, callId: string, skill: string, status: Status, attempt: nat)

  datatype ToolResult = ToolResult(callId: string, skill: string, output: Output)

  datatype Decision = Approved | Rejected

  datatype TriggerKind = Event | DelegationResult | Approval(token: string, decision: Decision)

  datatype TriggerRecord = TriggerRecord(id: string, key: Option<string>, kind: TriggerKind)

  datatype Action =
    | Plan | Respond | CallSkills(calls: seq<Call>) | Continue | Yield | MemorySearch | MemoryArchive
    | Suspend(pending: seq<Call>, token: string) | Delegate(resume: string)

  datatype StopReason =
    | Responded | Yielded | MaxStepsReached | DeadlineExceeded | Cancelled | ProviderFailure
    | StorageFailure | PolicyAborted | Suspended | Delegated

  /** Of the free-text detail only whether it mentions a timeout or a cost is kept: nothing else is read back. */
  datatype OutcomeRecord = OutcomeRecord(
    triggerId: string, key: Option<string>, stop: StopReason, mentionsTimeout: bool, mentionsCost: bool,
    steps: nat, token: Option<string>)

  datatype PendingApproval = PendingApproval(token: string, triggerId: string, step: nat, calls: seq<Call>)

  /** `Note` stands for every record kind no rule below reads back (intents, kernel events, usage, reflections ...). */
  datatype Record =
    | Trigger(trigger: TriggerRecord)
    | ModelDecision(step: nat, action: Action)
    | Deliberation
    | GraphRecord(graph: Graph)
    | NodeCheckpoint(checkpoint: Checkpoint)
    | InputValidation(callId: string, valid: bool)
    | ToolCalled(callId: string, step: nat)
    | ResultRecord(result: ToolResult)
    | Pending(approval: PendingApproval)
    | Resolution(token: string, decision: Decision)
    | PolicyTuning(tuning: Tuning)
    | OutcomeEntry(outcome: OutcomeRecord)
    | Note

  /** How one append ends. Unless it is `Stored`, the record may or may not have reached the ledger. */
  datatype AppendStatus = Stored | StoreError | Crash

  /**
   One session of the memory store: an append-only sequence of records. A reliable store keeps every record it is
   given; any other may fail, or stop the process, at any append.
   */
  class LedgerStore {
    const reliable: bool
    var records: seq<Record>

    constructor (reliable: bool)
      ensures records == [] && this.reliable == reliable
    {
      this.reliable := reliable;
      records := [];
    }

    method Append(r: Record) returns (status: AppendStatus)
      modifies this
      ensures records == old(records) + [r] || (status != Stored && records == old(records))
      ensures reliable ==> status == Stored
    {
      var persisted: bool := *;
      status := *;
      if reliable { status := Stored; }
      if status == Stored || persisted {
        records := records + [r];
      }
    }
  }
}
