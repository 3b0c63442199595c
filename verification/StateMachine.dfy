/** packages/delegation_fabric_core/policy/state_machine.py and the worker's event mapping. */
module StateMachine {
  import opened Text

  datatype TaskState = Created | Running | AwaitingApproval | AwaitingWebhook | Resuming
                     | Completed | Failed | Quarantined | Cancelled
  {
    predicate Terminal() { Completed? || Failed? || Cancelled? }
    /** A task for which grants may be minted and executed. */
    predicate Live() { !Terminal() && !Quarantined? }
  }

  datatype TaskEvent = InitialInvocation | ApprovalRequired | WebhookPending | TerminalSuccess | TerminalFailure
                     | SecurityEvent | ApprovalReceived | WebhookReceived | RuntimeRestored | ResumeFailed
                     | HumanReleased | Cancellation

  const VALID_TRANSITIONS: map<(TaskState, TaskEvent), TaskState> := map[
    (Created, InitialInvocation) := Running,
    (Running, ApprovalRequired) := AwaitingApproval,
    (Running, WebhookPending) := AwaitingWebhook,
    (Running, TerminalSuccess) := Completed,
    (Running, TerminalFailure) := Failed,
    (Running, SecurityEvent) := Quarantined,
    (AwaitingApproval, ApprovalReceived) := Resuming,
    (AwaitingWebhook, WebhookReceived) := Resuming,
    (Resuming, RuntimeRestored) := Running,
    (Resuming, ResumeFailed) := Failed,
    (Quarantined, HumanReleased) := Resuming]

  /** None is InvalidTransitionError. */
  function Transition(current: TaskState, event: TaskEvent): Option<TaskState> {
    if event == Cancellation then (if current.Terminal() then None else Some(Cancelled))
    else if (current, event) in VALID_TRANSITIONS then Some(VALID_TRANSITIONS[(current, event)])
    else None
  }

  /** No event leaves a terminal state. */
  lemma TerminalIsFinal(s: TaskState)
    ensures s.Terminal() ==> forall e :: Transition(s, e).None?
  {}

  datatype EventType = TaskStart | ApprovalCreated | ApprovalRejected | SettlementCompleted | SettlementFailed
                     | TaskRelease | TaskCancel

  /** apps/worker/main.py, `_resolve_task_event`; every event type maps to some task event. */
  function ResolveTaskEvent(kind: EventType, current: TaskState): TaskEvent {
    match kind
    case TaskStart => InitialInvocation
    case ApprovalCreated => ApprovalReceived
    case ApprovalRejected => Cancellation
    case SettlementCompleted => WebhookReceived
    case SettlementFailed => if current == Resuming then ResumeFailed else TerminalFailure
    case TaskRelease => HumanReleased
    case TaskCancel => Cancellation
  }

  /** Where the worker leaves a task: `Resuming` is passed through in the same write. */
  function Settled(next: TaskState): TaskState { if next == Resuming then Running else next }

  /** The state a worker writes for an event, or None if the transition is refused. */
  function WorkerTarget(kind: EventType, from: TaskState): Option<TaskState> {
    match Transition(from, ResolveTaskEvent(kind, from))
    case Some(next) => Some(Settled(next))
    case None => None
  }

  /** The whole table of the worker, state by state and event by event: a start, an approval, a settlement or a release
      lets exactly the task that waits for it run; a rejection or a cancellation ends any task that has not ended; a
      failed settlement fails a task that runs or resumes; anything else is refused. */
  function Destination(kind: EventType, from: TaskState): Option<TaskState> {
    match kind
    case TaskStart => if from == Created then Some(Running) else None
    case ApprovalCreated => if from == AwaitingApproval then Some(Running) else None
    case SettlementCompleted => if from == AwaitingWebhook then Some(Running) else None
    case TaskRelease => if from == Quarantined then Some(Running) else None
    case ApprovalRejected => if from in {Completed, Failed, Cancelled} then None else Some(Cancelled)
    case TaskCancel => if from in {Completed, Failed, Cancelled} then None else Some(Cancelled)
    case SettlementFailed => if from in {Running, Resuming} then Some(Failed) else None
  }

  /** A task that waited passes through resuming. */
  predicate Waited(kind: EventType) { kind in {ApprovalCreated, SettlementCompleted, TaskRelease} }

  lemma TargetExactly(kind: EventType, from: TaskState)
    ensures WorkerTarget(kind, from) == Destination(kind, from)
    ensures Transition(from, ResolveTaskEvent(kind, from)) == Some(Resuming) <==> Destination(kind, from).Some? && Waited(kind)
  {}

  /** One hop leads from the first state to the second. */
  predicate Adjacent(from: TaskState, to: TaskState) {
    match to
    case Created => false
    case Running => from == Created || from == Resuming
    case Resuming => from == AwaitingApproval || from == AwaitingWebhook || from == Quarantined
    case Failed => from == Running || from == Resuming
    case Cancelled => from != Completed && from != Failed && from != Cancelled
    case _ => from == Running
  }

  /** An event that makes the hop, if there is one. */
  function EventFor(from: TaskState, to: TaskState): TaskEvent {
    match to
    case Running => if from == Created then InitialInvocation else RuntimeRestored
    case Resuming =>
      if from == AwaitingApproval then ApprovalReceived else if from == AwaitingWebhook then WebhookReceived else HumanReleased
    case Failed => if from == Running then TerminalFailure else ResumeFailed
    case AwaitingApproval => ApprovalRequired
    case AwaitingWebhook => WebhookPending
    case Completed => TerminalSuccess
    case Quarantined => SecurityEvent
    case _ => Cancellation
  }

  lemma HopIsAdjacent(from: TaskState, e: TaskEvent)
    ensures Transition(from, e).Some? ==> Adjacent(from, Transition(from, e).value)
  {}

  /** Some event makes the hop exactly if the states are adjacent: only a running task waits, completes or is quarantined, and
      only a new or a resuming one starts to run. */
  lemma OneHopExactly(from: TaskState, to: TaskState)
    ensures (exists e :: Transition(from, e) == Some(to)) <==> Adjacent(from, to)
  {
    if e :| Transition(from, e) == Some(to) { HopIsAdjacent(from, e); }
    if Adjacent(from, to) { assert Transition(from, EventFor(from, to)) == Some(to); }
  }

  /** After an event has moved a task, the same event is refused. */
  lemma NoSecondMove(kind: EventType, from: TaskState)
    requires WorkerTarget(kind, from).Some?
    ensures WorkerTarget(kind, WorkerTarget(kind, from).value).None?
  {
    var to := WorkerTarget(kind, from).value;
    assert kind.TaskStart? || kind.ApprovalCreated? || kind.SettlementCompleted? || kind.TaskRelease? ==> to == Running;
    assert kind.SettlementFailed? ==> to == Failed;
    assert kind.ApprovalRejected? || kind.TaskCancel? ==> to == Cancelled;
  }

  /** A path of the transition table, from one state to another in `n` hops. */
  ghost predicate HopPath(from: TaskState, to: TaskState, n: nat)
    decreases n
  {
    if n == 0 then from == to
    else exists e, mid :: Transition(from, e) == Some(mid) && HopPath(mid, to, n - 1)
  }

  /** The path exists for every worker target: two hops through `Resuming`, one otherwise. */
  lemma WorkerHops(kind: EventType, from: TaskState)
    requires WorkerTarget(kind, from).Some?
    ensures HopPath(from, WorkerTarget(kind, from).value,
              if Transition(from, ResolveTaskEvent(kind, from)) == Some(Resuming) then 2 else 1)
  {
    var e := ResolveTaskEvent(kind, from);
    var mid := Transition(from, e).value;
    var to := WorkerTarget(kind, from).value;
    if mid == Resuming {
      assert Transition(mid, RuntimeRestored) == Some(to) && HopPath(to, to, 0);
      assert HopPath(mid, to, 1);
    } else {
      assert HopPath(mid, to, 0);
    }
  }

  lemma SingleHop(from: TaskState, e: TaskEvent, to: TaskState)
    requires Transition(from, e) == Some(to)
    ensures HopPath(from, to, 1)
  {
    assert HopPath(to, to, 0);
  }
}
