/** apps/worker/main.py: durable task transitions from at-least-once events. */
module Worker {
  import opened Text
  import opened Json
  import opened Reasons
  import opened StateMachine
  import opened AuditChain
  import opened Records
  import opened Store
  import opened Settings

  /** Identifiers generated while one event is handled. */
  datatype FreshIds = FreshIds(resumeId: string, runId: string, sessionId: string)

  /** What an attempt will write: its checkpoints in order, and the task as its compare-and-swap leaves it. */
  datatype Plan = Plan(checkpoints: seq<Checkpoint>, task: Task)

  predicate Resumes(t: Task, kind: EventType) { Transition(t.state, ResolveTaskEvent(kind, t.state)) == Some(Resuming) }

  function Snapshot(id: string, t: Task, pending: Option<Object>, now: int): Checkpoint {
    Checkpoint(id, t.taskId, t.state, t.version, t.sessionId, t.agentId, t.agentVersion, pending, now)
  }

  /** Runtime references come from the prior checkpoint; without one, a session is made if there is none. */
  function RestoreRuntime(t: Task, prior: Option<Checkpoint>, newSession: string): Task {
    match prior
    case Some(c) => t.(agentId := c.agentId, agentVersion := c.agentVersion, sessionId := c.sessionId)
    case None => if t.sessionId == "" then t.(sessionId := newSession) else t
  }

  function PriorOf(checkpoints: Checkpoints, t: Task): Option<Checkpoint> {
    if t.latestCheckpointId != "" then Get(checkpoints, t.latestCheckpointId) else None
  }

  /** None is an invalid transition. A resume makes two hops, `Resuming` and then `Running`. */
  function MakePlan(t: Task, prior: Option<Checkpoint>, e: Envelope, now: int, ids: FreshIds): Option<Plan> {
    match Transition(t.state, ResolveTaskEvent(e.kind, t.state))
    case None => None
    case Some(next) =>
      var moved := t.(state := next, version := t.version + 1, updatedAt := now);
      if next == Resuming then
        var resuming := RestoreRuntime(moved, prior, ids.sessionId);
        var running := resuming.(state := Running, version := resuming.version + 1);
        Some(Plan([Snapshot(ids.resumeId, resuming, Some(e.data), now), Snapshot(ids.runId, running, None, now)],
                  running.(latestCheckpointId := ids.runId)))
      else
        Some(Plan([Snapshot(ids.runId, moved, Some(e.data), now)], moved.(latestCheckpointId := ids.runId)))
  }

  /** The mutator of the compare-and-swap: every field the attempt decided. */
  function ApplyFinal(planned: Task): Task -> Task {
    (t: Task) => t.(state := planned.state, version := planned.version, updatedAt := planned.updatedAt,
                    agentId := planned.agentId, agentVersion := planned.agentVersion, sessionId := planned.sessionId,
                    latestCheckpointId := planned.latestCheckpointId)
  }

  function PutCheckpoints(cs: Checkpoints, new_cs: seq<Checkpoint>): Checkpoints {
    if new_cs == [] then cs
    else PutCheckpoints(cs, new_cs[..|new_cs| - 1])[new_cs[|new_cs| - 1].checkpointId := new_cs[|new_cs| - 1]]
  }

  /** The checkpoint a task record names as its latest. */
  predicate IsFinalCheckpoint(c: Checkpoint, t: Task) {
    c.checkpointId == t.latestCheckpointId && c.taskId == t.taskId && c.version == t.version && c.state == t.state
  }

  lemma PutOneOrTwo(cs: Checkpoints, a: Checkpoint, b: Checkpoint)
    ensures PutCheckpoints(cs, [a]) == cs[a.checkpointId := a]
    ensures PutCheckpoints(cs, [a, b]) == cs[a.checkpointId := a][b.checkpointId := b]
  {
    assert [a][..0] == [] && [a, b][..1] == [a];
  }

  /** What a plan does to a task: agent and session of the prior checkpoint and version + 2 on a resume,
      version + 1 otherwise; its last checkpoint carries the version and state it writes. */
  lemma PlanMeaning(t: Task, prior: Option<Checkpoint>, e: Envelope, now: int, ids: FreshIds)
    ensures MakePlan(t, prior, e, now, ids).Some? <==> WorkerTarget(e.kind, t.state).Some?
    ensures MakePlan(t, prior, e, now, ids).Some? ==>
      var p := MakePlan(t, prior, e, now, ids).value;
      && p.task.state == WorkerTarget(e.kind, t.state).value
      && p.task.version == t.version + (if Resumes(t, e.kind) then 2 else 1)
      && |p.checkpoints| == (if Resumes(t, e.kind) then 2 else 1)
      && p.task.latestCheckpointId == ids.runId && p.task.taskId == t.taskId
      && IsFinalCheckpoint(p.checkpoints[|p.checkpoints| - 1], p.task)
      && (Resumes(t, e.kind) && prior.Some? ==>
            p.task.agentId == prior.value.agentId && p.task.agentVersion == prior.value.agentVersion
            && p.task.sessionId == prior.value.sessionId)
      && (!Resumes(t, e.kind) ==> p.task.agentId == t.agentId && p.task.sessionId == t.sessionId)
      && ApplyFinal(p.task)(t) == p.task
  {}

  datatype WorkerOutcome = Duplicate | Error(code: Reason) | Processed(from: TaskState, to: TaskState)

  function TransitionEvent(t: Task, from: TaskState, eventId: string, amb: Ambient): EventBody {
    EventBody(amb.auditId, t.taskId, t.delegationId, None, SystemActor(Service.WorkerService), TaskTransition, None,
              AllowDecision, None, t.policyVersion, [], [], Hop(eventId, from, t.state), amb.now)
  }

  function HandleSpec(cfg: Config, st: State, e: Envelope, ids: FreshIds, amb: Ambient): (State, WorkerOutcome) {
    var (receipts, admitted) := Reserve(st.receipts, e, amb.now, WORKER_LEASE);
    if admitted then HandleAdmitted(cfg, st.(receipts := receipts), e, ids, amb) else (st.(receipts := receipts), Duplicate)
  }

  function HandleAdmitted(cfg: Config, st: State, e: Envelope, ids: FreshIds, amb: Ambient): (State, WorkerOutcome) {
    if e.taskId !in st.tasks then (st, Error(NOT_FOUND))
    else
      var t := st.tasks[e.taskId];
      match MakePlan(t, PriorOf(st.checkpoints, t), e, amb.now, ids)
      case None => (st, Error(INVALID_TRANSITION))
      case Some(p) =>
        var st1 := st.(checkpoints := PutCheckpoints(st.checkpoints, p.checkpoints), tasks := st.tasks[e.taskId := p.task]);
        if !amb.auditOk then (st1, Error(INTERNAL_ERROR))
        else
          var st2 := Record(cfg.hashing, st1, TransitionEvent(p.task, t.state, e.eventId, amb));
          (st2.(receipts := MarkComplete(st.receipts, e.eventId)), Processed(t.state, p.task.state))
  }

  // ---- what a delivery does, in states and kinds of events ----

  /** The task as the event leaves it: its new state, two versions on if it resumed and one otherwise, and the final
      checkpoint as its latest; a resume takes agent and session from the checkpoint before, if there is one. */
  function Handled(t: Task, prior: Option<Checkpoint>, e: Envelope, to: TaskState, now: int, ids: FreshIds): Task {
    var moved := t.(state := to, version := t.version + (if Waited(e.kind) then 2 else 1), latestCheckpointId := ids.runId, updatedAt := now);
    if !Waited(e.kind) then moved
    else match prior
      case Some(c) => moved.(agentId := c.agentId, agentVersion := c.agentVersion, sessionId := c.sessionId)
      case None => if t.sessionId == "" then moved.(sessionId := ids.sessionId) else moved
  }

  /** The checkpoint the task names, if it is stored. */
  function Latest(cs: Checkpoints, t: Task): Option<Checkpoint> {
    if t.latestCheckpointId != "" && t.latestCheckpointId in cs then Some(cs[t.latestCheckpointId]) else None
  }

  /** Its checkpoints: the event's data stays pending on the first one. */
  function Saved(cs: Checkpoints, t: Task, e: Envelope, now: int, ids: FreshIds): Checkpoints {
    if Waited(e.kind) then
      cs[ids.resumeId := Checkpoint(ids.resumeId, t.taskId, Resuming, t.version - 1, t.sessionId, t.agentId, t.agentVersion, Some(e.data), now)]
        [ids.runId := Checkpoint(ids.runId, t.taskId, Running, t.version, t.sessionId, t.agentId, t.agentVersion, None, now)]
    else
      cs[ids.runId := Checkpoint(ids.runId, t.taskId, t.state, t.version, t.sessionId, t.agentId, t.agentVersion, Some(e.data), now)]
  }

  lemma PlanExactly(cs: Checkpoints, t: Task, e: Envelope, now: int, ids: FreshIds)
    ensures var prior, to := Latest(cs, t), Destination(e.kind, t.state);
      var plan := MakePlan(t, PriorOf(cs, t), e, now, ids);
      && (plan.Some? <==> to.Some?)
      && (plan.Some? ==> plan.value.task == Handled(t, prior, e, to.value, now, ids)
                         && PutCheckpoints(cs, plan.value.checkpoints) == Saved(cs, plan.value.task, e, now, ids))
  {
    TargetExactly(e.kind, t.state);
    var plan := MakePlan(t, PriorOf(cs, t), e, now, ids);
    if plan.Some? {
      var new_cs := plan.value.checkpoints;
      PutOneOrTwo(cs, new_cs[0], new_cs[|new_cs| - 1]);
    }
  }

  /** A delivery is a duplicate exactly if its event is complete or was admitted less than a minute ago. An admitted event
      moves its task exactly as `Destination` says: task, checkpoints and trail change together, and only for this task;
      the event is complete only once the trail has it, and what is refused changes nothing but the receipt. */
  lemma {:induction false} DeliveredExactly(cfg: Config, st: State, e: Envelope, ids: FreshIds, amb: Ambient)
    ensures var (st', o) := HandleSpec(cfg, st, e, ids, amb);
      var receipts := Reserve(st.receipts, e, amb.now, 60 * SECOND).0;
      var admitted := e.eventId in st.receipts ==>
        st.receipts[e.eventId].status == Processing && st.receipts[e.eventId].firstSeenAt + 60 * SECOND <= amb.now;
      if !admitted then o == Duplicate && st' == st
      else if e.taskId !in st.tasks then o == Error(NOT_FOUND) && st' == st.(receipts := receipts)
      else
        var t := st.tasks[e.taskId];
        match Destination(e.kind, t.state)
        case None => o == Error(INVALID_TRANSITION) && st' == st.(receipts := receipts)
        case Some(to) =>
          var t' := Handled(t, Latest(st.checkpoints, t), e, to, amb.now, ids);
          && st' == st.(tasks := st.tasks[e.taskId := t'], checkpoints := Saved(st.checkpoints, t', e, amb.now, ids),
                        receipts := st'.receipts, audit := st'.audit)
          && if amb.auditOk then
               && o == Processed(t.state, to) && st'.receipts == receipts[e.eventId := receipts[e.eventId].(status := Complete)]
               && Chain(st'.audit, t.taskId) == Append(cfg.hashing, Chain(st.audit, t.taskId), TransitionEvent(t', t.state, e.eventId, amb))
             else o == Error(INTERNAL_ERROR) && st'.receipts == receipts && st'.audit == st.audit
  {
    AdmittedExactlyWhen(st.receipts, e, amb.now, 60 * SECOND);
    if Reserve(st.receipts, e, amb.now, 60 * SECOND).1 && e.taskId in st.tasks {
      PlanExactly(st.checkpoints, st.tasks[e.taskId], e, amb.now, ids);
    }
  }

  class Server {
    const cfg: Config
    const db: MemoryStore

    constructor (cfg: Config, db: MemoryStore)
      ensures this.cfg == cfg && this.db == db
    {
      this.cfg, this.db := cfg, db;
    }

    method HandleEvent(e: Envelope, ids: FreshIds, amb: Ambient) returns (o: WorkerOutcome)
      modifies db
      ensures (db.View(), o) == HandleSpec(cfg, old(db.View()), e, ids, amb)
    {
      var admitted := db.ReserveEventReceipt(e, amb.now, 60);
      if !admitted { return Duplicate; }
      o := Process(e, ids, amb);
    }

    /** Steps 3 to 6, once the receipt is reserved. */
    method Process(e: Envelope, ids: FreshIds, amb: Ambient) returns (o: WorkerOutcome)
      modifies db
      ensures (db.View(), o) == HandleAdmitted(cfg, old(db.View()), e, ids, amb)
    {
      var found := db.GetTask(e.taskId);
      if found.None? { return Error(NOT_FOUND); }
      var fromState, expectedVersion := found.value.state, found.value.version;
      var planned, task := PlanCheckpoints(found.value, e, ids, amb.now);
      if !planned { return Error(INVALID_TRANSITION); }
      var r := db.MutateTaskAtomic(e.taskId, ApplyFinal(task), Some(expectedVersion));
      if !r.Mutated? { return Error(INTERNAL_ERROR); }
      if !amb.auditOk { return Error(INTERNAL_ERROR); }
      db.AppendLinked(cfg.hashing, TransitionEvent(task, fromState, e.eventId, amb));
      db.MarkEventComplete(e.eventId);
      return Processed(fromState, task.state);
    }

    /** Steps 3 and 4 on the worker's copy of the task, storing checkpoints on the way. */
    method PlanCheckpoints(read: Task, e: Envelope, ids: FreshIds, now: int) returns (planned: bool, task: Task)
      modifies db
      ensures planned <==> MakePlan(read, PriorOf(old(db.checkpoints), read), e, now, ids).Some?
      ensures !planned ==> db.View() == old(db.View())
      ensures planned ==> task == MakePlan(read, PriorOf(old(db.checkpoints), read), e, now, ids).value.task
      ensures planned ==> db.View() == old(db.View()).(checkpoints := PutCheckpoints(old(db.checkpoints),
        MakePlan(read, PriorOf(old(db.checkpoints), read), e, now, ids).value.checkpoints))
    {
      task := read;
      var next := Transition(task.state, ResolveTaskEvent(e.kind, task.state));
      if next.None? { return false, task; }
      task := task.(state := next.value, version := task.version + 1, updatedAt := now);
      ghost var moved := task;
      var resumed := next.value == Resuming;
      if resumed { task := ResumeTask(task, e, ids, now); }
      var run := Snapshot(ids.runId, task, if resumed then None else Some(e.data), now);
      db.PutCheckpoint(run);
      PutOneOrTwo(old(db.checkpoints), run, run);
      ghost var resuming := RestoreRuntime(moved, PriorOf(old(db.checkpoints), moved), ids.sessionId);
      PutOneOrTwo(old(db.checkpoints), Snapshot(ids.resumeId, resuming, Some(e.data), now), run);
      task := task.(latestCheckpointId := ids.runId);
      planned := true;
    }

    /** Step 4: restore the runtime references, store the resume checkpoint, and make the second hop. */
    method ResumeTask(t: Task, e: Envelope, ids: FreshIds, now: int) returns (task: Task)
      modifies db
      ensures var resuming := RestoreRuntime(t, PriorOf(old(db.checkpoints), t), ids.sessionId);
        && task == resuming.(state := Running, version := resuming.version + 1)
        && db.View() == old(db.View()).(checkpoints := old(db.checkpoints)[ids.resumeId := Snapshot(ids.resumeId, resuming, Some(e.data), now)])
    {
      task := t;
      var prior: Option<Checkpoint> := None;
      if task.latestCheckpointId != "" { prior := db.GetCheckpoint(task.latestCheckpointId); }
      if prior.Some? {
        task := task.(agentId := prior.value.agentId, agentVersion := prior.value.agentVersion, sessionId := prior.value.sessionId);
      } else if task.sessionId == "" {
        task := task.(sessionId := ids.sessionId);
      }
      db.PutCheckpoint(Snapshot(ids.resumeId, task, Some(e.data), now));
      var restored := Transition(Resuming, RuntimeRestored);
      task := task.(state := restored.value, version := task.version + 1);
    }
  }
}
