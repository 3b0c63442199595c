/** packages/delegation_fabric_adapters/firestore/store.py: the in-memory store. Each method is atomic (one lock). */
module Store {
  import opened Text
  import opened Json
  import opened AuditChain
  import opened Records

  const DEFAULT_LIST_LIMIT: nat := 200
  const WORKER_LEASE := 60 * SECOND

  type Delegations = map<string, Delegation>
  type Tasks = map<string, Task>
  type Checkpoints = map<string, Checkpoint>
  type Grants = map<string, GrantRecord>
  type Approvals = map<string, Approval>
  type Receipts = map<string, Receipt>
  type Audit = map<string, seq<AuditEvent>>

  /** The contents of the store. Approvals are listed in insertion order, so that order is kept. */
  datatype State = State(
    delegations: Delegations, tasks: Tasks, checkpoints: Checkpoints, grants: Grants,
    approvals: Approvals, approvalOrder: seq<string>, receipts: Receipts, audit: Audit)

  function EmptyState(): State { State(map[], map[], map[], map[], map[], [], map[], map[]) }

  // ---- what each operation does to the contents ----

  function Get<V>(m: map<string, V>, k: string): Option<V> { if k in m then Some(m[k]) else None }

  function Chain(audit: Audit, taskId: string): seq<AuditEvent> { if taskId in audit then audit[taskId] else [] }

  function PutApprovalIn(st: State, a: Approval): State {
    st.(approvals := st.approvals[a.approvalId := a],
        approvalOrder := if a.approvalId in st.approvals then st.approvalOrder else st.approvalOrder + [a.approvalId])
  }

  function ApprovalsOf(st: State, order: seq<string>, taskId: string): seq<Approval> {
    if order == [] then []
    else
      var front := ApprovalsOf(st, order[..|order| - 1], taskId);
      var id := order[|order| - 1];
      if id in st.approvals && st.approvals[id].taskId == taskId then front + [st.approvals[id]] else front
  }

  /** `listed if limit is None else listed[:limit]` */
  function Limited<T>(listed: seq<T>, limit: Option<nat>): seq<T> {
    if limit.None? || |listed| <= limit.value then listed else listed[..limit.value]
  }

  /** The task's first two hundred approvals in insertion order. */
  function ListedApprovals(st: State, taskId: string): seq<Approval> {
    Limited(ApprovalsOf(st, st.approvalOrder, taskId), Some(DEFAULT_LIST_LIMIT))
  }

  datatype ConsumeResult = Ok | Unknown | Replay | GrantLapsed

  function Consume(grants: Grants, id: string, now: int): (Grants, ConsumeResult) {
    if id !in grants then (grants, Unknown)
    else if grants[id].status != Issued then (grants, Replay)
    else if grants[id].expiresAt <= now then (grants[id := grants[id].(status := Expired)], GrantLapsed)
    else (grants[id := grants[id].(status := Consumed, consumedAt := Some(now))], Ok)
  }

  datatype MutateResult = Mutated(task: Task) | TaskMissing | VersionConflict

  /** Compare-and-swap on `state_version`. */
  function Mutate(tasks: Tasks, id: string, f: Task -> Task, expected: Option<int>): (Tasks, MutateResult) {
    if id !in tasks then (tasks, TaskMissing)
    else if expected.Some? && tasks[id].version != expected.value then (tasks, VersionConflict)
    else (tasks[id := f(tasks[id])], Mutated(f(tasks[id])))
  }

  /** True admits the event: its first delivery, or one whose lease has run out before completion. */
  function Reserve(receipts: Receipts, e: Envelope, now: int, lease: int): (Receipts, bool) {
    if e.eventId !in receipts then
      (receipts[e.eventId := Receipt(e.eventId, e.kind, e.taskId, Processing, 1, now)], true)
    else
      var r := receipts[e.eventId];
      if r.status == Complete then (receipts, false)
      else if now - r.firstSeenAt >= lease then
        (receipts[e.eventId := r.(attempts := r.attempts + 1, firstSeenAt := now)], true)
      else (receipts, false)
  }

  function MarkComplete(receipts: Receipts, eventId: string): Receipts {
    if eventId in receipts then receipts[eventId := receipts[eventId].(status := Complete)] else receipts
  }

  function AppendEvent(audit: Audit, e: AuditEvent): Audit {
    audit[e.data.body.taskId := Chain(audit, e.data.body.taskId) + [e]]
  }

  /** Read the task's chain and append an event linked to its head: the services' common audit step. */
  function Record(h: Hashing, st: State, body: EventBody): State {
    st.(audit := st.audit[body.taskId := Append(h, Chain(st.audit, body.taskId), body)])
  }

  // ---- facts about single operations ----

  /** Every listed approval is stored under its position in the listing order. */
  lemma {:induction false} ListedAreStored(st: State, order: seq<string>, taskId: string)
    ensures forall a :: a in ApprovalsOf(st, order, taskId) ==>
      a.taskId == taskId && exists id :: id in st.approvals && st.approvals[id] == a
  {
    if order != [] { ListedAreStored(st, order[..|order| - 1], taskId); }
  }

  /** The i-th approval stored belongs to the task. */
  predicate OfTask(st: State, order: seq<string>, taskId: string, i: int) {
    0 <= i < |order| && order[i] in st.approvals && st.approvals[order[i]].taskId == taskId
  }

  /** The approvals of the task stored before the i-th. */
  ghost function Before(st: State, order: seq<string>, taskId: string, i: nat): set<int> {
    set j | 0 <= j < i && OfTask(st, order, taskId, j)
  }

  ghost predicate PlacedAt(st: State, order: seq<string>, taskId: string, n: nat, i: nat) {
    OfTask(st, order, taskId, i) && |Before(st, order, taskId, i)| == n
  }

  lemma BeforeInLonger(st: State, order: seq<string>, taskId: string, m: nat, i: nat)
    requires i <= m <= |order|
    ensures Before(st, order[..m], taskId, i) == Before(st, order, taskId, i)
  {
    forall j | 0 <= j < i ensures OfTask(st, order[..m], taskId, j) == OfTask(st, order, taskId, j) {}
  }

  lemma BeforeNext(st: State, order: seq<string>, taskId: string, i: nat)
    ensures Before(st, order, taskId, i + 1) == Before(st, order, taskId, i) + if OfTask(st, order, taskId, i) then {i} else {}
    ensures |Before(st, order, taskId, i + 1)| == |Before(st, order, taskId, i)| + if OfTask(st, order, taskId, i) then 1 else 0
  {}

  lemma {:induction false} ListedCount(st: State, order: seq<string>, taskId: string)
    ensures |ApprovalsOf(st, order, taskId)| == |Before(st, order, taskId, |order|)|
  {
    if order != [] {
      var last := |order| - 1;
      ListedCount(st, order[..last], taskId);
      BeforeInLonger(st, order, taskId, last, last);
      BeforeNext(st, order, taskId, last);
    }
  }

  /** An approval of the task is listed at the place that counts those stored before it. */
  lemma {:induction false} PlaceOf(st: State, order: seq<string>, taskId: string, i: nat)
    requires OfTask(st, order, taskId, i)
    ensures var n, listed := |Before(st, order, taskId, i)|, ApprovalsOf(st, order, taskId);
      n < |listed| && listed[n] == st.approvals[order[i]]
  {
    var last := |order| - 1;
    ListedCount(st, order[..last], taskId);
    BeforeInLonger(st, order, taskId, last, i);
    if i < last {
      assert OfTask(st, order[..last], taskId, i);
      PlaceOf(st, order[..last], taskId, i);
    }
  }

  lemma {:induction false} PlaceTaken(st: State, order: seq<string>, taskId: string, n: nat) returns (i: nat)
    requires n < |ApprovalsOf(st, order, taskId)|
    ensures PlacedAt(st, order, taskId, n, i)
  {
    var last := |order| - 1;
    ListedCount(st, order[..last], taskId);
    BeforeInLonger(st, order, taskId, last, last);
    if n < |ApprovalsOf(st, order[..last], taskId)| {
      i := PlaceTaken(st, order[..last], taskId, n);
      BeforeInLonger(st, order, taskId, last, i);
    } else {
      i := last;
    }
  }

  /** An approval is listed for its task exactly if it is among the first two hundred of the task in the order they were
      stored, and at that place. */
  lemma ListedExactly(st: State, taskId: string, n: nat, a: Approval)
    ensures (n < |ListedApprovals(st, taskId)| && ListedApprovals(st, taskId)[n] == a)
      <==> n < 200 && exists i: nat :: PlacedAt(st, st.approvalOrder, taskId, n, i) && st.approvals[st.approvalOrder[i]] == a
  {
    var order := st.approvalOrder;
    if n < |ListedApprovals(st, taskId)| {
      var i := PlaceTaken(st, order, taskId, n);
      PlaceOf(st, order, taskId, i);
    }
    if i: nat :| PlacedAt(st, order, taskId, n, i) && st.approvals[order[i]] == a { PlaceOf(st, order, taskId, i); }
  }

  /** An event is admitted exactly on its first delivery, or if it is not complete and was last admitted at least the
      lease ago; its receipt then counts the attempt from now. A refused delivery changes nothing. */
  lemma AdmittedExactlyWhen(receipts: Receipts, e: Envelope, now: int, lease: int)
    ensures var (receipts', admitted) := Reserve(receipts, e, now, lease);
      && (admitted <==> (e.eventId in receipts ==>
            receipts[e.eventId].status == Processing && receipts[e.eventId].firstSeenAt + lease <= now))
      && (!admitted ==> receipts' == receipts)
      && (admitted ==>
            && e.eventId in receipts' && receipts' == receipts[e.eventId := receipts'[e.eventId]]
            && receipts'[e.eventId].status == Processing && receipts'[e.eventId].firstSeenAt == now
            && receipts'[e.eventId].attempts == 1 + if e.eventId in receipts then receipts[e.eventId].attempts else 0)
  {}

  /** Consumption changes at most the status of its own grant, and only if that was issued. */
  lemma ConsumeStatus(grants: Grants, id: string, now: int, h: string)
    ensures var (after, r) := Consume(grants, id, now);
      && (h in after <==> h in grants) && (r.Ok? || r.GrantLapsed? ==> id in grants && grants[id].status == Issued)
      && (h in grants ==>
            after[h].status == if h == id && r.Ok? then Consumed else if h == id && r.GrantLapsed? then Expired else grants[h].status)
  {}

  // ---- the class ----

  class MemoryStore {
    var delegations: Delegations
    var tasks: Tasks
    var checkpoints: Checkpoints
    var grants: Grants
    var approvals: Approvals
    var approvalOrder: seq<string>
    var eventReceipts: Receipts
    var auditEventsByTask: Audit

    ghost function View(): State
      reads this
    {
      State(delegations, tasks, checkpoints, grants, approvals, approvalOrder, eventReceipts, auditEventsByTask)
    }

    constructor ()
      ensures View() == EmptyState()
    {
      delegations, tasks, checkpoints, grants := map[], map[], map[], map[];
      approvals, approvalOrder, eventReceipts, auditEventsByTask := map[], [], map[], map[];
    }

    method PutDelegation(d: Delegation)
      modifies this
      ensures View() == old(View()).(delegations := old(delegations)[d.delegationId := d])
    {
      delegations := delegations[d.delegationId := d];
    }

    method GetDelegation(id: string) returns (d: Option<Delegation>)
      ensures d == Get(View().delegations, id)
    {
      d := if id in delegations then Some(delegations[id]) else None;
    }

    method PutTask(t: Task)
      modifies this
      ensures View() == old(View()).(tasks := old(tasks)[t.taskId := t])
    {
      tasks := tasks[t.taskId := t];
    }

    method GetTask(id: string) returns (t: Option<Task>)
      ensures t == Get(View().tasks, id)
    {
      t := if id in tasks then Some(tasks[id]) else None;
    }

    method MutateTaskAtomic(id: string, mutator: Task -> Task, expectedVersion: Option<int>) returns (r: MutateResult)
      modifies this
      ensures View() == old(View()).(tasks := Mutate(old(tasks), id, mutator, expectedVersion).0)
      ensures r == Mutate(old(tasks), id, mutator, expectedVersion).1
    {
      if id !in tasks { return TaskMissing; }
      var task := tasks[id];
      if expectedVersion.Some? && task.version != expectedVersion.value { return VersionConflict; }
      task := mutator(task);
      tasks := tasks[id := task];
      return Mutated(task);
    }

    method PutCheckpoint(c: Checkpoint)
      modifies this
      ensures View() == old(View()).(checkpoints := old(checkpoints)[c.checkpointId := c])
    {
      checkpoints := checkpoints[c.checkpointId := c];
    }

    method GetCheckpoint(id: string) returns (c: Option<Checkpoint>)
      ensures c == Get(View().checkpoints, id)
    {
      c := if id in checkpoints then Some(checkpoints[id]) else None;
    }

    method PutGrant(g: GrantRecord)
      modifies this
      ensures View() == old(View()).(grants := old(grants)[g.grantId := g])
    {
      grants := grants[g.grantId := g];
    }

    method ConsumeGrantAtomic(id: string, now: int) returns (r: ConsumeResult)
      modifies this
      ensures View() == old(View()).(grants := Consume(old(grants), id, now).0)
      ensures r == Consume(old(grants), id, now).1
      ensures r == Ok <==> id in old(grants) && old(grants)[id].status == Issued && now < old(grants)[id].expiresAt
    {
      if id !in grants { return Unknown; }
      var grant := grants[id];
      if grant.status != Issued { return Replay; }
      if grant.expiresAt <= now {
        grants := grants[id := grant.(status := Expired)];
        return GrantLapsed;
      }
      grants := grants[id := grant.(status := Consumed, consumedAt := Some(now))];
      return Ok;
    }

    method PutApproval(a: Approval)
      modifies this
      ensures View() == PutApprovalIn(old(View()), a)
    {
      if a.approvalId !in approvals { approvalOrder := approvalOrder + [a.approvalId]; }
      approvals := approvals[a.approvalId := a];
    }

    method ListApprovals(taskId: string) returns (listed: seq<Approval>)
      ensures listed == ListedApprovals(View(), taskId)
    {
      listed := [];
      for i := 0 to |approvalOrder|
        invariant listed == ApprovalsOf(View(), approvalOrder[..i], taskId)
      {
        assert approvalOrder[..i + 1][..i] == approvalOrder[..i];
        var id := approvalOrder[i];
        if id in approvals && approvals[id].taskId == taskId { listed := listed + [approvals[id]]; }
      }
      assert approvalOrder[..|approvalOrder|] == approvalOrder;
      if |listed| > DEFAULT_LIST_LIMIT { listed := listed[..DEFAULT_LIST_LIMIT]; }
    }

    method ReserveEventReceipt(e: Envelope, now: int, leaseSeconds: int) returns (admitted: bool)
      modifies this
      ensures View() == old(View()).(receipts := Reserve(old(eventReceipts), e, now, leaseSeconds * SECOND).0)
      ensures admitted == Reserve(old(eventReceipts), e, now, leaseSeconds * SECOND).1
    {
      if e.eventId !in eventReceipts {
        eventReceipts := eventReceipts[e.eventId := Receipt(e.eventId, e.kind, e.taskId, Processing, 1, now)];
        return true;
      }
      var existing := eventReceipts[e.eventId];
      if existing.status == Complete { return false; }
      var age := now - existing.firstSeenAt;
      if age >= leaseSeconds * SECOND {
        eventReceipts := eventReceipts[e.eventId := existing.(attempts := existing.attempts + 1, firstSeenAt := now)];
        return true;
      }
      return false;
    }

    method MarkEventComplete(eventId: string)
      modifies this
      ensures View() == old(View()).(receipts := MarkComplete(old(eventReceipts), eventId))
    {
      if eventId in eventReceipts {
        eventReceipts := eventReceipts[eventId := eventReceipts[eventId].(status := Complete)];
      }
    }

    method AppendAuditEvent(e: AuditEvent)
      modifies this
      ensures View() == old(View()).(audit := AppendEvent(old(auditEventsByTask), e))
    {
      if e.data.body.taskId !in auditEventsByTask { auditEventsByTask := auditEventsByTask[e.data.body.taskId := []]; }
      auditEventsByTask := auditEventsByTask[e.data.body.taskId := auditEventsByTask[e.data.body.taskId] + [e]];
    }

    method GetAuditEvents(taskId: string, limit: Option<nat> := Some(DEFAULT_LIST_LIMIT)) returns (events: seq<AuditEvent>)
      ensures events == Limited(Chain(View().audit, taskId), limit)
      ensures limit.None? ==> events == Chain(View().audit, taskId)
    {
      events := if taskId in auditEventsByTask then auditEventsByTask[taskId] else [];
      if limit.Some? && |events| > limit.value { events := events[..limit.value]; }
    }

    /** `_append_audit`, and the same lines inlined in the gateway and the worker. */
    method AppendLinked(h: Hashing, body: EventBody)
      modifies this
      ensures View() == Record(h, old(View()), body)
    {
      var chain := GetAuditEvents(body.taskId, None);
      var prevHash := if chain != [] then chain[|chain| - 1].eventHash else GENESIS_HASH;
      AppendAuditEvent(Finalize(h, body, prevHash));
    }
  }
}
