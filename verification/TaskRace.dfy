/** The interleaved system for tasks: one step per store call, any number of worker attempts, quarantines and
    releases in flight, crashes between calls. A step whose guard fails does nothing. */
module TaskRace {
  import opened Text
  import opened Json
  import opened StateMachine
  import opened Records
  import opened Store
  import CP = ControlPlane
  import WK = Worker

  // ---- requests in flight ----

  /** Where a worker attempt stands: receipt reserved, task read, target planned with some of its checkpoints
      stored, compare-and-swap done, receipt completed; or the attempt has ended early. */
  datatype AttemptAt = Admitted | Loaded(read: Task) | Planned(read: Task, plan: WK.Plan, stored: nat) | Wrote | Finished | Gone

  datatype Attempt = Attempt(event: Envelope, start: int, at: AttemptAt)

  /** A quarantine or release that has read the task and not written it yet. */
  datatype Edit = Quarantine | Release(session: string)
  datatype Editor = Editor(taskId: string, read: Task, edit: Edit, pending: bool)

  datatype Author = Initially | ByEvent(eventId: string) | ByQuarantine | ByRelease

  /** One version of a task's record, and who wrote it. */
  datatype Entry = Entry(task: Task, author: Author)

  /** `history` logs every write of a task, `owner` which attempt generated a checkpoint identifier. */
  datatype World = World(
    clock: int, tasks: Tasks, checkpoints: Checkpoints, receipts: Receipts,
    attempts: seq<Attempt>, editors: seq<Editor>, history: map<string, seq<Entry>>, owner: map<string, nat>)

  datatype Action =
    | Create(taskId: string, delegationId: string, policyVersion: string)
    | Deliver(event: Envelope)
    | ReadTask(p: nat, ids: WK.FreshIds)
    | ReadPrior(p: nat, ids: WK.FreshIds)
    | StoreCheckpoint(p: nat)
    | Swap(p: nat)
    | Complete(p: nat)
    | Crash(p: nat)
    | ReadToEdit(taskId: string, edit: Edit)
    | WriteEdit(q: nat)

  datatype Step = Step(now: int, action: Action)

  function Log(w: World, taskId: string): seq<Entry> { if taskId in w.history then w.history[taskId] else [] }

  function WriteTask(w: World, t: Task, author: Author): World {
    w.(tasks := w.tasks[t.taskId := t], history := w.history[t.taskId := Log(w, t.taskId) + [Entry(t, author)]])
  }

  function Move(w: World, p: nat, at: AttemptAt): World
    requires p < |w.attempts|
  {
    w.(attempts := w.attempts[p := w.attempts[p].(at := at)])
  }

  /** Identifiers are never generated twice. */
  predicate FreshFor(w: World, ids: WK.FreshIds) {
    && ids.resumeId != "" && ids.runId != "" && ids.resumeId != ids.runId
    && ids.resumeId !in w.owner && ids.runId !in w.owner && ids.resumeId !in w.checkpoints && ids.runId !in w.checkpoints
  }

  /** Plan the write for a task as read; an invalid transition ends the attempt. */
  function NextPlan(w: World, p: nat, t: Task, prior: Option<Checkpoint>, ids: WK.FreshIds, now: int): World
    requires p < |w.attempts|
  {
    match WK.MakePlan(t, prior, w.attempts[p].event, now, ids)
    case None => Move(w, p, Gone)
    case Some(plan) => Move(w, p, Planned(t, plan, 0)).(owner := w.owner[ids.resumeId := p][ids.runId := p])
  }

  function NextReadTask(w: World, p: nat, ids: WK.FreshIds, now: int): World
    requires p < |w.attempts|
  {
    var e := w.attempts[p].event;
    if e.taskId !in w.tasks then Move(w, p, Gone)
    else
      var t := w.tasks[e.taskId];
      if WK.Resumes(t, e.kind) && t.latestCheckpointId != "" then Move(w, p, Loaded(t)) else NextPlan(w, p, t, None, ids, now)
  }

  function NextStore(w: World, p: nat): World
    requires p < |w.attempts| && w.attempts[p].at.Planned?
  {
    var at := w.attempts[p].at;
    if at.stored < |at.plan.checkpoints| then
      var c := at.plan.checkpoints[at.stored];
      Move(w, p, at.(stored := at.stored + 1)).(checkpoints := w.checkpoints[c.checkpointId := c])
    else w
  }

  function NextSwap(w: World, p: nat): World
    requires p < |w.attempts| && w.attempts[p].at.Planned?
  {
    var e, at := w.attempts[p].event, w.attempts[p].at;
    if at.stored < |at.plan.checkpoints| then w
    else match Mutate(w.tasks, e.taskId, WK.ApplyFinal(at.plan.task), Some(at.read.version)).1
      case Mutated(t) => WriteTask(Move(w, p, Wrote), t, ByEvent(e.eventId))
      case _ => Move(w, p, Gone)
  }

  /** Only a running task is quarantined, only a quarantined one released. */
  predicate Editable(t: Task, edit: Edit) {
    match edit
    case Quarantine => t.state == Running
    case Release(_) => Transition(t.state, HumanReleased).Some?
  }

  function Edited(t: Task, edit: Edit, now: int): Task {
    match edit
    case Quarantine => CP.QuarantineTask(t, now)
    case Release(session) =>
      (match Transition(t.state, HumanReleased)
       case Some(next) => CP.ReleaseTask(next, session, now)(t)
       case None => t)
  }

  function AuthorOf(edit: Edit): Author { if edit.Quarantine? then ByQuarantine else ByRelease }

  function NextEdit(w: World, q: nat, now: int): World
    requires q < |w.editors|
  {
    var x := w.editors[q];
    var w1 := w.(editors := w.editors[q := x.(pending := false)]);
    match Mutate(w.tasks, x.taskId, (t: Task) => Edited(t, x.edit, now), Some(x.read.version)).1
    case Mutated(t) => WriteTask(w1, t, AuthorOf(x.edit))
    case _ => w1
  }

  function Act(w: World, now: int, a: Action): World {
    match a
    case Create(id, delegationId, policyVersion) =>
      if id in w.tasks then w else WriteTask(w, CP.NewTask(id, delegationId, policyVersion, now), Initially)
    case Deliver(e) =>
      var (receipts, admitted) := Reserve(w.receipts, e, now, WORKER_LEASE);
      if admitted then w.(receipts := receipts, attempts := w.attempts + [Attempt(e, now, Admitted)]) else w
    case ReadTask(p, ids) =>
      if p < |w.attempts| && w.attempts[p].at == Admitted && FreshFor(w, ids) then NextReadTask(w, p, ids, now) else w
    case ReadPrior(p, ids) =>
      if p < |w.attempts| && w.attempts[p].at.Loaded? && FreshFor(w, ids) then
        NextPlan(w, p, w.attempts[p].at.read, Get(w.checkpoints, w.attempts[p].at.read.latestCheckpointId), ids, now)
      else w
    case StoreCheckpoint(p) => if p < |w.attempts| && w.attempts[p].at.Planned? then NextStore(w, p) else w
    case Swap(p) => if p < |w.attempts| && w.attempts[p].at.Planned? then NextSwap(w, p) else w
    case Complete(p) =>
      if p < |w.attempts| && w.attempts[p].at == Wrote then
        Move(w, p, Finished).(receipts := MarkComplete(w.receipts, w.attempts[p].event.eventId))
      else w
    case Crash(p) => if p < |w.attempts| && w.attempts[p].at != Finished then Move(w, p, Gone) else w
    case ReadToEdit(id, edit) =>
      if id in w.tasks && Editable(w.tasks[id], edit) then w.(editors := w.editors + [Editor(id, w.tasks[id], edit, true)]) else w
    case WriteEdit(q) => if q < |w.editors| && w.editors[q].pending then NextEdit(w, q, now) else w
  }

  function Next(w: World, s: Step): World { Act(w, s.now, s.action).(clock := s.now) }

  /** An event identifier always names the same event. */
  type Mail = string -> Envelope

  predicate Genuine(mail: Mail, s: Step) { s.action.Deliver? ==> mail(s.action.event.eventId) == s.action.event }

  ghost predicate AllGenuine(mail: Mail, steps: seq<Step>) { forall i :: 0 <= i < |steps| ==> Genuine(mail, steps[i]) }

  function Run(w: World, steps: seq<Step>): World
    decreases |steps|
  {
    if steps == [] then w else Next(Run(w, steps[..|steps| - 1]), steps[|steps| - 1])
  }

  /** Tasks may start in any state; a checkpoint they name is stored, theirs, and not newer than they are. */
  ghost predicate StartsAt(w: World, id: string) {
    id in w.tasks ==> (
      && w.tasks[id].taskId == id && Log(w, id) == [Entry(w.tasks[id], Initially)]
      && (w.tasks[id].latestCheckpointId != "" ==> Stored(w, w.tasks[id])))
  }

  ghost predicate Start(w: World) {
    w.attempts == [] && w.editors == [] && w.owner == map[] && w.history.Keys == w.tasks.Keys && forall id :: StartsAt(w, id)
  }

  /** The task's latest checkpoint is stored, belongs to the task, and is not newer than it. */
  predicate Stored(w: World, t: Task) {
    && t.latestCheckpointId in w.checkpoints && w.checkpoints[t.latestCheckpointId].taskId == t.taskId
    && w.checkpoints[t.latestCheckpointId].version <= t.version
  }

  /** Reachable by some interleaving from some start, with events delivered any number of times. */
  ghost predicate Reachable(mail: Mail, w: World) {
    exists w0, steps :: Start(w0) && AllGenuine(mail, steps) && w == Run(w0, steps)
  }

  // ---- how one entry of a task's history follows another ----

  ghost predicate Follows(mail: Mail, a: Entry, b: Entry) {
    match b.author
    case ByEvent(e) =>
      && WorkerTarget(mail(e).kind, a.task.state) == Some(b.task.state)
      && b.task.version == a.task.version + (if WK.Resumes(a.task, mail(e).kind) then 2 else 1)
    case ByQuarantine => a.task.state == Running && b.task.state == Quarantined && b.task.version == a.task.version + 1
    case ByRelease => a.task.state == Quarantined && b.task.state == Resuming && b.task.version == a.task.version + 1
    case Initially => false
  }

  ghost predicate FollowsAt(mail: Mail, h: seq<Entry>, i: nat) { 0 < i < |h| ==> Follows(mail, h[i - 1], h[i]) }

  ghost predicate WellFormed(mail: Mail, h: seq<Entry>) {
    (h != [] ==> h[0].author == Initially) && forall i: nat :: FollowsAt(mail, h, i)
  }

  /** Each write is a path in the transition table, with one version for every hop. */
  lemma FollowsHops(mail: Mail, a: Entry, b: Entry)
    requires Follows(mail, a, b)
    ensures a.task.version < b.task.version <= a.task.version + 2
    ensures HopPath(a.task.state, b.task.state, b.task.version - a.task.version)
    ensures !a.task.state.Terminal()
  {
    match b.author
    case ByEvent(e) => WorkerHops(mail(e).kind, a.task.state);
    case ByQuarantine => SingleHop(Running, SecurityEvent, Quarantined);
    case ByRelease => SingleHop(Quarantined, HumanReleased, Resuming);
  }

  lemma {:induction false} VersionsIncrease(mail: Mail, h: seq<Entry>, i: nat, j: nat)
    requires WellFormed(mail, h) && i < j < |h|
    ensures h[i].task.version < h[j].task.version
    decreases j
  {
    assert FollowsAt(mail, h, j);
    FollowsHops(mail, h[j - 1], h[j]);
    if i < j - 1 { VersionsIncrease(mail, h, i, j - 1); }
  }

  /** The i-th write leaves a state that is not terminal, by a path of the transition table, one version a hop. */
  ghost predicate HopsAt(h: seq<Entry>, i: nat) {
    0 < i < |h| ==> (
      && !h[i - 1].task.state.Terminal() && h[i - 1].task.version < h[i].task.version
      && HopPath(h[i - 1].task.state, h[i].task.state, h[i].task.version - h[i - 1].task.version))
  }

  /** No lost updates: along a task's history versions strictly increase, one hop of the transition table each,
      so a version names one record; terminal states end it; no event writes twice in a row. */
  lemma HistoryMeaning(mail: Mail, h: seq<Entry>)
    requires WellFormed(mail, h)
    ensures forall i: nat :: HopsAt(h, i)
    ensures forall i, j :: 0 <= i < |h| && 0 <= j < |h| && h[i].task.version == h[j].task.version ==> i == j
    ensures forall i :: 0 <= i < |h| && h[i].task.state.Terminal() ==> i == |h| - 1
    ensures forall i :: 0 < i < |h| && h[i].author.ByEvent? ==> h[i - 1].author != h[i].author
  {
    forall i: nat ensures HopsAt(h, i) {
      assert FollowsAt(mail, h, i);
      if 0 < i < |h| { FollowsHops(mail, h[i - 1], h[i]); }
    }
    forall i, j | 0 <= i < |h| && 0 <= j < |h| && h[i].task.version == h[j].task.version ensures i == j {
      if i < j { VersionsIncrease(mail, h, i, j); }
      if j < i { VersionsIncrease(mail, h, j, i); }
    }
    forall i | 0 <= i < |h| && h[i].task.state.Terminal() ensures i == |h| - 1 { assert HopsAt(h, i + 1); }
    forall i | 0 < i < |h| && h[i].author.ByEvent? ensures h[i - 1].author != h[i].author {
      assert FollowsAt(mail, h, i) && FollowsAt(mail, h, i - 1);
      if h[i - 1].author == h[i].author { NoSecondMove(mail(h[i].author.eventId).kind, h[i - 2].task.state); }
    }
  }
}
