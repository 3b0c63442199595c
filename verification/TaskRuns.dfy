/** What every interleaving keeps: histories without lost updates, and checkpoints that never dangle. */
module TaskRuns {
  import opened Text
  import opened Json
  import opened StateMachine
  import opened Records
  import opened Store
  import opened TaskRace
  import CP = ControlPlane
  import WK = Worker

  // ---- the invariant ----

  ghost predicate TaskOk(mail: Mail, w: World, id: string) {
    && (id in w.tasks <==> id in w.history)
    && (id in w.tasks ==> (
          && w.tasks[id].taskId == id && Log(w, id) != [] && Log(w, id)[|Log(w, id)| - 1].task == w.tasks[id]
          && WellFormed(mail, Log(w, id))))
  }

  ghost predicate InHistory(w: World, id: string, t: Task) {
    exists j :: 0 <= j < |Log(w, id)| && Log(w, id)[j].task == t
  }

  /** A plan, seen from the task it was made for. */
  ghost predicate Fits(t: Task, plan: WK.Plan, e: Envelope) {
    && WorkerTarget(e.kind, t.state) == Some(plan.task.state)
    && plan.task.version == t.version + (if WK.Resumes(t, e.kind) then 2 else 1)
    && plan.task.taskId == t.taskId && WK.ApplyFinal(plan.task)(t) == plan.task
    && plan.checkpoints != [] && WK.IsFinalCheckpoint(plan.checkpoints[|plan.checkpoints| - 1], plan.task)
    && plan.task.latestCheckpointId != ""
    && forall i, j :: 0 <= i < j < |plan.checkpoints| ==> plan.checkpoints[i].checkpointId != plan.checkpoints[j].checkpointId
  }

  /** The i-th checkpoint of a plan is this attempt's own, and stored exactly if its turn has come. */
  ghost predicate CheckpointAt(w: World, p: nat, plan: WK.Plan, stored: nat, i: nat) {
    i < |plan.checkpoints| ==> (
      var c := plan.checkpoints[i];
      && c.checkpointId in w.owner && w.owner[c.checkpointId] == p
      && (if i < stored then Get(w.checkpoints, c.checkpointId) == Some(c) else c.checkpointId !in w.checkpoints))
  }

  ghost predicate AttemptOk(mail: Mail, w: World, p: nat) {
    p < |w.attempts| ==> (
      var a := w.attempts[p];
      && mail(a.event.eventId) == a.event
      && match a.at
         case Loaded(t) => InHistory(w, a.event.taskId, t) && t.latestCheckpointId != "" && t.latestCheckpointId in w.checkpoints
         case Planned(t, plan, stored) =>
           InHistory(w, a.event.taskId, t) && Fits(t, plan, a.event) && stored <= |plan.checkpoints|
           && Restores(w, t, plan.task, a.event.kind)
           && forall i: nat :: CheckpointAt(w, p, plan, stored, i)
         case _ => true)
  }

  ghost predicate EditorOk(w: World, q: nat) {
    q < |w.editors| && w.editors[q].pending ==> (
      InHistory(w, w.editors[q].taskId, w.editors[q].read) && Editable(w.editors[q].read, w.editors[q].edit))
  }

  /** The latest checkpoint came with the initial record, or is the final checkpoint of the write that named it. */
  ghost predicate Origin(w: World, id: string, t: Task) {
    || (Log(w, id) != [] && Log(w, id)[0].task.latestCheckpointId == t.latestCheckpointId)
    || exists j :: 0 < j < |Log(w, id)| && NamedBy(w, Log(w, id)[j], t)
  }

  ghost predicate NamedBy(w: World, entry: Entry, t: Task) {
    && entry.author.ByEvent? && entry.task.latestCheckpointId == t.latestCheckpointId
    && t.latestCheckpointId in w.checkpoints && WK.IsFinalCheckpoint(w.checkpoints[t.latestCheckpointId], entry.task)
  }

  ghost predicate CheckpointOk(w: World, id: string) {
    id in w.tasks && w.tasks[id].latestCheckpointId != "" ==> Stored(w, w.tasks[id]) && Origin(w, id, w.tasks[id])
  }

  ghost predicate Inv(mail: Mail, w: World) {
    && (forall id :: TaskOk(mail, w, id)) && (forall p: nat :: AttemptOk(mail, w, p))
    && (forall q: nat :: EditorOk(w, q)) && (forall id :: CheckpointOk(w, id)) && (forall id, i: nat :: RestoresAt(mail, w, id, i))
  }

  lemma StartInv(mail: Mail, w: World)
    requires Start(w)
    ensures Inv(mail, w)
  {
    forall id ensures TaskOk(mail, w, id) && CheckpointOk(w, id) { assert StartsAt(w, id); }
    forall id, i: nat ensures RestoresAt(mail, w, id, i) { assert StartsAt(w, id); }
  }

  /** Agent and session after an event: those of the prior checkpoint on a resume that has one, kept otherwise;
      a resume with no checkpoint and no session makes one. */
  predicate Restores(w: World, a: Task, b: Task, kind: EventType) {
    if WK.Resumes(a, kind) && a.latestCheckpointId != "" then
      && a.latestCheckpointId in w.checkpoints
      && var c := w.checkpoints[a.latestCheckpointId];
         b.agentId == c.agentId && b.agentVersion == c.agentVersion && b.sessionId == c.sessionId
    else
      && b.agentId == a.agentId && b.agentVersion == a.agentVersion
      && (b.sessionId == a.sessionId || (WK.Resumes(a, kind) && a.sessionId == ""))
  }

  ghost predicate RestoresAt(mail: Mail, w: World, id: string, i: nat) {
    0 < i < |Log(w, id)| && Log(w, id)[i].author.ByEvent? ==>
      Restores(w, Log(w, id)[i - 1].task, Log(w, id)[i].task, mail(Log(w, id)[i].author.eventId).kind)
  }

  // ---- what stays ----

  /** Histories, identifiers and stored checkpoints are only added to. */
  ghost predicate ExtendsAt(w: World, w': World, k: string) {
    && Log(w, k) <= Log(w', k)
    && (k in w.owner ==> k in w'.owner && w'.owner[k] == w.owner[k])
    && (k in w.checkpoints ==> k in w'.checkpoints && w'.checkpoints[k] == w.checkpoints[k])
  }

  ghost predicate Extends(w: World, w': World) { forall k :: ExtendsAt(w, w', k) }

  lemma InHistoryStays(w: World, w': World, id: string, t: Task)
    requires InHistory(w, id, t) && Extends(w, w')
    ensures InHistory(w', id, t)
  {
    assert ExtendsAt(w, w', id);
    var j :| 0 <= j < |Log(w, id)| && Log(w, id)[j].task == t;
    assert Log(w', id)[j] == Log(w, id)[j];
  }

  /** An attempt is unaffected by checkpoints that other attempts store. */
  lemma AttemptStays(mail: Mail, w: World, w': World, p: nat)
    requires AttemptOk(mail, w, p) && Extends(w, w') && p < |w.attempts| && p < |w'.attempts| && w'.attempts[p] == w.attempts[p]
    requires forall k :: k in w'.checkpoints && k !in w.checkpoints ==> k in w.owner && w.owner[k] != p
    ensures AttemptOk(mail, w', p)
  {
    var a := w.attempts[p];
    match a.at
    case Loaded(t) =>
      InHistoryStays(w, w', a.event.taskId, t);
      assert ExtendsAt(w, w', t.latestCheckpointId);
    case Planned(t, plan, stored) =>
      InHistoryStays(w, w', a.event.taskId, t);
      assert ExtendsAt(w, w', t.latestCheckpointId);
      forall i: nat ensures CheckpointAt(w', p, plan, stored, i) {
        assert CheckpointAt(w, p, plan, stored, i);
        if i < |plan.checkpoints| { assert ExtendsAt(w, w', plan.checkpoints[i].checkpointId); }
      }
    case _ =>
  }

  lemma EditorStays(w: World, w': World, q: nat)
    requires EditorOk(w, q) && Extends(w, w') && q < |w.editors| && q < |w'.editors| && w'.editors[q] == w.editors[q]
    ensures EditorOk(w', q)
  {
    if w.editors[q].pending { InHistoryStays(w, w', w.editors[q].taskId, w.editors[q].read); }
  }

  lemma CheckpointStays(mail: Mail, w: World, w': World, id: string)
    requires TaskOk(mail, w, id) && CheckpointOk(w, id) && Extends(w, w') && id in w.tasks && id in w'.tasks && id in w'.history
    requires w'.tasks[id].taskId == w.tasks[id].taskId && w'.tasks[id].latestCheckpointId == w.tasks[id].latestCheckpointId
    requires w.tasks[id].version <= w'.tasks[id].version
    ensures CheckpointOk(w', id)
  {
    var t := w.tasks[id];
    assert ExtendsAt(w, w', id) && ExtendsAt(w, w', t.latestCheckpointId);
    if t.latestCheckpointId != "" && !(Log(w, id)[0].task.latestCheckpointId == t.latestCheckpointId) {
      var j :| 0 < j < |Log(w, id)| && NamedBy(w, Log(w, id)[j], t);
      assert NamedBy(w', Log(w', id)[j], w'.tasks[id]);
    }
  }

  lemma RestoresStays(mail: Mail, w: World, w': World, id: string, i: nat)
    requires RestoresAt(mail, w, id, i) && Extends(w, w') && i < |Log(w, id)|
    ensures RestoresAt(mail, w', id, i)
  {
    assert ExtendsAt(w, w', id);
    if i > 0 {
      assert Log(w', id)[i] == Log(w, id)[i] && Log(w', id)[i - 1] == Log(w, id)[i - 1];
      assert ExtendsAt(w, w', Log(w, id)[i - 1].task.latestCheckpointId);
    }
  }

  /** A step that writes no task keeps what is said about tasks. */
  lemma RecordsStay(mail: Mail, w: World, w': World)
    requires Inv(mail, w) && Extends(w, w') && w'.tasks == w.tasks && w'.history == w.history
    ensures forall id :: TaskOk(mail, w', id) && CheckpointOk(w', id)
    ensures forall id, i: nat :: RestoresAt(mail, w', id, i)
  {
    forall id ensures TaskOk(mail, w', id) && CheckpointOk(w', id) {
      assert TaskOk(mail, w, id) && CheckpointOk(w, id);
      if id in w.tasks { CheckpointStays(mail, w, w', id); }
    }
    forall id, i: nat ensures RestoresAt(mail, w', id, i) {
      assert RestoresAt(mail, w, id, i);
      if i < |Log(w, id)| { RestoresStays(mail, w, w', id, i); }
    }
  }

  /** A step that writes no task and no checkpoint: only attempt `p`, new or old, has moved. */
  lemma AttemptMoves(mail: Mail, w: World, w': World, p: nat)
    requires Inv(mail, w) && Extends(w, w') && w'.tasks == w.tasks && w'.history == w.history
    requires w'.editors == w.editors && w'.checkpoints == w.checkpoints && |w.attempts| <= |w'.attempts|
    requires forall q: nat :: q < |w'.attempts| && q != p ==> q < |w.attempts| && w'.attempts[q] == w.attempts[q]
    requires AttemptOk(mail, w', p)
    ensures Inv(mail, w')
  {
    RecordsStay(mail, w, w');
    forall q: nat ensures AttemptOk(mail, w', q) {
      assert AttemptOk(mail, w, q);
      if q != p && q < |w'.attempts| { AttemptStays(mail, w, w', q); }
    }
    forall q: nat ensures EditorOk(w', q) { assert EditorOk(w, q); if q < |w.editors| { EditorStays(w, w', q); } }
  }

  // ---- attempts ----

  lemma PlanFits(t: Task, prior: Option<Checkpoint>, e: Envelope, now: int, ids: WK.FreshIds)
    requires WK.MakePlan(t, prior, e, now, ids).Some? && ids.runId != "" && ids.resumeId != ids.runId
    ensures var plan := WK.MakePlan(t, prior, e, now, ids).value;
      Fits(t, plan, e) && forall i :: 0 <= i < |plan.checkpoints| ==> plan.checkpoints[i].checkpointId in {ids.resumeId, ids.runId}
  {
    WK.PlanMeaning(t, prior, e, now, ids);
  }

  lemma PlanExtends(w: World, p: nat, t: Task, prior: Option<Checkpoint>, ids: WK.FreshIds, now: int)
    requires p < |w.attempts| && FreshFor(w, ids)
    ensures Extends(w, NextPlan(w, p, t, prior, ids, now))
  {
    forall k ensures ExtendsAt(w, NextPlan(w, p, t, prior, ids, now), k) {}
  }

  /** The prior checkpoint a plan is made with: read on a resume that has one. */
  ghost predicate PriorFor(w: World, t: Task, prior: Option<Checkpoint>, e: Envelope) {
    WK.Resumes(t, e.kind) ==>
      if t.latestCheckpointId != "" then prior.Some? && Get(w.checkpoints, t.latestCheckpointId) == prior else prior.None?
  }

  lemma PlanRestores(w: World, t: Task, prior: Option<Checkpoint>, e: Envelope, now: int, ids: WK.FreshIds)
    requires WK.MakePlan(t, prior, e, now, ids).Some? && PriorFor(w, t, prior, e)
    ensures Restores(w, t, WK.MakePlan(t, prior, e, now, ids).value.task, e.kind)
  {}

  lemma NewPlanOk(mail: Mail, w: World, p: nat, t: Task, prior: Option<Checkpoint>, ids: WK.FreshIds, now: int)
    requires AttemptOk(mail, w, p) && p < |w.attempts| && FreshFor(w, ids) && InHistory(w, w.attempts[p].event.taskId, t)
    requires PriorFor(w, t, prior, w.attempts[p].event)
    ensures AttemptOk(mail, NextPlan(w, p, t, prior, ids, now), p)
  {
    var w', e := NextPlan(w, p, t, prior, ids, now), w.attempts[p].event;
    var plan := WK.MakePlan(t, prior, e, now, ids);
    if plan.Some? {
      PlanFits(t, prior, e, now, ids);
      PlanRestores(w, t, prior, e, now, ids);
      PlanExtends(w, p, t, prior, ids, now);
      InHistoryStays(w, w', e.taskId, t);
      NewCheckpoints(w, p, t, prior, ids, now);
    }
  }

  /** The checkpoints of a new plan are its attempt's own, and none is stored yet. */
  lemma NewCheckpoints(w: World, p: nat, t: Task, prior: Option<Checkpoint>, ids: WK.FreshIds, now: int)
    requires p < |w.attempts| && FreshFor(w, ids) && WK.MakePlan(t, prior, w.attempts[p].event, now, ids).Some?
    ensures var plan := WK.MakePlan(t, prior, w.attempts[p].event, now, ids).value;
      forall i: nat :: CheckpointAt(NextPlan(w, p, t, prior, ids, now), p, plan, 0, i)
  {
    PlanFits(t, prior, w.attempts[p].event, now, ids);
  }

  lemma PlanIsLocal(w: World, p: nat, t: Task, prior: Option<Checkpoint>, ids: WK.FreshIds, now: int)
    requires p < |w.attempts|
    ensures var w' := NextPlan(w, p, t, prior, ids, now);
      && w'.tasks == w.tasks && w'.history == w.history && w'.editors == w.editors && w'.checkpoints == w.checkpoints
      && |w'.attempts| == |w.attempts| && forall q: nat :: q < |w'.attempts| && q != p ==> w'.attempts[q] == w.attempts[q]
  {}

  lemma PlanKeepsInv(mail: Mail, w: World, p: nat, t: Task, prior: Option<Checkpoint>, ids: WK.FreshIds, now: int)
    requires Inv(mail, w) && p < |w.attempts| && FreshFor(w, ids) && InHistory(w, w.attempts[p].event.taskId, t)
    requires PriorFor(w, t, prior, w.attempts[p].event)
    ensures Inv(mail, NextPlan(w, p, t, prior, ids, now))
  {
    assert AttemptOk(mail, w, p);
    PlanExtends(w, p, t, prior, ids, now);
    NewPlanOk(mail, w, p, t, prior, ids, now);
    PlanIsLocal(w, p, t, prior, ids, now);
    AttemptMoves(mail, w, NextPlan(w, p, t, prior, ids, now), p);
  }

  lemma CurrentInHistory(mail: Mail, w: World, id: string)
    requires TaskOk(mail, w, id) && id in w.tasks
    ensures InHistory(w, id, w.tasks[id])
  {
    assert Log(w, id)[|Log(w, id)| - 1].task == w.tasks[id];
  }

  lemma ReadKeepsInv(mail: Mail, w: World, p: nat, ids: WK.FreshIds, now: int)
    requires Inv(mail, w) && p < |w.attempts| && FreshFor(w, ids)
    ensures Inv(mail, NextReadTask(w, p, ids, now))
  {
    var w', e := NextReadTask(w, p, ids, now), w.attempts[p].event;
    assert AttemptOk(mail, w, p) && TaskOk(mail, w, e.taskId) && CheckpointOk(w, e.taskId);
    if e.taskId in w.tasks {
      var t := w.tasks[e.taskId];
      CurrentInHistory(mail, w, e.taskId);
      if !(WK.Resumes(t, e.kind) && t.latestCheckpointId != "") {
        PlanKeepsInv(mail, w, p, t, None, ids, now);
        return;
      }
    }
    forall k ensures ExtendsAt(w, w', k) {}
    if e.taskId in w.tasks { InHistoryStays(w, w', e.taskId, w.tasks[e.taskId]); }
    AttemptMoves(mail, w, w', p);
  }

  lemma StoreKeepsInv(mail: Mail, w: World, p: nat)
    requires Inv(mail, w) && p < |w.attempts| && w.attempts[p].at.Planned?
    ensures Inv(mail, NextStore(w, p))
  {
    var w', at := NextStore(w, p), w.attempts[p].at;
    assert AttemptOk(mail, w, p);
    if at.stored < |at.plan.checkpoints| {
      var c := at.plan.checkpoints[at.stored];
      assert CheckpointAt(w, p, at.plan, at.stored, at.stored);
      forall k ensures ExtendsAt(w, w', k) {}
      forall q: nat ensures AttemptOk(mail, w', q) {
        assert AttemptOk(mail, w, q);
        if q < |w.attempts| && q != p { AttemptStays(mail, w, w', q); }
        if q == p { OwnStore(mail, w, p); }
      }
      RecordsStay(mail, w, w');
      forall q: nat ensures EditorOk(w', q) { assert EditorOk(w, q); if q < |w.editors| { EditorStays(w, w', q); } }
    }
  }

  lemma OwnStore(mail: Mail, w: World, p: nat)
    requires AttemptOk(mail, w, p) && p < |w.attempts| && w.attempts[p].at.Planned?
    requires w.attempts[p].at.stored < |w.attempts[p].at.plan.checkpoints| && Extends(w, NextStore(w, p))
    ensures AttemptOk(mail, NextStore(w, p), p)
  {
    var w', at := NextStore(w, p), w.attempts[p].at;
    InHistoryStays(w, w', w.attempts[p].event.taskId, at.read);
    var n := at.stored + 1;
    assert ExtendsAt(w, w', at.read.latestCheckpointId);
    assert Restores(w', at.read, at.plan.task, w.attempts[p].event.kind);
    forall i: nat ensures CheckpointAt(w', p, at.plan, n, i) { assert CheckpointAt(w, p, at.plan, at.stored, i); }
  }

  // ---- writes ----

  /** A compare-and-swap that succeeds writes over exactly the record that was read. */
  lemma SameVersionSameRecord(mail: Mail, w: World, id: string, t: Task)
    requires TaskOk(mail, w, id) && id in w.tasks && InHistory(w, id, t) && w.tasks[id].version == t.version
    ensures w.tasks[id] == t
  {
    var h := Log(w, id);
    HistoryMeaning(mail, h);
    var j :| 0 <= j < |h| && h[j].task == t;
    assert h[j].task.version == h[|h| - 1].task.version;
  }

  lemma AppendFollows(mail: Mail, h: seq<Entry>, b: Entry)
    requires WellFormed(mail, h) && h != [] && Follows(mail, h[|h| - 1], b)
    ensures WellFormed(mail, h + [b])
  {
    forall i: nat ensures FollowsAt(mail, h + [b], i) { assert FollowsAt(mail, h, i); }
  }

  /** The new record keeps the latest checkpoint, or names one that was stored for it. */
  ghost predicate Names(w: World, before: Task, t: Task, author: Author) {
    || (t.latestCheckpointId == before.latestCheckpointId && before.version <= t.version)
    || (author.ByEvent? && t.latestCheckpointId in w.checkpoints && WK.IsFinalCheckpoint(w.checkpoints[t.latestCheckpointId], t))
  }

  /** Attempts and editors are unaffected by a write. */
  lemma RequestsStay(mail: Mail, w: World, w': World)
    requires Inv(mail, w) && Extends(w, w') && w'.attempts == w.attempts && w'.editors == w.editors && w'.checkpoints == w.checkpoints
    ensures forall p: nat :: AttemptOk(mail, w', p)
    ensures forall q: nat :: EditorOk(w', q)
  {
    forall p: nat ensures AttemptOk(mail, w', p) {
      assert AttemptOk(mail, w, p);
      if p < |w.attempts| { AttemptStays(mail, w, w', p); }
    }
    forall q: nat ensures EditorOk(w', q) {
      assert EditorOk(w, q);
      if q < |w.editors| { EditorStays(w, w', q); }
    }
  }

  lemma WriteExtends(w: World, t: Task, author: Author)
    ensures Extends(w, WriteTask(w, t, author))
  {
    forall k ensures ExtendsAt(w, WriteTask(w, t, author), k) {}
  }

  lemma WriteKeepsTasks(mail: Mail, w: World, t: Task, author: Author, id: string)
    requires TaskOk(mail, w, t.taskId) && TaskOk(mail, w, id) && t.taskId in w.tasks
    requires Follows(mail, Log(w, t.taskId)[|Log(w, t.taskId)| - 1], Entry(t, author))
    ensures TaskOk(mail, WriteTask(w, t, author), id)
  {
    AppendFollows(mail, Log(w, t.taskId), Entry(t, author));
  }

  lemma WriteKeepsCheckpoints(mail: Mail, w: World, t: Task, author: Author, id: string)
    requires TaskOk(mail, w, id) && CheckpointOk(w, id) && t.taskId in w.tasks && TaskOk(mail, w, t.taskId)
    requires Names(w, w.tasks[t.taskId], t, author)
    ensures CheckpointOk(WriteTask(w, t, author), id)
  {
    var w' := WriteTask(w, t, author);
    WriteExtends(w, t, author);
    if id in w.tasks {
      var was, now := w.tasks[id], w'.tasks[id];
      if now.latestCheckpointId == was.latestCheckpointId && was.version <= now.version {
        CheckpointStays(mail, w, w', id);
      } else {
        assert NamedBy(w', Log(w', id)[|Log(w, id)|], t);
      }
    }
  }

  lemma WriteKeepsRestores(mail: Mail, w: World, t: Task, author: Author, id: string, i: nat)
    requires RestoresAt(mail, w, id, i) && TaskOk(mail, w, t.taskId) && t.taskId in w.tasks
    requires author.ByEvent? ==> Restores(w, w.tasks[t.taskId], t, mail(author.eventId).kind)
    ensures RestoresAt(mail, WriteTask(w, t, author), id, i)
  {
    WriteExtends(w, t, author);
    if i < |Log(w, id)| { RestoresStays(mail, w, WriteTask(w, t, author), id, i); }
  }

  lemma WriteKeepsInv(mail: Mail, w: World, t: Task, author: Author)
    requires Inv(mail, w) && t.taskId in w.tasks && Log(w, t.taskId) != []
    requires Follows(mail, Log(w, t.taskId)[|Log(w, t.taskId)| - 1], Entry(t, author))
    requires Names(w, w.tasks[t.taskId], t, author)
    requires author.ByEvent? ==> Restores(w, w.tasks[t.taskId], t, mail(author.eventId).kind)
    ensures Inv(mail, WriteTask(w, t, author))
  {
    var w' := WriteTask(w, t, author);
    assert TaskOk(mail, w, t.taskId);
    WriteExtends(w, t, author);
    RequestsStay(mail, w, w');
    forall id ensures TaskOk(mail, w', id) && CheckpointOk(w', id) {
      assert TaskOk(mail, w, id) && CheckpointOk(w, id);
      WriteKeepsTasks(mail, w, t, author, id);
      WriteKeepsCheckpoints(mail, w, t, author, id);
    }
    forall id, i: nat ensures RestoresAt(mail, w', id, i) {
      assert RestoresAt(mail, w, id, i);
      WriteKeepsRestores(mail, w, t, author, id, i);
    }
  }

  lemma CreateKeepsInv(mail: Mail, w: World, t: Task)
    requires Inv(mail, w) && t.taskId !in w.tasks && t.latestCheckpointId == ""
    ensures Inv(mail, WriteTask(w, t, Initially))
  {
    var w' := WriteTask(w, t, Initially);
    assert TaskOk(mail, w, t.taskId);
    forall k ensures ExtendsAt(w, w', k) {}
    forall id ensures TaskOk(mail, w', id) { assert TaskOk(mail, w, id); }
    forall id ensures CheckpointOk(w', id) {
      assert TaskOk(mail, w, id) && CheckpointOk(w, id);
      if id in w.tasks { CheckpointStays(mail, w, w', id); }
    }
    forall id, i: nat ensures RestoresAt(mail, w', id, i) {
      assert RestoresAt(mail, w, id, i);
      if i < |Log(w, id)| { RestoresStays(mail, w, w', id, i); }
    }
    RequestsStay(mail, w, w');
  }

  /** An attempt that ends or writes leaves the rest as it was. */
  lemma EndKeepsInv(mail: Mail, w: World, p: nat, at: AttemptAt, receipts: Receipts)
    requires Inv(mail, w) && p < |w.attempts| && (at == Gone || at == Wrote || at == Finished)
    ensures Inv(mail, Move(w, p, at).(receipts := receipts))
  {
    var w' := Move(w, p, at).(receipts := receipts);
    assert AttemptOk(mail, w, p);
    forall k ensures ExtendsAt(w, w', k) {}
    AttemptMoves(mail, w, w', p);
  }

  lemma SwapKeepsInv(mail: Mail, w: World, p: nat)
    requires Inv(mail, w) && p < |w.attempts| && w.attempts[p].at.Planned?
    ensures Inv(mail, NextSwap(w, p))
  {
    var e, at, n := w.attempts[p].event, w.attempts[p].at, |w.attempts[p].at.plan.checkpoints|;
    assert AttemptOk(mail, w, p) && TaskOk(mail, w, e.taskId);
    if at.stored == n {
      assert CheckpointAt(w, p, at.plan, n, n - 1);
      EndKeepsInv(mail, w, p, if e.taskId in w.tasks && w.tasks[e.taskId].version == at.read.version then Wrote else Gone, w.receipts);
      if e.taskId in w.tasks && w.tasks[e.taskId].version == at.read.version {
        SameVersionSameRecord(mail, w, e.taskId, at.read);
        WriteKeepsInv(mail, Move(w, p, Wrote), at.plan.task, ByEvent(e.eventId));
      }
    }
  }

  ghost predicate SameEditor(w: World, w': World, r: nat) {
    r < |w'.editors| ==> r < |w.editors| && w'.editors[r] == w.editors[r]
  }

  lemma EditorMoves(mail: Mail, w: World, w': World, q: nat)
    requires Inv(mail, w) && w' == w.(editors := w'.editors) && |w.editors| <= |w'.editors|
    requires forall r: nat :: r != q ==> SameEditor(w, w', r)
    requires EditorOk(w', q)
    ensures Inv(mail, w')
  {
    forall k ensures ExtendsAt(w, w', k) {}
    forall r: nat ensures EditorOk(w', r) {
      assert EditorOk(w, r);
      if r != q && r < |w'.editors| { assert SameEditor(w, w', r); EditorStays(w, w', r); }
    }
    forall p: nat ensures AttemptOk(mail, w', p) { assert AttemptOk(mail, w, p); if p < |w.attempts| { AttemptStays(mail, w, w', p); } }
    RecordsStay(mail, w, w');
  }

  lemma EditFollows(mail: Mail, t: Task, author: Author, edit: Edit, now: int)
    requires Editable(t, edit)
    ensures Follows(mail, Entry(t, author), Entry(Edited(t, edit, now), AuthorOf(edit)))
    ensures Edited(t, edit, now).taskId == t.taskId && Edited(t, edit, now).latestCheckpointId == t.latestCheckpointId
    ensures Edited(t, edit, now).version == t.version + 1
  {
    assert edit.Release? ==> t.state == Quarantined;
  }

  lemma EditKeepsInv(mail: Mail, w: World, q: nat, now: int)
    requires Inv(mail, w) && q < |w.editors| && w.editors[q].pending
    ensures Inv(mail, NextEdit(w, q, now))
  {
    var x := w.editors[q];
    var w1 := w.(editors := w.editors[q := x.(pending := false)]);
    EditorMoves(mail, w, w1, q);
    assert EditorOk(w, q) && TaskOk(mail, w, x.taskId);
    if x.taskId in w.tasks && w.tasks[x.taskId].version == x.read.version {
      SameVersionSameRecord(mail, w, x.taskId, x.read);
      var h := Log(w, x.taskId);
      EditFollows(mail, x.read, h[|h| - 1].author, x.edit, now);
      WriteKeepsInv(mail, w1, Edited(x.read, x.edit, now), AuthorOf(x.edit));
    }
  }

  // ---- runs ----

  lemma DeliverKeepsInv(mail: Mail, w: World, e: Envelope, receipts: Receipts, now: int)
    requires Inv(mail, w) && mail(e.eventId) == e
    ensures Inv(mail, w.(receipts := receipts, attempts := w.attempts + [Attempt(e, now, Admitted)]))
  {
    var w' := w.(receipts := receipts, attempts := w.attempts + [Attempt(e, now, Admitted)]);
    forall k ensures ExtendsAt(w, w', k) {}
    AttemptMoves(mail, w, w', |w.attempts|);
  }

  lemma ReadToEditKeepsInv(mail: Mail, w: World, id: string, edit: Edit)
    requires Inv(mail, w) && id in w.tasks && Editable(w.tasks[id], edit)
    ensures Inv(mail, w.(editors := w.editors + [Editor(id, w.tasks[id], edit, true)]))
  {
    var w' := w.(editors := w.editors + [Editor(id, w.tasks[id], edit, true)]);
    assert TaskOk(mail, w, id);
    CurrentInHistory(mail, w, id);
    forall k ensures ExtendsAt(w, w', k) {}
    InHistoryStays(w, w', id, w.tasks[id]);
    EditorMoves(mail, w, w', |w.editors|);
  }

  lemma ActKeepsInv(mail: Mail, w: World, now: int, a: Action)
    requires Inv(mail, w) && Genuine(mail, Step(now, a))
    ensures Inv(mail, Act(w, now, a))
  {
    if Act(w, now, a) != w {
      match a
      case Create(id, delegationId, policyVersion) => CreateKeepsInv(mail, w, CP.NewTask(id, delegationId, policyVersion, now));
      case Deliver(e) => DeliverKeepsInv(mail, w, e, Reserve(w.receipts, e, now, WORKER_LEASE).0, now);
      case ReadTask(p, ids) => ReadKeepsInv(mail, w, p, ids, now);
      case ReadPrior(p, ids) =>
        assert AttemptOk(mail, w, p);
        PlanKeepsInv(mail, w, p, w.attempts[p].at.read, Get(w.checkpoints, w.attempts[p].at.read.latestCheckpointId), ids, now);
      case StoreCheckpoint(p) => StoreKeepsInv(mail, w, p);
      case Swap(p) => SwapKeepsInv(mail, w, p);
      case Complete(p) => EndKeepsInv(mail, w, p, Finished, MarkComplete(w.receipts, w.attempts[p].event.eventId));
      case Crash(p) => EndKeepsInv(mail, w, p, Gone, w.receipts);
      case ReadToEdit(id, edit) => ReadToEditKeepsInv(mail, w, id, edit);
      case WriteEdit(q) => EditKeepsInv(mail, w, q, now);
    }
  }

  lemma ClockKeepsInv(mail: Mail, w: World, now: int)
    requires Inv(mail, w)
    ensures Inv(mail, w.(clock := now))
  {
    var w' := w.(clock := now);
    forall k ensures ExtendsAt(w, w', k) {}
    RecordsStay(mail, w, w');
    RequestsStay(mail, w, w');
  }

  lemma {:induction false} RunInv(mail: Mail, w: World, steps: seq<Step>)
    requires Inv(mail, w) && AllGenuine(mail, steps)
    ensures Inv(mail, Run(w, steps))
    decreases |steps|
  {
    if steps != [] {
      var before, s := Run(w, steps[..|steps| - 1]), steps[|steps| - 1];
      RunInv(mail, w, steps[..|steps| - 1]);
      assert Genuine(mail, s);
      ActKeepsInv(mail, before, s.now, s.action);
      ClockKeepsInv(mail, Act(before, s.now, s.action), s.now);
    }
  }

  lemma ReachableInv(mail: Mail, w: World)
    requires Reachable(mail, w)
    ensures Inv(mail, w)
  {
    var w0, steps :| Start(w0) && AllGenuine(mail, steps) && w == Run(w0, steps);
    StartInv(mail, w0);
    RunInv(mail, w0, steps);
  }

  // ---- the theorems ----

  /** No lost updates: whatever requests interleave, a task's history ends in its current record and is a chain of
      writes with strictly increasing versions, one version one record, each write a path of the transition table
      with a version for every hop, terminal states never left, and no event writing twice in a row. */
  lemma {:induction false} NoLostUpdates(mail: Mail, w: World, id: string)
    requires Reachable(mail, w) && id in w.tasks
    ensures var h := Log(w, id);
      && h != [] && h[|h| - 1].task == w.tasks[id]
      && (forall i: nat :: HopsAt(h, i))
      && (forall i, j :: 0 <= i < |h| && 0 <= j < |h| && h[i].task.version == h[j].task.version ==> i == j)
      && (forall i :: 0 <= i < |h| && h[i].task.state.Terminal() ==> i == |h| - 1)
      && (forall i :: 0 < i < |h| && h[i].author.ByEvent? ==> h[i - 1].author != h[i].author)
  {
    ReachableInv(mail, w);
    assert TaskOk(mail, w, id);
    HistoryMeaning(mail, Log(w, id));
  }

  /** Every write of an event moves the task as the worker's mapping says, and adds two versions on a resume, one
      otherwise; every other write is a quarantine of a running task or the release of a quarantined one. */
  lemma {:induction false} EventWritesFollow(mail: Mail, w: World, id: string, i: nat)
    requires Reachable(mail, w) && 0 < i < |Log(w, id)|
    ensures Follows(mail, Log(w, id)[i - 1], Log(w, id)[i])
  {
    ReachableInv(mail, w);
    assert TaskOk(mail, w, id) && FollowsAt(mail, Log(w, id), i);
  }

  /** Checkpoints never dangle: a task's latest checkpoint is empty, or stored, the task's own and not newer than the
      task; unless it came with the initial record it is the final checkpoint of the write that named it. */
  lemma {:induction false} CheckpointsNeverDangle(mail: Mail, w: World, id: string)
    requires Reachable(mail, w) && id in w.tasks && w.tasks[id].latestCheckpointId != ""
    ensures Stored(w, w.tasks[id]) && Origin(w, id, w.tasks[id])
  {
    ReachableInv(mail, w);
    assert CheckpointOk(w, id);
  }

  /** Agent and session after an event's write come from the prior checkpoint on a resume that has one. */
  lemma {:induction false} ResumesRestore(mail: Mail, w: World, id: string, i: nat)
    requires Reachable(mail, w) && 0 < i < |Log(w, id)| && Log(w, id)[i].author.ByEvent?
    ensures Restores(w, Log(w, id)[i - 1].task, Log(w, id)[i].task, mail(Log(w, id)[i].author.eventId).kind)
  {
    ReachableInv(mail, w);
    assert RestoresAt(mail, w, id, i);
  }
}
