/** The two granularities agree: requests whose store calls are not interleaved with others do what one atomic step does. */
module Refinement {
  import opened Text
  import opened Json
  import opened StateMachine
  import opened AuditChain
  import opened Records
  import opened Store
  import opened Settings
  import opened Erp
  import TR = TaskRace
  import GR = GrantRace
  import CP = ControlPlane
  import GW = Gateway
  import WK = Worker

  // ---- a worker attempt ----

  predicate SameTaskData(w: TR.World, st: State) { w.tasks == st.tasks && w.checkpoints == st.checkpoints && w.receipts == st.receipts }

  /** The store calls of one delivery, in order; those that do not apply do nothing. */
  function Attempted(w: TR.World, e: Envelope, ids: WK.FreshIds, now: int): TR.World {
    var p := |w.attempts|;
    var w1 := TR.Act(w, now, TR.Deliver(e));
    if |w1.attempts| == p then w1 else Finish(Planned(w1, p, ids, now), p, now)
  }

  function Planned(w: TR.World, p: nat, ids: WK.FreshIds, now: int): TR.World {
    TR.Act(TR.Act(w, now, TR.ReadTask(p, ids)), now, TR.ReadPrior(p, ids))
  }

  function Finish(w: TR.World, p: nat, now: int): TR.World {
    var w1 := TR.Act(TR.Act(w, now, TR.StoreCheckpoint(p)), now, TR.StoreCheckpoint(p));
    TR.Act(TR.Act(w1, now, TR.Swap(p)), now, TR.Action.Complete(p))
  }

  /** The data are the same, and so are all attempts but `p`, which keeps its event. */
  ghost predicate OnlyMoves(w: TR.World, w': TR.World, p: nat) {
    && w'.tasks == w.tasks && w'.checkpoints == w.checkpoints && w'.receipts == w.receipts
    && |w'.attempts| == |w.attempts| && (p < |w.attempts| ==> w'.attempts[p].event == w.attempts[p].event)
  }

  /** Where the handler's own plan leaves an attempt. */
  function PlanFor(w: TR.World, t: Task, e: Envelope, ids: WK.FreshIds, now: int): TR.AttemptAt {
    match WK.MakePlan(t, WK.PriorOf(w.checkpoints, t), e, now, ids)
    case None => TR.Gone
    case Some(plan) => TR.AttemptAt.Planned(t, plan, 0)
  }

  lemma PriorOnlyForResumes(t: Task, prior: Option<Checkpoint>, e: Envelope, now: int, ids: WK.FreshIds)
    requires !WK.Resumes(t, e.kind)
    ensures WK.MakePlan(t, prior, e, now, ids) == WK.MakePlan(t, None, e, now, ids)
  {}

  lemma PlanStep(w: TR.World, p: nat, t: Task, prior: Option<Checkpoint>, ids: WK.FreshIds, now: int)
    requires p < |w.attempts|
    requires var e := w.attempts[p].event;
      WK.MakePlan(t, prior, e, now, ids) == WK.MakePlan(t, WK.PriorOf(w.checkpoints, t), e, now, ids)
    ensures var w' := TR.NextPlan(w, p, t, prior, ids, now);
      OnlyMoves(w, w', p) && w'.attempts[p].at == PlanFor(w, t, w.attempts[p].event, ids, now)
  {
    PlanCases(w, p, t, prior, ids, now);
  }

  lemma PlanCases(w: TR.World, p: nat, t: Task, prior: Option<Checkpoint>, ids: WK.FreshIds, now: int)
    requires p < |w.attempts|
    ensures var w' := TR.NextPlan(w, p, t, prior, ids, now);
      OnlyMoves(w, w', p)
      && w'.attempts[p].at == match WK.MakePlan(t, prior, w.attempts[p].event, now, ids)
           case None => TR.Gone
           case Some(plan) => TR.AttemptAt.Planned(t, plan, 0)
  {}

  lemma ReadStep(w: TR.World, p: nat, ids: WK.FreshIds, now: int)
    requires p < |w.attempts| && w.attempts[p].at == TR.Admitted
    ensures var w', e := TR.NextReadTask(w, p, ids, now), w.attempts[p].event;
      OnlyMoves(w, w', p)
      && if e.taskId !in w.tasks then w'.attempts[p].at == TR.Gone
         else
           var t := w.tasks[e.taskId];
           if WK.Resumes(t, e.kind) && t.latestCheckpointId != "" then w'.attempts[p].at == TR.Loaded(t) && w'.owner == w.owner
           else w'.attempts[p].at == PlanFor(w, t, e, ids, now)
  {
    var e := w.attempts[p].event;
    if e.taskId in w.tasks {
      var t := w.tasks[e.taskId];
      if !(WK.Resumes(t, e.kind) && t.latestCheckpointId != "") {
        if !WK.Resumes(t, e.kind) { PriorOnlyForResumes(t, WK.PriorOf(w.checkpoints, t), e, now, ids); }
        PlanStep(w, p, t, None, ids, now);
      }
    }
  }

  /** Reading task and prior checkpoint gives the handler's plan. */
  lemma PlannedMeaning(w: TR.World, p: nat, ids: WK.FreshIds, now: int)
    requires p < |w.attempts| && w.attempts[p].at == TR.Admitted && TR.FreshFor(w, ids)
    ensures var w', e := Planned(w, p, ids, now), w.attempts[p].event;
      OnlyMoves(w, w', p)
      && w'.attempts[p].at == if e.taskId in w.tasks then PlanFor(w, w.tasks[e.taskId], e, ids, now) else TR.Gone
  {
    ReadStep(w, p, ids, now);
    var w1 := TR.NextReadTask(w, p, ids, now);
    if w1.attempts[p].at.Loaded? {
      var t := w1.attempts[p].at.read;
      PlanStep(w1, p, t, Get(w1.checkpoints, t.latestCheckpointId), ids, now);
    }
  }

  lemma StoreNext(w: TR.World, p: nat, now: int)
    requires p < |w.attempts| && w.attempts[p].at.Planned?
    ensures var w', at := TR.Act(w, now, TR.StoreCheckpoint(p)), w.attempts[p].at;
      if at.stored < |at.plan.checkpoints| then
        var c := at.plan.checkpoints[at.stored];
        && w'.tasks == w.tasks && w'.receipts == w.receipts && |w'.attempts| == |w.attempts|
        && w'.attempts[p] == w.attempts[p].(at := at.(stored := at.stored + 1))
        && w'.checkpoints == w.checkpoints[c.checkpointId := c]
      else w' == w
  {}

  /** Storing the planned checkpoints, one call each. */
  lemma StoreAll(w: TR.World, p: nat, now: int)
    requires p < |w.attempts| && w.attempts[p].at.Planned? && w.attempts[p].at.stored == 0
    requires 1 <= |w.attempts[p].at.plan.checkpoints| <= 2
    ensures var w', at := TR.Act(TR.Act(w, now, TR.StoreCheckpoint(p)), now, TR.StoreCheckpoint(p)), w.attempts[p].at;
      && w'.tasks == w.tasks && w'.receipts == w.receipts && |w'.attempts| == |w.attempts|
      && w'.attempts[p] == w.attempts[p].(at := at.(stored := |at.plan.checkpoints|))
      && w'.checkpoints == WK.PutCheckpoints(w.checkpoints, at.plan.checkpoints)
  {
    var cs := w.attempts[p].at.plan.checkpoints;
    StoreNext(w, p, now);
    StoreNext(TR.Act(w, now, TR.StoreCheckpoint(p)), p, now);
    WK.PutOneOrTwo(w.checkpoints, cs[0], cs[|cs| - 1]);
    assert cs == if |cs| == 1 then [cs[0]] else [cs[0], cs[1]];
  }

  lemma SwapAndComplete(w: TR.World, p: nat, now: int)
    requires p < |w.attempts| && w.attempts[p].at.Planned? && w.attempts[p].at.stored == |w.attempts[p].at.plan.checkpoints|
    requires var e, at := w.attempts[p].event, w.attempts[p].at;
      && e.taskId in w.tasks && w.tasks[e.taskId] == at.read && at.read.taskId == e.taskId
      && WK.ApplyFinal(at.plan.task)(at.read) == at.plan.task && at.plan.task.taskId == e.taskId
    ensures var w' := TR.Act(TR.Act(w, now, TR.Swap(p)), now, TR.Action.Complete(p));
      && w'.tasks == w.tasks[w.attempts[p].event.taskId := w.attempts[p].at.plan.task]
      && w'.checkpoints == w.checkpoints && w'.receipts == MarkComplete(w.receipts, w.attempts[p].event.eventId)
  {}

  lemma FinishGone(w: TR.World, p: nat, now: int)
    requires p < |w.attempts| && w.attempts[p].at == TR.Gone
    ensures Finish(w, p, now) == w
  {}

  lemma FinishPlanned(w: TR.World, p: nat, now: int, t: Task, prior: Option<Checkpoint>, ids: WK.FreshIds)
    requires p < |w.attempts| && w.attempts[p].event.taskId in w.tasks && w.tasks[w.attempts[p].event.taskId] == t
    requires t.taskId == w.attempts[p].event.taskId && WK.MakePlan(t, prior, w.attempts[p].event, now, ids).Some?
    requires w.attempts[p].at == TR.AttemptAt.Planned(t, WK.MakePlan(t, prior, w.attempts[p].event, now, ids).value, 0)
    ensures var w', e, plan := Finish(w, p, now), w.attempts[p].event, w.attempts[p].at.plan;
      && w'.tasks == w.tasks[e.taskId := plan.task] && w'.receipts == MarkComplete(w.receipts, e.eventId)
      && w'.checkpoints == WK.PutCheckpoints(w.checkpoints, plan.checkpoints)
  {
    WK.PlanMeaning(t, prior, w.attempts[p].event, now, ids);
    StoreAll(w, p, now);
    SwapAndComplete(TR.Act(TR.Act(w, now, TR.StoreCheckpoint(p)), now, TR.StoreCheckpoint(p)), p, now);
  }

  /** What the handler leaves behind when its audit append succeeds. */
  lemma HandledData(cfg: Config, st: State, e: Envelope, ids: WK.FreshIds, amb: Ambient)
    requires amb.auditOk
    ensures var st' := WK.HandleAdmitted(cfg, st, e, ids, amb).0;
      if e.taskId !in st.tasks then st' == st
      else
        match WK.MakePlan(st.tasks[e.taskId], WK.PriorOf(st.checkpoints, st.tasks[e.taskId]), e, amb.now, ids)
        case None => st' == st
        case Some(plan) =>
          && st'.tasks == st.tasks[e.taskId := plan.task] && st'.receipts == MarkComplete(st.receipts, e.eventId)
          && st'.checkpoints == WK.PutCheckpoints(st.checkpoints, plan.checkpoints)
  {}

  /** A delivery whose store calls are not interleaved with others leaves tasks, checkpoints and receipts as the
      handler, taken as one step, leaves them. */
  lemma AttemptIsHandler(cfg: Config, w: TR.World, st: State, e: Envelope, ids: WK.FreshIds, amb: Ambient)
    requires SameTaskData(w, st) && TR.FreshFor(w, ids) && amb.auditOk
    requires e.taskId in w.tasks ==> w.tasks[e.taskId].taskId == e.taskId
    ensures SameTaskData(Attempted(w, e, ids, amb.now), WK.HandleSpec(cfg, st, e, ids, amb).0)
  {
    var (receipts, admitted) := Reserve(st.receipts, e, amb.now, WORKER_LEASE);
    if admitted {
      var p, st1 := |w.attempts|, st.(receipts := receipts);
      var w1 := w.(receipts := receipts, attempts := w.attempts + [TR.Attempt(e, amb.now, TR.Admitted)]);
      PlannedMeaning(w1, p, ids, amb.now);
      HandledData(cfg, st1, e, ids, amb);
      var w2 := Planned(w1, p, ids, amb.now);
      if w2.attempts[p].at == TR.Gone {
        FinishGone(w2, p, amb.now);
      } else {
        FinishPlanned(w2, p, amb.now, w.tasks[e.taskId], WK.PriorOf(w1.checkpoints, w.tasks[e.taskId]), ids);
      }
    }
  }

  // ---- an issuance ----

  /** Sign, store the grant, bind the approval. */
  ghost function Bound(cfg: Config, w: GR.World, c: Claims, a: Option<Approval>, now: int): GR.World {
    var p := |w.issuers|;
    GR.NextIssuer(cfg, GR.NextIssuer(cfg, GR.NextIssuer(cfg, w, GR.Mint(c, a)), GR.PutGrant(p, now)), GR.BindApproval(p))
  }

  lemma BoundMeaning(cfg: Config, w: GR.World, c: Claims, a: Option<Approval>, now: int)
    requires GR.Mintable(w, c)
    ensures var w' := Bound(cfg, w, c, a, now);
      && w'.issuers == w.issuers + [GR.Issuer(c, a, GR.ApprovalBound)]
      && var st1 := w.store.(grants := w.store.grants[c.jti := CP.MakeRecord(cfg, c, Issued, now)]);
         w'.store == if a.Some? then PutApprovalIn(st1, a.value.(usedByGrantId := Some(c.jti))) else st1
  {
    assert (w.issuers + [GR.Issuer(c, a, GR.Minted)])[|w.issuers| := GR.Issuer(c, a, GR.ApprovalBound)]
      == w.issuers + [GR.Issuer(c, a, GR.ApprovalBound)];
  }

  /** The event the control plane appends for an issuance: linked to the head of the task's chain. */
  function IssueRecord(cfg: Config, st: State, req: CP.EvaluateRequest, c: Claims, amb: Ambient, evidence: Object): AuditEvent {
    Finalize(cfg.hashing, CP.IssuedEvent(cfg, req, c, amb, evidence), Head(Chain(st.audit, req.taskId)))
  }

  /** An issuance whose store calls are not interleaved with others leaves the store as the handler does, and returns
      its token exactly if the handler does. */
  lemma IssuanceIsHandler(cfg: Config, w: GR.World, req: CP.EvaluateRequest, v: CP.Verdict, amb: Ambient, evidence: Object)
    requires v.Issue? && GR.Mintable(w, CP.MakeClaims(cfg, req, v, amb))
    ensures var c, p := CP.MakeClaims(cfg, req, v, amb), |w.issuers|;
      var w1, (st', o) := Bound(cfg, w, c, v.approval, amb.now), CP.IssueGrant(cfg, w.store, req, v, amb, evidence);
      var w2 :=
        if amb.auditOk
        then GR.NextIssuer(cfg, GR.NextIssuer(cfg, w1, GR.AppendRecord(p, IssueRecord(cfg, w.store, req, c, amb, evidence))), GR.Return(p))
        else GR.NextIssuer(cfg, GR.NextIssuer(cfg, w1, GR.LoseRecord(p, None)), GR.Withdraw(p, amb.now));
      w2.store == st' && (GR.AtIssuer(w2, p, {GR.Returned}) <==> o.Granted?)
  {
    BoundMeaning(cfg, w, CP.MakeClaims(cfg, req, v, amb), v.approval, amb.now);
  }

  // ---- an execution ----

  /** Present the token, read the delegation, read the task, consume the grant. */
  ghost function Executed(cfg: Config, w: GR.World, req: GW.ExecuteRequest, now: int): GR.World {
    GR.NextExecutor(cfg, Read(cfg, w, req, now), GR.ConsumeGrant(|w.executors|, now))
  }

  /** Everything before the consume call. */
  ghost function Read(cfg: Config, w: GR.World, req: GW.ExecuteRequest, now: int): GR.World {
    var p := |w.executors|;
    GR.NextExecutor(cfg, GR.NextExecutor(cfg, GR.NextExecutor(cfg, w, GR.Present(req)), GR.ReadDelegation(p, now)), GR.ReadTask(p))
  }

  lemma ReadsAreAdmit(cfg: Config, w: GR.World, p: nat, now: int)
    requires p < |w.executors| && w.executors[p].request.verified.Some?
    requires w.executors[p].request.callerAgent != "" && w.executors[p].request.callerVersion != ""
    ensures GW.Admit(cfg, w.store, w.executors[p].request, now).None?
      <==> !GR.DelegationRefuses(cfg, w, p, now) && !GR.TaskRefuses(cfg, w, p)
  {}

  /** The reads let exactly the admitted calls through, and change nothing. */
  lemma ReadMeaning(cfg: Config, w: GR.World, req: GW.ExecuteRequest, now: int)
    requires req.verified.Some? && GR.HasMinted(w, req.verified.value) && req.callerAgent != "" && req.callerVersion != ""
    ensures var w', p := Read(cfg, w, req, now), |w.executors|;
      && w'.store == w.store && |w'.executors| == p + 1 && w'.executors[p].request == req
      && w'.executors[p].at == if GW.Admit(cfg, w.store, req, now).None? then GR.TaskRead else GR.Refused
  {
    var w1 := GR.NextExecutor(cfg, w, GR.Present(req));
    ReadsAreAdmit(cfg, w1, |w.executors|, now);
  }

  lemma ConsumeMeaning(cfg: Config, w: GR.World, p: nat, now: int)
    requires p < |w.executors| && w.executors[p].request.verified.Some? && w.executors[p].at in {GR.TaskRead, GR.Refused}
    ensures var w', g := GR.NextExecutor(cfg, w, GR.ConsumeGrant(p, now)), GR.Token(w, p).jti;
      if w.executors[p].at == GR.TaskRead then
        && w'.store == w.store.(grants := Consume(w.store.grants, g, now).0)
        && (GR.AtExecutor(w', p, {GR.Holding}) <==> Consume(w.store.grants, g, now).1 == Ok)
      else w' == w
  {}

  /** What the handler does to the grants, and when it gets as far as its adapter. */
  lemma HandledGrants(cfg: Config, st: State, e: ErpState, req: GW.ExecuteRequest, amb: Ambient)
    requires req.verified.Some? && req.verified.value.singleUse
    ensures var (st', _, o) := GW.ExecuteSpec(cfg, st, e, req, amb);
      if GW.Admit(cfg, st, req, amb.now).Some? then st'.grants == st.grants && o.Refused?
      else
        var (grants, r) := Consume(st.grants, req.verified.value.jti, amb.now);
        st'.grants == grants && (o.Refused? <==> r != Ok)
  {}

  /** An execution whose store calls are not interleaved with others consumes the grant exactly if the handler gets
      as far as its adapter, and leaves grants as the handler does. */
  lemma ExecutionIsHandler(cfg: Config, w: GR.World, e: ErpState, req: GW.ExecuteRequest, amb: Ambient)
    requires req.verified.Some? && GR.HasMinted(w, req.verified.value) && req.verified.value.singleUse
    requires req.callerAgent != "" && req.callerVersion != ""
    ensures var w', p := Executed(cfg, w, req, amb.now), |w.executors|; var (st', _, o) := GW.ExecuteSpec(cfg, w.store, e, req, amb);
      && w'.store == w.store.(grants := st'.grants)
      && (GR.AtExecutor(w', p, {GR.Holding}) <==> !o.Refused?)
  {
    ReadMeaning(cfg, w, req, amb.now);
    ConsumeMeaning(cfg, Read(cfg, w, req, amb.now), |w.executors|, amb.now);
    HandledGrants(cfg, w.store, e, req, amb);
    assert w.store.(grants := w.store.grants) == w.store;
  }
}
