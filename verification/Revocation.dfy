/** Request-step theorems about stopping: revocation, quarantine and terminal states take effect at once. */
module Revocation {
  import opened Text
  import opened Json
  import opened StateMachine
  import opened Records
  import opened Store
  import opened Settings
  import opened Erp
  import opened AuditChain
  import opened Protocol
  import Provenance
  import CP = ControlPlane
  import GW = Gateway
  import WK = Worker

  // ---- runs only grow the world ----

  lemma GrowsTransitive(a: World, b: World, c: World)
    requires Grows(a, b) && Grows(b, c)
    ensures Grows(a, c)
  {
    StoreGrowsTransitive(a.store, b.store, c.store);
  }

  /** Along every run logs and chains only get longer, records keep what they say, payments stay. */
  lemma {:induction false} RunGrows(cfg: Config, w: World, steps: seq<Step>)
    requires Keyed(w.store) && CanRun(cfg, w, steps)
    ensures Grows(w, Run(cfg, w, steps)) && Keyed(Run(cfg, w, steps).store)
    decreases |steps|
  {
    if steps == [] {
      Provenance.GrowsReflexive(w.store);
    } else {
      var front, last := steps[..|steps| - 1], steps[|steps| - 1];
      RunGrows(cfg, w, front);
      NextGrows(cfg, Run(cfg, w, front), last);
      GrowsTransitive(w, Run(cfg, w, front), Run(cfg, w, steps));
    }
  }

  /** No task's history is ever rewritten. */
  lemma {:induction false} HistoryIsAppendOnly(cfg: Config, w: World, steps: seq<Step>, taskId: string)
    requires Reachable(cfg, w) && CanRun(cfg, w, steps)
    ensures Chain(w.store.audit, taskId) <= Chain(Run(cfg, w, steps).store.audit, taskId)
  {
    Provenance.ReachableInv(cfg, w);
    RunGrows(cfg, w, steps);
    assert GrowsAt(w.store, Run(cfg, w, steps).store, taskId);
  }

  // ---- what a step needs to sign or to call ----

  /** The delegation is in force and the task live. */
  ghost predicate InForce(st: State, delegationId: string, taskId: string, now: int) {
    && delegationId in st.delegations && st.delegations[delegationId].status != Revoked
    && now < st.delegations[delegationId].expiresAt
    && taskId in st.tasks && st.tasks[taskId].state.Live()
  }

  lemma SigningNeedsForce(cfg: Config, w: World, s: Step)
    requires Next(cfg, w, s).signed != w.signed || Next(cfg, w, s).returned != w.returned
    ensures s.Evaluate? && InForce(w.store, s.eval.delegationId, s.eval.taskId, s.amb.now)
    ensures var w' := Next(cfg, w, s);
      && |w'.signed| == |w.signed| + 1 && Names(w'.signed[|w.signed|].claims, s.eval)
      && (w'.returned == w.returned || (|w'.returned| == |w.returned| + 1 && Names(w'.returned[|w.returned|], s.eval)))
  {
    var v := CP.Decide(cfg, w.store, s.eval, s.amb.now, s.semanticBlocks);
    assert v.Issue?;
    ScopeMeaning(cfg, w.store, s.eval, s.amb.now);
  }

  ghost predicate Names(c: Claims, req: CP.EvaluateRequest) {
    c.delegationId == req.delegationId && c.taskId == req.taskId
  }

  lemma CallingNeedsForce(cfg: Config, w: World, s: Step)
    requires Next(cfg, w, s).calls != w.calls
    ensures s.Execute? && s.exec.verified.Some?
    ensures var c := s.exec.verified.value;
      InForce(w.store, c.delegationId, c.taskId, s.amb.now)
      && |Next(cfg, w, s).calls| == |w.calls| + 1 && Next(cfg, w, s).calls[|w.calls|].claims == c
  {
    assert GW.Admit(cfg, w.store, s.exec, s.amb.now).None?;
    Provenance.AdmitMeaning(cfg, w.store, s.exec, s.amb.now);
  }

  // ---- nothing new under a stopped delegation or task ----

  datatype Scope = OfDelegation(id: string) | OfTask(id: string)
  {
    predicate Covers(c: Claims) {
      match this
      case OfDelegation(id) => c.delegationId == id
      case OfTask(id) => c.taskId == id
    }

    ghost predicate Stopped(st: State) {
      match this
      case OfDelegation(id) => id in st.delegations && st.delegations[id].status == Revoked
      case OfTask(id) => id in st.tasks && !st.tasks[id].state.Live()
    }
  }

  /** Between two worlds nothing was signed, handed out or executed within the scope. */
  ghost predicate NothingNew(w: World, w': World, scope: Scope) {
    && |w.signed| <= |w'.signed| && |w.returned| <= |w'.returned| && |w.calls| <= |w'.calls|
    && (forall i :: |w.signed| <= i < |w'.signed| ==> !scope.Covers(w'.signed[i].claims))
    && (forall i :: |w.returned| <= i < |w'.returned| ==> !scope.Covers(w'.returned[i]))
    && (forall i :: |w.calls| <= i < |w'.calls| ==> !scope.Covers(w'.calls[i].claims))
  }

  lemma NothingNewStep(cfg: Config, w: World, s: Step, scope: Scope)
    requires scope.Stopped(w.store)
    ensures NothingNew(w, Next(cfg, w, s), scope)
  {
    var w' := Next(cfg, w, s);
    if w'.signed != w.signed || w'.returned != w.returned { SigningNeedsForce(cfg, w, s); }
    if w'.calls != w.calls { CallingNeedsForce(cfg, w, s); }
  }

  lemma NothingNewTransitive(a: World, b: World, c: World, scope: Scope)
    requires NothingNew(a, b, scope) && NothingNew(b, c, scope) && Grows(b, c)
    ensures NothingNew(a, c, scope)
  {}

  ghost predicate StoppedThroughout(cfg: Config, w: World, steps: seq<Step>, scope: Scope) {
    forall n :: 0 <= n < |steps| ==> scope.Stopped(Run(cfg, w, steps[..n]).store)
  }

  /** While a delegation is revoked or a task stopped, no run signs, returns or executes anything within it. */
  lemma {:induction false} NothingWhileStopped(cfg: Config, w: World, steps: seq<Step>, scope: Scope)
    requires Keyed(w.store) && CanRun(cfg, w, steps) && StoppedThroughout(cfg, w, steps, scope)
    ensures NothingNew(w, Run(cfg, w, steps), scope)
    decreases |steps|
  {
    if steps != [] {
      var front, last := steps[..|steps| - 1], steps[|steps| - 1];
      forall n | 0 <= n < |front| ensures scope.Stopped(Run(cfg, w, front[..n]).store) { assert front[..n] == steps[..n]; }
      NothingWhileStopped(cfg, w, front, scope);
      RunGrows(cfg, w, front);
      NextGrows(cfg, Run(cfg, w, front), last);
      NothingNewStep(cfg, Run(cfg, w, front), last, scope);
      NothingNewTransitive(w, Run(cfg, w, front), Run(cfg, w, steps), scope);
    }
  }

  lemma {:induction false} CanRunPrefix(cfg: Config, w: World, steps: seq<Step>, n: nat)
    requires CanRun(cfg, w, steps) && n <= |steps|
    ensures CanRun(cfg, w, steps[..n])
    decreases |steps|
  {
    if n < |steps| {
      CanRunPrefix(cfg, w, steps[..|steps| - 1], n);
      assert steps[..|steps| - 1][..n] == steps[..n];
    } else {
      assert steps[..n] == steps;
    }
  }

  // ---- the theorems ----

  /** Nothing more happens under a revoked delegation. */
  lemma {:induction false} RevokedIsForever(cfg: Config, w: World, id: string, steps: seq<Step>)
    requires Reachable(cfg, w) && CanRun(cfg, w, steps) && OfDelegation(id).Stopped(w.store)
    ensures OfDelegation(id).Stopped(Run(cfg, w, steps).store) && NothingNew(w, Run(cfg, w, steps), OfDelegation(id))
  {
    Provenance.ReachableInv(cfg, w);
    forall n | 0 <= n <= |steps| ensures OfDelegation(id).Stopped(Run(cfg, w, steps[..n]).store) {
      CanRunPrefix(cfg, w, steps, n);
      RunGrows(cfg, w, steps[..n]);
      assert GrowsAt(w.store, Run(cfg, w, steps[..n]).store, id);
    }
    assert steps[..|steps|] == steps;
    NothingWhileStopped(cfg, w, steps, OfDelegation(id));
  }

  /** The revocation request stops the delegation at once, audited or not, and changes no other delegation. */
  lemma RevocationIsImmediate(cfg: Config, w: World, id: string, reason: string, user: string, amb: Ambient)
    requires Keyed(w.store) && id in w.store.delegations
    ensures var w' := Next(cfg, w, Revoke(id, reason, user, amb));
      OfDelegation(id).Stopped(w'.store) && forall k :: k != id ==> Get(w'.store.delegations, k) == Get(w.store.delegations, k)
  {
    assert KeyedAt(w.store, id);
  }

  /** A task that has ended stays ended, and nothing more happens for it. */
  lemma {:induction false} TerminalIsForever(cfg: Config, w: World, taskId: string, steps: seq<Step>)
    requires Reachable(cfg, w) && CanRun(cfg, w, steps)
    requires taskId in w.store.tasks && w.store.tasks[taskId].state.Terminal()
    ensures taskId in Run(cfg, w, steps).store.tasks
    ensures Run(cfg, w, steps).store.tasks[taskId].state == w.store.tasks[taskId].state
    ensures NothingNew(w, Run(cfg, w, steps), OfTask(taskId))
  {
    Provenance.ReachableInv(cfg, w);
    forall n | 0 <= n <= |steps|
      ensures var st := Run(cfg, w, steps[..n]).store; taskId in st.tasks && st.tasks[taskId].state == w.store.tasks[taskId].state
    {
      CanRunPrefix(cfg, w, steps, n);
      RunGrows(cfg, w, steps[..n]);
      assert GrowsAt(w.store, Run(cfg, w, steps[..n]).store, taskId);
    }
    assert steps[..|steps|] == steps;
    NothingWhileStopped(cfg, w, steps, OfTask(taskId));
  }

  /** The only ways out of quarantine: a release request, or a release or cancel event. */
  ghost predicate Leaves(s: Step, taskId: string) {
    (s.Release? && s.taskId == taskId)
    || (s.Deliver? && s.event.taskId == taskId && s.event.kind in {TaskRelease, EventType.ApprovalRejected, TaskCancel})
  }

  ghost predicate HeldAt(st: State, taskId: string) { taskId in st.tasks && st.tasks[taskId].state == Quarantined }

  lemma HeldThroughDelivery(cfg: Config, st: State, taskId: string, e: Envelope, ids: WK.FreshIds, amb: Ambient)
    requires HeldAt(st, taskId) && (e.taskId == taskId ==> e.kind !in {TaskRelease, EventType.ApprovalRejected, TaskCancel})
    ensures HeldAt(WK.HandleSpec(cfg, st, e, ids, amb).0, taskId)
  {
    if e.taskId == taskId { assert WorkerTarget(e.kind, Quarantined).None?; }
  }

  lemma HeldThroughEvaluation(cfg: Config, st: State, taskId: string, req: CP.EvaluateRequest, amb: Ambient,
                              blocks: bool, evidence: Object)
    requires HeldAt(st, taskId)
    ensures HeldAt(CP.EvaluateGrantSpec(cfg, st, req, amb, blocks, evidence).0, taskId)
  {
    var v := CP.Decide(cfg, st, req, amb.now, blocks);
    if v.Issue? { Provenance.IssueEffect(cfg, st, req, v, amb, evidence); }
  }

  lemma AdapterLeavesTasks(cfg: Config, st: State, e: ErpState, a: GW.Adapter, c: Claims, args: Object, amb: Ambient)
    ensures GW.RunAdapter(cfg, st, e, a, c, args, amb).0.tasks == st.tasks
  {}

  lemma HeldThroughExecution(cfg: Config, w: World, taskId: string, req: GW.ExecuteRequest, amb: Ambient)
    requires HeldAt(w.store, taskId)
    ensures HeldAt(NextExecute(cfg, w, req, amb).store, taskId)
  {
    if GW.Admit(cfg, w.store, req, amb.now).None? {
      var c := req.verified.value;
      var st1 := if c.singleUse then w.store.(grants := Consume(w.store.grants, c.jti, amb.now).0) else w.store;
      AdapterLeavesTasks(cfg, st1, w.erp, GW.AdapterFor(c.tool).value, c, req.arguments, amb);
    }
  }

  lemma HeldThroughCreation(cfg: Config, st: State, taskId: string, req: CP.CreateDelegationRequest, amb: Ambient)
    requires HeldAt(st, taskId)
    ensures HeldAt(CP.CreateDelegationSpec(cfg, st, req, amb).0, taskId)
  {}

  lemma HeldThroughRevocation(cfg: Config, st: State, taskId: string, id: string, reason: string, user: string,
                              amb: Ambient)
    requires HeldAt(st, taskId)
    ensures HeldAt(CP.RevokeSpec(cfg, st, id, reason, user, amb).0, taskId)
  {}

  lemma HeldThroughRelease(cfg: Config, st: State, taskId: string, id: string, state: TaskState, version: Option<int>,
                           reason: string, user: string, amb: Ambient)
    requires HeldAt(st, taskId) && id != taskId
    ensures HeldAt(CP.ReleaseSpec(cfg, st, id, state, version, reason, user, amb).0, taskId)
  {}

  lemma HeldStep(cfg: Config, w: World, taskId: string, s: Step)
    requires HeldAt(w.store, taskId) && !Leaves(s, taskId)
    ensures HeldAt(Next(cfg, w, s).store, taskId)
  {
    match s
    case Deliver(e, ids, amb) => HeldThroughDelivery(cfg, w.store, taskId, e, ids, amb);
    case Evaluate(req, amb, blocks, evidence) => HeldThroughEvaluation(cfg, w.store, taskId, req, amb, blocks, evidence);
    case Execute(req, amb) => HeldThroughExecution(cfg, w, taskId, req, amb);
    case Release(id, state, version, reason, user, amb) => HeldThroughRelease(cfg, w.store, taskId, id, state, version, reason, user, amb);
    case CreateDelegation(req, amb) => HeldThroughCreation(cfg, w.store, taskId, req, amb);
    case Revoke(id, reason, user, amb) => HeldThroughRevocation(cfg, w.store, taskId, id, reason, user, amb);
    case _ =>
  }

  lemma {:induction false} StaysHeld(cfg: Config, w: World, taskId: string, steps: seq<Step>)
    requires HeldAt(w.store, taskId) && forall i :: 0 <= i < |steps| ==> !Leaves(steps[i], taskId)
    ensures HeldAt(Run(cfg, w, steps).store, taskId)
    decreases |steps|
  {
    if steps != [] {
      StaysHeld(cfg, w, taskId, steps[..|steps| - 1]);
      HeldStep(cfg, Run(cfg, w, steps[..|steps| - 1]), taskId, steps[|steps| - 1]);
    }
  }

  /** A denial that quarantines stops a running task at once. */
  lemma DenialQuarantines(cfg: Config, st: State, req: CP.EvaluateRequest, amb: Ambient, blocks: bool, evidence: Object)
    requires req.taskId in st.tasks && st.tasks[req.taskId].state == Running && amb.auditOk
    requires CP.Decide(cfg, st, req, amb.now, blocks).Refuse? && CP.Decide(cfg, st, req, amb.now, blocks).quarantine
    ensures HeldAt(CP.EvaluateGrantSpec(cfg, st, req, amb, blocks, evidence).0, req.taskId)
  {}

  /** While a task is quarantined nothing happens for it, however long no human releases or cancels it. */
  lemma {:induction false} QuarantineHolds(cfg: Config, w: World, taskId: string, steps: seq<Step>)
    requires Reachable(cfg, w) && CanRun(cfg, w, steps)
    requires HeldAt(w.store, taskId) && forall i :: 0 <= i < |steps| ==> !Leaves(steps[i], taskId)
    ensures HeldAt(Run(cfg, w, steps).store, taskId) && NothingNew(w, Run(cfg, w, steps), OfTask(taskId))
  {
    Provenance.ReachableInv(cfg, w);
    StaysHeld(cfg, w, taskId, steps);
    forall n | 0 <= n < |steps| ensures OfTask(taskId).Stopped(Run(cfg, w, steps[..n]).store) {
      assert forall i :: 0 <= i < n ==> steps[..n][i] == steps[i];
      StaysHeld(cfg, w, taskId, steps[..n]);
    }
    NothingWhileStopped(cfg, w, steps, OfTask(taskId));
  }
}
