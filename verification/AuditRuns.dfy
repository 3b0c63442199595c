/** Request-step theorems about the audit trail of every reachable world. */
module AuditRuns {
  import opened Text
  import opened Json
  import opened StateMachine
  import opened AuditChain
  import opened Records
  import opened Store
  import opened Settings
  import opened Erp
  import opened Protocol
  import Provenance
  import CP = ControlPlane
  import GW = Gateway
  import WK = Worker

  // ---- what a step appends ----

  /** Append events one after the other, each linked to its task's head. */
  function Extend(h: Hashing, audit: Audit, bs: seq<EventBody>): Audit {
    if bs == [] then audit
    else
      var before := Extend(h, audit, bs[..|bs| - 1]);
      var b := bs[|bs| - 1];
      before[b.taskId := Append(h, Chain(before, b.taskId), b)]
  }

  ghost function EvaluateEvents(cfg: Config, st: State, req: CP.EvaluateRequest, amb: Ambient, blocks: bool,
                                evidence: Object): seq<EventBody> {
    var v := CP.Decide(cfg, st, req, amb.now, blocks);
    match v
    case Crash => []
    case Issue(_, _, _, _) => if amb.auditOk then [CP.IssuedEvent(cfg, req, CP.MakeClaims(cfg, req, v, amb), amb, evidence)] else []
    case Refuse(code, quarantine) =>
      if !amb.auditOk then []
      else [CP.DeniedEvent(cfg, req, code, amb)]
           + (if quarantine && req.taskId in st.tasks && st.tasks[req.taskId].state == Running && amb.auditOk2
              then [CP.QuarantinedEvent(cfg, req, code, amb)] else [])
  }

  ghost function ExecuteEvents(cfg: Config, w: World, req: GW.ExecuteRequest, amb: Ambient): seq<EventBody> {
    var o := GW.ExecuteSpec(cfg, w.store, w.erp, req, amb).2;
    if !o.Answered? || req.verified.None? || GW.AdapterFor(req.verified.value.tool).None? then []
    else
      var c := req.verified.value;
      var a := GW.AdapterFor(c.tool).value;
      var r := GW.Dispatch(cfg, w.erp, a, req.arguments, c.jti, amb.newId, amb.now).1;
      if r.Raw? then [GW.CompletedEvent(c, GW.ResourceRef(cfg, a, r.record), amb)] else []
  }

  ghost function DeliverEvents(cfg: Config, st: State, e: Envelope, ids: WK.FreshIds, amb: Ambient): seq<EventBody> {
    if !WK.HandleSpec(cfg, st, e, ids, amb).1.Processed? || e.taskId !in st.tasks then []
    else
      var t := st.tasks[e.taskId];
      var p := WK.MakePlan(t, WK.PriorOf(st.checkpoints, t), e, amb.now, ids);
      if p.None? then [] else [WK.TransitionEvent(p.value.task, t.state, e.eventId, amb)]
  }

  ghost function ReleaseEvents(cfg: Config, st: State, id: string, state: TaskState, version: Option<int>,
                               reason: string, user: string, amb: Ambient): seq<EventBody> {
    if CP.ReleaseSpec(cfg, st, id, state, version, reason, user, amb).1 != CP.Done || id !in st.tasks then []
    else match Transition(st.tasks[id].state, HumanReleased)
      case None => []
      case Some(next) => [CP.ReleasedEvent(cfg, id, CP.ReleaseTask(next, amb.newId, amb.now)(st.tasks[id]), reason, user, amb)]
  }

  ghost function Emitted(cfg: Config, w: World, s: Step): seq<EventBody> {
    match s
    case Revoke(id, reason, user, amb) =>
      if id !in w.store.delegations || !amb.auditOk then []
      else [CP.RevokedEvent(w.store.delegations[id].(status := Revoked, revokedAt := Some(amb.now), revokedBy := Some(user)), reason, user, amb)]
    case Evaluate(req, amb, blocks, evidence) => EvaluateEvents(cfg, w.store, req, amb, blocks, evidence)
    case Release(id, state, version, reason, user, amb) => ReleaseEvents(cfg, w.store, id, state, version, reason, user, amb)
    case Execute(req, amb) => ExecuteEvents(cfg, w, req, amb)
    case Deliver(e, ids, amb) => DeliverEvents(cfg, w.store, e, ids, amb)
    case _ => []
  }

  lemma ExtendOne(h: Hashing, st: State, b: EventBody)
    ensures Extend(h, st.audit, [b]) == Record(h, st, b).audit
  {
    assert [b][..0] == [];
  }

  lemma ExtendTwo(h: Hashing, st: State, st': State, b: EventBody, c: EventBody)
    requires st'.audit == Record(h, st, b).audit
    ensures Extend(h, st.audit, [b] + [c]) == Record(h, st', c).audit
  {
    ExtendOne(h, st, b);
    assert ([b] + [c])[..1] == [b];
  }

  lemma DenyAppends(cfg: Config, st: State, req: CP.EvaluateRequest, code: CP.Reasons.Reason, quarantine: bool,
                    amb: Ambient)
    requires amb.auditOk
    ensures CP.Deny(cfg, st, req, code, quarantine, amb).0.audit
      == Extend(cfg.hashing, st.audit, [CP.DeniedEvent(cfg, req, code, amb)]
           + if quarantine && req.taskId in st.tasks && st.tasks[req.taskId].state == Running && amb.auditOk2
             then [CP.QuarantinedEvent(cfg, req, code, amb)] else [])
  {
    var b, c := CP.DeniedEvent(cfg, req, code, amb), CP.QuarantinedEvent(cfg, req, code, amb);
    ExtendOne(cfg.hashing, st, b);
    assert [b] + [] == [b];
    var denied := Record(cfg.hashing, st, b);
    if quarantine && req.taskId in st.tasks && st.tasks[req.taskId].state == Running && amb.auditOk2 {
      var stopped := denied.(tasks := denied.tasks[req.taskId := CP.QuarantineTask(denied.tasks[req.taskId], amb.now)]);
      ExtendTwo(cfg.hashing, st, stopped, b, c);
    }
  }

  lemma EvaluateAppends(cfg: Config, st: State, req: CP.EvaluateRequest, amb: Ambient, blocks: bool, evidence: Object)
    ensures CP.EvaluateGrantSpec(cfg, st, req, amb, blocks, evidence).0.audit
      == Extend(cfg.hashing, st.audit, EvaluateEvents(cfg, st, req, amb, blocks, evidence))
  {
    var v := CP.Decide(cfg, st, req, amb.now, blocks);
    match v
    case Crash =>
    case Issue(_, _, _, _) => IssueAppends(cfg, st, req, v, amb, evidence);
    case Refuse(code, quarantine) => if amb.auditOk { DenyAppends(cfg, st, req, code, quarantine, amb); }
  }

  lemma IssueAppends(cfg: Config, st: State, req: CP.EvaluateRequest, v: CP.Verdict, amb: Ambient, evidence: Object)
    requires v.Issue?
    ensures CP.IssueGrant(cfg, st, req, v, amb, evidence).0.audit == Extend(cfg.hashing, st.audit,
      if amb.auditOk then [CP.IssuedEvent(cfg, req, CP.MakeClaims(cfg, req, v, amb), amb, evidence)] else [])
  {
    ExtendOne(cfg.hashing, st, CP.IssuedEvent(cfg, req, CP.MakeClaims(cfg, req, v, amb), amb, evidence));
  }

  lemma AdapterAppends(cfg: Config, st: State, e: ErpState, a: GW.Adapter, c: Claims, args: Object, amb: Ambient)
    ensures var (st', _, o) := GW.RunAdapter(cfg, st, e, a, c, args, amb);
      var r := GW.Dispatch(cfg, e, a, args, c.jti, amb.newId, amb.now).1;
      st'.audit == if o.Answered? && r.Raw?
                   then Extend(cfg.hashing, st.audit, [GW.CompletedEvent(c, GW.ResourceRef(cfg, a, r.record), amb)])
                   else st.audit
  {
    var r := GW.Dispatch(cfg, e, a, args, c.jti, amb.newId, amb.now).1;
    if r.Raw? { ExtendOne(cfg.hashing, st, GW.CompletedEvent(c, GW.ResourceRef(cfg, a, r.record), amb)); }
  }

  /** An execution is refused before its adapter, with the trail as it was, or comes down to its adapter. */
  lemma ExecuteCases(cfg: Config, w: World, req: GW.ExecuteRequest, amb: Ambient)
    ensures var (st, e, o) := GW.ExecuteSpec(cfg, w.store, w.erp, req, amb);
      || (o.Refused? && st.audit == w.store.audit)
      || (req.verified.Some? && GW.AdapterFor(req.verified.value.tool).Some?
          && exists st1: State :: st1.audit == w.store.audit && (st, e, o)
               == GW.RunAdapter(cfg, st1, w.erp, GW.AdapterFor(req.verified.value.tool).value, req.verified.value, req.arguments, amb))
  {
    if GW.Admit(cfg, w.store, req, amb.now).None? {
      var c := req.verified.value;
      var st1 := if c.singleUse then w.store.(grants := Consume(w.store.grants, c.jti, amb.now).0) else w.store;
      assert st1.audit == w.store.audit;
    }
  }

  lemma ExecuteAppends(cfg: Config, w: World, req: GW.ExecuteRequest, amb: Ambient)
    ensures GW.ExecuteSpec(cfg, w.store, w.erp, req, amb).0.audit == Extend(cfg.hashing, w.store.audit, ExecuteEvents(cfg, w, req, amb))
  {
    ExecuteCases(cfg, w, req, amb);
    var (st, e, o) := GW.ExecuteSpec(cfg, w.store, w.erp, req, amb);
    if !(o.Refused? && st.audit == w.store.audit) {
      var c := req.verified.value;
      var a := GW.AdapterFor(c.tool).value;
      var st1: State :| st1.audit == w.store.audit && (st, e, o) == GW.RunAdapter(cfg, st1, w.erp, a, c, req.arguments, amb);
      AdapterAppends(cfg, st1, w.erp, a, c, req.arguments, amb);
    }
  }

  lemma DeliverAppends(cfg: Config, st: State, e: Envelope, ids: WK.FreshIds, amb: Ambient)
    ensures WK.HandleSpec(cfg, st, e, ids, amb).0.audit == Extend(cfg.hashing, st.audit, DeliverEvents(cfg, st, e, ids, amb))
  {
    if WK.HandleSpec(cfg, st, e, ids, amb).1.Processed? {
      ExtendOne(cfg.hashing, st, DeliverEvents(cfg, st, e, ids, amb)[0]);
    }
  }

  lemma ReleaseAppends(cfg: Config, st: State, id: string, state: TaskState, version: Option<int>, reason: string,
                       user: string, amb: Ambient)
    ensures CP.ReleaseSpec(cfg, st, id, state, version, reason, user, amb).0.audit
      == Extend(cfg.hashing, st.audit, ReleaseEvents(cfg, st, id, state, version, reason, user, amb))
  {
    if CP.ReleaseSpec(cfg, st, id, state, version, reason, user, amb).1 == CP.Done {
      ExtendOne(cfg.hashing, st, ReleaseEvents(cfg, st, id, state, version, reason, user, amb)[0]);
    }
  }

  lemma RevokeAppends(cfg: Config, w: World, id: string, reason: string, user: string, amb: Ambient)
    ensures CP.RevokeSpec(cfg, w.store, id, reason, user, amb).0.audit
      == Extend(cfg.hashing, w.store.audit, Emitted(cfg, w, Revoke(id, reason, user, amb)))
  {
    if id in w.store.delegations {
      var d := w.store.delegations[id].(status := Revoked, revokedAt := Some(amb.now), revokedBy := Some(user));
      ExtendOne(cfg.hashing, w.store, CP.RevokedEvent(d, reason, user, amb));
    }
  }

  ghost predicate Appends(cfg: Config, w: World, s: Step) {
    Next(cfg, w, s).store.audit == Extend(cfg.hashing, w.store.audit, Emitted(cfg, w, s))
  }

  lemma GrantStepsAppend(cfg: Config, w: World, s: Step)
    requires s.Evaluate? || s.Execute?
    ensures Appends(cfg, w, s)
  {
    match s
    case Evaluate(req, amb, blocks, evidence) => EvaluateAppends(cfg, w.store, req, amb, blocks, evidence);
    case Execute(req, amb) => ExecuteAppends(cfg, w, req, amb);
  }

  lemma OtherStepsAppend(cfg: Config, w: World, s: Step)
    requires !s.Evaluate? && !s.Execute?
    ensures Appends(cfg, w, s)
  {
    match s
    case Revoke(id, reason, user, amb) => RevokeAppends(cfg, w, id, reason, user, amb);
    case Release(id, state, version, reason, user, amb) => ReleaseAppends(cfg, w.store, id, state, version, reason, user, amb);
    case Deliver(e, ids, amb) => DeliverAppends(cfg, w.store, e, ids, amb);
    case _ =>
  }

  /** The audit trail changes only by linked appends of the step's events. */
  lemma {:induction false} NextAppends(cfg: Config, w: World, s: Step)
    ensures Next(cfg, w, s).store.audit == Extend(cfg.hashing, w.store.audit, Emitted(cfg, w, s))
  {
    if s.Evaluate? || s.Execute? { GrantStepsAppend(cfg, w, s); } else { OtherStepsAppend(cfg, w, s); }
    assert Appends(cfg, w, s);
  }

  // ---- every chain verifies ----

  ghost predicate ChainsValid(h: Hashing, audit: Audit) { forall t :: Valid(h, Chain(audit, t)) }

  lemma {:induction false} ExtendKeepsValid(h: Hashing, audit: Audit, bs: seq<EventBody>)
    requires ChainsValid(h, audit)
    ensures ChainsValid(h, Extend(h, audit, bs))
  {
    if bs != [] {
      ExtendKeepsValid(h, audit, bs[..|bs| - 1]);
      var before, b := Extend(h, audit, bs[..|bs| - 1]), bs[|bs| - 1];
      AppendValid(h, Chain(before, b.taskId), b);
      forall t ensures Valid(h, Chain(Extend(h, audit, bs), t)) {
        assert t != b.taskId ==> Chain(Extend(h, audit, bs), t) == Chain(before, t);
      }
    }
  }

  // ---- counting events ----

  predicate Is(b: EventBody, kind: EventKind, grantId: string) { b.kind == kind && b.grantId == Some(grantId) }

  /** How many events of a kind a chain holds about a grant. */
  function Count(es: seq<AuditEvent>, kind: EventKind, grantId: string): nat {
    if es == [] then 0
    else Count(es[..|es| - 1], kind, grantId) + (if Is(es[|es| - 1].data.body, kind, grantId) then 1 else 0)
  }

  function Tally(audit: Audit, taskId: string, kind: EventKind, grantId: string): nat {
    Count(Chain(audit, taskId), kind, grantId)
  }

  function Mentions(bs: seq<EventBody>, taskId: string, kind: EventKind, grantId: string): nat {
    if bs == [] then 0
    else
      var b := bs[|bs| - 1];
      Mentions(bs[..|bs| - 1], taskId, kind, grantId) + (if b.taskId == taskId && Is(b, kind, grantId) then 1 else 0)
  }

  lemma {:induction false} ExtendTally(h: Hashing, audit: Audit, bs: seq<EventBody>, taskId: string, kind: EventKind,
                                       grantId: string)
    ensures Tally(Extend(h, audit, bs), taskId, kind, grantId)
      == Tally(audit, taskId, kind, grantId) + Mentions(bs, taskId, kind, grantId)
  {
    if bs != [] {
      ExtendTally(h, audit, bs[..|bs| - 1], taskId, kind, grantId);
      var before, b := Extend(h, audit, bs[..|bs| - 1]), bs[|bs| - 1];
      var longer := Append(h, Chain(before, b.taskId), b);
      assert longer[..|longer| - 1] == Chain(before, b.taskId);
      assert Chain(Extend(h, audit, bs), taskId) == if taskId == b.taskId then longer else Chain(before, taskId);
    }
  }

  lemma MentionsOne(b: EventBody, taskId: string, kind: EventKind, grantId: string)
    ensures Mentions([b], taskId, kind, grantId) == if b.taskId == taskId && Is(b, kind, grantId) then 1 else 0
  {
    assert [b][..0] == [];
  }

  lemma MentionsAtMostOne(bs: seq<EventBody>, taskId: string, kind: EventKind, grantId: string)
    requires |bs| <= 1
    ensures Mentions(bs, taskId, kind, grantId) == if bs != [] && bs[0].taskId == taskId && Is(bs[0], kind, grantId) then 1 else 0
  {
    if bs != [] { assert bs == [bs[0]]; MentionsOne(bs[0], taskId, kind, grantId); }
  }

  lemma MentionsTwo(b: EventBody, c: EventBody, taskId: string, kind: EventKind, grantId: string)
    ensures Mentions([b] + [c], taskId, kind, grantId)
      == (if b.taskId == taskId && Is(b, kind, grantId) then 1 else 0) + (if c.taskId == taskId && Is(c, kind, grantId) then 1 else 0)
  {
    MentionsOne(b, taskId, kind, grantId);
    assert ([b] + [c])[..1] == [b];
  }

  /** How many tokens were handed out, and how many calls were answered, under a grant of a task. */
  function Handed(cs: seq<Claims>, taskId: string, grantId: string): nat {
    if cs == [] then 0
    else
      var c := cs[|cs| - 1];
      Handed(cs[..|cs| - 1], taskId, grantId) + (if c.taskId == taskId && c.jti == grantId then 1 else 0)
  }

  predicate AnsweredUnder(k: Call, taskId: string, grantId: string) {
    k.outcome.Answered? && k.claims.taskId == taskId && k.claims.jti == grantId
  }

  function Served(ks: seq<Call>, taskId: string, grantId: string): nat {
    if ks == [] then 0
    else Served(ks[..|ks| - 1], taskId, grantId) + (if AnsweredUnder(ks[|ks| - 1], taskId, grantId) then 1 else 0)
  }

  // ---- the trail accounts for tokens and calls ----

  ghost predicate Accounted(w: World, taskId: string, grantId: string) {
    && Tally(w.store.audit, taskId, GrantIssued, grantId) == Handed(w.returned, taskId, grantId)
    && Tally(w.store.audit, taskId, ToolCompleted, grantId) == Served(w.calls, taskId, grantId)
  }

  ghost predicate HandedAt(w: World, i: nat) { i < |w.returned| ==> w.returned[i].jti in w.store.grants }
  ghost predicate HandedApart(w: World, i: nat, j: nat) {
    i < j < |w.returned| ==> w.returned[i].jti != w.returned[j].jti
  }

  ghost predicate Inv(cfg: Config, w: World) {
    && Provenance.Inv(cfg, w) && ChainsValid(cfg.hashing, w.store.audit)
    && (forall t, g :: Accounted(w, t, g))
    && (forall i: nat :: HandedAt(w, i)) && (forall i: nat, j: nat :: HandedApart(w, i, j))
  }

  lemma StartInv(cfg: Config, w: World)
    requires Start(w)
    ensures Inv(cfg, w)
  {
    Provenance.StartInv(cfg, w);
  }

  /** Evaluation is the only step that reports an issuance, and does so exactly for the token it returns. */
  lemma IssuedMentions(cfg: Config, w: World, s: Step, taskId: string, grantId: string)
    ensures Handed(Next(cfg, w, s).returned, taskId, grantId)
      == Handed(w.returned, taskId, grantId) + Mentions(Emitted(cfg, w, s), taskId, GrantIssued, grantId)
  {
    match s
    case Evaluate(req, amb, blocks, evidence) => EvaluateMentions(cfg, w, req, amb, blocks, evidence, taskId, grantId);
    case _ =>
      MentionsAtMostOne(Emitted(cfg, w, s), taskId, GrantIssued, grantId);
  }

  lemma EvaluateMentions(cfg: Config, w: World, req: CP.EvaluateRequest, amb: Ambient, blocks: bool,
                         evidence: Object, taskId: string, grantId: string)
    ensures var bs, w' := EvaluateEvents(cfg, w.store, req, amb, blocks, evidence), NextEvaluate(cfg, w, req, amb, blocks, evidence);
      Handed(w'.returned, taskId, grantId) == Handed(w.returned, taskId, grantId) + Mentions(bs, taskId, GrantIssued, grantId)
      && Mentions(bs, taskId, ToolCompleted, grantId) == 0
  {
    var bs, w' := EvaluateEvents(cfg, w.store, req, amb, blocks, evidence), NextEvaluate(cfg, w, req, amb, blocks, evidence);
    if |bs| == 1 {
      MentionsOne(bs[0], taskId, GrantIssued, grantId);
      MentionsOne(bs[0], taskId, ToolCompleted, grantId);
    } else if |bs| == 2 {
      MentionsTwo(bs[0], bs[1], taskId, GrantIssued, grantId);
      MentionsTwo(bs[0], bs[1], taskId, ToolCompleted, grantId);
    }
    if |w'.returned| > |w.returned| { assert w'.returned[..|w.returned|] == w.returned; }
  }

  lemma CompletedMentions(cfg: Config, w: World, s: Step, taskId: string, grantId: string)
    ensures Served(Next(cfg, w, s).calls, taskId, grantId)
      == Served(w.calls, taskId, grantId) + Mentions(Emitted(cfg, w, s), taskId, ToolCompleted, grantId)
  {
    match s
    case Evaluate(req, amb, blocks, evidence) => EvaluateMentions(cfg, w, req, amb, blocks, evidence, taskId, grantId);
    case Execute(req, amb) => ExecuteMentions(cfg, w, req, amb, taskId, grantId);
    case _ =>
      MentionsAtMostOne(Emitted(cfg, w, s), taskId, ToolCompleted, grantId);
  }

  /** The event that reports an answered call. */
  predicate Reports(bs: seq<EventBody>, k: Call) {
    if k.outcome.Answered? then
      |bs| == 1 && bs[0].taskId == k.claims.taskId && bs[0].kind == ToolCompleted && bs[0].grantId == Some(k.claims.jti)
    else bs == []
  }

  /** An execution logs no call and reports nothing, or logs one call and reports it if it is answered. */
  lemma ExecuteReports(cfg: Config, w: World, req: GW.ExecuteRequest, amb: Ambient)
    ensures var bs, calls := ExecuteEvents(cfg, w, req, amb), NextExecute(cfg, w, req, amb).calls;
      (calls == w.calls && bs == [])
      || (|calls| == |w.calls| + 1 && calls[..|w.calls|] == w.calls && Reports(bs, calls[|w.calls|]))
  {}

  lemma ExecuteMentions(cfg: Config, w: World, req: GW.ExecuteRequest, amb: Ambient, taskId: string, grantId: string)
    ensures Served(NextExecute(cfg, w, req, amb).calls, taskId, grantId)
      == Served(w.calls, taskId, grantId) + Mentions(ExecuteEvents(cfg, w, req, amb), taskId, ToolCompleted, grantId)
  {
    ExecuteReports(cfg, w, req, amb);
    ReportMentions(w.calls, NextExecute(cfg, w, req, amb).calls, ExecuteEvents(cfg, w, req, amb), taskId, grantId);
  }

  lemma ReportMentions(before: seq<Call>, after: seq<Call>, bs: seq<EventBody>, taskId: string, grantId: string)
    requires (after == before && bs == [])
      || (|after| == |before| + 1 && after[..|before|] == before && Reports(bs, after[|before|]))
    ensures Served(after, taskId, grantId) == Served(before, taskId, grantId) + Mentions(bs, taskId, ToolCompleted, grantId)
  {
    MentionsAtMostOne(bs, taskId, ToolCompleted, grantId);
  }

  lemma NextHands(cfg: Config, w: World, s: Step)
    requires Inv(cfg, w) && Enabled(w, s)
    ensures forall i: nat :: HandedAt(Next(cfg, w, s), i)
    ensures forall i: nat, j: nat :: HandedApart(Next(cfg, w, s), i, j)
  {
    var w' := Next(cfg, w, s);
    NextGrows(cfg, w, s);
    NewTokenIsFresh(cfg, w, s);
    forall i: nat ensures HandedAt(w', i) {
      assert HandedAt(w, i);
      if i < |w.returned| { assert w'.returned[i] == w.returned[i] && GrowsAt(w.store, w'.store, w.returned[i].jti); }
    }
    forall i: nat, j: nat ensures HandedApart(w', i, j) {
      assert HandedApart(w, i, j) && HandedAt(w, i);
      if i < j < |w'.returned| { assert w'.returned[i] == w.returned[i] && (j < |w.returned| ==> w'.returned[j] == w.returned[j]); }
    }
  }

  lemma NewTokenIsFresh(cfg: Config, w: World, s: Step)
    requires Enabled(w, s)
    ensures var w', n := Next(cfg, w, s), |w.returned|;
      |w'.returned| == n
      || (|w'.returned| == n + 1 && w'.returned[n].jti !in w.store.grants && w'.returned[n].jti in w'.store.grants)
  {
    if s.Evaluate? {
      var v := CP.Decide(cfg, w.store, s.eval, s.amb.now, s.semanticBlocks);
      if v.Issue? { Provenance.IssuedIsStored(cfg, w.store, s.eval, v, s.amb, s.evidence); }
    }
  }

  lemma NextKeepsInv(cfg: Config, w: World, s: Step)
    requires Inv(cfg, w) && Enabled(w, s)
    ensures Inv(cfg, Next(cfg, w, s))
  {
    var w' := Next(cfg, w, s);
    Provenance.NextKeepsInv(cfg, w, s);
    NextAppends(cfg, w, s);
    NextHands(cfg, w, s);
    ExtendKeepsValid(cfg.hashing, w.store.audit, Emitted(cfg, w, s));
    forall t, g ensures Accounted(w', t, g) {
      assert Accounted(w, t, g);
      NextAccounts(cfg, w, s, t, g);
    }
  }

  lemma NextAccounts(cfg: Config, w: World, s: Step, t: string, g: string)
    requires Accounted(w, t, g)
    ensures Accounted(Next(cfg, w, s), t, g)
  {
    NextAppends(cfg, w, s);
    ExtendTally(cfg.hashing, w.store.audit, Emitted(cfg, w, s), t, GrantIssued, g);
    ExtendTally(cfg.hashing, w.store.audit, Emitted(cfg, w, s), t, ToolCompleted, g);
    IssuedMentions(cfg, w, s, t, g);
    CompletedMentions(cfg, w, s, t, g);
  }

  lemma {:induction false} RunInv(cfg: Config, w: World, steps: seq<Step>)
    requires Inv(cfg, w) && CanRun(cfg, w, steps)
    ensures Inv(cfg, Run(cfg, w, steps))
    decreases |steps|
  {
    if steps != [] {
      RunInv(cfg, w, steps[..|steps| - 1]);
      NextKeepsInv(cfg, Run(cfg, w, steps[..|steps| - 1]), steps[|steps| - 1]);
    }
  }

  lemma ReachableInv(cfg: Config, w: World)
    requires Reachable(cfg, w)
    ensures Inv(cfg, w)
  {
    var w0, steps :| Start(w0) && CanRun(cfg, w0, steps) && w == Run(cfg, w0, steps);
    StartInv(cfg, w0);
    RunInv(cfg, w0, steps);
  }

  // ---- the theorems ----

  /** Every task's chain verifies in every reachable world. */
  lemma EveryChainVerifies(cfg: Config, w: World, taskId: string)
    requires Reachable(cfg, w)
    ensures Valid(cfg.hashing, Chain(w.store.audit, taskId))
  {
    ReachableInv(cfg, w);
  }

  lemma {:induction false} HandedOnce(cs: seq<Claims>, taskId: string, grantId: string)
    requires forall i, j :: 0 <= i < j < |cs| ==> cs[i].jti != cs[j].jti
    ensures Handed(cs, taskId, grantId) == if exists i :: 0 <= i < |cs| && cs[i].taskId == taskId && cs[i].jti == grantId then 1 else 0
  {
    if cs != [] {
      var front, n := cs[..|cs| - 1], |cs| - 1;
      HandedOnce(front, taskId, grantId);
      if i :| 0 <= i < |cs| && cs[i].taskId == taskId && cs[i].jti == grantId {
        if i < n { assert front[i] == cs[i]; }
      }
    }
  }

  lemma {:induction false} ServedOnce(ks: seq<Call>, taskId: string, grantId: string)
    requires forall i, j :: 0 <= i < j < |ks| ==> ks[i].claims.jti != ks[j].claims.jti
    ensures Served(ks, taskId, grantId) == if exists i :: 0 <= i < |ks| && AnsweredUnder(ks[i], taskId, grantId) then 1 else 0
  {
    if ks != [] {
      var front, n := ks[..|ks| - 1], |ks| - 1;
      ServedOnce(front, taskId, grantId);
      if i :| 0 <= i < |ks| && AnsweredUnder(ks[i], taskId, grantId) {
        if i < n { assert front[i] == ks[i]; }
      }
    }
  }

  /** A task's chain holds one issuance event for each token returned for the task, and none for any other grant. */
  lemma TokensAreRecordedOnce(cfg: Config, w: World, taskId: string, grantId: string)
    requires Reachable(cfg, w)
    ensures Tally(w.store.audit, taskId, GrantIssued, grantId)
      == if exists i :: 0 <= i < |w.returned| && w.returned[i].taskId == taskId && w.returned[i].jti == grantId then 1 else 0
  {
    ReachableInv(cfg, w);
    assert Accounted(w, taskId, grantId);
    forall i, j | 0 <= i < j < |w.returned| ensures w.returned[i].jti != w.returned[j].jti { assert HandedApart(w, i, j); }
    HandedOnce(w.returned, taskId, grantId);
  }

  lemma CallsDiffer(cfg: Config, w: World)
    requires Provenance.Inv(cfg, w)
    ensures forall i, j :: 0 <= i < j < |w.calls| ==> w.calls[i].claims.jti != w.calls[j].claims.jti
  {
    forall i, j | 0 <= i < j < |w.calls| ensures w.calls[i].claims.jti != w.calls[j].claims.jti {
      assert Provenance.CallsApart(w, i, j);
    }
  }

  /** A call was made under a consumed grant of its task. */
  lemma CallGrant(cfg: Config, w: World, i: nat)
    requires Provenance.Inv(cfg, w) && i < |w.calls|
    ensures var c := w.calls[i].claims;
      c.jti in w.store.grants && w.store.grants[c.jti].status == Consumed && w.store.grants[c.jti].taskId == c.taskId
  {
    assert Provenance.CallAt(cfg, w, i);
    var j :| 0 <= j < |w.signed| && w.signed[j].claims == w.calls[i].claims;
    assert Provenance.SignedAt(cfg, w, j);
  }

  /** It holds one completion event for each answered call, hence at most one for a grant, and only if that
      grant is consumed and of this task. */
  lemma CompletionsAreRecordedOnce(cfg: Config, w: World, taskId: string, grantId: string)
    requires Reachable(cfg, w)
    ensures Tally(w.store.audit, taskId, ToolCompleted, grantId)
      == if exists i :: 0 <= i < |w.calls| && AnsweredUnder(w.calls[i], taskId, grantId) then 1 else 0
    ensures Tally(w.store.audit, taskId, ToolCompleted, grantId) > 0 ==>
      grantId in w.store.grants && w.store.grants[grantId].status == Consumed && w.store.grants[grantId].taskId == taskId
  {
    ReachableInv(cfg, w);
    assert Accounted(w, taskId, grantId);
    CallsDiffer(cfg, w);
    ServedOnce(w.calls, taskId, grantId);
    if i: nat :| i < |w.calls| && AnsweredUnder(w.calls[i], taskId, grantId) { CallGrant(cfg, w, i); }
  }
}
