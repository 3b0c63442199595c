/** Approvals in the interleaved system for grants: selecting an approval and binding it are separate store calls. */
module ApprovalRace {
  import opened Text
  import opened Json
  import opened AuditChain
  import opened Records
  import opened Store
  import opened Settings
  import opened GrantRace
  import CP = ControlPlane

  // ---- when approvals stay single use ----

  ghost predicate BoundBefore(w: World, n: nat, id: string) {
    exists j :: 0 <= j < n <= |w.bindings| && w.bindings[j].approvalId == id
  }

  /** An approval was unbound when it was bound exactly if no binding of it came before. */
  ghost predicate BindingOk(w: World, k: nat) {
    k < |w.bindings| ==> (w.bindings[k].wasUnbound <==> !BoundBefore(w, k, w.bindings[k].approvalId))
  }

  ghost predicate ApprovalOk(w: World, id: string) { Unbound(w.store, id) <==> !BoundBefore(w, |w.bindings|, id) }

  ghost predicate Inv(w: World) { (forall k: nat :: BindingOk(w, k)) && forall id :: ApprovalOk(w, id) }

  lemma StartInv(w: World)
    requires Start(w)
    ensures Inv(w)
  {
    forall id ensures ApprovalOk(w, id) {}
  }

  lemma QuietStep(w: World, w': World)
    requires Inv(w) && w'.bindings == w.bindings && forall id :: Unbound(w'.store, id) <==> Unbound(w.store, id)
    ensures Inv(w')
  {
    forall k: nat ensures BindingOk(w', k) {
      assert BindingOk(w, k);
      if k < |w.bindings| { SameBefore(w, w', k, w.bindings[k].approvalId); }
    }
    forall id ensures ApprovalOk(w', id) {
      assert ApprovalOk(w, id);
      SameBefore(w, w', |w.bindings|, id);
    }
  }

  lemma SameBefore(w: World, w': World, n: nat, id: string)
    requires w.bindings <= w'.bindings && n <= |w.bindings|
    ensures BoundBefore(w', n, id) <==> BoundBefore(w, n, id)
  {}

  lemma BindStep(w: World, w': World, a: Approval, g: string)
    requires Inv(w) && w'.bindings == w.bindings + [Binding(a.approvalId, g, Unbound(w.store, a.approvalId))]
    requires w'.store.approvals == w.store.approvals[a.approvalId := a.(usedByGrantId := Some(g))]
    ensures Inv(w')
  {
    var n := |w.bindings|;
    forall k: nat ensures BindingOk(w', k) {
      assert BindingOk(w, k) && ApprovalOk(w, a.approvalId);
      if k <= n { SameBefore(w, w', k, w'.bindings[k].approvalId); }
    }
    forall id ensures ApprovalOk(w', id) {
      assert ApprovalOk(w, id);
      SameBefore(w, w', n, id);
      if id == a.approvalId { assert w'.bindings[n].approvalId == id; }
    }
  }

  lemma ExecutorsLeaveApprovals(cfg: Config, w: World, s: Step)
    ensures var w' := NextExecutor(cfg, w, s); w'.bindings == w.bindings && w'.store.approvals == w.store.approvals
  {}

  lemma NextIssuerKeepsInv(cfg: Config, w: World, s: Step)
    requires Inv(w)
    ensures Inv(NextIssuer(cfg, w, s))
  {
    var w' := NextIssuer(cfg, w, s);
    if s.BindApproval? && AtIssuer(w, s.p, {Stored}) && w.issuers[s.p].approval.Some? {
      BindStep(w, w', w.issuers[s.p].approval.value, w.issuers[s.p].claims.jti);
    } else {
      QuietStep(w, w');
    }
  }

  lemma {:induction false} RunInv(cfg: Config, w: World, steps: seq<Step>)
    requires Inv(w)
    ensures Inv(Run(cfg, w, steps))
    decreases |steps|
  {
    if steps != [] {
      var before, s := Run(cfg, w, steps[..|steps| - 1]), steps[|steps| - 1];
      RunInv(cfg, w, steps[..|steps| - 1]);
      NextIssuerKeepsInv(cfg, before, s);
      ExecutorsLeaveApprovals(cfg, NextIssuer(cfg, before, s), s);
      QuietStep(NextIssuer(cfg, before, s), NextExecutor(cfg, NextIssuer(cfg, before, s), s));
    }
  }

  predicate BoundOnce(w: World) {
    forall i, j :: 0 <= i < j < |w.bindings| ==> w.bindings[i].approvalId != w.bindings[j].approvalId
  }

  predicate BoundFresh(w: World) { forall k :: 0 <= k < |w.bindings| ==> w.bindings[k].wasUnbound }

  /** Over any interleaving no two grants are bound to one approval exactly if every approval is still unbound in the
      store when its grant is bound to it. */
  lemma SingleUseExactlyWhen(cfg: Config, w: World)
    requires Reachable(cfg, w)
    ensures BoundOnce(w) <==> BoundFresh(w)
  {
    var w0, steps :| Start(w0) && w == Run(cfg, w0, steps);
    StartInv(w0);
    RunInv(cfg, w0, steps);
    if BoundOnce(w) {
      forall k | 0 <= k < |w.bindings| ensures w.bindings[k].wasUnbound { assert BindingOk(w, k); }
    }
    if BoundFresh(w) {
      forall i, j | 0 <= i < j < |w.bindings| ensures w.bindings[i].approvalId != w.bindings[j].approvalId {
        assert BindingOk(w, j) && w.bindings[j].wasUnbound;
      }
    }
  }

  // ---- what that means for tokens ----

  predicate HasBound(at: IssuerAt) { at in {ApprovalBound, Recorded, Returned, RecordLost, Withdrawn} }

  ghost predicate IsBinding(w: World, k: nat, a: Approval, g: string) {
    k < |w.bindings| && w.bindings[k].approvalId == a.approvalId && w.bindings[k].grantId == g
  }

  /** Every issuer past the binding of its approval has left its binding in the log. */
  ghost predicate IssuerBound(w: World, i: nat) {
    i < |w.issuers| && HasBound(w.issuers[i].at) && w.issuers[i].approval.Some? ==>
      exists k: nat :: IsBinding(w, k, w.issuers[i].approval.value, w.issuers[i].claims.jti)
  }

  lemma OldBindingStays(w: World, w': World, i: nat)
    requires IssuerBound(w, i) && i < |w.issuers| && HasBound(w.issuers[i].at) && w.bindings <= w'.bindings
    requires i < |w'.issuers| && w'.issuers[i].approval == w.issuers[i].approval && w'.issuers[i].claims == w.issuers[i].claims
    ensures IssuerBound(w', i)
  {
    if w.issuers[i].approval.Some? {
      var k: nat :| IsBinding(w, k, w.issuers[i].approval.value, w.issuers[i].claims.jti);
      assert IsBinding(w', k, w.issuers[i].approval.value, w.issuers[i].claims.jti);
    }
  }

  lemma IssuersKeepTheirs(cfg: Config, w: World, s: Step, i: nat)
    requires i < |w.issuers|
    ensures var w' := NextIssuer(cfg, w, s);
      && w.bindings <= w'.bindings && i < |w'.issuers|
      && w'.issuers[i].approval == w.issuers[i].approval && w'.issuers[i].claims == w.issuers[i].claims
      && (HasBound(w'.issuers[i].at) && !HasBound(w.issuers[i].at) ==> s == BindApproval(i) && w.issuers[i].at == Stored)
  {}

  lemma NewBinding(cfg: Config, w: World, i: nat)
    requires AtIssuer(w, i, {Stored})
    ensures IssuerBound(NextIssuer(cfg, w, BindApproval(i)), i)
  {
    if w.issuers[i].approval.Some? {
      assert IsBinding(NextIssuer(cfg, w, BindApproval(i)), |w.bindings|, w.issuers[i].approval.value, w.issuers[i].claims.jti);
    }
  }

  lemma IssuerBoundStep(cfg: Config, w: World, s: Step, i: nat)
    requires IssuerBound(w, i)
    ensures IssuerBound(NextIssuer(cfg, w, s), i)
  {
    if i < |w.issuers| {
      IssuersKeepTheirs(cfg, w, s, i);
      if HasBound(w.issuers[i].at) {
        OldBindingStays(w, NextIssuer(cfg, w, s), i);
      } else if HasBound(NextIssuer(cfg, w, s).issuers[i].at) {
        NewBinding(cfg, w, i);
      }
    }
  }

  lemma IssuerBoundStays(w: World, w': World, i: nat)
    requires IssuerBound(w, i) && w'.issuers == w.issuers && w'.bindings == w.bindings
    ensures IssuerBound(w', i)
  {
    if i < |w.issuers| && HasBound(w.issuers[i].at) && w.issuers[i].approval.Some? {
      var k: nat :| IsBinding(w, k, w.issuers[i].approval.value, w.issuers[i].claims.jti);
      assert IsBinding(w', k, w.issuers[i].approval.value, w.issuers[i].claims.jti);
    }
  }

  lemma {:induction false} AllBound(cfg: Config, w: World, steps: seq<Step>, i: nat)
    requires forall j: nat :: IssuerBound(w, j)
    ensures IssuerBound(Run(cfg, w, steps), i)
    decreases |steps|
  {
    if steps != [] {
      var before, s := Run(cfg, w, steps[..|steps| - 1]), steps[|steps| - 1];
      AllBound(cfg, w, steps[..|steps| - 1], i);
      IssuerBoundStep(cfg, before, s, i);
      ExecutorsLeaveApprovals(cfg, NextIssuer(cfg, before, s), s);
      ExecutorsLeaveIssuers(cfg, NextIssuer(cfg, before, s), s);
      IssuerBoundStays(NextIssuer(cfg, before, s), Next(cfg, before, s), i);
    }
  }

  /** If every approval was still unbound when it was bound, no two returned tokens use the same one. */
  lemma ReturnedTokensShareNoApproval(cfg: Config, w: World, i: nat, j: nat)
    requires Reachable(cfg, w) && BoundFresh(w) && i < |w.issuers| && j < |w.issuers|
    requires w.issuers[i].at == Returned && w.issuers[j].at == Returned
    requires w.issuers[i].approval.Some? && w.issuers[j].approval.Some?
    requires w.issuers[i].approval.value.approvalId == w.issuers[j].approval.value.approvalId
    ensures i == j
  {
    ReachableInv(cfg, w);
    SingleUseExactlyWhen(cfg, w);
    var w0, steps :| Start(w0) && w == Run(cfg, w0, steps);
    AllBound(cfg, w0, steps, i);
    AllBound(cfg, w0, steps, j);
    var k: nat :| IsBinding(w, k, w.issuers[i].approval.value, w.issuers[i].claims.jti);
    var l: nat :| IsBinding(w, l, w.issuers[j].approval.value, w.issuers[j].claims.jti);
    assert k == l;
    assert IssuersApart(w, i, j) && IssuersApart(w, j, i);
  }

  // ---- a run in which it fails ----

  function Pair(c: Claims, d: Claims, a: Approval, at: IssuerAt): seq<Issuer> { [Issuer(c, Some(a), at), Issuer(d, Some(a), at)] }

  /** The two requests sign, store, bind, record and return in turn. */
  ghost function SigningBoth(cfg: Config, w: World, c: Claims, d: Claims, a: Approval): World {
    Next(cfg, Next(cfg, w, Mint(c, Some(a))), Mint(d, Some(a)))
  }

  ghost function StoringBoth(cfg: Config, w: World, p: nat, now: int): World {
    Next(cfg, Next(cfg, w, PutGrant(p, now)), PutGrant(p + 1, now))
  }

  ghost function BindingBoth(cfg: Config, w: World, p: nat): World {
    Next(cfg, Next(cfg, w, BindApproval(p)), BindApproval(p + 1))
  }

  ghost function ReturningBoth(cfg: Config, w: World, p: nat, e: AuditEvent, f: AuditEvent): World {
    var recorded := Next(cfg, Next(cfg, w, AppendRecord(p, e)), AppendRecord(p + 1, f));
    Next(cfg, Next(cfg, recorded, Return(p)), Return(p + 1))
  }

  lemma SigningMeaning(cfg: Config, w: World, c: Claims, d: Claims, a: Approval)
    requires Mintable(w, c) && Mintable(w, d) && c.jti != d.jti
    ensures var w' := SigningBoth(cfg, w, c, d, a);
      w' == w.(issuers := w'.issuers) && w'.issuers == w.issuers + Pair(c, d, a, Minted)
  {
    assert w.issuers + [Issuer(c, Some(a), Minted)] + [Issuer(d, Some(a), Minted)] == w.issuers + Pair(c, d, a, Minted);
  }

  lemma MovedPair(front: seq<Issuer>, c: Claims, d: Claims, a: Approval, at: IssuerAt, to: IssuerAt)
    ensures var p, both := |front|, front + Pair(c, d, a, at);
      both[p := both[p].(at := to)][p + 1 := both[p + 1].(at := to)] == front + Pair(c, d, a, to)
  {}

  lemma StoringMeaning(cfg: Config, w: World, front: seq<Issuer>, c: Claims, d: Claims, a: Approval, now: int)
    requires w.issuers == front + Pair(c, d, a, Minted) && c.jti != d.jti
    ensures var w' := StoringBoth(cfg, w, |front|, now);
      && w'.issuers == front + Pair(c, d, a, Stored) && w'.bindings == w.bindings && w'.store.approvals == w.store.approvals
      && InStatus(w', c.jti, Issued) && InStatus(w', d.jti, Issued)
  {
    MovedPair(front, c, d, a, Minted, Stored);
  }

  lemma BindingMeaning(cfg: Config, w: World, front: seq<Issuer>, c: Claims, d: Claims, a: Approval)
    requires w.issuers == front + Pair(c, d, a, Stored) && Unbound(w.store, a.approvalId)
    ensures var w' := BindingBoth(cfg, w, |front|);
      && w'.issuers == front + Pair(c, d, a, ApprovalBound) && w'.store.grants == w.store.grants
      && w'.bindings == w.bindings + [Binding(a.approvalId, c.jti, true), Binding(a.approvalId, d.jti, false)]
  {
    MovedPair(front, c, d, a, Stored, ApprovalBound);
  }

  lemma ReturningMeaning(cfg: Config, w: World, front: seq<Issuer>, c: Claims, d: Claims, a: Approval,
                         e: AuditEvent, f: AuditEvent)
    requires w.issuers == front + Pair(c, d, a, ApprovalBound)
    ensures var w' := ReturningBoth(cfg, w, |front|, e, f);
      w'.issuers == front + Pair(c, d, a, Returned) && w'.store.grants == w.store.grants && w'.bindings == w.bindings
  {
    MovedPair(front, c, d, a, ApprovalBound, Recorded);
    MovedPair(front, c, d, a, Recorded, Returned);
  }

  /** Two evaluations whose verdicts issue under the same approval before either has bound it both return their tokens,
      on issued grants bound to that one approval. */
  lemma RacingSelectionsShareAnApproval(cfg: Config, w: World, a: Approval, r: CP.EvaluateRequest, v: CP.Verdict, amb: Ambient,
                                        r': CP.EvaluateRequest, v': CP.Verdict, amb': Ambient, e: AuditEvent, f: AuditEvent)
    requires v.Issue? && v'.Issue? && v.approval == Some(a) == v'.approval && Unbound(w.store, a.approvalId)
    requires Mintable(w, CP.MakeClaims(cfg, r, v, amb)) && Mintable(w, CP.MakeClaims(cfg, r', v', amb')) && amb.newId != amb'.newId
    ensures var c, d, p := CP.MakeClaims(cfg, r, v, amb), CP.MakeClaims(cfg, r', v', amb'), |w.issuers|;
      var w' := ReturningBoth(cfg, BindingBoth(cfg, StoringBoth(cfg, SigningBoth(cfg, w, c, d, a), p, amb.now), p), p, e, f);
      && HasReturned(w', c) && HasReturned(w', d) && InStatus(w', c.jti, Issued) && InStatus(w', d.jti, Issued)
      && c.approvalIds == d.approvalIds == [a.approvalId] && !BoundOnce(w')
  {
    RaceFrom(cfg, w, a, CP.MakeClaims(cfg, r, v, amb), CP.MakeClaims(cfg, r', v', amb'), amb.now, e, f);
  }

  /** The race up to the bindings. */
  lemma RaceToBindings(cfg: Config, w: World, a: Approval, c: Claims, d: Claims, now: int)
    requires Mintable(w, c) && Mintable(w, d) && c.jti != d.jti && Unbound(w.store, a.approvalId)
    ensures var p := |w.issuers|;
      var w' := BindingBoth(cfg, StoringBoth(cfg, SigningBoth(cfg, w, c, d, a), p, now), p);
      && w'.issuers == w.issuers + Pair(c, d, a, ApprovalBound) && InStatus(w', c.jti, Issued) && InStatus(w', d.jti, Issued)
      && w'.bindings == w.bindings + [Binding(a.approvalId, c.jti, true), Binding(a.approvalId, d.jti, false)]
  {
    var p, front := |w.issuers|, w.issuers;
    var w1 := SigningBoth(cfg, w, c, d, a);
    SigningMeaning(cfg, w, c, d, a);
    StoringMeaning(cfg, w1, front, c, d, a, now);
    BindingMeaning(cfg, StoringBoth(cfg, w1, p, now), front, c, d, a);
  }

  /** Once both have bound the one approval, both return. */
  lemma RaceEnd(cfg: Config, w: World, front: seq<Issuer>, a: Approval, c: Claims, d: Claims, e: AuditEvent, f: AuditEvent)
    requires w.issuers == front + Pair(c, d, a, ApprovalBound) && InStatus(w, c.jti, Issued) && InStatus(w, d.jti, Issued)
    requires !BoundOnce(w)
    ensures var w' := ReturningBoth(cfg, w, |front|, e, f);
      && HasReturned(w', c) && HasReturned(w', d) && InStatus(w', c.jti, Issued) && InStatus(w', d.jti, Issued) && !BoundOnce(w')
  {
    ReturningMeaning(cfg, w, front, c, d, a, e, f);
    var w' := ReturningBoth(cfg, w, |front|, e, f);
    assert w'.issuers[|front|].at == Returned && w'.issuers[|front|].claims == c;
    assert w'.issuers[|front| + 1].at == Returned && w'.issuers[|front| + 1].claims == d;
  }

  lemma TwiceBound(w: World, before: seq<Binding>, b: Binding, b': Binding)
    requires w.bindings == before + [b, b'] && b.approvalId == b'.approvalId
    ensures !BoundOnce(w)
  {
    assert w.bindings[|before|] == b && w.bindings[|before| + 1] == b';
  }

  lemma RaceFrom(cfg: Config, w: World, a: Approval, c: Claims, d: Claims, now: int, e: AuditEvent, f: AuditEvent)
    requires Mintable(w, c) && Mintable(w, d) && c.jti != d.jti && Unbound(w.store, a.approvalId)
    ensures var p := |w.issuers|;
      var w' := ReturningBoth(cfg, BindingBoth(cfg, StoringBoth(cfg, SigningBoth(cfg, w, c, d, a), p, now), p), p, e, f);
      && HasReturned(w', c) && HasReturned(w', d) && InStatus(w', c.jti, Issued) && InStatus(w', d.jti, Issued) && !BoundOnce(w')
  {
    var p := |w.issuers|;
    var w3 := BindingBoth(cfg, StoringBoth(cfg, SigningBoth(cfg, w, c, d, a), p, now), p);
    RaceToBindings(cfg, w, a, c, d, now);
    TwiceBound(w3, w.bindings, Binding(a.approvalId, c.jti, true), Binding(a.approvalId, d.jti, false));
    RaceEnd(cfg, w3, w.issuers, a, c, d, e, f);
  }
}
