/** What the control plane checks before it issues a grant: which checks, in which order, and what each refusal says. */
module Evaluation {
  import opened Text
  import opened Json
  import opened Reasons
  import opened StateMachine
  import opened Purpose
  import opened Constraints
  import opened Records
  import opened Store
  import opened Settings
  import opened Completeness
  import G = Guarantees
  import CP = ControlPlane
  import P = Protocol

  /** The checks of an evaluation, in the order they are made. */
  datatype Gate = DelegationKnown | NotRevoked | NotOver | TaskBound | TaskKnown | TaskLive | AgentAllowed | ToolDeclared
                | VersionPinned | RegionAllowed | PurposeCovers | ApprovalThere | DutiesApart | PathsLegal | TermsMet | NotBlocked

  function Rank(g: Gate): nat {
    match g
    case DelegationKnown => 0 case NotRevoked => 1 case NotOver => 2 case TaskBound => 3 case TaskKnown => 4
    case TaskLive => 5 case AgentAllowed => 6 case ToolDeclared => 7 case VersionPinned => 8 case RegionAllowed => 9
    case PurposeCovers => 10 case ApprovalThere => 11 case DutiesApart => 12 case PathsLegal => 13 case TermsMet => 14
    case NotBlocked => 15
  }

  /** An approval of the task that fits, and keeps duties apart if that is asked. */
  ghost predicate Found(st: State, req: CP.EvaluateRequest, policy: ToolPolicy, sponsor: string, now: int, apart: bool) {
    exists a, n: nat :: ListedAs(st, req.taskId, a, n) && Fits(a, req, now) && (apart ==> Apart(a, policy.approverMustDifferFrom, sponsor))
  }

  /** What each check asks of a request under delegation `d` and tool policy `p`. */
  ghost predicate Passes(cfg: Config, st: State, req: CP.EvaluateRequest, d: Delegation, p: ToolPolicy, now: int, blocks: bool, g: Gate) {
    var t := Get(st.tasks, req.taskId);
    var m := Get(cfg.manifests, req.agentId);
    match g
    case DelegationKnown => Get(st.delegations, req.delegationId) == Some(d)
    case NotRevoked => d.status != Revoked
    case NotOver => now < d.expiresAt
    case TaskBound => d.taskId == req.taskId
    case TaskKnown => t.Some?
    case TaskLive => t.Some? ==> t.value.state !in {Completed, Failed, Cancelled, Quarantined}
    case AgentAllowed => d.allowedAgents == [] || req.agentId in d.allowedAgents
    case ToolDeclared => m.Some? && P.Declares(m.value, req.tool)
    case VersionPinned => m.Some? ==> req.agentVersion == m.value.version
    case RegionAllowed => req.region in d.allowedRegions
    case PurposeCovers => P.Authorizes(cfg.policy.purposes, d.purpose, req.agentId, req.tool)
                          && p == cfg.policy.purposes[d.purpose][req.agentId][req.tool]
    case ApprovalThere => p.requiresApproval ==> Found(st, req, p, d.sponsor, now, false)
    case DutiesApart => p.requiresApproval ==> Found(st, req, p, d.sponsor, now, true)
    case PathsLegal => AllLegal(req.arguments)
    case TermsMet => ArgumentsFit(req.arguments, p)
    case NotBlocked => !blocks
  }

  /** What the control plane decides when a check fails; the terms have their own code. */
  function VerdictOf(g: Gate, termsCode: Reason): CP.Verdict {
    match g
    case DelegationKnown => CP.Refuse(DELEGATION_NOT_FOUND, false)
    case NotRevoked => CP.Refuse(DELEGATION_REVOKED, false)
    case NotOver => CP.Refuse(DELEGATION_EXPIRED, false)
    case TaskBound => CP.Refuse(TASK_NOT_BOUND_TO_DELEGATION, false)
    case TaskKnown => CP.Refuse(TASK_NOT_BOUND_TO_DELEGATION, false)
    case TaskLive => CP.Refuse(TASK_NOT_LIVE, false)
    case AgentAllowed => CP.Refuse(AGENT_NOT_ALLOWED, false)
    case ToolDeclared => CP.Refuse(CAPABILITY_NOT_DECLARED, true)
    case VersionPinned => CP.Refuse(AGENT_VERSION_NOT_ALLOWED, false)
    case RegionAllowed => CP.Refuse(REGION_NOT_ALLOWED, false)
    case PurposeCovers => CP.Refuse(OUTSIDE_BUSINESS_PURPOSE, true)
    case ApprovalThere => CP.Refuse(APPROVAL_REQUIRED, false)
    case DutiesApart => CP.Refuse(SEPARATION_OF_DUTIES_VIOLATION, false)
    case PathsLegal => CP.Crash
    case TermsMet => CP.Refuse(termsCode, false)
    case NotBlocked => CP.Refuse(SEMANTIC_POLICY_DENIED, true)
  }

  /** The code that the constraint engine gives for the terms. */
  ghost predicate IsTermsCode(cfg: Config, req: CP.EvaluateRequest, p: ToolPolicy, code: Reason) {
    var d := Constraints.Evaluate(cfg.rx, CP.Terms(req.arguments, p), Dict(req.arguments));
    d.Denied? && d.code == code
  }

  ghost predicate AllPass(cfg: Config, st: State, req: CP.EvaluateRequest, d: Delegation, p: ToolPolicy, now: int, blocks: bool, below: nat) {
    forall g :: Rank(g) < below ==> Passes(cfg, st, req, d, p, now, blocks, g)
  }

  /** The delegation and the tool policy in question, where there are such. */
  predicate About(cfg: Config, st: State, req: CP.EvaluateRequest, d: Delegation, p: ToolPolicy) {
    && (req.delegationId in st.delegations ==> d == st.delegations[req.delegationId])
    && (P.Authorizes(cfg.policy.purposes, d.purpose, req.agentId, req.tool) ==> p == cfg.policy.purposes[d.purpose][req.agentId][req.tool])
  }

  // ---- scope ----

  lemma ScopeGates(cfg: Config, st: State, req: CP.EvaluateRequest, d: Delegation, p: ToolPolicy, now: int, blocks: bool, n: nat)
    requires AllPass(cfg, st, req, d, p, now, blocks, n)
    ensures n > 10 ==> CP.Scope(cfg, st, req, now) == CP.Inside(d, p)
  {
    assert Rank(DelegationKnown) == 0 && Rank(NotRevoked) == 1 && Rank(NotOver) == 2 && Rank(TaskBound) == 3 && Rank(TaskKnown) == 4;
    assert Rank(TaskLive) == 5 && Rank(AgentAllowed) == 6 && Rank(ToolDeclared) == 7 && Rank(VersionPinned) == 8;
    assert Rank(RegionAllowed) == 9 && Rank(PurposeCovers) == 10;
  }

  lemma OutsideDecides(cfg: Config, st: State, req: CP.EvaluateRequest, now: int, blocks: bool)
    ensures var r := CP.Scope(cfg, st, req, now); r.Outside? ==> CP.Decide(cfg, st, req, now, blocks) == CP.Refuse(r.code, r.quarantine)
  {}

  lemma FirstScopeGate(cfg: Config, st: State, req: CP.EvaluateRequest, d: Delegation, p: ToolPolicy, now: int, blocks: bool, g: Gate,
                       code: Reason)
    requires About(cfg, st, req, d, p) && Rank(g) <= 10
    requires !Passes(cfg, st, req, d, p, now, blocks, g) && AllPass(cfg, st, req, d, p, now, blocks, Rank(g))
    ensures var r := CP.Scope(cfg, st, req, now); r.Outside? && VerdictOf(g, code) == CP.Refuse(r.code, r.quarantine)
  {
    assert Rank(DelegationKnown) == 0 && Rank(NotRevoked) == 1 && Rank(NotOver) == 2 && Rank(TaskBound) == 3 && Rank(TaskKnown) == 4;
    assert Rank(TaskLive) == 5 && Rank(AgentAllowed) == 6 && Rank(ToolDeclared) == 7 && Rank(VersionPinned) == 8;
    assert Rank(RegionAllowed) == 9;
  }

  // ---- approvals ----

  /** The first approval stored for the task, among two hundred, that fits and keeps duties apart. */
  ghost predicate Earliest(st: State, req: CP.EvaluateRequest, p: ToolPolicy, sponsor: string, now: int, a: Approval, n: nat) {
    && ListedAs(st, req.taskId, a, n) && Fits(a, req, now) && Apart(a, p.approverMustDifferFrom, sponsor)
    && forall b, k: nat :: k < n && ListedAs(st, req.taskId, b, k) ==> !(Fits(b, req, now) && Apart(b, p.approverMustDifferFrom, sponsor))
  }

  lemma ListedMeaning(st: State, taskId: string, a: Approval)
    ensures a in ListedApprovals(st, taskId) <==> exists n: nat :: ListedAs(st, taskId, a, n)
  {
    forall n: nat ensures (n < |ListedApprovals(st, taskId)| && ListedApprovals(st, taskId)[n] == a) <==> ListedAs(st, taskId, a, n) {
      ListedExactly(st, taskId, n, a);
    }
  }

  lemma SelectedIsEarliest(st: State, req: CP.EvaluateRequest, p: ToolPolicy, sponsor: string, now: int)
    requires CP.Select(ListedApprovals(st, req.taskId), req, p, sponsor, now).Selected?
    ensures exists n: nat :: Earliest(st, req, p, sponsor, now, CP.Select(ListedApprovals(st, req.taskId), req, p, sponsor, now).approval, n)
  {
    var listed := ListedApprovals(st, req.taskId);
    CP.SelectMeaning(listed, req, p, sponsor, now);
    var a := CP.Select(listed, req, p, sponsor, now).approval;
    var n: nat :| n < |listed| && listed[n] == a && CP.Suitable(a, req, p, sponsor, now)
      && forall j :: 0 <= j < n ==> !CP.Suitable(listed[j], req, p, sponsor, now);
    ListedExactly(st, req.taskId, n, a);
    SuitableExactly(a, req, p, sponsor, now);
    forall b, k: nat | k < n && ListedAs(st, req.taskId, b, k) ensures !(Fits(b, req, now) && Apart(b, p.approverMustDifferFrom, sponsor)) {
      ListedExactly(st, req.taskId, k, b);
      SuitableExactly(b, req, p, sponsor, now);
    }
    assert Earliest(st, req, p, sponsor, now, a, n);
  }

  lemma FoundExactly(st: State, req: CP.EvaluateRequest, p: ToolPolicy, sponsor: string, now: int)
    ensures Found(st, req, p, sponsor, now, false) <==> exists a :: a in ListedApprovals(st, req.taskId) && CP.Eligible(a, req, now)
    ensures Found(st, req, p, sponsor, now, true) <==> exists a :: a in ListedApprovals(st, req.taskId) && CP.Suitable(a, req, p, sponsor, now)
  {
    forall a
      ensures a in ListedApprovals(st, req.taskId) <==> exists n: nat :: ListedAs(st, req.taskId, a, n)
      ensures CP.Eligible(a, req, now) <==> Fits(a, req, now)
      ensures CP.Suitable(a, req, p, sponsor, now) <==> Fits(a, req, now) && Apart(a, p.approverMustDifferFrom, sponsor)
    {
      ListedMeaning(st, req.taskId, a);
      SuitableExactly(a, req, p, sponsor, now);
    }
  }

  lemma SelectionExactly(st: State, req: CP.EvaluateRequest, p: ToolPolicy, sponsor: string, now: int)
    ensures var s := CP.Select(ListedApprovals(st, req.taskId), req, p, sponsor, now);
      (s.NoneEligible? <==> !Found(st, req, p, sponsor, now, false)) && (s.Selected? <==> Found(st, req, p, sponsor, now, true))
  {
    var listed := ListedApprovals(st, req.taskId);
    FoundExactly(st, req, p, sponsor, now);
    CP.SelectMeaning(listed, req, p, sponsor, now);
    var s := CP.Select(listed, req, p, sponsor, now);
    if s.Selected? { assert s.approval in listed && CP.Suitable(s.approval, req, p, sponsor, now); }
  }

  // ---- terms ----

  lemma {:induction false} NeverRaises(rx: Regex, cs: seq<Constraint>, args: Json)
    requires forall c :: c in cs ==> c.op != SubsetOf
    ensures Constraints.Evaluate(rx, cs, args) != Raised
  {
    if cs != [] {
      assert cs[0] in cs;
      NeverRaises(rx, cs[1..], args);
    }
  }

  lemma TermsNeverRaise(rx: Regex, args: Object, p: ToolPolicy, actual: Json)
    ensures Constraints.Evaluate(rx, CP.Terms(args, p), actual) != Raised
  {
    var pins := CP.Pins(args, SortedKeys(args.Keys));
    forall c | c in CP.Terms(args, p) ensures c.op != SubsetOf {
      if c in pins {
        var i: nat :| i < |pins| && pins[i] == c;
        G.PinsOnly(args, SortedKeys(args.Keys), i);
      }
    }
    NeverRaises(rx, CP.Terms(args, p), actual);
  }

  /** The pins: one for each scalar argument, sorted by key. */
  ghost predicate PinsOf(args: Object, pins: seq<Constraint>) {
    && (forall c :: c in pins <==> c.op == Eq && c.path in args && c.value == args[c.path] && (c.value.Str? || c.value.Int? || c.value.Float? || c.value.Bool?))
    && forall i, j :: 0 <= i < j < |pins| ==> LexLess(pins[i].path, pins[j].path)
  }

  /** The caps: at most the maximum and more than nothing, and a listed currency. */
  predicate CapsOf(p: ToolPolicy, caps: seq<Constraint>) {
    var n := if p.maxAmountMinor.Some? then 2 else 0;
    && |caps| == n + (if p.allowedCurrencies == [] then 0 else 1)
    && (p.maxAmountMinor.Some? ==>
          caps[0] == Constraint("amount_minor", Lte, Int(p.maxAmountMinor.value)) && caps[1] == Constraint("amount_minor", Gt, Int(0)))
    && (p.allowedCurrencies != [] ==> caps[n].path == "currency" && caps[n].op == In && Lists(caps[n].value, p.allowedCurrencies))
  }

  predicate Lists(j: Json, ss: seq<string>) {
    j.List? && |j.items| == |ss| && forall i :: 0 <= i < |ss| ==> j.items[i] == Str(ss[i])
  }

  lemma {:induction false} PinsSorted(args: Object, keys: seq<string>, ks: set<string>)
    requires StrictlySorted(keys) && (forall k :: k in keys ==> k in ks)
    ensures forall c :: c in CP.Pins(args, keys) ==> c.path in keys
    ensures forall i, j :: 0 <= i < j < |CP.Pins(args, keys)| ==> LexLess(CP.Pins(args, keys)[i].path, CP.Pins(args, keys)[j].path)
  {
    if keys != [] {
      var n, front := |keys| - 1, keys[..|keys| - 1];
      assert StrictlySorted(front) by { forall i, j | 0 <= i < j < n ensures LexLess(front[i], front[j]) { assert LexLess(keys[i], keys[j]); } }
      PinsSorted(args, front, ks);
      forall c | c in CP.Pins(args, front) ensures LexLess(c.path, keys[n]) {
        var i :| 0 <= i < n && front[i] == c.path;
        assert LexLess(keys[i], keys[n]);
      }
    }
  }

  /** The signed constraints are the pins and then the caps, in this order. */
  lemma TermsInOrder(args: Object, p: ToolPolicy)
    ensures exists pins, caps :: CP.Terms(args, p) == pins + caps && PinsOf(args, pins) && CapsOf(p, caps)
  {
    var keys := SortedKeys(args.Keys);
    var pins := CP.Pins(args, keys);
    SortedKeysAreSorted(args.Keys);
    PinsSorted(args, keys, args.Keys);
    forall c: Constraint
      ensures c in pins <==> c.op == Eq && c.path in args && c.value == args[c.path] && (c.value.Str? || c.value.Int? || c.value.Float? || c.value.Bool?)
    {
      if c in pins {
        var i: nat :| i < |pins| && pins[i] == c;
        G.PinsOnly(args, keys, i);
      }
      if c.op == Eq && c.path in args && c.value == args[c.path] && CP.Pinnable(c.value) { G.PinListed(args, keys, c.path); }
    }
    assert CapsOf(p, CP.Caps(p));
  }

  // ---- the decision ----

  lemma TermsFacts(cfg: Config, args: Object, p: ToolPolicy, dec: Decision)
    requires dec == Constraints.Evaluate(cfg.rx, CP.Terms(args, p), Dict(args))
    ensures CP.PathsLegal(args) <==> AllLegal(args)
    ensures dec != Raised && (AllLegal(args) ==> (dec == Allowed <==> ArgumentsFit(args, p)))
  {
    PathsExactly(args);
    TermsNeverRaise(cfg.rx, args, p, Dict(args));
    if AllLegal(args) {
      G.TermsMeaning(cfg.rx, args, p, args);
      G.CapsMeaning(cfg.rx, p, args);
    }
  }

  /** What a decision on the terms amounts to. */
  predicate Follows(v: CP.Verdict, legal: bool, dec: Decision, blocks: bool, issue: CP.Verdict) {
    v == if !legal then CP.Crash
         else match dec
           case Denied(code, _) => CP.Refuse(code, false)
           case Raised => CP.Crash
           case Allowed => if blocks then CP.Refuse(SEMANTIC_POLICY_DENIED, true) else issue
  }

  lemma TermsDecide(cfg: Config, req: CP.EvaluateRequest, a: Option<Approval>, d: Delegation, p: ToolPolicy, blocks: bool, dec: Decision)
    requires dec == Constraints.Evaluate(cfg.rx, CP.Terms(req.arguments, p), Dict(req.arguments))
    ensures Follows(CP.DecideTerms(cfg, req, a, p, d, blocks), CP.PathsLegal(req.arguments), dec, blocks,
                    CP.Issue(a, CP.Terms(req.arguments, p), p, d))
  {}

  /** The gates behind the approval, given whether the keys are legal and the arguments fit. */
  predicate Concludes(v: CP.Verdict, legal: bool, fit: bool, blocks: bool, code: Reason, issue: CP.Verdict) {
    v == if !legal then VerdictOf(PathsLegal, code) else if !fit then VerdictOf(TermsMet, code)
         else if blocks then VerdictOf(NotBlocked, code) else issue
  }

  lemma FollowsConcludes(v: CP.Verdict, legal: bool, fit: bool, dec: Decision, blocks: bool, code: Reason, issue: CP.Verdict)
    requires Follows(v, legal, dec, blocks, issue) && dec != Raised && (legal ==> (dec == Allowed <==> fit))
    requires dec.Denied? ==> dec.code == code
    ensures Concludes(v, legal, fit, blocks, code, issue)
  {}

  /** The verdict once scope and approval are there. */
  lemma TermsGates(cfg: Config, req: CP.EvaluateRequest, a: Option<Approval>, d: Delegation, p: ToolPolicy, blocks: bool, code: Reason)
    requires AllLegal(req.arguments) && !ArgumentsFit(req.arguments, p) ==> IsTermsCode(cfg, req, p, code)
    ensures Concludes(CP.DecideTerms(cfg, req, a, p, d, blocks), AllLegal(req.arguments), ArgumentsFit(req.arguments, p), blocks, code,
                      CP.Issue(a, CP.Terms(req.arguments, p), p, d))
  {
    var dec := Constraints.Evaluate(cfg.rx, CP.Terms(req.arguments, p), Dict(req.arguments));
    TermsFacts(cfg, req.arguments, p, dec);
    TermsDecide(cfg, req, a, d, p, blocks, dec);
    if AllLegal(req.arguments) {
      FollowsConcludes(CP.DecideTerms(cfg, req, a, p, d, blocks), true, ArgumentsFit(req.arguments, p), dec, blocks, code,
                       CP.Issue(a, CP.Terms(req.arguments, p), p, d));
    }
  }

  /** The approval a grant would use. */
  ghost predicate Chosen(st: State, req: CP.EvaluateRequest, d: Delegation, p: ToolPolicy, now: int, a: Option<Approval>) {
    (a.Some? <==> p.requiresApproval) && (a.Some? ==> exists n: nat :: Earliest(st, req, p, d.sponsor, now, a.value, n))
  }

  /** The decision follows the selection. */
  lemma SelectionDecides(cfg: Config, st: State, req: CP.EvaluateRequest, d: Delegation, p: ToolPolicy, now: int, blocks: bool)
    requires CP.Scope(cfg, st, req, now) == CP.Inside(d, p)
    ensures var v, s := CP.Decide(cfg, st, req, now, blocks), CP.Select(ListedApprovals(st, req.taskId), req, p, d.sponsor, now);
      if !p.requiresApproval then v == CP.DecideTerms(cfg, req, None, p, d, blocks)
      else match s
        case NoneEligible => v == CP.Refuse(APPROVAL_REQUIRED, false)
        case DutiesViolated => v == CP.Refuse(SEPARATION_OF_DUTIES_VIOLATION, false)
        case Selected(a) => v == CP.DecideTerms(cfg, req, Some(a), p, d, blocks)
  {}

  lemma ApprovalMissing(cfg: Config, st: State, req: CP.EvaluateRequest, d: Delegation, p: ToolPolicy, now: int, blocks: bool)
    requires CP.Scope(cfg, st, req, now) == CP.Inside(d, p) && p.requiresApproval && !Found(st, req, p, d.sponsor, now, true)
    ensures CP.Decide(cfg, st, req, now, blocks)
      == if Found(st, req, p, d.sponsor, now, false) then CP.Refuse(SEPARATION_OF_DUTIES_VIOLATION, false) else CP.Refuse(APPROVAL_REQUIRED, false)
  {
    SelectionDecides(cfg, st, req, d, p, now, blocks);
    SelectionExactly(st, req, p, d.sponsor, now);
  }

  lemma ApprovalChosen(cfg: Config, st: State, req: CP.EvaluateRequest, d: Delegation, p: ToolPolicy, now: int, blocks: bool)
    returns (a: Option<Approval>)
    requires CP.Scope(cfg, st, req, now) == CP.Inside(d, p) && (p.requiresApproval ==> Found(st, req, p, d.sponsor, now, true))
    ensures Chosen(st, req, d, p, now, a) && CP.Decide(cfg, st, req, now, blocks) == CP.DecideTerms(cfg, req, a, p, d, blocks)
  {
    SelectionDecides(cfg, st, req, d, p, now, blocks);
    a := None;
    if p.requiresApproval {
      SelectionExactly(st, req, p, d.sponsor, now);
      SelectedIsEarliest(st, req, p, d.sponsor, now);
      a := Some(CP.Select(ListedApprovals(st, req.taskId), req, p, d.sponsor, now).approval);
    }
  }

  lemma ApprovalGates(cfg: Config, st: State, req: CP.EvaluateRequest, d: Delegation, p: ToolPolicy, now: int, blocks: bool, g: Gate,
                      code: Reason)
    requires CP.Scope(cfg, st, req, now) == CP.Inside(d, p) && (g == ApprovalThere || g == DutiesApart)
    requires !Passes(cfg, st, req, d, p, now, blocks, g) && (g == DutiesApart ==> Passes(cfg, st, req, d, p, now, blocks, ApprovalThere))
    ensures CP.Decide(cfg, st, req, now, blocks) == VerdictOf(g, code)
  {
    ApprovalMissing(cfg, st, req, d, p, now, blocks);
  }

  lemma RestPasses(cfg: Config, st: State, req: CP.EvaluateRequest, d: Delegation, p: ToolPolicy, now: int, blocks: bool, n: nat)
    requires AllPass(cfg, st, req, d, p, now, blocks, n)
    ensures n > 11 ==> Passes(cfg, st, req, d, p, now, blocks, ApprovalThere)
    ensures n > 12 ==> Passes(cfg, st, req, d, p, now, blocks, DutiesApart)
    ensures n > 13 ==> AllLegal(req.arguments)
    ensures n > 14 ==> ArgumentsFit(req.arguments, p)
    ensures n > 15 ==> !blocks
  {
    assert Rank(ApprovalThere) == 11 && Rank(DutiesApart) == 12 && Rank(PathsLegal) == 13 && Rank(TermsMet) == 14 && Rank(NotBlocked) == 15;
  }

  lemma FirstLateGate(cfg: Config, st: State, req: CP.EvaluateRequest, d: Delegation, p: ToolPolicy, now: int, blocks: bool, g: Gate,
                      code: Reason)
    requires CP.Scope(cfg, st, req, now) == CP.Inside(d, p) && Rank(g) > 10 && (g == TermsMet ==> IsTermsCode(cfg, req, p, code))
    requires !Passes(cfg, st, req, d, p, now, blocks, g) && AllPass(cfg, st, req, d, p, now, blocks, Rank(g))
    ensures CP.Decide(cfg, st, req, now, blocks) == VerdictOf(g, code)
  {
    RestPasses(cfg, st, req, d, p, now, blocks, Rank(g));
    if Rank(g) > 12 {
      var a := ApprovalChosen(cfg, st, req, d, p, now, blocks);
      TermsGates(cfg, req, a, d, p, blocks, code);
    } else {
      ApprovalGates(cfg, st, req, d, p, now, blocks, g, code);
    }
  }

  /** What is issued: a grant under this delegation and policy, with the pins and caps, and the earliest fitting approval. */
  ghost predicate Issues(st: State, req: CP.EvaluateRequest, d: Delegation, p: ToolPolicy, now: int, v: CP.Verdict) {
    && v.Issue? && v.delegation == d && v.policy == p && v.terms == CP.Terms(req.arguments, p)
    && Chosen(st, req, d, p, now, v.approval)
  }

  lemma AllGates(cfg: Config, st: State, req: CP.EvaluateRequest, d: Delegation, p: ToolPolicy, now: int, blocks: bool)
    requires AllPass(cfg, st, req, d, p, now, blocks, 16)
    ensures Issues(st, req, d, p, now, CP.Decide(cfg, st, req, now, blocks))
  {
    ScopeGates(cfg, st, req, d, p, now, blocks, 16);
    RestPasses(cfg, st, req, d, p, now, blocks, 16);
    var a := ApprovalChosen(cfg, st, req, d, p, now, blocks);
    TermsGates(cfg, req, a, d, p, blocks, INTERNAL_ERROR);
  }

  ghost predicate FirstFailing(cfg: Config, st: State, req: CP.EvaluateRequest, d: Delegation, p: ToolPolicy, now: int, blocks: bool, g: Gate) {
    !Passes(cfg, st, req, d, p, now, blocks, g) && AllPass(cfg, st, req, d, p, now, blocks, Rank(g))
  }

  /** A request is refused with the verdict of the first check it fails. */
  lemma RefusedExactly(cfg: Config, st: State, req: CP.EvaluateRequest, d: Delegation, p: ToolPolicy, now: int, blocks: bool, g: Gate,
                       code: Reason)
    requires About(cfg, st, req, d, p) && FirstFailing(cfg, st, req, d, p, now, blocks, g)
    requires g == TermsMet ==> IsTermsCode(cfg, req, p, code)
    ensures CP.Decide(cfg, st, req, now, blocks) == VerdictOf(g, code)
  {
    if Rank(g) <= 10 {
      FirstScopeGate(cfg, st, req, d, p, now, blocks, g, code);
      OutsideDecides(cfg, st, req, now, blocks);
    } else {
      ScopeGates(cfg, st, req, d, p, now, blocks, Rank(g));
      FirstLateGate(cfg, st, req, d, p, now, blocks, g, code);
    }
  }

  /** A first check fails, and its verdict issues nothing. */
  ghost predicate FailsAt(cfg: Config, st: State, req: CP.EvaluateRequest, d: Delegation, p: ToolPolicy, now: int, blocks: bool,
                          v: CP.Verdict, g: Gate, code: Reason) {
    FirstFailing(cfg, st, req, d, p, now, blocks, g) && v == VerdictOf(g, code) && !v.Issue?
    && (g == TermsMet ==> IsTermsCode(cfg, req, p, code))
  }

  lemma VerdictRefuses(g: Gate, code: Reason)
    ensures !VerdictOf(g, code).Issue?
  {}

  /** Terms that arguments do not fit are denied under some code. */
  lemma UnfitIsDenied(cfg: Config, st: State, req: CP.EvaluateRequest, d: Delegation, p: ToolPolicy, now: int, blocks: bool)
    returns (code: Reason)
    requires FirstFailing(cfg, st, req, d, p, now, blocks, TermsMet)
    ensures IsTermsCode(cfg, req, p, code)
  {
    RestPasses(cfg, st, req, d, p, now, blocks, 14);
    var dec := Constraints.Evaluate(cfg.rx, CP.Terms(req.arguments, p), Dict(req.arguments));
    TermsFacts(cfg, req.arguments, p, dec);
    code := dec.code;
  }

  lemma SomeGateFails(cfg: Config, st: State, req: CP.EvaluateRequest, d: Delegation, p: ToolPolicy, now: int, blocks: bool)
    requires About(cfg, st, req, d, p) && !AllPass(cfg, st, req, d, p, now, blocks, 16)
    ensures exists g, code :: FailsAt(cfg, st, req, d, p, now, blocks, CP.Decide(cfg, st, req, now, blocks), g, code)
  {
    var h :| Rank(h) < 16 && !Passes(cfg, st, req, d, p, now, blocks, h);
    FirstGate(cfg, st, req, d, p, now, blocks, h);
    var g :| FirstFailing(cfg, st, req, d, p, now, blocks, g);
    var code := INTERNAL_ERROR;
    if g == TermsMet { code := UnfitIsDenied(cfg, st, req, d, p, now, blocks); }
    RefusedExactly(cfg, st, req, d, p, now, blocks, g, code);
    VerdictRefuses(g, code);
    assert FailsAt(cfg, st, req, d, p, now, blocks, CP.Decide(cfg, st, req, now, blocks), g, code);
  }

  /** A grant is issued exactly if a request fails no check, and otherwise there is a first check it fails. */
  lemma DecidedExactly(cfg: Config, st: State, req: CP.EvaluateRequest, d: Delegation, p: ToolPolicy, now: int, blocks: bool, v: CP.Verdict)
    requires About(cfg, st, req, d, p) && v == CP.Decide(cfg, st, req, now, blocks)
    ensures if AllPass(cfg, st, req, d, p, now, blocks, 16) then Issues(st, req, d, p, now, v)
            else exists g, code :: FailsAt(cfg, st, req, d, p, now, blocks, v, g, code)
  {
    if AllPass(cfg, st, req, d, p, now, blocks, 16) { AllGates(cfg, st, req, d, p, now, blocks); }
    else { SomeGateFails(cfg, st, req, d, p, now, blocks); }
  }

  /** Among failing checks there is a first. */
  lemma {:induction false} FirstGate(cfg: Config, st: State, req: CP.EvaluateRequest, d: Delegation, p: ToolPolicy, now: int, blocks: bool, g: Gate)
    requires !Passes(cfg, st, req, d, p, now, blocks, g)
    ensures exists h :: FirstFailing(cfg, st, req, d, p, now, blocks, h)
    decreases Rank(g)
  {
    if h :| Rank(h) < Rank(g) && !Passes(cfg, st, req, d, p, now, blocks, h) {
      FirstGate(cfg, st, req, d, p, now, blocks, h);
    } else {
      assert FirstFailing(cfg, st, req, d, p, now, blocks, g);
    }
  }
}
