/** What the gateway checks before it uses up a grant: which checks, in which order, and the code of each refusal. */
module Admission {
  import opened Text
  import opened Json
  import opened Reasons
  import opened StateMachine
  import opened Constraints
  import opened Records
  import opened Store
  import opened Settings
  import opened Answers
  import GW = Gateway

  /** The checks of an execution, in the order they are made. */
  datatype Gate = AgentNamed | VersionNamed | TokenSigned | IssuerKnown | AudienceMeant | NotFromLater | Begun | NotOver
                | RegionMeant | DelegationKnown | NotRevoked | InForce | TaskKnown | TaskLive | SameAgent | SameVersion
                | SameTool | ToolKnown | ArgumentsThere | ConstraintsMet

  function Rank(g: Gate): nat {
    match g
    case AgentNamed => 0 case VersionNamed => 1 case TokenSigned => 2 case IssuerKnown => 3 case AudienceMeant => 4
    case NotFromLater => 5 case Begun => 6 case NotOver => 7 case RegionMeant => 8 case DelegationKnown => 9
    case NotRevoked => 10 case InForce => 11 case TaskKnown => 12 case TaskLive => 13 case SameAgent => 14
    case SameVersion => 15 case SameTool => 16 case ToolKnown => 17 case ArgumentsThere => 18 case ConstraintsMet => 19
  }

  predicate Known(tool: string) { exists a :: tool == ToolName(a) }

  predicate HasItsArguments(tool: string, args: Object) { forall a :: tool == ToolName(a) ==> Supplied(a, args) }

  /** What each check asks of a token with claims `c`; times are in whole seconds. */
  predicate Passes(cfg: Config, st: State, req: GW.ExecuteRequest, c: Claims, now: int, g: Gate) {
    var d := Get(st.delegations, c.delegationId);
    var t := Get(st.tasks, c.taskId);
    match g
    case AgentNamed => req.callerAgent != ""
    case VersionNamed => req.callerVersion != ""
    case TokenSigned => req.verified == Some(c)
    case IssuerKnown => c.iss == cfg.issuer
    case AudienceMeant => c.aud == cfg.audience
    case NotFromLater => c.iat <= now / SECOND + cfg.clockSkew
    case Begun => c.nbf <= now / SECOND + cfg.clockSkew
    case NotOver => now / SECOND < c.exp
    case RegionMeant => c.region == cfg.region
    case DelegationKnown => d.Some?
    case NotRevoked => d.Some? ==> d.value.status != Revoked
    case InForce => d.Some? ==> d.value.status == Active && now < d.value.expiresAt
    case TaskKnown => t.Some?
    case TaskLive => t.Some? ==> t.value.state !in {Completed, Failed, Cancelled, Quarantined}
    case SameAgent => req.callerAgent == c.agentId
    case SameVersion => req.callerVersion == c.agentVersion
    case SameTool => req.tool == c.tool
    case ToolKnown => Known(req.tool)
    case ArgumentsThere => HasItsArguments(req.tool, req.arguments)
    case ConstraintsMet => Evaluate(cfg.rx, c.argConstraints, Dict(req.arguments)) == Allowed
  }

  /** The code of the refusal when a check fails; constraints have their own. */
  function CodeOf(cfg: Config, req: GW.ExecuteRequest, c: Claims, g: Gate): Reason {
    match g
    case AgentNamed => MISSING_AGENT_ID
    case VersionNamed => MISSING_AGENT_VERSION
    case TokenSigned => GRANT_INVALID_SIGNATURE
    case IssuerKnown => GRANT_INVALID_ISSUER
    case AudienceMeant => GRANT_INVALID_AUDIENCE
    case NotFromLater => GRANT_NOT_YET_VALID
    case Begun => GRANT_NOT_YET_VALID
    case NotOver => GRANT_EXPIRED
    case RegionMeant => GRANT_REGION_MISMATCH
    case DelegationKnown => DELEGATION_NOT_FOUND
    case NotRevoked => DELEGATION_REVOKED
    case InForce => DELEGATION_EXPIRED
    case TaskKnown => TASK_NOT_BOUND_TO_DELEGATION
    case TaskLive => TASK_NOT_LIVE
    case SameAgent => GRANT_AGENT_MISMATCH
    case SameVersion => GRANT_AGENT_MISMATCH
    case SameTool => GRANT_TOOL_MISMATCH
    case ToolKnown => UNKNOWN_TOOL
    case ArgumentsThere => ARGUMENT_PATH_UNKNOWN
    case ConstraintsMet => ConstraintCode(Evaluate(cfg.rx, c.argConstraints, Dict(req.arguments)))
  }

  function ConstraintCode(d: Decision): Reason { if d.Denied? then d.code else INTERNAL_ERROR }

  ghost predicate AllPass(cfg: Config, st: State, req: GW.ExecuteRequest, c: Claims, now: int, below: nat) {
    forall g :: Rank(g) < below ==> Passes(cfg, st, req, c, now, g)
  }

  lemma ToolGates(req: GW.ExecuteRequest)
    ensures GW.AdapterFor(req.tool).Some? <==> Known(req.tool)
    ensures Known(req.tool) ==>
      (GW.HasArgs(GW.RequiredArgs(GW.AdapterFor(req.tool).value), req.arguments) <==> HasItsArguments(req.tool, req.arguments))
  {
    forall a ensures GW.AdapterFor(req.tool) == Some(a) <==> req.tool == ToolName(a) { NamedExactly(req.tool, a); }
    if GW.AdapterFor(req.tool).Some? { SuppliedExactly(GW.AdapterFor(req.tool).value, req.arguments); }
  }

  lemma GatesBefore(cfg: Config, st: State, req: GW.ExecuteRequest, c: Claims, now: int, n: nat)
    requires AllPass(cfg, st, req, c, now, n)
    ensures n > 2 ==> req.callerAgent != "" && req.callerVersion != "" && req.verified == Some(c)
    ensures n > 8 ==> GW.CheckClaims(cfg, c, now).None?
    ensures n > 13 ==> GW.CheckLive(st, c, now).None?
  {
    assert Rank(AgentNamed) == 0 && Rank(VersionNamed) == 1 && Rank(TokenSigned) == 2 && Rank(IssuerKnown) == 3;
    assert Rank(AudienceMeant) == 4 && Rank(NotFromLater) == 5 && Rank(Begun) == 6 && Rank(NotOver) == 7 && Rank(RegionMeant) == 8;
    assert Rank(DelegationKnown) == 9 && Rank(NotRevoked) == 10 && Rank(InForce) == 11 && Rank(TaskKnown) == 12 && Rank(TaskLive) == 13;
  }

  lemma FirstHeaderGate(cfg: Config, st: State, req: GW.ExecuteRequest, c: Claims, now: int, g: Gate)
    requires Rank(g) <= 2 && !Passes(cfg, st, req, c, now, g) && AllPass(cfg, st, req, c, now, Rank(g))
    requires req.verified.Some? ==> req.verified.value == c
    ensures GW.Admit(cfg, st, req, now) == Some(CodeOf(cfg, req, c, g))
  {
    assert Rank(AgentNamed) == 0 && Rank(VersionNamed) == 1;
  }

  lemma FirstClaimGate(cfg: Config, st: State, req: GW.ExecuteRequest, c: Claims, now: int, g: Gate)
    requires 3 <= Rank(g) <= 8 && !Passes(cfg, st, req, c, now, g) && AllPass(cfg, st, req, c, now, Rank(g))
    ensures GW.CheckClaims(cfg, c, now) == Some(CodeOf(cfg, req, c, g))
  {
    assert Rank(IssuerKnown) == 3 && Rank(AudienceMeant) == 4 && Rank(NotFromLater) == 5 && Rank(Begun) == 6 && Rank(NotOver) == 7;
  }

  lemma FirstLiveGate(cfg: Config, st: State, req: GW.ExecuteRequest, c: Claims, now: int, g: Gate)
    requires 9 <= Rank(g) <= 13 && !Passes(cfg, st, req, c, now, g) && AllPass(cfg, st, req, c, now, Rank(g))
    ensures GW.CheckLive(st, c, now) == Some(CodeOf(cfg, req, c, g))
  {
    assert Rank(DelegationKnown) == 9 && Rank(NotRevoked) == 10 && Rank(InForce) == 11 && Rank(TaskKnown) == 12;
  }

  lemma FirstCallGate(cfg: Config, st: State, req: GW.ExecuteRequest, c: Claims, now: int, g: Gate)
    requires 14 <= Rank(g) && !Passes(cfg, st, req, c, now, g) && AllPass(cfg, st, req, c, now, Rank(g))
    ensures GW.CheckCall(cfg, c, req) == Some(CodeOf(cfg, req, c, g))
  {
    ToolGates(req);
    assert Rank(SameAgent) == 14 && Rank(SameVersion) == 15 && Rank(SameTool) == 16 && Rank(ToolKnown) == 17 && Rank(ArgumentsThere) == 18;
  }

  /** A call is refused under the code of the first check it fails, and admitted exactly if it fails none. */
  lemma AdmittedExactly(cfg: Config, st: State, req: GW.ExecuteRequest, c: Claims, now: int)
    requires req.verified.Some? ==> req.verified.value == c
    ensures GW.Admit(cfg, st, req, now).None? <==> AllPass(cfg, st, req, c, now, 20)
    ensures forall g :: !Passes(cfg, st, req, c, now, g) && AllPass(cfg, st, req, c, now, Rank(g)) ==>
      GW.Admit(cfg, st, req, now) == Some(CodeOf(cfg, req, c, g))
  {
    forall g | !Passes(cfg, st, req, c, now, g) && AllPass(cfg, st, req, c, now, Rank(g))
      ensures GW.Admit(cfg, st, req, now) == Some(CodeOf(cfg, req, c, g))
    {
      GatesBefore(cfg, st, req, c, now, Rank(g));
      if Rank(g) <= 2 { FirstHeaderGate(cfg, st, req, c, now, g); }
      else if Rank(g) <= 8 { FirstClaimGate(cfg, st, req, c, now, g); }
      else if Rank(g) <= 13 { FirstLiveGate(cfg, st, req, c, now, g); }
      else { FirstCallGate(cfg, st, req, c, now, g); }
    }
    if AllPass(cfg, st, req, c, now, 20) {
      GatesBefore(cfg, st, req, c, now, 20);
      LastGates(cfg, st, req, c, now);
      CallAdmitted(cfg, req, c);
    } else {
      var g :| Rank(g) < 20 && !Passes(cfg, st, req, c, now, g);
      FirstGate(cfg, st, req, c, now, g);
    }
  }

  predicate CallFits(cfg: Config, req: GW.ExecuteRequest, c: Claims) {
    && req.callerAgent == c.agentId && req.callerVersion == c.agentVersion && req.tool == c.tool
    && Known(req.tool) && HasItsArguments(req.tool, req.arguments)
    && Evaluate(cfg.rx, c.argConstraints, Dict(req.arguments)) == Allowed
  }

  lemma CallAdmitted(cfg: Config, req: GW.ExecuteRequest, c: Claims)
    requires CallFits(cfg, req, c)
    ensures GW.CheckCall(cfg, c, req).None?
  {
    ToolGates(req);
  }

  lemma LastGates(cfg: Config, st: State, req: GW.ExecuteRequest, c: Claims, now: int)
    requires AllPass(cfg, st, req, c, now, 20)
    ensures CallFits(cfg, req, c)
  {
    CallerGates(cfg, st, req, c, now);
    assert Rank(ToolKnown) == 17 && Rank(ArgumentsThere) == 18 && Rank(ConstraintsMet) == 19;
  }

  lemma CallerGates(cfg: Config, st: State, req: GW.ExecuteRequest, c: Claims, now: int)
    requires AllPass(cfg, st, req, c, now, 20)
    ensures req.callerAgent == c.agentId && req.callerVersion == c.agentVersion && req.tool == c.tool
  {
    assert Rank(SameAgent) == 14 && Rank(SameVersion) == 15 && Rank(SameTool) == 16;
  }

  /** Among failing checks there is a first. */
  lemma {:induction false} FirstGate(cfg: Config, st: State, req: GW.ExecuteRequest, c: Claims, now: int, g: Gate)
    requires !Passes(cfg, st, req, c, now, g)
    ensures exists h :: !Passes(cfg, st, req, c, now, h) && AllPass(cfg, st, req, c, now, Rank(h))
    decreases Rank(g)
  {
    if h :| Rank(h) < Rank(g) && !Passes(cfg, st, req, c, now, h) { FirstGate(cfg, st, req, c, now, h); }
  }
}
