/** The interleaved system for grants: one step per store call, any number of issuing and executing requests
    in flight, crashes between calls. A step whose guard fails does nothing. */
module GrantRace {
  import opened Text
  import opened Json
  import opened AuditChain
  import opened Records
  import opened Store
  import opened Settings
  import CP = ControlPlane
  import GW = Gateway

  // ---- requests in flight ----

  /** Where an issuing request stands: signed, grant stored, approval bound, issuance recorded, token returned;
      or the record could not be appended, and the grant has been withdrawn. */
  datatype IssuerAt = Minted | Stored | ApprovalBound | Recorded | Returned | RecordLost | Withdrawn | IssuerDead

  datatype Issuer = Issuer(claims: Claims, approval: Option<Approval>, at: IssuerAt)

  /** Where an executing request stands: delegation read, task read, grant consumed, adapter called. */
  datatype ExecutorAt = Presented | DelegationRead | TaskRead | Holding | Called | Answered | Refused | ExecutorDead

  datatype Executor = Executor(request: GW.ExecuteRequest, at: ExecutorAt)

  /** One binding of an approval to a grant, and whether the stored approval was unbound when it was written. */
  datatype Binding = Binding(approvalId: string, grantId: string, wasUnbound: bool)

  /** `winner` logs which executor consumed a grant, `calls` the grants in the order the adapter ran, and `bindings`
      the bindings in the order they were written. */
  datatype World = World(
    store: State, issuers: seq<Issuer>, executors: seq<Executor>,
    winner: map<string, nat>, calls: seq<string>, bindings: seq<Binding>)

  datatype Step =
    | Mint(claims: Claims, approval: Option<Approval>)
    | PutGrant(p: nat, now: int)
    | BindApproval(p: nat)
    | AppendRecord(p: nat, event: AuditEvent)
    | LoseRecord(p: nat, written: Option<AuditEvent>)
    | Withdraw(p: nat, now: int)
    | Return(p: nat)
    | CrashIssuer(p: nat)
    | Present(request: GW.ExecuteRequest)
    | ReadDelegation(p: nat, now: int)
    | ReadTask(p: nat)
    | ConsumeGrant(p: nat, now: int)
    | CallAdapter(p: nat)
    | Answer(p: nat, written: Option<AuditEvent>)
    | CrashExecutor(p: nat)
    | Environment(other: State)

  /** The control plane has signed these claims, whether or not it has returned the token. */
  ghost predicate HasMinted(w: World, c: Claims) { exists i :: 0 <= i < |w.issuers| && w.issuers[i].claims == c }

  ghost predicate HasReturned(w: World, c: Claims) {
    exists i :: 0 <= i < |w.issuers| && w.issuers[i].at == Returned && w.issuers[i].claims == c
  }

  predicate AtIssuer(w: World, p: nat, at: set<IssuerAt>) { p < |w.issuers| && w.issuers[p].at in at }
  predicate AtExecutor(w: World, p: nat, at: set<ExecutorAt>) {
    p < |w.executors| && w.executors[p].at in at && w.executors[p].request.verified.Some?
  }

  function MoveIssuer(w: World, p: nat, at: IssuerAt): World
    requires p < |w.issuers|
  {
    w.(issuers := w.issuers[p := w.issuers[p].(at := at)])
  }

  function MoveExecutor(w: World, p: nat, at: ExecutorAt): World
    requires p < |w.executors|
  {
    w.(executors := w.executors[p := w.executors[p].(at := at)])
  }

  function WriteGrant(w: World, g: GrantRecord): World {
    w.(store := w.store.(grants := w.store.grants[g.grantId := g]))
  }

  function WriteEvent(w: World, e: Option<AuditEvent>): World {
    if e.Some? then w.(store := w.store.(audit := AppendEvent(w.store.audit, e.value))) else w
  }

  /** Tokens are signed for single use under fresh identifiers. */
  ghost predicate Mintable(w: World, c: Claims) {
    c.singleUse && c.jti !in w.store.grants && forall i :: 0 <= i < |w.issuers| ==> w.issuers[i].claims.jti != c.jti
  }

  predicate Unbound(st: State, id: string) { id in st.approvals ==> st.approvals[id].usedByGrantId.None? }

  /** What other requests may do to the store: anything to delegations, tasks, checkpoints, receipts and the audit
      trail; approvals are only added, unbound. */
  ghost predicate Surrounds(st: State, other: State) {
    && (forall id :: id in st.approvals ==> id in other.approvals && other.approvals[id] == st.approvals[id])
    && (forall id :: id in other.approvals && id !in st.approvals ==> Unbound(other, id))
  }

  ghost function NextIssuer(cfg: Config, w: World, s: Step): World {
    match s
    case Mint(c, a) => if Mintable(w, c) then w.(issuers := w.issuers + [Issuer(c, a, Minted)]) else w
    case PutGrant(p, now) =>
      if AtIssuer(w, p, {Minted}) then WriteGrant(MoveIssuer(w, p, Stored), CP.MakeRecord(cfg, w.issuers[p].claims, Issued, now)) else w
    case BindApproval(p) =>
      if !AtIssuer(w, p, {Stored}) then w
      else if w.issuers[p].approval.None? then MoveIssuer(w, p, ApprovalBound)
      else
        var g, a := w.issuers[p].claims.jti, w.issuers[p].approval.value;
        MoveIssuer(w, p, ApprovalBound).(
          store := PutApprovalIn(w.store, a.(usedByGrantId := Some(g))),
          bindings := w.bindings + [Binding(a.approvalId, g, Unbound(w.store, a.approvalId))])
    case AppendRecord(p, e) => if AtIssuer(w, p, {ApprovalBound}) then WriteEvent(MoveIssuer(w, p, Recorded), Some(e)) else w
    case LoseRecord(p, e) => if AtIssuer(w, p, {ApprovalBound}) then WriteEvent(MoveIssuer(w, p, RecordLost), e) else w
    case Withdraw(p, now) =>
      if AtIssuer(w, p, {RecordLost}) then WriteGrant(MoveIssuer(w, p, Withdrawn), CP.MakeRecord(cfg, w.issuers[p].claims, Expired, now)) else w
    case Return(p) => if AtIssuer(w, p, {Recorded}) then MoveIssuer(w, p, Returned) else w
    case CrashIssuer(p) => if p < |w.issuers| && w.issuers[p].at !in {Returned, Withdrawn} then MoveIssuer(w, p, IssuerDead) else w
    case Environment(other) => if Surrounds(w.store, other) then w.(store := other.(grants := w.store.grants)) else w
    case _ => w
  }

  ghost function NextExecutor(cfg: Config, w: World, s: Step): World {
    match s
    case Present(req) =>
      if req.verified.Some? ==> HasMinted(w, req.verified.value) then w.(executors := w.executors + [Executor(req, Presented)]) else w
    case ReadDelegation(p, now) =>
      if !AtExecutor(w, p, {Presented}) then w
      else if DelegationRefuses(cfg, w, p, now) then MoveExecutor(w, p, Refused) else MoveExecutor(w, p, DelegationRead)
    case ReadTask(p) =>
      if !AtExecutor(w, p, {DelegationRead}) then w
      else if TaskRefuses(cfg, w, p) then MoveExecutor(w, p, Refused) else MoveExecutor(w, p, TaskRead)
    case ConsumeGrant(p, now) => if AtExecutor(w, p, {TaskRead}) then NextConsume(w, p, now) else w
    case CallAdapter(p) =>
      if AtExecutor(w, p, {Holding}) then MoveExecutor(w, p, Called).(calls := w.calls + [Token(w, p).jti]) else w
    case Answer(p, e) => if AtExecutor(w, p, {Called}) then WriteEvent(MoveExecutor(w, p, Answered), e) else w
    case CrashExecutor(p) => if p < |w.executors| then MoveExecutor(w, p, ExecutorDead) else w
    case _ => w
  }

  function Token(w: World, p: nat): Claims
    requires p < |w.executors| && w.executors[p].request.verified.Some?
  {
    w.executors[p].request.verified.value
  }

  /** The claims are checked and the delegation read. */
  predicate DelegationRefuses(cfg: Config, w: World, p: nat, now: int)
    requires p < |w.executors| && w.executors[p].request.verified.Some?
  {
    var c := Token(w, p);
    || GW.CheckClaims(cfg, c, now).Some? || c.delegationId !in w.store.delegations
    || w.store.delegations[c.delegationId].status != Active || w.store.delegations[c.delegationId].expiresAt <= now
  }

  /** The task is read, and the call compared with the grant. */
  predicate TaskRefuses(cfg: Config, w: World, p: nat)
    requires p < |w.executors| && w.executors[p].request.verified.Some?
  {
    var c := Token(w, p);
    || c.taskId !in w.store.tasks || !w.store.tasks[c.taskId].state.Live()
    || GW.CheckCall(cfg, c, w.executors[p].request).Some?
  }

  function NextConsume(w: World, p: nat, now: int): World
    requires p < |w.executors| && w.executors[p].request.verified.Some?
  {
    var g := Token(w, p).jti;
    var (grants, r) := Consume(w.store.grants, g, now);
    var moved := MoveExecutor(w, p, if r == Ok then Holding else Refused).(store := w.store.(grants := grants));
    if r == Ok then moved.(winner := w.winner[g := p]) else moved
  }

  ghost function Next(cfg: Config, w: World, s: Step): World { NextExecutor(cfg, NextIssuer(cfg, w, s), s) }

  /** No grants yet, and no approval bound; everything else in the store is arbitrary. */
  ghost predicate Start(w: World) {
    && w.store.grants == map[] && (forall id :: Unbound(w.store, id))
    && w.issuers == [] && w.executors == [] && w.winner == map[] && w.calls == [] && w.bindings == []
  }

  ghost function Run(cfg: Config, w: World, steps: seq<Step>): World
    decreases |steps|
  {
    if steps == [] then w else Next(cfg, Run(cfg, w, steps[..|steps| - 1]), steps[|steps| - 1])
  }

  // ---- the invariant ----

  predicate InStatus(w: World, g: string, status: GrantStatus) {
    g in w.store.grants && w.store.grants[g].status == status
  }

  /** Unless its issuance was withdrawn, a grant is consumed exactly if some executor has won it. */
  ghost predicate IssuerOk(w: World, i: nat) {
    i < |w.issuers| ==>
      var s, g := w.issuers[i], w.issuers[i].claims.jti;
      match s.at
      case Minted => g !in w.store.grants
      case Withdrawn => InStatus(w, g, Expired)
      case IssuerDead => Fair(w, g)
      case _ => g in w.store.grants && Fair(w, g)
  }

  predicate Fair(w: World, g: string) { InStatus(w, g, Consumed) <==> g in w.winner }

  ghost predicate IssuersApart(w: World, i: nat, j: nat) {
    i < j < |w.issuers| ==> w.issuers[i].claims.jti != w.issuers[j].claims.jti
  }

  predicate Presents(w: World, p: nat, g: string) {
    p < |w.executors| && w.executors[p].request.verified.Some? && Token(w, p).jti == g
  }

  /** An executor holding a grant consumed it and has not called the adapter yet. */
  ghost predicate ExecutorOk(w: World, p: nat) {
    p < |w.executors| && w.executors[p].request.verified.Some? && w.executors[p].at == Holding ==> (
      var g := Token(w, p).jti;
      g in w.winner && w.winner[g] == p && g !in w.calls)
  }

  ghost predicate GrantOk(w: World, g: string) {
    && (InStatus(w, g, Consumed) ==> g in w.winner)
    && (g in w.winner ==> g in w.store.grants && !InStatus(w, g, Issued) && Presents(w, w.winner[g], g))
    && (g in w.calls ==> g in w.winner)
    && (g in w.store.grants ==> exists i :: 0 <= i < |w.issuers| && w.issuers[i].claims.jti == g)
  }

  ghost predicate CalledOnce(w: World) { forall i, j :: 0 <= i < j < |w.calls| ==> w.calls[i] != w.calls[j] }

  ghost predicate Inv(w: World) {
    && (forall i: nat :: IssuerOk(w, i)) && (forall i: nat, j: nat :: IssuersApart(w, i, j))
    && (forall p: nat :: ExecutorOk(w, p)) && (forall g :: GrantOk(w, g)) && CalledOnce(w)
  }

  lemma StartInv(w: World)
    requires Start(w)
    ensures Inv(w)
  {}

  // ---- issuing steps ----

  /** An issuing step touches at most its own grant. */
  lemma IssuerFrame(w: World, w': World, p: nat, at: IssuerAt)
    requires Inv(w) && p < |w.issuers| && w.issuers[p].at !in {Returned, Withdrawn}
    requires w'.issuers == w.issuers[p := w.issuers[p].(at := at)] && w'.executors == w.executors
    requires w'.winner == w.winner && w'.calls == w.calls
    requires forall h :: h != w.issuers[p].claims.jti ==> Get(w'.store.grants, h) == Get(w.store.grants, h)
    requires IssuerOk(w', p) && GrantOk(w', w.issuers[p].claims.jti)
    ensures Inv(w')
  {
    var g := w.issuers[p].claims.jti;
    forall i: nat ensures IssuerOk(w', i) {
      assert IssuerOk(w, i);
      if i < |w.issuers| && i != p { OtherIssuer(w, w', p, i); }
    }
    forall i: nat, j: nat ensures IssuersApart(w', i, j) { assert IssuersApart(w, i, j); }
    forall q: nat ensures ExecutorOk(w', q) { assert ExecutorOk(w, q); }
    forall h ensures GrantOk(w', h) { if h != g { OtherGrant(w, w', p, at, h); } }
  }

  lemma OtherIssuer(w: World, w': World, p: nat, i: nat)
    requires IssuersApart(w, i, p) && IssuersApart(w, p, i) && IssuerOk(w, i) && i < |w.issuers| && p < |w.issuers| && i != p
    requires forall h :: h != w.issuers[p].claims.jti ==> Get(w'.store.grants, h) == Get(w.store.grants, h)
    requires i < |w'.issuers| && w'.issuers[i] == w.issuers[i] && w'.winner == w.winner
    ensures IssuerOk(w', i)
  {
    var h := w.issuers[i].claims.jti;
    assert Get(w'.store.grants, h) == Get(w.store.grants, h);
  }

  lemma OtherGrant(w: World, w': World, p: nat, at: IssuerAt, h: string)
    requires GrantOk(w, h) && p < |w.issuers| && Get(w'.store.grants, h) == Get(w.store.grants, h)
    requires w'.issuers == w.issuers[p := w.issuers[p].(at := at)] && w'.executors == w.executors
    requires w'.winner == w.winner && w'.calls == w.calls
    ensures GrantOk(w', h)
  {
    if h in w.store.grants {
      var i :| 0 <= i < |w.issuers| && w.issuers[i].claims.jti == h;
      assert w'.issuers[i].claims.jti == h;
    }
  }

  lemma MintKeepsInv(w: World, c: Claims, a: Option<Approval>)
    requires Inv(w) && Mintable(w, c)
    ensures Inv(w.(issuers := w.issuers + [Issuer(c, a, Minted)]))
  {
    var w' := w.(issuers := w.issuers + [Issuer(c, a, Minted)]);
    forall i: nat ensures IssuerOk(w', i) { assert IssuerOk(w, i); }
    forall i: nat, j: nat ensures IssuersApart(w', i, j) { assert IssuersApart(w, i, j); }
    forall q: nat ensures ExecutorOk(w', q) { assert ExecutorOk(w, q); }
    forall h ensures GrantOk(w', h) {
      assert GrantOk(w, h);
      if h in w.store.grants {
        var i :| 0 <= i < |w.issuers| && w.issuers[i].claims.jti == h;
        assert w'.issuers[i].claims.jti == h;
      }
    }
  }

  /** Storing a grant as issued, or withdrawing it as expired. */
  lemma WriteKeepsInv(cfg: Config, w: World, p: nat, at: IssuerAt, status: GrantStatus, now: int)
    requires Inv(w) && p < |w.issuers|
    requires (w.issuers[p].at == Minted && at == Stored && status == Issued)
      || (w.issuers[p].at == RecordLost && at == Withdrawn && status == Expired)
    ensures Inv(WriteGrant(MoveIssuer(w, p, at), CP.MakeRecord(cfg, w.issuers[p].claims, status, now)))
  {
    var w', g := WriteGrant(MoveIssuer(w, p, at), CP.MakeRecord(cfg, w.issuers[p].claims, status, now)), w.issuers[p].claims.jti;
    assert IssuerOk(w, p) && GrantOk(w, g);
    assert w'.issuers[p].claims.jti == g;
    IssuerFrame(w, w', p, at);
  }

  predicate InStore(at: IssuerAt) { at in {Stored, ApprovalBound, Recorded, RecordLost} }

  /** A step of an issuer that writes no grant. */
  lemma MoveKeepsInv(w: World, w': World, p: nat, at: IssuerAt)
    requires Inv(w) && p < |w.issuers| && w.issuers[p].at !in {Returned, Withdrawn}
    requires w' == MoveIssuer(w, p, at).(store := w'.store, bindings := w'.bindings) && w'.store.grants == w.store.grants
    requires at == IssuerDead || (InStore(w.issuers[p].at) && (InStore(at) || at == Returned))
    ensures Inv(w')
  {
    var g := w.issuers[p].claims.jti;
    assert IssuerOk(w, p) && GrantOk(w, g);
    OtherGrant(w, w', p, at, g);
    IssuerFrame(w, w', p, at);
  }

  /** Other requests do not touch the grants. */
  lemma SurroundingsKeepInv(w: World, w': World)
    requires Inv(w) && w' == w.(store := w'.store) && w'.store.grants == w.store.grants
    ensures Inv(w')
  {
    forall i: nat ensures IssuerOk(w', i) { assert IssuerOk(w, i); }
    forall i: nat, j: nat ensures IssuersApart(w', i, j) { assert IssuersApart(w, i, j); }
    forall q: nat ensures ExecutorOk(w', q) { assert ExecutorOk(w, q); }
    forall h ensures GrantOk(w', h) { assert GrantOk(w, h); }
  }

  lemma NextIssuerKeepsInv(cfg: Config, w: World, s: Step)
    requires Inv(w)
    ensures Inv(NextIssuer(cfg, w, s))
  {
    var w' := NextIssuer(cfg, w, s);
    if w' != w {
      if s.Mint? {
        MintKeepsInv(w, s.claims, s.approval);
      } else if s.PutGrant? {
        WriteKeepsInv(cfg, w, s.p, Stored, Issued, s.now);
      } else if s.Withdraw? {
        WriteKeepsInv(cfg, w, s.p, Withdrawn, Expired, s.now);
      } else if s.Environment? {
        SurroundingsKeepInv(w, w');
      } else {
        MoveKeepsInv(w, w', s.p, w'.issuers[s.p].at);
      }
    }
  }

  // ---- executing steps ----

  /** A step of an executor that consumes nothing and calls nothing. */
  lemma ExecutorFrame(w: World, w': World, p: nat, at: ExecutorAt)
    requires Inv(w) && p < |w.executors| && at != Holding
    requires w' == w.(store := w'.store, executors := w.executors[p := w.executors[p].(at := at)])
    requires w'.store.grants == w.store.grants
    ensures Inv(w')
  {
    forall i: nat ensures IssuerOk(w', i) { assert IssuerOk(w, i); }
    forall i: nat, j: nat ensures IssuersApart(w', i, j) { assert IssuersApart(w, i, j); }
    forall q: nat ensures ExecutorOk(w', q) { assert ExecutorOk(w, q); }
    forall h ensures GrantOk(w', h) { assert GrantOk(w, h); }
  }

  lemma PresentKeepsInv(w: World, req: GW.ExecuteRequest)
    requires Inv(w)
    ensures Inv(w.(executors := w.executors + [Executor(req, Presented)]))
  {
    var w' := w.(executors := w.executors + [Executor(req, Presented)]);
    forall i: nat ensures IssuerOk(w', i) { assert IssuerOk(w, i); }
    forall i: nat, j: nat ensures IssuersApart(w', i, j) { assert IssuersApart(w, i, j); }
    forall q: nat ensures ExecutorOk(w', q) { assert ExecutorOk(w, q); }
    forall h ensures GrantOk(w', h) { assert GrantOk(w, h); }
  }

  lemma NextConsumeMeaning(w: World, p: nat, now: int)
    requires AtExecutor(w, p, {TaskRead})
    ensures var w', g := NextConsume(w, p, now), Token(w, p).jti;
      var (grants, r) := Consume(w.store.grants, g, now);
      w'.store.grants == grants && w'.winner == if r.Ok? then w.winner[g := p] else w.winner
  {}

  lemma ConsumeAt(w: World, p: nat, now: int, h: string)
    requires AtExecutor(w, p, {TaskRead})
    ensures var w' := NextConsume(w, p, now);
      && (h in w'.store.grants <==> h in w.store.grants)
      && (Fair(w, h) ==> Fair(w', h)) && (InStatus(w, h, Expired) ==> InStatus(w', h, Expired))
  {
    ConsumeStatus(w.store.grants, Token(w, p).jti, now, h);
    NextConsumeMeaning(w, p, now);
  }

  lemma ConsumeKeepsIssuer(w: World, p: nat, now: int, i: nat)
    requires IssuerOk(w, i) && AtExecutor(w, p, {TaskRead})
    ensures IssuerOk(NextConsume(w, p, now), i)
  {
    if i < |w.issuers| { ConsumeAt(w, p, now, w.issuers[i].claims.jti); }
  }

  lemma ConsumeKeepsGrants(w: World, p: nat, now: int)
    requires Inv(w) && AtExecutor(w, p, {TaskRead})
    ensures forall g :: GrantOk(NextConsume(w, p, now), g)
  {
    forall h ensures GrantOk(NextConsume(w, p, now), h) { assert GrantOk(w, h); }
  }

  lemma ConsumeKeepsInv(w: World, p: nat, now: int)
    requires Inv(w) && AtExecutor(w, p, {TaskRead})
    ensures Inv(NextConsume(w, p, now))
  {
    var w' := NextConsume(w, p, now);
    forall i: nat ensures IssuerOk(w', i) {
      assert IssuerOk(w, i);
      ConsumeKeepsIssuer(w, p, now, i);
    }
    ConsumeKeepsGrants(w, p, now);
    assert GrantOk(w, Token(w, p).jti);
    forall i: nat, j: nat ensures IssuersApart(w', i, j) { assert IssuersApart(w, i, j); }
    forall q: nat ensures ExecutorOk(w', q) { assert ExecutorOk(w, q); }
  }

  lemma CallKeepsInv(w: World, p: nat)
    requires Inv(w) && AtExecutor(w, p, {Holding})
    ensures Inv(MoveExecutor(w, p, Called).(calls := w.calls + [Token(w, p).jti]))
  {
    var w' := MoveExecutor(w, p, Called).(calls := w.calls + [Token(w, p).jti]);
    assert ExecutorOk(w, p);
    forall i: nat ensures IssuerOk(w', i) { assert IssuerOk(w, i); }
    forall i: nat, j: nat ensures IssuersApart(w', i, j) { assert IssuersApart(w, i, j); }
    forall q: nat ensures ExecutorOk(w', q) { assert ExecutorOk(w, q); }
    forall h ensures GrantOk(w', h) { assert GrantOk(w, h); }
  }

  lemma NextExecutorKeepsInv(cfg: Config, w: World, s: Step)
    requires Inv(w)
    ensures Inv(NextExecutor(cfg, w, s))
  {
    var w' := NextExecutor(cfg, w, s);
    if w' != w {
      if s.Present? {
        PresentKeepsInv(w, s.request);
      } else if s.ConsumeGrant? {
        ConsumeKeepsInv(w, s.p, s.now);
      } else if s.CallAdapter? {
        CallKeepsInv(w, s.p);
      } else {
        ExecutorFrame(w, w', s.p, w'.executors[s.p].at);
      }
    }
  }

  lemma NextKeepsInv(cfg: Config, w: World, s: Step)
    requires Inv(w)
    ensures Inv(Next(cfg, w, s))
  {
    NextIssuerKeepsInv(cfg, w, s);
    NextExecutorKeepsInv(cfg, NextIssuer(cfg, w, s), s);
  }

  lemma {:induction false} RunInv(cfg: Config, w: World, steps: seq<Step>)
    requires Inv(w)
    ensures Inv(Run(cfg, w, steps))
    decreases |steps|
  {
    if steps != [] {
      RunInv(cfg, w, steps[..|steps| - 1]);
      NextKeepsInv(cfg, Run(cfg, w, steps[..|steps| - 1]), steps[|steps| - 1]);
    }
  }

  /** Reachable by some interleaving from a store without grants. */
  ghost predicate Reachable(cfg: Config, w: World) { exists w0, steps :: Start(w0) && w == Run(cfg, w0, steps) }

  lemma ReachableInv(cfg: Config, w: World)
    requires Reachable(cfg, w)
    ensures Inv(w)
  {
    var w0, steps :| Start(w0) && w == Run(cfg, w0, steps);
    StartInv(w0);
    RunInv(cfg, w0, steps);
  }

  // ---- at most once ----

  ghost predicate IsWithdrawn(w: World, g: string) {
    exists i :: 0 <= i < |w.issuers| && w.issuers[i].at == Withdrawn && w.issuers[i].claims.jti == g
  }

  /** No token is presented that the control plane has not returned. */
  ghost predicate OnlyReturned(w: World) {
    forall p: nat :: p < |w.executors| && w.executors[p].request.verified.Some? ==> HasReturned(w, Token(w, p))
  }

  /** A won grant is consumed, unless it was withdrawn after it leaked. */
  lemma WonIsConsumed(w: World, g: string)
    requires Inv(w) && g in w.winner
    ensures InStatus(w, g, Consumed) || IsWithdrawn(w, g)
    ensures OnlyReturned(w) ==> InStatus(w, g, Consumed)
  {
    assert GrantOk(w, g);
    var i :| 0 <= i < |w.issuers| && w.issuers[i].claims.jti == g;
    assert IssuerOk(w, i);
    if OnlyReturned(w) { PresentedIsReturned(w, w.winner[g], g, i); }
  }

  lemma PresentedIsReturned(w: World, p: nat, g: string, i: nat)
    requires Inv(w) && OnlyReturned(w) && Presents(w, p, g) && i < |w.issuers| && w.issuers[i].claims.jti == g
    ensures w.issuers[i].at == Returned
  {
    assert HasReturned(w, Token(w, p));
    var k :| 0 <= k < |w.issuers| && w.issuers[k].at == Returned && w.issuers[k].claims == Token(w, p);
    assert IssuersApart(w, i, k) && IssuersApart(w, k, i);
  }

  /** Over any interleaving, and whoever presents signed tokens, the adapter runs at most once for a grant; the grant
      is consumed then, unless its token had leaked before the issuance was withdrawn. */
  lemma AtMostOnce(cfg: Config, w: World)
    requires Reachable(cfg, w)
    ensures CalledOnce(w)
    ensures forall i :: 0 <= i < |w.calls| ==> InStatus(w, w.calls[i], Consumed) || IsWithdrawn(w, w.calls[i])
    ensures OnlyReturned(w) ==> forall i :: 0 <= i < |w.calls| ==> InStatus(w, w.calls[i], Consumed)
  {
    ReachableInv(cfg, w);
    forall i | 0 <= i < |w.calls|
      ensures InStatus(w, w.calls[i], Consumed) || IsWithdrawn(w, w.calls[i])
      ensures OnlyReturned(w) ==> InStatus(w, w.calls[i], Consumed)
    {
      assert GrantOk(w, w.calls[i]);
      WonIsConsumed(w, w.calls[i]);
    }
  }

  // ---- statuses ----

  lemma ExecutorStatusStep(cfg: Config, w: World, s: Step, g: string)
    requires g in w.store.grants && w.store.grants[g].status != Issued
    ensures InStatus(NextExecutor(cfg, w, s), g, w.store.grants[g].status)
  {
    if s.ConsumeGrant? {
      if AtExecutor(w, s.p, {TaskRead}) { ConsumeStatusStep(w, s.p, s.now, g); }
    } else {
      OthersLeaveGrants(cfg, w, s);
    }
  }

  lemma ConsumeStatusStep(w: World, p: nat, now: int, g: string)
    requires AtExecutor(w, p, {TaskRead}) && g in w.store.grants && w.store.grants[g].status != Issued
    ensures InStatus(NextConsume(w, p, now), g, w.store.grants[g].status) && (g in NextConsume(w, p, now).winner <==> g in w.winner)
  {
    ConsumeStatus(w.store.grants, Token(w, p).jti, now, g);
    NextConsumeMeaning(w, p, now);
  }

  lemma OthersLeaveGrants(cfg: Config, w: World, s: Step)
    requires !s.ConsumeGrant?
    ensures NextExecutor(cfg, w, s).store.grants == w.store.grants && NextExecutor(cfg, w, s).winner == w.winner
  {}

  lemma IssuerStatusStep(cfg: Config, w: World, s: Step, g: string)
    requires Inv(w) && g in w.store.grants && w.store.grants[g].status != Issued
    ensures InStatus(NextIssuer(cfg, w, s), g, w.store.grants[g].status)
      || (InStatus(NextIssuer(cfg, w, s), g, Expired) && IsWithdrawn(NextIssuer(cfg, w, s), g))
  {
    if (s.PutGrant? || s.Withdraw?) && s.p < |w.issuers| {
      assert IssuerOk(w, s.p);
      assert NextIssuer(cfg, w, s).issuers[s.p].claims == w.issuers[s.p].claims;
    }
  }

  lemma ExecutorsLeaveIssuers(cfg: Config, w: World, s: Step)
    ensures NextExecutor(cfg, w, s).issuers == w.issuers
  {}

  lemma StatusStep(cfg: Config, w: World, s: Step, g: string)
    requires Inv(w) && g in w.store.grants && w.store.grants[g].status != Issued
    ensures InStatus(Next(cfg, w, s), g, w.store.grants[g].status)
      || (InStatus(Next(cfg, w, s), g, Expired) && IsWithdrawn(Next(cfg, w, s), g))
  {
    var w1 := NextIssuer(cfg, w, s);
    IssuerStatusStep(cfg, w, s, g);
    ExecutorStatusStep(cfg, w1, s, g);
    ExecutorsLeaveIssuers(cfg, w1, s);
  }

  lemma WithdrawnStep(cfg: Config, w: World, s: Step, i: nat)
    requires i < |w.issuers| && w.issuers[i].at == Withdrawn
    ensures i < |Next(cfg, w, s).issuers| && Next(cfg, w, s).issuers[i] == w.issuers[i]
  {
    ExecutorsLeaveIssuers(cfg, NextIssuer(cfg, w, s), s);
  }

  /** No grant ever returns to issued. An expired grant stays expired; a consumed one stays consumed, unless its token
      had leaked and its issuance is withdrawn. */
  lemma {:induction false} StatusIsFinal(cfg: Config, w: World, steps: seq<Step>, g: string)
    requires Inv(w) && g in w.store.grants && w.store.grants[g].status != Issued
    ensures var w' := Run(cfg, w, steps);
      InStatus(w', g, w.store.grants[g].status) || (InStatus(w', g, Expired) && IsWithdrawn(w', g))
    decreases |steps|
  {
    if steps != [] {
      var before, s := Run(cfg, w, steps[..|steps| - 1]), steps[|steps| - 1];
      StatusIsFinal(cfg, w, steps[..|steps| - 1], g);
      RunInv(cfg, w, steps[..|steps| - 1]);
      StatusStep(cfg, before, s, g);
      if IsWithdrawn(before, g) {
        var i :| 0 <= i < |before.issuers| && before.issuers[i].at == Withdrawn && before.issuers[i].claims.jti == g;
        WithdrawnStep(cfg, before, s, i);
      }
    }
  }

  /** As long as only returned tokens are presented, no status but issued ever changes. */
  lemma StatusIsFinalForReturned(cfg: Config, w: World, steps: seq<Step>, g: string)
    requires Inv(w) && g in w.store.grants && w.store.grants[g].status != Issued && OnlyReturned(Run(cfg, w, steps))
    ensures InStatus(Run(cfg, w, steps), g, w.store.grants[g].status)
  {
    StatusIsFinal(cfg, w, steps, g);
    if w.store.grants[g].status == Consumed {
      assert GrantOk(w, g);
      RunInv(cfg, w, steps);
      WonStaysWon(cfg, w, steps, g);
      WonIsConsumed(Run(cfg, w, steps), g);
    }
  }

  lemma WonStep(cfg: Config, w: World, s: Step, g: string)
    requires g in w.winner
    ensures g in Next(cfg, w, s).winner
  {
    IssuersLeaveWinner(cfg, w, s);
  }

  lemma {:induction false} WonStaysWon(cfg: Config, w: World, steps: seq<Step>, g: string)
    requires g in w.winner
    ensures g in Run(cfg, w, steps).winner
    decreases |steps|
  {
    if steps != [] {
      WonStaysWon(cfg, w, steps[..|steps| - 1], g);
      WonStep(cfg, Run(cfg, w, steps[..|steps| - 1]), steps[|steps| - 1], g);
    }
  }

  // ---- issuances that were not completed ----

  /** A grant whose token was not returned is consumed or executed only if someone presents it all the same. */
  lemma UnreturnedIsInert(cfg: Config, w: World, i: nat)
    requires Reachable(cfg, w) && i < |w.issuers| && w.issuers[i].at != Returned
    ensures var g := w.issuers[i].claims.jti;
      && (InStatus(w, g, Consumed) || g in w.calls ==> exists p: nat :: Presents(w, p, g))
      && (OnlyReturned(w) ==> !InStatus(w, g, Consumed) && g !in w.calls && forall p: nat :: !Presents(w, p, g))
  {
    ReachableInv(cfg, w);
    var g := w.issuers[i].claims.jti;
    assert GrantOk(w, g);
    if OnlyReturned(w) {
      forall p: nat ensures !Presents(w, p, g) { if Presents(w, p, g) { PresentedIsReturned(w, p, g, i); } }
    }
  }

  lemma {:induction false} WithdrawnStays(cfg: Config, w: World, steps: seq<Step>, i: nat)
    requires Inv(w) && i < |w.issuers| && w.issuers[i].at == Withdrawn
    ensures var w', g := Run(cfg, w, steps), w.issuers[i].claims.jti;
      i < |w'.issuers| && w'.issuers[i] == w.issuers[i] && (g in w'.winner <==> g in w.winner)
    decreases |steps|
  {
    if steps != [] {
      var before, s, g := Run(cfg, w, steps[..|steps| - 1]), steps[|steps| - 1], w.issuers[i].claims.jti;
      WithdrawnStays(cfg, w, steps[..|steps| - 1], i);
      RunInv(cfg, w, steps[..|steps| - 1]);
      WithdrawnStep(cfg, before, s, i);
      NextIssuerKeepsInv(cfg, before, s);
      WithdrawnWinner(cfg, before, s, i);
    }
  }

  lemma IssuersLeaveWinner(cfg: Config, w: World, s: Step)
    ensures NextIssuer(cfg, w, s).winner == w.winner && NextIssuer(cfg, w, s).executors == w.executors
  {}

  lemma WithdrawnWinner(cfg: Config, w: World, s: Step, i: nat)
    requires Inv(NextIssuer(cfg, w, s)) && i < |w.issuers| && w.issuers[i].at == Withdrawn
    ensures var g := w.issuers[i].claims.jti; g in Next(cfg, w, s).winner <==> g in w.winner
  {
    var w1, g := NextIssuer(cfg, w, s), w.issuers[i].claims.jti;
    IssuersLeaveWinner(cfg, w, s);
    WithdrawnStep(cfg, w, s, i);
    ExecutorsLeaveIssuers(cfg, w1, s);
    assert IssuerOk(w1, i);
    if s.ConsumeGrant? {
      if AtExecutor(w1, s.p, {TaskRead}) { ConsumeStatusStep(w1, s.p, s.now, g); }
    } else {
      OthersLeaveGrants(cfg, w1, s);
    }
  }

  /** What withdrawing a grant is for: from then on, whatever else happens, it is expired, and consuming it is refused
      and changes nothing, whoever presents the token; so it is never executed unless it was consumed before. */
  lemma WithdrawnIsRefused(cfg: Config, w: World, steps: seq<Step>, i: nat, now: int)
    requires Reachable(cfg, w) && i < |w.issuers| && w.issuers[i].at == Withdrawn
    ensures var w', g := Run(cfg, w, steps), w.issuers[i].claims.jti;
      && InStatus(w', g, Expired)
      && Consume(w'.store.grants, g, now) == (w'.store.grants, Replay)
      && (g !in w.winner ==> g !in w'.calls)
  {
    ReachableInv(cfg, w);
    RunInv(cfg, w, steps);
    WithdrawnStays(cfg, w, steps, i);
    var w', g := Run(cfg, w, steps), w.issuers[i].claims.jti;
    assert IssuerOk(w', i) && GrantOk(w', g);
  }

  predicate Lost(at: IssuerAt) { at in {RecordLost, Withdrawn, IssuerDead} }

  lemma LostStep(cfg: Config, w: World, s: Step, i: nat)
    requires i < |w.issuers| && Lost(w.issuers[i].at)
    ensures var w' := NextIssuer(cfg, w, s); i < |w'.issuers| && Lost(w'.issuers[i].at) && w'.issuers[i].claims == w.issuers[i].claims
  {}

  /** An issuance whose record is lost never returns its token. */
  lemma {:induction false} LostStaysLost(cfg: Config, w: World, steps: seq<Step>, i: nat)
    requires i < |w.issuers| && Lost(w.issuers[i].at)
    ensures i < |Run(cfg, w, steps).issuers| && Lost(Run(cfg, w, steps).issuers[i].at)
    ensures Run(cfg, w, steps).issuers[i].claims == w.issuers[i].claims
    decreases |steps|
  {
    if steps != [] {
      var before, s := Run(cfg, w, steps[..|steps| - 1]), steps[|steps| - 1];
      LostStaysLost(cfg, w, steps[..|steps| - 1], i);
      LostStep(cfg, before, s, i);
      ExecutorsLeaveIssuers(cfg, NextIssuer(cfg, before, s), s);
    }
  }

  /** Until the consume call an execution leaves the store as it is; a refused consume call at most writes
      down that the grant has lapsed. */
  lemma RefusalsLeaveTheStore(cfg: Config, w: World, s: Step, p: nat)
    requires p < |w.executors| && w.executors[p].at in {Presented, DelegationRead, TaskRead}
    requires (s.ReadDelegation? || s.ReadTask? || s.ConsumeGrant?) && s.p == p
    ensures var w' := Next(cfg, w, s);
      && w'.calls == w.calls
      && (w'.executors[p].at != Holding ==>
            (w'.store == w.store
             || (s.ConsumeGrant? && w'.store == w.store.(grants := Consume(w.store.grants, Token(w, p).jti, s.now).0)
                 && Consume(w.store.grants, Token(w, p).jti, s.now).1 == GrantLapsed)))
  {
    assert w.store.(grants := w.store.grants) == w.store;
  }
}
