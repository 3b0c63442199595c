/** Request-step theorems about every reachable world: payments, arguments and authority. */
module Guarantees {
  import opened Text
  import opened Json
  import opened StateMachine
  import opened Purpose
  import opened Constraints
  import opened Projection
  import opened Records
  import opened Store
  import opened Settings
  import opened Erp
  import opened Protocol
  import opened Provenance
  import Origins
  import CP = ControlPlane
  import GW = Gateway

  // ---- what the policy caps mean ----

  predicate AmountWithin(args: Object, max: int) {
    "amount_minor" in args && Numeric(args["amount_minor"]) && 0.0 < NumValue(args["amount_minor"]) <= max as real
  }

  predicate CurrencyListed(args: Object, currencies: seq<string>) {
    "currency" in args && args["currency"].Str? && args["currency"].s in currencies
  }

  lemma AmountKey(args: Object)
    ensures Lookup(Dict(args), "amount_minor") == Get(args, "amount_minor")
  {
    LookupKey(args, "amount_minor");
  }

  lemma CurrencyKey(args: Object)
    ensures Lookup(Dict(args), "currency") == Get(args, "currency")
  {
    LookupKey(args, "currency");
  }

  lemma MemberOfStrings(v: Json, ss: seq<string>)
    ensures Member(v, CP.StrList(ss).items) <==> v.Str? && v.s in ss
  {
    var items := CP.StrList(ss).items;
    if v.Str? && v.s in ss {
      var i :| 0 <= i < |ss| && ss[i] == v.s;
      assert PyEq(v, items[i]);
    }
  }

  lemma NumberCap(rx: Regex, args: Object, k: string, bound: int)
    requires Lookup(Dict(args), k) == Get(args, k)
    ensures Holds(rx, Dict(args), Constraint(k, Lte, Int(bound)))
      <==> k in args && Numeric(args[k]) && NumValue(args[k]) <= bound as real
    ensures Holds(rx, Dict(args), Constraint(k, Gt, Int(bound)))
      <==> k in args && Numeric(args[k]) && NumValue(args[k]) > bound as real
  {}

  lemma AmountCapsMeaning(rx: Regex, policy: ToolPolicy, args: Object)
    ensures Constraints.Evaluate(rx, CP.AmountCaps(policy), Dict(args)) == Allowed
      <==> (policy.maxAmountMinor.Some? ==> AmountWithin(args, policy.maxAmountMinor.value))
  {
    if policy.maxAmountMinor.Some? {
      var caps, max := CP.AmountCaps(policy), policy.maxAmountMinor.value;
      EvaluateTwo(rx, caps[0], caps[1], Dict(args));
      AmountKey(args);
      NumberCap(rx, args, "amount_minor", max);
      NumberCap(rx, args, "amount_minor", 0);
    }
  }

  lemma ListCap(rx: Regex, args: Object, k: string, items: seq<Json>)
    requires Lookup(Dict(args), k) == Get(args, k)
    ensures Holds(rx, Dict(args), Constraint(k, In, List(items))) <==> k in args && Scalar(args[k]) && Member(args[k], items)
  {}

  lemma CurrencyCapsMeaning(rx: Regex, policy: ToolPolicy, args: Object)
    ensures Constraints.Evaluate(rx, CP.CurrencyCaps(policy), Dict(args)) == Allowed
      <==> (policy.allowedCurrencies != [] ==> CurrencyListed(args, policy.allowedCurrencies))
  {
    if policy.allowedCurrencies != [] {
      EvaluateOne(rx, CP.CurrencyCaps(policy)[0], Dict(args));
      CurrencyKey(args);
      ListCap(rx, args, "currency", CP.StrList(policy.allowedCurrencies).items);
      if "currency" in args { MemberOfStrings(args["currency"], policy.allowedCurrencies); }
    }
  }

  /** The caps allow exactly amounts in (0, max] and listed currencies. */
  lemma {:induction false} CapsMeaning(rx: Regex, policy: ToolPolicy, args: Object)
    ensures Constraints.Evaluate(rx, CP.Caps(policy), Dict(args)) == Allowed
      <==> (policy.maxAmountMinor.Some? ==> AmountWithin(args, policy.maxAmountMinor.value))
           && (policy.allowedCurrencies != [] ==> CurrencyListed(args, policy.allowedCurrencies))
  {
    EvaluateNarrows(rx, CP.AmountCaps(policy), CP.CurrencyCaps(policy), Dict(args));
    AmountCapsMeaning(rx, policy, args);
    CurrencyCapsMeaning(rx, policy, args);
  }

  lemma EvaluateOne(rx: Regex, c: Constraint, args: Json)
    requires args.Dict?
    ensures Constraints.Evaluate(rx, [c], args) == Allowed <==> Holds(rx, args, c)
  {
    EvaluateMeaning(rx, [c], args);
  }

  lemma EvaluateTwo(rx: Regex, c: Constraint, d: Constraint, args: Json)
    requires args.Dict?
    ensures Constraints.Evaluate(rx, [c, d], args) == Allowed <==> Holds(rx, args, c) && Holds(rx, args, d)
  {
    EvaluateMeaning(rx, [c, d], args);
    assert [c, d][0] == c && [c, d][1] == d;
  }

  // ---- what the pins mean ----

  lemma {:induction false} PinListed(args: Object, keys: seq<string>, k: string)
    requires k in keys && k in args && CP.Pinnable(args[k])
    ensures Constraint(k, Eq, args[k]) in CP.Pins(args, keys)
  {
    var n := |keys| - 1;
    if keys[n] != k { PinListed(args, keys[..n], k); }
  }

  lemma {:induction false} PinsOnly(args: Object, keys: seq<string>, i: nat)
    requires i < |CP.Pins(args, keys)|
    ensures var c := CP.Pins(args, keys)[i]; c.path in args && CP.Pinnable(args[c.path]) && c == Constraint(c.path, Eq, args[c.path])
  {
    var n := |keys| - 1;
    if i < |CP.Pins(args, keys[..n])| { PinsOnly(args, keys[..n], i); }
  }

  /** The pinned value is at the path its key names. */
  predicate PinKept(pinned: Object, args: Object, k: string) {
    k in pinned && CP.Pinnable(pinned[k]) ==> Lookup(Dict(args), k).Some? && TypedEq(Lookup(Dict(args), k).value, pinned[k])
  }

  lemma PinHolds(rx: Regex, pinned: Object, args: Object, k: string)
    requires k in pinned && CP.Pinnable(pinned[k])
    ensures Holds(rx, Dict(args), Constraint(k, Eq, pinned[k])) <==> PinKept(pinned, args, k)
  {}

  lemma PinsMeaning(rx: Regex, pinned: Object, args: Object)
    ensures Constraints.Evaluate(rx, CP.Pins(pinned, SortedKeys(pinned.Keys)), Dict(args)) == Allowed
      <==> forall k :: PinKept(pinned, args, k)
  {
    var keys := SortedKeys(pinned.Keys);
    var pins := CP.Pins(pinned, keys);
    EvaluateMeaning(rx, pins, Dict(args));
    SortedKeysAreSorted(pinned.Keys);
    if Constraints.Evaluate(rx, pins, Dict(args)) == Allowed {
      forall k ensures PinKept(pinned, args, k) {
        if k in pinned && CP.Pinnable(pinned[k]) {
          PinListed(pinned, keys, k);
          var i :| 0 <= i < |pins| && pins[i] == Constraint(k, Eq, pinned[k]);
          PinHolds(rx, pinned, args, k);
        }
      }
    }
    if forall k :: PinKept(pinned, args, k) {
      forall i | 0 <= i < |pins| ensures Holds(rx, Dict(args), pins[i]) {
        PinsOnly(pinned, keys, i);
        PinHolds(rx, pinned, args, pins[i].path);
      }
    }
  }

  /** A grant's terms allow exactly the arguments that agree with the pinned ones, path by path, within the caps. */
  lemma TermsMeaning(rx: Regex, pinned: Object, policy: ToolPolicy, args: Object)
    ensures Constraints.Evaluate(rx, CP.Terms(pinned, policy), Dict(args)) == Allowed
      <==> (forall k :: PinKept(pinned, args, k)) && Constraints.Evaluate(rx, CP.Caps(policy), Dict(args)) == Allowed
  {
    EvaluateNarrows(rx, CP.Pins(pinned, SortedKeys(pinned.Keys)), CP.Caps(policy), Dict(args));
    PinsMeaning(rx, pinned, args);
  }

  /** Whatever a grant's terms allow has the pinned argument itself, under its key. */
  ghost predicate Carried(rx: Regex, pinned: Object, policy: ToolPolicy, key: string)
    requires key in pinned
  {
    forall args: Object :: Constraints.Evaluate(rx, CP.Terms(pinned, policy), Dict(args)) == Allowed ==> Keeps(pinned, args, key)
  }

  predicate Keeps(pinned: Object, args: Object, key: string)
    requires key in pinned
  {
    key in args && TypedEq(args[key], pinned[key])
  }

  /** No path starts with a key that has a dot, so no lookup sees the argument under such a key. */
  lemma DottedKeyIsUnseen(m: Object, key: string, path: string)
    requires !DotFree(key)
    ensures Lookup(Dict(m - {key}), path) == Lookup(Dict(m), path)
  {
    var parts := SplitDots(path);
    assert DotFree(parts[0]) && parts[0] != key;
    assert Constraints.Step(Dict(m - {key}), parts[0]) == Constraints.Step(Dict(m), parts[0]);
  }

  /** The arguments without a dotted key satisfy the same constraints. */
  lemma DottedKeyCanBeDropped(rx: Regex, cs: seq<Constraint>, m: Object, key: string)
    requires !DotFree(key)
    ensures Constraints.Evaluate(rx, cs, Dict(m - {key})) == Constraints.Evaluate(rx, cs, Dict(m))
  {
    forall path ensures Lookup(Dict(m - {key}), path) == Lookup(Dict(m), path) { DottedKeyIsUnseen(m, key, path); }
    SameLookupsSameOutcome(rx, cs, Dict(m - {key}), Dict(m));
  }

  /** A scalar argument of a granted request is carried under its key exactly if the key has no dot. */
  lemma CarriedExactlyWhen(rx: Regex, pinned: Object, policy: ToolPolicy, key: string)
    requires key in pinned && CP.Pinnable(pinned[key])
    requires Constraints.Evaluate(rx, CP.Terms(pinned, policy), Dict(pinned)) == Allowed
    ensures Carried(rx, pinned, policy, key) <==> DotFree(key)
  {
    if DotFree(key) {
      TermsMeaning(rx, pinned, policy, pinned);
      assert PinKept(pinned, pinned, key);
      assert key != "";
      forall args: Object | Constraints.Evaluate(rx, CP.Terms(pinned, policy), Dict(args)) == Allowed ensures Keeps(pinned, args, key) {
        TermsMeaning(rx, pinned, policy, args);
        assert PinKept(pinned, args, key);
        LookupKey(args, key);
      }
    } else {
      DottedKeyCanBeDropped(rx, CP.Terms(pinned, policy), pinned, key);
      assert !Keeps(pinned, pinned - {key}, key);
    }
  }

  /** An instance: these arguments satisfy the terms made from them, and still do without the dotted key. */
  lemma DottedKeysAreNotCarried(rx: Regex, policy: ToolPolicy)
    requires policy.maxAmountMinor.None? && policy.allowedCurrencies == []
    ensures var pinned: Object := map["a.b" := Bool(true), "a" := Dict(map["b" := Bool(true)])];
      && Constraints.Evaluate(rx, CP.Terms(pinned, policy), Dict(pinned)) == Allowed
      && Constraints.Evaluate(rx, CP.Terms(pinned, policy), Dict(pinned - {"a.b"})) == Allowed
      && !Carried(rx, pinned, policy, "a.b")
  {
    var pinned: Object := map["a.b" := Bool(true), "a" := Dict(map["b" := Bool(true)])];
    DottedLookup(pinned);
    CapsMeaning(rx, policy, pinned);
    TermsMeaning(rx, pinned, policy, pinned);
    forall k ensures PinKept(pinned, pinned, k) { if k in pinned && CP.Pinnable(pinned[k]) { assert k == "a.b"; } }
    assert "a.b"[1] == '.';
    DottedKeyCanBeDropped(rx, CP.Terms(pinned, policy), pinned, "a.b");
    CarriedExactlyWhen(rx, pinned, policy, "a.b");
  }

  lemma DottedLookup(m: Object)
    requires "a" in m && m["a"] == Dict(map["b" := Bool(true)])
    ensures Lookup(Dict(m), "a.b") == Some(Bool(true))
  {
    SplitAtDot("a", "b");
    SplitOfDotFree("b");
    assert "a" + "." + "b" == "a.b";
    assert SplitDots("a.b") == ["a", "b"];
    var inner: Object := map["b" := Bool(true)];
    assert Walk(Dict(m), ["a", "b"]) == Walk(Dict(inner), ["a", "b"][1..]);
    assert ["a", "b"][1..] == ["b"];
    assert Walk(Dict(inner), ["b"]) == Walk(Bool(true), ["b"][1..]);
  }

  // ---- arguments ----

  /** The signed issuance a call was made under. */
  ghost predicate Under(w: World, k: Call, s: Issuance) { k in w.calls && s in w.signed && s.claims == k.claims }

  lemma CallFacts(cfg: Config, w: World, k: Call)
    requires Reachable(cfg, w) && k in w.calls
    ensures CallOk(cfg, w, k) && exists s :: Under(w, k, s) && IssuanceOk(cfg, w.store, s)
  {
    ReachableInv(cfg, w);
    var i :| 0 <= i < |w.calls| && w.calls[i] == k;
    assert CallAt(cfg, w, i);
    var j :| 0 <= j < |w.signed| && w.signed[j].claims == k.claims;
    assert SignedAt(cfg, w, j);
    assert Under(w, k, w.signed[j]);
  }

  /** Two issuances never share a grant identifier, so a call has one issuance. */
  lemma OneIssuance(cfg: Config, w: World, s: Issuance, t: Issuance)
    requires Reachable(cfg, w) && s in w.signed && t in w.signed && s.claims.jti == t.claims.jti
    ensures s == t
  {
    AllSignedApart(cfg, w);
    SameGrantSameIssuance(w, s, t);
  }

  lemma SameGrantSameIssuance(w: World, s: Issuance, t: Issuance)
    requires (forall i: nat, j: nat :: SignedApart(w, i, j)) && s in w.signed && t in w.signed && s.claims.jti == t.claims.jti
    ensures s == t
  {
    var i: nat :| i < |w.signed| && w.signed[i] == s;
    var j: nat :| j < |w.signed| && w.signed[j] == t;
    assert SignedApart(w, i, j) && SignedApart(w, j, i);
  }

  lemma AllSignedApart(cfg: Config, w: World)
    requires Reachable(cfg, w)
    ensures forall i: nat, j: nat :: SignedApart(w, i, j)
  {
    ReachableInv(cfg, w);
  }

  lemma OneCall(cfg: Config, w: World, i: nat, j: nat)
    requires Reachable(cfg, w) && i < |w.calls| && j < |w.calls| && w.calls[i].claims.jti == w.calls[j].claims.jti
    ensures i == j
  {
    ReachableInv(cfg, w);
    assert CallsApart(w, i, j) && CallsApart(w, j, i);
  }

  lemma IssuanceOf(cfg: Config, w: World, k: Call, s: Issuance)
    requires Reachable(cfg, w) && Under(w, k, s)
    ensures CallOk(cfg, w, k) && IssuanceOk(cfg, w.store, s)
  {
    CallFacts(cfg, w, k);
    var t :| Under(w, k, t) && IssuanceOk(cfg, w.store, t);
    OneIssuance(cfg, w, s, t);
  }

  /** Arguments that reach an adapter agree with the issuance arguments at every pinned path;
      a key without dots is such a path and names the argument itself. */
  lemma ArgumentsCarried(cfg: Config, w: World, k: Call, s: Issuance, key: string)
    requires Reachable(cfg, w) && Under(w, k, s)
    requires key in s.request.arguments && CP.Pinnable(s.request.arguments[key])
    ensures var found := Lookup(Dict(k.arguments), key); found.Some? && TypedEq(found.value, s.request.arguments[key])
    ensures DotFree(key) ==> key in k.arguments && TypedEq(k.arguments[key], s.request.arguments[key])
  {
    IssuanceOf(cfg, w, k, s);
    TermsMeaning(cfg.rx, s.request.arguments, PolicyOf(cfg, s.claims).value, k.arguments);
    assert CP.PathLegal(s.request.arguments, key) && PinKept(s.request.arguments, k.arguments, key);
    if DotFree(key) { LookupKey(k.arguments, key); }
  }

  // ---- when a grant stops working ----

  /** An execution that is not refused comes before the configured lifetime of its grant is over, counted in whole
      seconds from its issuance, and at most the clock skew before it. */
  lemma GrantsLapse(cfg: Config, w: World, req: GW.ExecuteRequest, amb: Ambient)
    requires Reachable(cfg, w) && Enabled(w, Execute(req, amb))
    requires !GW.ExecuteSpec(cfg, w.store, w.erp, req, amb).2.Refused?
    ensures req.verified.Some? && exists s :: s in w.signed && s.claims == req.verified.value && InLifetime(cfg, s, amb.now)
  {
    ReachableInv(cfg, w);
    AdmittedInLifetime(cfg, w, req, amb.now);
  }

  lemma AdmittedInLifetime(cfg: Config, w: World, req: GW.ExecuteRequest, now: int)
    requires Inv(cfg, w) && GW.Admit(cfg, w.store, req, now).None? && (req.verified.Some? ==> Signed(w, req.verified.value))
    ensures req.verified.Some? && exists s :: s in w.signed && s.claims == req.verified.value && InLifetime(cfg, s, now)
  {
    AdmitMeaning(cfg, w.store, req, now);
    var i: nat :| i < |w.signed| && w.signed[i].claims == req.verified.value;
    assert SignedAt(cfg, w, i) && w.signed[i] in w.signed;
  }

  predicate InLifetime(cfg: Config, s: Issuance, now: int) {
    s.issuedAt / SECOND - cfg.clockSkew <= now / SECOND < s.issuedAt / SECOND + cfg.grantTtl
  }

  /** The stored record of every grant ever signed repeats its claims, and ends when the configured lifetime does. */
  lemma RecordsFollowClaims(cfg: Config, w: World, s: Issuance)
    requires Reachable(cfg, w) && s in w.signed
    ensures s.claims.jti in w.store.grants && Registered(cfg, w.store.grants[s.claims.jti], s) && Dated(cfg, s)
  {
    ReachableInv(cfg, w);
    var i: nat :| i < |w.signed| && w.signed[i] == s;
    assert SignedAt(cfg, w, i);
  }

  /** The approval a grant is bound to. */
  ghost predicate BoundTo(w: World, s: Issuance, a: Approval) {
    s.claims.approvalIds == [a.approvalId] && Get(w.store.approvals, a.approvalId) == Some(a)
  }

  lemma ApprovalFacts(cfg: Config, w: World, s: Issuance, a: Approval)
    requires Reachable(cfg, w) && s in w.signed && BoundTo(w, s, a)
    ensures PolicyOf(cfg, s.claims).Some? && ApprovalUsed(a, s, PolicyOf(cfg, s.claims).value)
  {
    ReachableInv(cfg, w);
    var i :| 0 <= i < |w.signed| && w.signed[i] == s;
    assert SignedAt(cfg, w, i);
  }

  /** And so they agree with the approval's subject, on its scalar keys without dots. */
  lemma SubjectCarried(cfg: Config, w: World, k: Call, s: Issuance, a: Approval, key: string)
    requires Reachable(cfg, w) && Under(w, k, s) && BoundTo(w, s, a)
    requires key in a.subject && CP.Pinnable(a.subject[key]) && DotFree(key)
    ensures key in k.arguments && PyEq(k.arguments[key], a.subject[key])
  {
    ApprovalFacts(cfg, w, s, a);
    assert CP.SubjectMatches(a.subject, s.request.arguments);
    assert key in s.request.arguments && PyEq(s.request.arguments[key], a.subject[key]);
    ArgumentsCarried(cfg, w, k, s, key);
    PyEqTransitive(k.arguments[key], s.request.arguments[key], a.subject[key]);
  }

  /** An approval is bound to one grant, whoever else names it. */
  lemma ApprovalsAreSingleUse(cfg: Config, w: World, s: Issuance, t: Issuance)
    requires Reachable(cfg, w) && s in w.signed && t in w.signed
    requires s.claims.approvalIds != [] && s.claims.approvalIds == t.claims.approvalIds
    ensures s == t
  {
    ReachableInv(cfg, w);
    var i :| 0 <= i < |w.signed| && w.signed[i] == s;
    var j :| 0 <= j < |w.signed| && w.signed[j] == t;
    assert SignedAt(cfg, w, i) && SignedAt(cfg, w, j);
    OneIssuance(cfg, w, s, t);
  }

  // ---- authority ----

  /** Every adapter call lies inside the delegation, the manifest and the purpose policy, and the answer
      shows no more than that policy's fields. */
  lemma AuthorityNarrows(cfg: Config, w: World, k: Call)
    requires Reachable(cfg, w) && k in w.calls
    ensures var c := k.claims;
      && c.delegationId in w.store.delegations && WithinScope(cfg, w.store.delegations[c.delegationId], c)
      && c.region == cfg.region && GW.AdapterFor(c.tool).Some?
      && (k.outcome.Answered? ==>
            (k.adapter.Raw? && k.outcome.result == ProjectFields(Dict(k.adapter.record), PolicyOf(cfg, c).value.allowedFields).0))
  {
    CallFacts(cfg, w, k);
  }

  // ---- payments ----

  /** The approval was decided, and the delegation made, by requests of two different users. */
  predicate RootedIn(w: World, s: Issuance, a: Approval, v: Given, x: Delegated) {
    && v in w.given && Origins.DecidedAs(a, v) && v.request.decision == Approved
    && x in w.delegated && x.amb.newId == s.claims.delegationId && s.claims.delegationId in w.store.delegations
    && Origins.DelegatedAs(w.store.delegations[s.claims.delegationId], x) && v.request.user != x.request.user
  }

  ghost predicate Rooted(w: World, s: Issuance, a: Approval) { exists v, x :: RootedIn(w, s, a, v, x) }

  /** Where the payment made under grant `g` comes from. */
  ghost predicate PaidBy(cfg: Config, w: World, g: string, k: Call, s: Issuance, a: Approval) {
    PaidWith(cfg, w, g, k, s, a) && Rooted(w, s, a)
  }

  /** The call, the consumed grant and the approval it used. */
  ghost predicate PaidWith(cfg: Config, w: World, g: string, k: Call, s: Issuance, a: Approval) {
    && Under(w, k, s) && PaymentFrom(cfg, w.erp, g, k)
    && g in w.store.grants && w.store.grants[g].status == Consumed
    && BoundTo(w, s, a) && a.usedByGrantId == Some(g)
    && a.approver != s.claims.humanSponsor && a.decision == Approved && s.issuedAt < a.expiresAt
    && a.taskId == s.claims.taskId && a.delegationId == s.claims.delegationId && a.approvalType == "payment_batch"
    && (forall key :: key in a.subject ==> key in s.request.arguments && PyEq(s.request.arguments[key], a.subject[key]))
    && s.claims.delegationId in w.store.delegations && s.claims.humanSponsor == w.store.delegations[s.claims.delegationId].sponsor
  }

  ghost predicate WithinCaps(cfg: Config, k: Call) {
    && PolicyOf(cfg, k.claims).Some? && PolicyOf(cfg, k.claims).value.maxAmountMinor.Some?
    && AmountWithin(k.arguments, PolicyOf(cfg, k.claims).value.maxAmountMinor.value)
    && CurrencyListed(k.arguments, PolicyOf(cfg, k.claims).value.allowedCurrencies)
  }

  lemma PaymentTool(tool: string)
    ensures GW.AdapterFor(tool) == Some(GW.PaymentInstruct) <==> tool == "payment.instruct"
  {}

  lemma GuardedPolicy(cfg: Config, c: Claims)
    requires cfg.policy.GuardsPayments() && c.tool == "payment.instruct" && PolicyOf(cfg, c).Some?
    ensures var t := PolicyOf(cfg, c).value;
      t.requiresApproval && SPONSOR in t.approverMustDifferFrom && t.maxAmountMinor.Some? && t.allowedCurrencies != []
  {}

  lemma SponsorExcluded(policy: ToolPolicy, a: Approval, sponsor: string)
    requires SPONSOR in policy.approverMustDifferFrom && CP.DutiesSeparated(policy.approverMustDifferFrom, a, sponsor)
    ensures a.approver != sponsor
  {
    var rules := policy.approverMustDifferFrom;
    var i :| 0 <= i < |rules| && rules[i] == SPONSOR;
    assert CP.RuleKept(rules[i], a, sponsor);
    assert |SPONSOR| != |ORIGINATING_EXCEPTION_ACTOR|;
  }

  lemma RootsMeet(cfg: Config, w: World, g: string, k: Call, s: Issuance, a: Approval, v: Given, x: Delegated)
    requires PaidWith(cfg, w, g, k, s, a) && v in w.given && Origins.DecidedAs(a, v)
    requires x in w.delegated && x.amb.newId == s.claims.delegationId
    requires Origins.DelegatedAs(w.store.delegations[s.claims.delegationId], x)
    ensures RootedIn(w, s, a, v, x)
  {}

  lemma ApprovalRooted(cfg: Config, w: World, g: string, k: Call, s: Issuance, a: Approval)
    requires Origins.Inv(w) && PaidWith(cfg, w, g, k, s, a)
    ensures Rooted(w, s, a)
  {
    assert Origins.ApprovalAt(w, a.approvalId) && Origins.DelegationAt(w, s.claims.delegationId);
    var i: nat :| Origins.GivenFor(w, i, a.approvalId);
    var j: nat :| Origins.DelegatedFor(w, j, s.claims.delegationId);
    RootsMeet(cfg, w, g, k, s, a, w.given[i], w.delegated[j]);
  }

  /** Every payment was made by the one adapter call of a consumed grant, within the policy's caps, and the grant used
      an approval unexpired when it was bound, which somebody decided to give who did not make the delegation. */
  lemma PaymentProvenance(cfg: Config, w: World, g: string)
    requires Reachable(cfg, w) && cfg.policy.GuardsPayments() && g in w.erp.paymentsByGrant
    ensures exists k, s, a :: PaidBy(cfg, w, g, k, s, a) && WithinCaps(cfg, k)
  {
    ReachableInv(cfg, w);
    assert PaymentOk(cfg, w, g);
    var i :| 0 <= i < |w.calls| && PaymentFrom(cfg, w.erp, g, w.calls[i]);
    var k := w.calls[i];
    CallFacts(cfg, w, k);
    var s :| Under(w, k, s) && IssuanceOk(cfg, w.store, s);
    PaymentTool(k.claims.tool);
    GuardedPolicy(cfg, k.claims);
    PaidWithinCaps(cfg, w, k, s);
    BackedByApproval(cfg, w, g, k, s);
    var a :| PaidWith(cfg, w, g, k, s, a);
    Origins.ReachableInv(cfg, w);
    ApprovalRooted(cfg, w, g, k, s, a);
    assert PaidBy(cfg, w, g, k, s, a);
  }

  lemma BackedByApproval(cfg: Config, w: World, g: string, k: Call, s: Issuance)
    requires Under(w, k, s) && PaymentFrom(cfg, w.erp, g, k) && CallOk(cfg, w, k) && IssuanceOk(cfg, w.store, s) && Keyed(w.store)
    requires var t := PolicyOf(cfg, s.claims).value; t.requiresApproval && SPONSOR in t.approverMustDifferFrom
    ensures exists a :: PaidWith(cfg, w, g, k, s, a)
  {
    assert Backed(cfg, w.store, s);
    var policy := PolicyOf(cfg, s.claims).value;
    var a := w.store.approvals[s.claims.approvalIds[0]];
    assert KeyedAt(w.store, s.claims.approvalIds[0]);
    assert ApprovalUsed(a, s, policy);
    SponsorExcluded(policy, a.(usedByGrantId := None), s.claims.humanSponsor);
    assert PaidWith(cfg, w, g, k, s, a);
  }

  lemma PaidWithinCaps(cfg: Config, w: World, k: Call, s: Issuance)
    requires CallOk(cfg, w, k) && IssuanceOk(cfg, w.store, s) && s.claims == k.claims
    requires PolicyOf(cfg, k.claims).value.maxAmountMinor.Some? && PolicyOf(cfg, k.claims).value.allowedCurrencies != []
    ensures WithinCaps(cfg, k)
  {
    var policy := PolicyOf(cfg, s.claims).value;
    TermsMeaning(cfg.rx, s.request.arguments, policy, k.arguments);
    CapsMeaning(cfg.rx, policy, k.arguments);
  }

  /** Payments, grants and approvals correspond one to one. */
  lemma {:induction false} PaymentsOneToOne(cfg: Config, w: World, g: string, k: Call, s: Issuance, a: Approval,
                                            g': string, k': Call, s': Issuance, a': Approval)
    requires Reachable(cfg, w) && PaidBy(cfg, w, g, k, s, a) && PaidBy(cfg, w, g', k', s', a')
    ensures g == g' <==> a.approvalId == a'.approvalId
    ensures g == g' ==> k == k' && s == s' && a == a'
  {
    if g == g' {
      OneIssuance(cfg, w, s, s');
      var i :| 0 <= i < |w.calls| && w.calls[i] == k;
      var j :| 0 <= j < |w.calls| && w.calls[j] == k';
      OneCall(cfg, w, i, j);
    }
  }
}
