/**
 * Exactly what each step does to an organization's plan and gateway limit, and which
 * limit is in force after any run.
 */
module PlatformLimits {
  import opened Basics
  import opened Bill
  import opened PlatformModel
  import opened PlatformInvariants
  import opened PlatformResults
  import opened PlatformReplay
  import opened PlatformPlans
  import opened PlatformColumns

  /** The plan a step sets: the owner's, the one it applies, or FREE with a new subscription. */
  ghost function OrgPlanSet(s: State, a: Action, org: Id): Option<Plan> {
    if a.Patch? then if a.org == org then a.newPlan else None
    else if Applied(s, a, org).Some? then Applied(s, a, org)
    else if Uses(s, a, org) && org !in s.billing then Some(FREE)
    else None
  }

  /** The limit it sets: 100 or 5,000 with FREE or PRO; otherwise the owner's explicit one, if any. */
  ghost function LimitSet(s: State, a: Action, org: Id): Option<nat> {
    match OrgPlanSet(s, a, org)
    case Some(FREE) => Some(100)
    case Some(PRO) => Some(5_000)
    case _ => if a.Patch? && a.org == org then a.newLimit else None
  }

  /** The organization took this plan and this limit, and kept the rest. */
  ghost predicate TookLimit(s: State, s': State, org: Id, plan: Option<Plan>, limit: Option<nat>) {
    org in s.orgs ==>
      var was := s.orgs[org];
      org in s'.orgs && s'.orgs[org] == Org(was.kind, Or(plan, was.plan), Or(limit, was.requestsPerMinute))
  }

  function FixedLimit(plan: Plan): Option<nat> {
    match plan
    case FREE => Some(100)
    case PRO => Some(5_000)
    case ENTERPRISE => None
  }

  /** The organization took the plan, with its limit, if it is this one. */
  ghost predicate TookPlan(s: State, s': State, o: Id, plan: Plan, org: Id) {
    if o == org then TookLimit(s, s', org, Some(plan), FixedLimit(plan)) else TookLimit(s, s', org, None, None)
  }

  lemma ApplyPlanSets(s: State, o: Id, plan: Plan, org: Id)
    ensures TookPlan(s, ApplyPlan(s, o, plan), o, plan, org)
    ensures ApplyPlan(s, o, plan).orgs.Keys == s.orgs.Keys
  {
  }

  /** What `ensureSubscription` does: nothing, or the plan FREE where there was no subscription. */
  ghost predicate TookFirst(s: State, s': State, o: Id, org: Id) {
    if o in s.billing then TookLimit(s, s', org, None, None) else TookPlan(s, s', o, FREE, org)
  }

  lemma EnsureSubSets(s: State, o: Id, org: Id)
    ensures TookFirst(s, EnsureSub(s, o), o, org) && EnsureSub(s, o).orgs.Keys == s.orgs.Keys
  {
    ApplyPlanSets(s, o, FREE, org);
  }

  lemma CustomerOrgs(s: State, o: Id)
    ensures EnsureCustomer(s, o).orgs == EnsureSub(s, o).orgs
  {
  }

  lemma DropSets(s: State, o: Id, org: Id)
    ensures TookPlan(s, Downgrade(s, o), o, FREE, org) && Downgrade(s, o).orgs.Keys == s.orgs.Keys
  {
    ApplyPlanSets(s, o, FREE, org);
  }

  lemma ActivateSets(s: State, o: Id, plan: Plan, customer: Id, stripeSub: Option<Id>, org: Id)
    ensures TookPlan(s, Activate(s, o, plan, customer, stripeSub), o, plan, org)
    ensures Activate(s, o, plan, customer, stripeSub).orgs.Keys == s.orgs.Keys
  {
    ApplyPlanSets(s, o, plan, org);
  }

  lemma CheckoutSets(s: State, o: Id, plan: Plan, org: Id)
    ensures var s' := DoCheckout(s, o, plan);
      && s'.orgs.Keys == s.orgs.Keys
      && if plan == FREE then TookPlan(s, s', o, FREE, org) else TookFirst(s, s', o, org)
  {
    EnsureSubSets(s, o, org);
    var s1 := EnsureSub(s, o);
    if plan == FREE {
      var s2 := CancelContract(s1, s1.billing[o].stripeSub);
      DropSets(s2, o, org);
      DropAgain(s, s2, Downgrade(s2, o), o, org);
    } else {
      CustomerOrgs(s1, o);
      assert DoCheckout(s, o, plan).orgs == s1.orgs;
    }
  }

  lemma DropAgain(s: State, s1: State, s2: State, o: Id, org: Id)
    requires TookFirst(s, s1, o, org) && TookPlan(s1, s2, o, FREE, org)
    ensures TookPlan(s, s2, o, FREE, org)
  {
  }

  lemma OpenedOrgs(s: State, a: Action)
    requires Inv(s) && Charged(s, a) && CanBePaid(s, s.apis[a.api].owner, a.lookup)
    ensures Apply(s, a).orgs == EnsureCustomer(DoCheckPayouts(s, s.apis[a.api].owner, a.lookup), a.org).orgs
  {
    assert FindPair(s.rows, a.org, a.api).None? && PayoutsReady(s, s.apis[a.api].owner, a.lookup);
  }

  lemma SubscribeApiSets(s: State, a: Action, org: Id)
    requires Inv(s) && a.SubscribeApi?
    ensures var s' := Apply(s, a);
      && s'.orgs.Keys == s.orgs.Keys
      && if Opens(s, a).Some? then TookFirst(s, s', a.org, org) else s'.orgs == s.orgs
  {
    if Opens(s, a).Some? {
      var s1 := DoCheckPayouts(s, s.apis[a.api].owner, a.lookup);
      OpenedOrgs(s, a);
      CustomerOrgs(s1, a.org);
      EnsureSubSets(s1, a.org, org);
      assert ApiInv(s, a.api) && s1.billing.Keys == s.billing.Keys;
    } else if Charged(s, a) {
      assert Apply(s, a) == DoCheckPayouts(s, s.apis[a.api].owner, a.lookup);
    }
  }

  lemma ReportSets(s: State, a: Action, x: Id, org: Id)
    requires Inv(s) && Reports(a, x)
    ensures var s' := Apply(s, a);
      && s'.orgs.Keys == s.orgs.Keys
      && if Buys(s, a, org, x) then TookPlan(s, s', org, s.sessions[x].metadata.plan, org)
         else TookLimit(s, s', org, None, None)
  {
    if IsCompleted(s, x) {
      ReportDeliversOrNot(s, x, a);
      DeliveredIsActivated(s, x);
      var v := s.sessions[x];
      if v.metadata.Platform? {
        ActivateSets(s, v.metadata.org, v.metadata.plan, v.customer, v.stripeSub, org);
      }
    } else {
      assert Apply(s, a) == s;
    }
  }

  lemma DeletionSets(s: State, i: Id, org: Id)
    requires Inv(s)
    ensures var s' := BillingHandle(s, SubDeleted(i));
      && s'.orgs.Keys == s.orgs.Keys
      && if LinkedTo(s, org, Some(i)) then TookPlan(s, s', org, FREE, org) else TookLimit(s, s', org, None, None)
  {
    FoundIsLinked(s, i, org);
    var o := FindBilling(s.billing, i);
    if o.Some? {
      DropSets(s, o.value, org);
    }
  }

  lemma EventSets(s: State, e: Event, org: Id)
    requires Inv(s) && !e.SessionCompleted?
    ensures Apply(s, Deliver(e)).orgs.Keys == s.orgs.Keys
    ensures OrgOutcome(s, Deliver(e), org)
  {
    assert Apply(s, Deliver(e)).orgs == BillingHandle(s, e).orgs;
    if e.SubDeleted? {
      DeletionSets(s, e.stripeSub, org);
    } else {
      assert BillingHandle(s, e).orgs == s.orgs;
    }
  }

  /** The organization ends with exactly the plan and limit the step set, if it was there before. */
  ghost predicate OrgOutcome(s: State, a: Action, org: Id) {
    TookLimit(s, Apply(s, a), org, OrgPlanSet(s, a, org), LimitSet(s, a, org))
  }

  lemma FirstUseSets(s: State, a: Action, org: Id)
    requires a.CloseInvoice? || a.Onboard?
    ensures OrgOutcome(s, a, org) && Apply(s, a).orgs.Keys == s.orgs.Keys
  {
    CallUses(s, a, org);
    EnsureSubSets(s, a.org, org);
    assert Apply(s, a).orgs in {s.orgs, EnsureSub(s, a.org).orgs};
  }

  lemma PlanCallSets(s: State, a: Action, org: Id)
    requires a.Subscribe? || a.Checkout?
    ensures OrgOutcome(s, a, org) && Apply(s, a).orgs.Keys == s.orgs.Keys
  {
    CallUses(s, a, org);
    if a.Subscribe? {
      ApplyPlanSets(s, a.org, a.plan, org);
    } else {
      CheckoutSets(s, a.org, a.plan, org);
    }
  }

  lemma PatchSets(s: State, a: Action, org: Id)
    requires a.Patch?
    ensures OrgOutcome(s, a, org) && Apply(s, a).orgs.Keys == s.orgs.Keys
  {
  }

  /** A new organization starts on FREE with its limit; no step removes one. */
  lemma OrgIsNewIff(s: State, a: Action, org: Id)
    requires Inv(s) && org !in s.orgs
    ensures org in Apply(s, a).orgs <==> a.NewOrg? && org == s.nextId
    ensures org in Apply(s, a).orgs ==> Apply(s, a).orgs[org] == Org(a.kind, FREE, 100)
  {
    if !a.NewOrg? {
      OrgAfterStep(s, a, org);
    }
  }

  lemma OtherSets(s: State, a: Action, org: Id)
    requires OutsideBilling(a) && !a.Patch? && !a.NewOrg?
    ensures OrgOutcome(s, a, org) && Apply(s, a).orgs == s.orgs
  {
    match a {
      case NextMonth =>
      case Publish(_, _) =>
      case _ => RowStepLeavesPlans(s, a);
    }
  }

  /**
   * Exactly which plan and limit a step leaves on an organization: the owner's patch,
   * the plan it applied with its fixed limit, FREE and 100 when the subscription is
   * created; otherwise the ones before.
   */
  lemma OrgAfterStep(s: State, a: Action, org: Id)
    requires Inv(s)
    ensures OrgOutcome(s, a, org)
    ensures !a.NewOrg? ==> Apply(s, a).orgs.Keys == s.orgs.Keys
  {
    if a.ConfirmCheckout? {
      ReportSets(s, a, a.session, org);
    } else if a.Deliver? {
      if a.event.SessionCompleted? {
        ReportSets(s, a, a.event.session, org);
      } else {
        EventSets(s, a.event, org);
      }
    } else if a.SubscribeApi? {
      SubscribeApiSets(s, a, org);
    } else if a.CheckPayouts? {
      assert Apply(s, a).orgs == s.orgs;
    } else if a.Patch? {
      PatchSets(s, a, org);
    } else if a.NewOrg? {
      assert SubInv(s, s.nextId);
    } else if OutsideBilling(a) {
      OtherSets(s, a, org);
    } else if a.Subscribe? || a.Checkout? {
      PlanCallSets(s, a, org);
    } else {
      FirstUseSets(s, a, org);
    }
  }

  /**
   * The gap: besides the owner's patch and a plan application, a step changes an
   * organization's plan or limit exactly when it creates the subscription of one
   * that is not at FREE and 100: what the owner set before is lost.
   */
  lemma FirstUseResetsIff(s: State, a: Action, org: Id)
    requires Inv(s) && org in s.orgs && !a.Patch? && Applied(s, a, org).None?
    ensures var s' := Apply(s, a);
      org in s'.orgs && var was, now := s.orgs[org], s'.orgs[org];
      && (now != was <==> Uses(s, a, org) && org !in s.billing && (was.plan != FREE || was.requestsPerMinute != 100))
      && (now != was ==> now == Org(was.kind, FREE, 100))
  {
    OrgAfterStep(s, a, org);
  }

  /** Closing the first invoice of an organization, whatever the owner set. */
  lemma FirstInvoiceResets(s: State, org: Id, limit: nat) returns (s2: State)
    requires Inv(s) && org in s.orgs && org !in s.billing
    ensures s2 == Apply(Apply(s, Patch(org, None, Some(limit))), CloseInvoice(org, 0))
    ensures org in s2.orgs && s2.orgs[org] == Org(s.orgs[org].kind, FREE, 100)
  {
    var patch := Patch(org, None, Some(limit));
    var s1 := Apply(s, patch);
    s2 := Apply(s1, CloseInvoice(org, 0));
    StepKeepsInv(s, patch);
    OrgAfterStep(s, patch, org);
    CallUses(s1, CloseInvoice(org, 0), org);
    OrgAfterStep(s1, CloseInvoice(org, 0), org);
  }

  /** A run that does so: the owner sets an explicit limit, and closing an invoice resets it. */
  lemma PatchLostPossible(month: int, limit: nat) returns (s: State)
    ensures s == Exec(Init(true, month), [NewOrg(PUBLISHER)]
                      + ([Patch(0, None, Some(limit))] + ([CloseInvoice(0, 0)] + [])))
    ensures 0 in s.orgs && s.orgs[0] == Org(PUBLISHER, FREE, 100)
  {
    var start := Init(true, month);
    InitInv(true, month);
    ExecThree(start, NewOrg(PUBLISHER), Patch(0, None, Some(limit)), CloseInvoice(0, 0));
    StepKeepsInv(start, NewOrg(PUBLISHER));
    s := FirstInvoiceResets(Apply(start, NewOrg(PUBLISHER)), 0, limit);
  }

  // ----- Over a run ----------------------------------------------------------

  /** What each step of the run set the organization's limit to, if it set it. */
  ghost function LimitTrace(s: State, actions: seq<Action>, org: Id): (t: seq<Option<nat>>)
    ensures |t| == |actions|
  {
    if actions == [] then []
    else LimitTrace(s, ButLast(actions), org) + [LimitSet(Exec(s, ButLast(actions)), Last(actions), org)]
  }

  /** The limit in force after any run is the last one set, or the one before if none was. */
  lemma {:induction false} LimitIsLastSet(s: State, actions: seq<Action>, org: Id)
    requires Inv(s) && org in s.orgs
    ensures org in Exec(s, actions).orgs
    ensures Settled(LimitTrace(s, actions, org), s.orgs[org].requestsPerMinute,
                    Exec(s, actions).orgs[org].requestsPerMinute)
    decreases |actions|
  {
    if actions != [] {
      var s1 := Exec(s, ButLast(actions));
      LimitIsLastSet(s, ButLast(actions), org);
      InvHolds(s, ButLast(actions));
      OrgAfterStep(s1, Last(actions), org);
      ExecLast(s, actions);
      SettledNext(LimitTrace(s, ButLast(actions), org), s.orgs[org].requestsPerMinute,
                  s1.orgs[org].requestsPerMinute, LimitSet(s1, Last(actions), org));
    }
  }
}
