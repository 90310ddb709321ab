/** What every run of billing and marketplace operations and Stripe events guarantees. */
module PlatformResults {
  import opened Basics
  import opened Bill
  import opened PlatformModel
  import opened PlatformInvariants

  lemma InitInv(enabled: bool, month: int)
    ensures Inv(Init(enabled, month))
  {
  }

  lemma Reachable(enabled: bool, month: int, actions: seq<Action>)
    ensures Inv(Exec(Init(enabled, month), actions))
  {
    InitInv(enabled, month);
    InvHolds(Init(enabled, month), actions);
  }

  // ----- One owner per Stripe subscription -----------------------------------

  lemma BillingOwnerUnique(s: State, i: Id, o: Id, p: Id)
    requires Inv(s) && HasContract(s.billing, o, i) && HasContract(s.billing, p, i)
    ensures o == p
  {
    assert SubInv(s, o) && SubInv(s, p);
  }

  lemma RowOwnerUnique(s: State, i: Id, q: Id, r: Id)
    requires Inv(s) && RowHasContract(s.rows, q, i) && RowHasContract(s.rows, r, i)
    ensures q == r
  {
    assert RowInv(s, q) && RowInv(s, r);
  }

  lemma TablesDisjoint(s: State, i: Id, o: Id, r: Id)
    requires Inv(s) && HasContract(s.billing, o, i)
    ensures !RowHasContract(s.rows, r, i)
  {
    assert SubInv(s, o) && RowInv(s, r);
  }

  /** No Stripe subscription is shared by two billing rows, two marketplace rows, or one of each. */
  lemma LinkageUnique(enabled: bool, month: int, actions: seq<Action>, i: Id)
    ensures var s := Exec(Init(enabled, month), actions);
      && (forall o, p :: HasContract(s.billing, o, i) && HasContract(s.billing, p, i) ==> o == p)
      && (forall q, r :: RowHasContract(s.rows, q, i) && RowHasContract(s.rows, r, i) ==> q == r)
      && (forall o, r :: HasContract(s.billing, o, i) ==> !RowHasContract(s.rows, r, i))
  {
    Reachable(enabled, month, actions);
    var s := Exec(Init(enabled, month), actions);
    forall o, p | HasContract(s.billing, o, i) && HasContract(s.billing, p, i) ensures o == p {
      BillingOwnerUnique(s, i, o, p);
    }
    forall q, r | RowHasContract(s.rows, q, i) && RowHasContract(s.rows, r, i) ensures q == r {
      RowOwnerUnique(s, i, q, r);
    }
    forall o, r | HasContract(s.billing, o, i) ensures !RowHasContract(s.rows, r, i) {
      TablesDisjoint(s, i, o, r);
    }
  }

  /** Each event changes a row in at most one of the two subscription tables. */
  lemma EventTouchesOneTable(enabled: bool, month: int, actions: seq<Action>, e: Event)
    ensures var s := Exec(Init(enabled, month), actions);
      BillingHandle(s, e).billing == s.billing || MarketHandle(s, e).rows == s.rows
  {
    Reachable(enabled, month, actions);
    var s := Exec(Init(enabled, month), actions);
    if e.SubDeleted? && FindBilling(s.billing, e.stripeSub).Some? {
      forall r ensures !RowHasContract(s.rows, r, e.stripeSub) {
        TablesDisjoint(s, e.stripeSub, FindBilling(s.billing, e.stripeSub).value, r);
      }
    }
  }

  /** The two handlers of an event commute, so the order of delivery to them is irrelevant. */
  lemma HandlersCommute(s: State, e: Event)
    ensures MarketHandle(BillingHandle(s, e), e) == BillingHandle(MarketHandle(s, e), e)
  {
    match e {
      case SessionCompleted(x) =>
        if IsCompleted(s, x) {
          if s.sessions[x].metadata.Platform? {
            BillingLeavesMarket(s, e);
            assert MarketHandle(s, e) == s;
          } else {
            assert BillingHandle(s, e) == s;
            assert MarketHandle(s, e).sessions == s.sessions;
          }
        }
      case SubDeleted(i) => DeletionsCommute(s, i);
      case _ =>
    }
  }

  /** Everything outside the organizations and the billing rows is the same. */
  ghost predicate SameOutside(s: State, s': State) {
    && s'.rows == s.rows && s'.sessions == s.sessions && s'.nextId == s.nextId && s'.apis == s.apis
    && s'.contracts == s.contracts && s'.records == s.records && s'.month == s.month
    && s'.canceled == s.canceled && s'.stripeEnabled == s.stripeEnabled
  }

  lemma ApplyPlanInside(s: State, org: Id, plan: Plan)
    ensures SameOutside(s, ApplyPlan(s, org, plan)) && SameOutside(s, EnsureSub(s, org))
  {
  }

  lemma DowngradeInside(s: State, org: Id)
    ensures SameOutside(s, Downgrade(s, org))
  {
    ApplyPlanInside(s, org, FREE);
  }

  lemma ActivateInside(s: State, org: Id, plan: Plan, customer: Id, stripeSub: Option<Id>)
    ensures SameOutside(s, Activate(s, org, plan, customer, stripeSub))
  {
    ApplyPlanInside(s, org, plan);
  }

  lemma BillingLeavesMarket(s: State, e: Event)
    ensures SameOutside(s, BillingHandle(s, e))
      || (e.InvoicePaid? && SameOutside(s, BillingHandle(s, e).(records := s.records)))
  {
    match e {
      case SessionCompleted(x) =>
        if IsCompleted(s, x) && s.sessions[x].metadata.Platform? {
          var v := s.sessions[x];
          ActivateInside(s, v.metadata.org, v.metadata.plan, v.customer, v.stripeSub);
        }
      case SubDeleted(i) =>
        if FindBilling(s.billing, i).Some? { DowngradeInside(s, FindBilling(s.billing, i).value); }
      case _ => OtherEventInside(s, e);
    }
  }

  lemma OtherEventInside(s: State, e: Event)
    requires !e.SessionCompleted? && !e.SubDeleted?
    ensures SameOutside(s, BillingHandle(s, e))
      || (e.InvoicePaid? && SameOutside(s, BillingHandle(s, e).(records := s.records)))
  {
  }

  lemma DeletionsCommute(s: State, i: Id)
    ensures MarketHandle(BillingHandle(s, SubDeleted(i)), SubDeleted(i))
      == BillingHandle(MarketHandle(s, SubDeleted(i)), SubDeleted(i))
  {
    BillingLeavesMarket(s, SubDeleted(i));
    var o, r := FindBilling(s.billing, i), FindRow(s.rows, i);
    if o.Some? && r.Some? {
      var row := s.rows[r.value].(status := CANCELED);
      assert Downgrade(PutRow(s, r.value, row), o.value) == PutRow(Downgrade(s, o.value), r.value, row);
    }
  }

  // ----- Paid access ---------------------------------------------------------

  /**
   * Every marketplace row links a subscriber organization to a publisher's API,
   * one row per pair; with Stripe enabled, access to a priced API always stems
   * from a completed session issued for that same pair.
   */
  lemma PaidAccess(enabled: bool, month: int, actions: seq<Action>, r: Id)
    requires r in Exec(Init(enabled, month), actions).rows
    ensures var s := Exec(Init(enabled, month), actions);
      var row := s.rows[r];
      && row.org in s.orgs && s.orgs[row.org].kind == SUBSCRIBER
      && row.api in s.apis && s.apis[row.api].owner in s.orgs && s.orgs[s.apis[row.api].owner].kind == PUBLISHER
      && row.org != s.apis[row.api].owner
      && (forall q :: IsPair(s.rows, q, row.org, row.api) ==> q == r)
      && (s.stripeEnabled && s.apis[row.api].price > 0 ==>
           exists x :: PaidBy(s, row.org, row.api, row.stripeSub, x))
  {
    Reachable(enabled, month, actions);
    var s := Exec(Init(enabled, month), actions);
    assert RowInv(s, r);
    assert ApiInv(s, s.rows[r].api);
  }

  // ----- Plan coherence ------------------------------------------------------

  /** Whatever happens, also owner patches: a subscription carries its plan's published terms. */
  lemma TermsAlwaysPublished(enabled: bool, month: int, actions: seq<Action>, org: Id)
    requires org in Exec(Init(enabled, month), actions).billing
    ensures TermsMatch(Exec(Init(enabled, month), actions).billing[org])
  {
    Reachable(enabled, month, actions);
    assert SubInv(Exec(Init(enabled, month), actions), org);
  }

  ghost predicate LimitFits(o: Org) {
    && (o.plan == FREE ==> o.requestsPerMinute == 100)
    && (o.plan == PRO ==> o.requestsPerMinute == 5_000)
    && o.requestsPerMinute in {100, 5_000}
  }

  ghost predicate PlanInv(s: State, org: Id) {
    && (org in s.billing ==> org in s.orgs && s.billing[org].plan == s.orgs[org].plan)
    && (org in s.orgs ==> LimitFits(s.orgs[org]) && (org !in s.billing ==> s.orgs[org].plan == FREE))
  }

  ghost predicate PlansAgree(s: State) {
    forall org :: PlanInv(s, org)
  }

  lemma ApplyPlanAgrees(s: State, org: Id, plan: Plan)
    requires PlansAgree(s) && org in s.orgs
    ensures PlansAgree(ApplyPlan(s, org, plan)) && ApplyPlan(s, org, plan).orgs.Keys == s.orgs.Keys
  {
    forall o ensures PlanInv(ApplyPlan(s, org, plan), o) {
      assert PlanInv(s, o);
    }
  }

  /** A change that leaves plans and limits alone keeps them agreeing. */
  lemma SamePlansAgree(s: State, s': State)
    requires PlansAgree(s) && s'.orgs == s.orgs && s'.billing.Keys == s.billing.Keys
    requires forall o :: o in s.billing ==> s'.billing[o].plan == s.billing[o].plan
    ensures PlansAgree(s')
  {
    forall o ensures PlanInv(s', o) {
      assert PlanInv(s, o);
    }
  }

  lemma EnsureSubAgrees(s: State, org: Id)
    requires PlansAgree(s) && org in s.orgs
    ensures PlansAgree(EnsureSub(s, org)) && EnsureSub(s, org).orgs.Keys == s.orgs.Keys
    ensures org in EnsureSub(s, org).billing
    ensures EnsureSub(s, org).stripeEnabled == s.stripeEnabled
  {
    if org !in s.billing { ApplyPlanAgrees(s, org, FREE); }
  }

  lemma DowngradeAgrees(s: State, org: Id)
    requires PlansAgree(s) && org in s.orgs
    ensures PlansAgree(Downgrade(s, org))
  {
    ApplyPlanAgrees(s, org, FREE);
    SamePlansAgree(ApplyPlan(s, org, FREE), Downgrade(s, org));
  }

  lemma ActivateAgrees(s: State, org: Id, plan: Plan, customer: Id, stripeSub: Option<Id>)
    requires PlansAgree(s) && org in s.orgs
    ensures PlansAgree(Activate(s, org, plan, customer, stripeSub))
  {
    ApplyPlanAgrees(s, org, plan);
    SamePlansAgree(ApplyPlan(s, org, plan), Activate(s, org, plan, customer, stripeSub));
  }

  lemma EnsureCustomerAgrees(s: State, org: Id)
    requires PlansAgree(s) && org in s.orgs
    ensures PlansAgree(EnsureCustomer(s, org))
  {
    EnsureSubAgrees(s, org);
    SamePlansAgree(EnsureSub(s, org), EnsureCustomer(s, org));
  }

  lemma CheckoutAgrees(s: State, org: Id, plan: Plan)
    requires PlansAgree(s) && org in s.orgs
    ensures PlansAgree(DoCheckout(s, org, plan))
  {
    EnsureSubAgrees(s, org);
    var s1 := EnsureSub(s, org);
    if plan == FREE {
      var s2 := CancelContract(s1, s1.billing[org].stripeSub);
      SamePlansAgree(s1, s2);
      DowngradeAgrees(s2, org);
    } else if s.stripeEnabled {
      EnsureCustomerAgrees(s1, org);
      SamePlansAgree(EnsureCustomer(s1, org), DoCheckout(s, org, plan));
    }
  }

  lemma SubscribeApiAgrees(s: State, org: Id, api: Id, lookup: Option<bool>)
    requires PlansAgree(s)
    ensures PlansAgree(DoSubscribeApi(s, org, api, lookup))
  {
    if MayLink(s, org, api) && FindPair(s.rows, org, api).None? {
      if s.apis[api].price == 0 || !s.stripeEnabled {
        SamePlansAgree(s, AddRow(s, org, api, None));
      } else {
        var s1 := DoCheckPayouts(s, s.apis[api].owner, lookup);
        SamePlansAgree(s, s1);
        EnsureCustomerAgrees(s1, org);
        var s2 := EnsureCustomer(s1, org);
        if PayoutsReady(s, s.apis[api].owner, lookup) {
          SamePlansAgree(s2, IssueSession(s2, Marketplace(org, api)));
        }
      }
    }
  }

  lemma BillingHandleAgrees(s: State, e: Event)
    requires PlansAgree(s) && Inv(s)
    ensures PlansAgree(BillingHandle(s, e))
  {
    match e {
      case SessionCompleted(x) =>
        if IsCompleted(s, x) && s.sessions[x].metadata.Platform? {
          assert SessionInv(s, x);
          var v := s.sessions[x];
          ActivateAgrees(s, v.metadata.org, v.metadata.plan, v.customer, v.stripeSub);
        }
      case SubDeleted(i) =>
        var o := FindBilling(s.billing, i);
        if o.Some? { assert SubInv(s, o.value); DowngradeAgrees(s, o.value); }
      case SubUpdated(i, status) =>
        var o := FindBilling(s.billing, i);
        if o.Some? { TouchAgrees(s, o.value, Restated(s.billing[o.value], status)); }
      case InvoicePaid(_, _) => SamePlansAgree(s, BillingHandle(s, e));
      case PaymentFailed(i) =>
        if i.Some? && FindBilling(s.billing, i.value).Some? {
          var o := FindBilling(s.billing, i.value).value;
          TouchAgrees(s, o, s.billing[o].(status := PAST_DUE));
        }
      case AccountUpdated(account, ready) =>
        var o := FindAccount(s.billing, account);
        if o.Some? { TouchAgrees(s, o.value, s.billing[o.value].(payoutsEnabled := ready)); }
    }
  }

  lemma TouchAgrees(s: State, org: Id, sub: Subscription)
    requires PlansAgree(s) && org in s.billing && sub.plan == s.billing[org].plan
    ensures PlansAgree(PutSub(s, org, sub))
  {
    SamePlansAgree(s, PutSub(s, org, sub));
  }

  lemma CloseInvoiceAgrees(s: State, org: Id, used: nat)
    requires PlansAgree(s) && org in s.orgs
    ensures PlansAgree(DoCloseInvoice(s, org, used))
  {
    EnsureSubAgrees(s, org);
    SamePlansAgree(EnsureSub(s, org), DoCloseInvoice(s, org, used));
  }

  lemma NewOrgAgrees(s: State, kind: OrgKind)
    requires PlansAgree(s) && Inv(s)
    ensures PlansAgree(Apply(s, NewOrg(kind)))
  {
    assert SubInv(s, s.nextId);
    var s' := s.(orgs := s.orgs[s.nextId := Org(kind, FREE, 100)], nextId := s.nextId + 1);
    assert Apply(s, NewOrg(kind)) == s';
    forall o ensures PlanInv(s', o) { assert PlanInv(s, o); }
  }

  lemma DeliverAgrees(s: State, e: Event)
    requires PlansAgree(s) && Inv(s)
    ensures PlansAgree(MarketHandle(BillingHandle(s, e), e))
  {
    BillingHandleAgrees(s, e);
    MarketHandleAgrees(BillingHandle(s, e), e);
  }

  lemma MarketHandleAgrees(s: State, e: Event)
    requires PlansAgree(s)
    ensures PlansAgree(MarketHandle(s, e))
  {
    SamePlansAgree(s, MarketHandle(s, e));
  }

  lemma StepAgrees(s: State, a: Action)
    requires PlansAgree(s) && Inv(s) && !a.Patch?
    ensures PlansAgree(Apply(s, a))
  {
    if IsBillingCall(a) {
      if Guarded(s, a) {
        match a {
          case NextMonth => SamePlansAgree(s, s.(month := s.month + 1));
          case NewOrg(kind) => NewOrgAgrees(s, kind);
          case Subscribe(org, plan) => ApplyPlanAgrees(s, org, plan);
          case Checkout(org, plan) => CheckoutAgrees(s, org, plan);
          case ConfirmCheckout(org, x) => BillingHandleAgrees(s, SessionCompleted(x));
          case CloseInvoice(org, used) => CloseInvoiceAgrees(s, org, used);
        }
      }
    } else {
      MarketStepAgrees(s, a);
    }
  }

  /** The steps that change neither an organization nor a subscription. */
  lemma RowStepLeavesPlans(s: State, a: Action)
    requires a.Publish? || a.Unsubscribe? || a.Complete? || a.ConfirmApi?
    ensures Apply(s, a).orgs == s.orgs && Apply(s, a).billing == s.billing
  {
    match a {
      case Publish(_, _) =>
      case Unsubscribe(org, r) => UnsubscribeLeavesPlans(s, org, r);
      case Complete(x, subscribed) => CompleteLeavesPlans(s, x, subscribed);
      case ConfirmApi(org, x) => ConfirmLeavesPlans(s, org, x);
    }
  }

  lemma UnsubscribeLeavesPlans(s: State, org: Id, r: Id)
    ensures DoUnsubscribe(s, org, r).orgs == s.orgs && DoUnsubscribe(s, org, r).billing == s.billing
  {
  }

  lemma CompleteLeavesPlans(s: State, x: Id, subscribed: bool)
    ensures DoComplete(s, x, subscribed).orgs == s.orgs && DoComplete(s, x, subscribed).billing == s.billing
  {
  }

  lemma ConfirmLeavesPlans(s: State, org: Id, x: Id)
    ensures DoConfirmApi(s, org, x).orgs == s.orgs && DoConfirmApi(s, org, x).billing == s.billing
  {
  }

  lemma PayoutsAgree(s: State, org: Id, lookup: Option<bool>)
    requires PlansAgree(s)
    ensures PlansAgree(DoCheckPayouts(s, org, lookup))
  {
    SamePlansAgree(s, DoCheckPayouts(s, org, lookup));
  }

  lemma MarketStepAgrees(s: State, a: Action)
    requires PlansAgree(s) && Inv(s) && !IsBillingCall(a)
    ensures PlansAgree(Apply(s, a))
  {
    if a.Deliver? {
      DeliverAgrees(s, a.event);
    } else if a.SubscribeApi? {
      SubscribeApiAgrees(s, a.org, a.api, a.lookup);
    } else if a.Onboard? {
      if a.org in s.orgs { EnsureSubAgrees(s, a.org); OnboardAgrees(s, a.org); }
    } else if a.CheckPayouts? {
      PayoutsAgree(s, a.org, a.lookup);
    } else {
      RowStepLeavesPlans(s, a);
      SamePlansAgree(s, Apply(s, a));
    }
  }

  lemma OnboardAgrees(s: State, org: Id)
    requires PlansAgree(s) && org in s.orgs && PlansAgree(EnsureSub(s, org))
    ensures PlansAgree(DoOnboard(s, org))
  {
    if s.orgs[org].kind == PUBLISHER {
      SamePlansAgree(EnsureSub(s, org), DoOnboard(s, org));
    }
  }

  lemma {:induction false} PlansAgreeHold(s: State, actions: seq<Action>)
    requires PlansAgree(s) && Inv(s) && forall i :: 0 <= i < |actions| ==> !actions[i].Patch?
    ensures PlansAgree(Exec(s, actions))
    decreases |actions|
  {
    if actions != [] {
      StepAgrees(s, actions[0]);
      StepKeepsInv(s, actions[0]);
      PlansAgreeHold(Apply(s, actions[0]), actions[1..]);
    }
  }

  /**
   * Without owner patches the organization's plan is its subscription's plan, and
   * the gateway limit is the plan's for FREE and PRO; an ENTERPRISE organization
   * keeps the limit it had, so the published 50,000 is never reached this way.
   */
  lemma PlanCoherence(enabled: bool, month: int, actions: seq<Action>, org: Id)
    requires forall i :: 0 <= i < |actions| ==> !actions[i].Patch?
    requires org in Exec(Init(enabled, month), actions).orgs
    ensures var s := Exec(Init(enabled, month), actions);
      var o := s.orgs[org];
      && (org in s.billing ==> s.billing[org].plan == o.plan)
      && (o.plan != ENTERPRISE ==> o.requestsPerMinute == TermsOf(o.plan).requestsPerMinute == RateLimitOf(o.plan))
      && o.requestsPerMinute != TermsOf(ENTERPRISE).requestsPerMinute
  {
    InitInv(enabled, month);
    PlansAgreeHold(Init(enabled, month), actions);
    assert PlanInv(Exec(Init(enabled, month), actions), org);
  }

  /** Applying a plan puts the gateway limit in sync exactly if the plan is fixed or the limit was there already. */
  lemma LimitInSyncIff(s: State, org: Id, plan: Plan)
    requires org in s.orgs
    ensures ApplyPlan(s, org, plan).orgs[org].requestsPerMinute == TermsOf(plan).requestsPerMinute
      <==> plan != ENTERPRISE || s.orgs[org].requestsPerMinute == 50_000
  {
  }

  // ----- Invoices ------------------------------------------------------------

  /** A record states its plan's published terms applied to its usage, or one paid amount. */
  ghost predicate RecordFits(r: BillingRecord) {
    var t := TermsOf(r.plan);
    && r.usage.included == t.monthlyQuota && r.usage.totalCost == r.usage.baseCost + r.usage.overageCost
    && match r.status
       case OPEN => Charges(t, r.usage.used, r.usage)
       case PAID => r.usage.used == 0 && r.usage.overageCost == 0
  }

  ghost predicate RecordsFit(s: State) {
    forall k :: 0 <= k < |s.records| ==> RecordFits(s.records[k])
  }

  /** The stored terms bill as the plan's published ones. */
  lemma SameBill(sub: Subscription, used: nat)
    requires TermsMatch(sub)
    ensures ComputeBill(TermsOfSub(sub), used) == ComputeBill(TermsOf(sub.plan), used)
  {
    var a, b := TermsOfSub(sub), TermsOf(sub.plan);
    assert Overage(a, used) == Overage(b, used) && OverageExact(a, used) == OverageExact(b, used);
  }

  /** An open record charges the plan's published terms for its usage. */
  lemma OpenRecordFits(org: Id, sub: Subscription, used: nat)
    requires TermsMatch(sub)
    ensures RecordFits(OpenRecord(org, sub, used))
    ensures Charges(TermsOf(sub.plan), used, OpenRecord(org, sub, used).usage)
  {
    SameBill(sub, used);
    BillCharges(TermsOf(sub.plan), used);
  }

  lemma CloseInvoiceFits(s: State, org: Id, used: nat)
    requires Inv(s) && RecordsFit(s) && org in s.orgs
    ensures s.records <= DoCloseInvoice(s, org, used).records && RecordsFit(DoCloseInvoice(s, org, used))
  {
    EnsureSubKeeps(s, org);
    ApplyPlanInside(s, org, FREE);
    var s1 := EnsureSub(s, org);
    OpenRecordFits(org, s1.billing[org], used);
    assert DoCloseInvoice(s, org, used).records == s.records + [OpenRecord(org, s1.billing[org], used)];
  }

  lemma EventRecordsFit(s: State, e: Event)
    requires Inv(s) && RecordsFit(s)
    ensures s.records <= BillingHandle(s, e).records && RecordsFit(BillingHandle(s, e))
  {
    if e.InvoicePaid? {
      if e.invoiceSub.Some? && FindBilling(s.billing, e.invoiceSub.value).Some? {
        assert SubInv(s, FindBilling(s.billing, e.invoiceSub.value).value);
      }
    } else {
      BillingLeavesMarket(s, e);
    }
  }

  lemma MarketLeavesRecords(s: State, e: Event)
    ensures MarketHandle(s, e).records == s.records
  {
  }

  lemma EnsureCustomerLeavesRecords(s: State, org: Id)
    ensures EnsureCustomer(s, org).records == s.records
  {
    ApplyPlanInside(s, org, FREE);
  }

  lemma CheckoutLeavesRecords(s: State, org: Id, plan: Plan)
    ensures DoCheckout(s, org, plan).records == s.records
  {
    ApplyPlanInside(s, org, FREE);
    var s1 := EnsureSub(s, org);
    DowngradeInside(CancelContract(s1, s1.billing[org].stripeSub), org);
    EnsureCustomerLeavesRecords(s1, org);
  }

  lemma SubscribeApiLeavesRecords(s: State, org: Id, api: Id, lookup: Option<bool>)
    ensures DoSubscribeApi(s, org, api, lookup).records == s.records
  {
    if api in s.apis {
      EnsureCustomerLeavesRecords(DoCheckPayouts(s, s.apis[api].owner, lookup), org);
    }
  }

  lemma CallLeavesRecords(s: State, a: Action)
    requires !a.CloseInvoice? && !a.Deliver?
    ensures Apply(s, a).records == s.records
  {
    match a {
      case Subscribe(org, plan) => ApplyPlanInside(s, org, plan);
      case Checkout(org, plan) => CheckoutLeavesRecords(s, org, plan);
      case ConfirmCheckout(org, x) =>
        if IsCompleted(s, x) && s.sessions[x].metadata.Platform? {
          var v := s.sessions[x];
          ActivateInside(s, v.metadata.org, v.metadata.plan, v.customer, v.stripeSub);
        }
      case Onboard(org) => ApplyPlanInside(s, org, FREE);
      case SubscribeApi(org, api, lookup) => SubscribeApiLeavesRecords(s, org, api, lookup);
      case _ =>
    }
  }

  lemma StepKeepsRecords(s: State, a: Action)
    requires Inv(s) && RecordsFit(s)
    ensures s.records <= Apply(s, a).records && RecordsFit(Apply(s, a))
  {
    if a.CloseInvoice? {
      if Guarded(s, a) { CloseInvoiceFits(s, a.org, a.used); }
    } else if a.Deliver? {
      EventRecordsFit(s, a.event);
      MarketLeavesRecords(BillingHandle(s, a.event), a.event);
    } else {
      CallLeavesRecords(s, a);
    }
  }

  /** No operation changes an existing record, and every record is a correct snapshot. */
  lemma {:induction false} RecordsImmutable(s: State, actions: seq<Action>)
    requires Inv(s) && RecordsFit(s)
    ensures s.records <= Exec(s, actions).records && RecordsFit(Exec(s, actions))
    decreases |actions|
  {
    if actions != [] {
      StepKeepsRecords(s, actions[0]);
      StepKeepsInv(s, actions[0]);
      RecordsImmutable(Apply(s, actions[0]), actions[1..]);
    }
  }
}
