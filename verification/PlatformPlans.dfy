/**
 * Which steps set a subscription's plan and stamp its period, and what follows for
 * payment and for the invoices of a run.
 */
module PlatformPlans {
  import opened Basics
  import opened Bill
  import opened PlatformModel
  import opened PlatformInvariants
  import opened PlatformResults
  import opened PlatformReplay
  import Periods

  // ----- Who applies a plan --------------------------------------------------

  /** The step is a counting report of a completed plan session for this organization. */
  predicate Buys(s: State, a: Action, org: Id, x: Id) {
    && Reports(a, x) && IsCompleted(s, x) && Counts(s.sessions[x].metadata, a)
    && s.sessions[x].metadata.Platform? && s.sessions[x].metadata.org == org
  }

  /** The plan the step applies to the organization, on request or through Stripe. */
  function Applied(s: State, a: Action, org: Id): Option<Plan> {
    match a
    case Subscribe(o, plan) => if o == org && o in s.orgs then Some(plan) else None
    case Checkout(o, plan) => if o == org && o in s.orgs && plan == FREE then Some(FREE) else None
    case ConfirmCheckout(_, x) => if Buys(s, a, org, x) then Some(s.sessions[x].metadata.plan) else None
    case Deliver(e) =>
      (match e
       case SessionCompleted(x) => if Buys(s, a, org, x) then Some(s.sessions[x].metadata.plan) else None
       case SubDeleted(i) =>
         if org in s.billing && s.billing[org].stripeSub == Some(i) then Some(FREE) else None
       case _ => None)
    case _ => None
  }

  /** The row after a change that applies no plan: as it was, or created as FREE in this month. */
  ghost predicate Untouched(s: State, s': State, org: Id) {
    && (org in s.billing ==>
         && org in s'.billing && s'.billing[org].plan == s.billing[org].plan
         && s'.billing[org].period == s.billing[org].period)
    && (org in s'.billing && org !in s.billing ==>
         s'.billing[org].plan == FREE && s'.billing[org].period == s.month)
  }

  /** The row after a change that applies this plan. */
  ghost predicate Took(s: State, s': State, org: Id, plan: Plan) {
    org in s'.billing && s'.billing[org].plan == plan && s'.billing[org].period == s.month
  }

  ghost predicate PlanOutcome(s: State, s': State, org: Id, plan: Option<Plan>) {
    match plan
    case Some(p) => Took(s, s', org, p)
    case None => Untouched(s, s', org)
  }

  lemma EnsureSubTouches(s: State, o: Id, org: Id)
    ensures Untouched(s, EnsureSub(s, o), org) && EnsureSub(s, o).month == s.month
  {
  }

  /** An outcome after a change in the same month that applied no plan. */
  lemma ThenOutcome(s: State, s1: State, s2: State, org: Id, plan: Option<Plan>)
    requires Untouched(s, s1, org) && s1.month == s.month && PlanOutcome(s1, s2, org, plan)
    ensures PlanOutcome(s, s2, org, plan)
  {
  }

  lemma CustomerTouches(s: State, o: Id, org: Id)
    ensures Untouched(s, EnsureCustomer(s, o), org)
  {
    EnsureSubTouches(s, o, org);
    CustomerIdTouches(EnsureSub(s, o), o, org);
    ThenOutcome(s, EnsureSub(s, o), EnsureCustomer(s, o), org, None);
  }

  lemma CustomerIdTouches(s: State, o: Id, org: Id)
    requires o in s.billing
    ensures Untouched(s, EnsureCustomer(s, o), org)
  {
  }

  lemma ApplyPlanTouches(s: State, o: Id, plan: Plan, org: Id)
    ensures PlanOutcome(s, ApplyPlan(s, o, plan), org, if o == org then Some(plan) else None)
  {
  }

  lemma DowngradeTouches(s: State, o: Id, org: Id)
    requires o in s.orgs
    ensures PlanOutcome(s, Downgrade(s, o), org, if o == org then Some(FREE) else None)
  {
    ApplyPlanTouches(s, o, FREE, org);
  }

  lemma ActivateTouches(s: State, o: Id, plan: Plan, customer: Id, stripeSub: Option<Id>, org: Id)
    requires o in s.orgs
    ensures PlanOutcome(s, Activate(s, o, plan, customer, stripeSub), org, if o == org then Some(plan) else None)
  {
    ApplyPlanTouches(s, o, plan, org);
  }

  lemma CheckoutTouches(s: State, o: Id, plan: Plan, org: Id)
    requires o in s.orgs
    ensures PlanOutcome(s, DoCheckout(s, o, plan), org, if o == org && plan == FREE then Some(FREE) else None)
  {
    EnsureSubTouches(s, o, org);
    LaterCheckoutTouches(EnsureSub(s, o), o, plan, org);
    assert DoCheckout(s, o, plan) == DoCheckout(EnsureSub(s, o), o, plan);
    ThenOutcome(s, EnsureSub(s, o), DoCheckout(s, o, plan), org, if o == org && plan == FREE then Some(FREE) else None);
  }

  lemma LaterCheckoutTouches(s: State, o: Id, plan: Plan, org: Id)
    requires o in s.orgs && o in s.billing
    ensures PlanOutcome(s, DoCheckout(s, o, plan), org, if o == org && plan == FREE then Some(FREE) else None)
  {
    if plan == FREE {
      DowngradeTouches(CancelContract(s, s.billing[o].stripeSub), o, org);
    } else {
      CustomerIdTouches(s, o, org);
    }
  }

  lemma SubscribeApiTouches(s: State, o: Id, api: Id, lookup: Option<bool>, org: Id)
    ensures Untouched(s, DoSubscribeApi(s, o, api, lookup), org)
  {
    if api in s.apis {
      CustomerTouches(DoCheckPayouts(s, s.apis[api].owner, lookup), o, org);
    }
  }

  lemma DeliveredTouches(s: State, x: Id, org: Id)
    requires Inv(s) && IsCompleted(s, x)
    ensures var m := s.sessions[x].metadata;
      PlanOutcome(s, Delivered(s, x), org, if m.Platform? && m.org == org then Some(m.plan) else None)
  {
    var v := s.sessions[x];
    DeliveredIsActivated(s, x);
    assert SessionInv(s, x);
    if v.metadata.Platform? {
      ActivateTouches(s, v.metadata.org, v.metadata.plan, v.customer, v.stripeSub, org);
    }
  }

  lemma ReportTouches(s: State, a: Action, x: Id, org: Id)
    requires Inv(s) && Reports(a, x)
    ensures PlanOutcome(s, Apply(s, a), org, if Buys(s, a, org, x) then Some(s.sessions[x].metadata.plan) else None)
  {
    if IsCompleted(s, x) {
      ReportDeliversOrNot(s, x, a);
      DeliveredTouches(s, x, org);
    } else {
      assert Apply(s, a) == s;
    }
  }

  lemma DeletionTouches(s: State, i: Id, org: Id)
    requires Inv(s)
    ensures PlanOutcome(s, BillingHandle(s, SubDeleted(i)), org,
                        if HasContract(s.billing, org, i) then Some(FREE) else None)
  {
    var o := FindBilling(s.billing, i);
    if o.Some? {
      assert SubInv(s, o.value);
      DowngradeTouches(s, o.value, org);
      if HasContract(s.billing, org, i) { BillingOwnerUnique(s, i, org, o.value); }
    }
  }

  lemma EventTouches(s: State, e: Event, org: Id)
    requires Inv(s) && !e.SessionCompleted?
    ensures PlanOutcome(s, BillingHandle(s, e), org, Applied(s, Deliver(e), org))
  {
    if e.SubDeleted? {
      DeletionTouches(s, e.stripeSub, org);
    } else {
      OtherEventTouches(s, e, org);
    }
  }

  lemma OtherEventTouches(s: State, e: Event, org: Id)
    requires !e.SessionCompleted? && !e.SubDeleted?
    ensures Untouched(s, BillingHandle(s, e), org)
  {
  }

  /** The steps that reach the billing rows through a call of an organization. */
  lemma CallTouches(s: State, a: Action, org: Id)
    requires a.Subscribe? || a.Checkout? || a.CloseInvoice? || a.Onboard? || a.SubscribeApi?
    ensures PlanOutcome(s, Apply(s, a), org, Applied(s, a, org))
  {
    match a {
      case Subscribe(o, plan) => if o in s.orgs { ApplyPlanTouches(s, o, plan, org); }
      case Checkout(o, plan) => if o in s.orgs { CheckoutTouches(s, o, plan, org); }
      case CloseInvoice(o, used) => EnsureSubTouches(s, o, org);
      case Onboard(o) => EnsureSubTouches(s, o, org);
      case SubscribeApi(o, api, lookup) => SubscribeApiTouches(s, o, api, lookup, org);
    }
  }

  lemma PayoutsTouch(s: State, o: Id, lookup: Option<bool>, org: Id)
    ensures Untouched(s, DoCheckPayouts(s, o, lookup), org)
  {
  }

  /**
   * Exactly which plan a step leaves an organization on: the one it applied, stamped
   * with the current month; otherwise the one before, with its old period; or FREE
   * where the subscription was only now created.
   */
  lemma PlanAfterStep(s: State, a: Action, org: Id)
    requires Inv(s)
    ensures PlanOutcome(s, Apply(s, a), org, Applied(s, a, org))
  {
    if a.Subscribe? || a.Checkout? || a.CloseInvoice? || a.Onboard? || a.SubscribeApi? {
      CallTouches(s, a, org);
    } else if a.ConfirmCheckout? {
      ReportTouches(s, a, a.session, org);
    } else if a.CheckPayouts? {
      PayoutsTouch(s, a.org, a.lookup, org);
    } else if a.Deliver? {
      if a.event.SessionCompleted? {
        ReportTouches(s, a, a.event.session, org);
      } else {
        EventTouches(s, a.event, org);
        BillingLeavesMarket(s, a.event);
        assert Apply(s, a).billing == BillingHandle(s, a.event).billing;
      }
    } else {
      OutsideLeavesBilling(s, a);
    }
  }

  // ----- A paid plan was paid for --------------------------------------------

  /** A completed session for this organization and plan. */
  ghost predicate Paid(s: State, org: Id, plan: Plan) {
    exists x :: PaidIn(s, org, plan, x)
  }

  predicate PaidIn(s: State, org: Id, plan: Plan, x: Id) {
    IsCompleted(s, x) && s.sessions[x].metadata == Platform(org, plan)
  }

  ghost predicate Stems(s: State, org: Id) {
    org in s.billing && s.billing[org].plan != FREE ==> Paid(s, org, s.billing[org].plan)
  }

  /** Every paid plan stems from a completed session for it. */
  ghost predicate AllStem(s: State) {
    forall org :: Stems(s, org)
  }

  /** The step sets a paid plan by `subscribe`, with no completed session for it. */
  ghost predicate SetsUnpaid(s: State, a: Action) {
    a.Subscribe? && a.org in s.orgs && a.plan != FREE && !Paid(s, a.org, a.plan)
  }

  lemma CustomerLeavesSessions(s: State, org: Id)
    ensures EnsureCustomer(s, org).sessions == s.sessions && EnsureCustomer(s, org).nextId >= s.nextId
  {
    ApplyPlanInside(s, org, FREE);
  }

  lemma CheckoutKeepsSession(s: State, org: Id, plan: Plan, x: Id)
    requires x in s.sessions && x < s.nextId
    ensures x in DoCheckout(s, org, plan).sessions && DoCheckout(s, org, plan).sessions[x] == s.sessions[x]
  {
    ApplyPlanInside(s, org, FREE);
    var s1 := EnsureSub(s, org);
    DowngradeInside(CancelContract(s1, s1.billing[org].stripeSub), org);
    CustomerLeavesSessions(s1, org);
  }

  lemma SubscribeApiKeepsSession(s: State, org: Id, api: Id, lookup: Option<bool>, x: Id)
    requires x in s.sessions && x < s.nextId
    ensures var s' := DoSubscribeApi(s, org, api, lookup); x in s'.sessions && s'.sessions[x] == s.sessions[x]
  {
    if api in s.apis {
      CustomerLeavesSessions(DoCheckPayouts(s, s.apis[api].owner, lookup), org);
    }
  }

  /** Completed sessions stay. */
  lemma SessionStays(s: State, a: Action, x: Id)
    requires Inv(s) && IsCompleted(s, x)
    ensures IsCompleted(Apply(s, a), x) && Apply(s, a).sessions[x] == s.sessions[x]
  {
    assert SessionInv(s, x);
    if a.Checkout? {
      CheckoutKeepsSession(s, a.org, a.plan, x);
    } else if a.SubscribeApi? {
      SubscribeApiKeepsSession(s, a.org, a.api, a.lookup, x);
    } else if !a.Complete? {
      OtherStepLeavesSessions(s, a);
    }
  }

  lemma EventLeavesSessions(s: State, e: Event)
    ensures BillingHandle(s, e).sessions == s.sessions && MarketHandle(s, e).sessions == s.sessions
  {
    BillingLeavesMarket(s, e);
  }

  lemma OtherStepLeavesSessions(s: State, a: Action)
    requires !a.Checkout? && !a.SubscribeApi? && !a.Complete?
    ensures Apply(s, a).sessions == s.sessions
  {
    if a.Deliver? {
      EventLeavesSessions(s, a.event);
      EventLeavesSessions(BillingHandle(s, a.event), a.event);
    } else if a.ConfirmCheckout? {
      EventLeavesSessions(s, SessionCompleted(a.session));
    } else if a.Subscribe? {
      ApplyPlanInside(s, a.org, a.plan);
    } else if a.CloseInvoice? || a.Onboard? {
      ApplyPlanInside(s, a.org, FREE);
    }
  }

  lemma StaysPaid(s: State, a: Action, org: Id, plan: Plan)
    requires Inv(s) && Paid(s, org, plan)
    ensures Paid(Apply(s, a), org, plan)
  {
    var x :| PaidIn(s, org, plan, x);
    SessionStays(s, a, x);
    assert PaidIn(Apply(s, a), org, plan, x);
  }

  /** A plan applied by any step but `subscribe` is FREE or was paid for. */
  lemma AppliedIsPaid(s: State, a: Action, org: Id)
    requires Applied(s, a, org).Some? && Applied(s, a, org).value != FREE && !a.Subscribe?
    ensures Paid(s, org, Applied(s, a, org).value)
  {
    var x := if a.ConfirmCheckout? then a.session else a.event.session;
    assert PaidIn(s, org, Applied(s, a, org).value, x);
  }

  lemma StepStems(s: State, a: Action, org: Id)
    requires Inv(s) && Stems(s, org) && !(SetsUnpaid(s, a) && a.org == org)
    ensures Stems(Apply(s, a), org)
  {
    PlanAfterStep(s, a, org);
    var s' := Apply(s, a);
    if org in s'.billing && s'.billing[org].plan != FREE {
      if Applied(s, a, org).Some? && !a.Subscribe? { AppliedIsPaid(s, a, org); }
      StaysPaid(s, a, org, s'.billing[org].plan);
    }
  }

  /** A `subscribe` call completes no session. */
  lemma SubscribePaysNothing(s: State, org: Id, plan: Plan)
    ensures ApplyPlan(s, org, plan).sessions == s.sessions
  {
    ApplyPlanInside(s, org, plan);
  }

  /** A step keeps every paid plan paid for exactly unless it sets an unpaid one by `subscribe`. */
  lemma StepStemsIff(s: State, a: Action)
    requires Inv(s) && AllStem(s)
    ensures AllStem(Apply(s, a)) <==> !SetsUnpaid(s, a)
  {
    if SetsUnpaid(s, a) {
      PlanAfterStep(s, a, a.org);
      SubscribePaysNothing(s, a.org, a.plan);
      assert forall x :: PaidIn(Apply(s, a), a.org, a.plan, x) ==> PaidIn(s, a.org, a.plan, x);
      assert !Stems(Apply(s, a), a.org);
    } else {
      forall org ensures Stems(Apply(s, a), org) { assert Stems(s, org); StepStems(s, a, org); }
    }
  }

  ghost predicate NeverUnpaid(s: State, actions: seq<Action>)
    decreases |actions|
  {
    actions != [] ==> !SetsUnpaid(s, actions[0]) && NeverUnpaid(Apply(s, actions[0]), actions[1..])
  }

  ghost predicate AlwaysStem(s: State, actions: seq<Action>)
    decreases |actions|
  {
    AllStem(s) && (actions != [] ==> AlwaysStem(Apply(s, actions[0]), actions[1..]))
  }

  lemma {:induction false} StemAllAlong(s: State, actions: seq<Action>)
    requires Inv(s) && AllStem(s)
    ensures AlwaysStem(s, actions) <==> NeverUnpaid(s, actions)
    decreases |actions|
  {
    if actions != [] {
      StepStemsIff(s, actions[0]);
      StepKeepsInv(s, actions[0]);
      if AllStem(Apply(s, actions[0])) {
        StemAllAlong(Apply(s, actions[0]), actions[1..]);
      }
    }
  }

  /**
   * "The plan only becomes active once payment succeeds": over every run each
   * subscription's paid plan stems from a completed session for that organization and
   * plan, if and only if no `subscribe` call ever sets one that has none.
   */
  lemma PaidPlansIff(enabled: bool, month: int, actions: seq<Action>)
    ensures AlwaysStem(Init(enabled, month), actions) <==> NeverUnpaid(Init(enabled, month), actions)
  {
    InitInv(enabled, month);
    StemAllAlong(Init(enabled, month), actions);
  }

  /** The gap: with Stripe enabled, two calls put an organization on PRO without any session. */
  lemma UnpaidPlanPossible(month: int)
    ensures var s := Exec(Init(true, month), [NewOrg(SUBSCRIBER)] + ([Subscribe(0, PRO)] + []));
      0 in s.billing && s.billing[0].plan == PRO && s.sessions == map[]
  {
    var s := Init(true, month);
    ExecCons(s, NewOrg(SUBSCRIBER), [Subscribe(0, PRO)] + []);
    var s1 := Apply(s, NewOrg(SUBSCRIBER));
    ExecCons(s1, Subscribe(0, PRO), []);
    SubscribePaysNothing(s1, 0, PRO);
  }

  // ----- Which month an invoice bills ----------------------------------------

  /** The month of the run's last step that applied a plan to the organization; `stamp` if none did. */
  ghost function StampOf(s: State, actions: seq<Action>, org: Id, stamp: int): int
    decreases |actions|
  {
    if actions == [] then stamp
    else
      var stamp1 := if Applied(s, actions[0], org).Some? then s.month else stamp;
      StampOf(Apply(s, actions[0]), actions[1..], org, stamp1)
  }

  /** A subscription's period is the month of the last plan application, however long ago. */
  lemma {:induction false} PeriodIsStamp(s: State, actions: seq<Action>, org: Id)
    requires Inv(s) && org in s.billing
    ensures org in Exec(s, actions).billing
    ensures Exec(s, actions).billing[org].period == StampOf(s, actions, org, s.billing[org].period)
    decreases |actions|
  {
    if actions != [] {
      PlanAfterStep(s, actions[0], org);
      StepKeepsInv(s, actions[0]);
      PeriodIsStamp(Apply(s, actions[0]), actions[1..], org);
    }
  }

  /**
   * An invoice closed after any run bills the current month if and only if the last
   * plan application happened in it.
   */
  lemma InvoiceIsCurrentIff(s: State, actions: seq<Action>, org: Id, used: nat)
    requires Inv(s) && org in s.billing
    ensures var s' := Exec(s, actions);
      var closed := Apply(s', CloseInvoice(org, used)).records;
      && closed != [] && Last(closed).org == org && Last(closed).usage.used == used
      && (Last(closed).period == s'.month <==> StampOf(s, actions, org, s.billing[org].period) == s'.month)
  {
    PeriodIsStamp(s, actions, org);
    InvHolds(s, actions);
    assert SubInv(Exec(s, actions), org);
  }

  /** The usage billed to the organization by the records from index k on. */
  ghost function BilledFrom(records: seq<BillingRecord>, k: nat, org: Id): nat {
    if |records| <= k then 0
    else BilledFrom(ButLast(records), k, org) + if Last(records).org == org then Last(records).usage.used else 0
  }

  lemma BilledAppend(records: seq<BillingRecord>, k: nat, org: Id, r: BillingRecord)
    requires k <= |records|
    ensures BilledFrom(records + [r], k, org) == BilledFrom(records, k, org) + if r.org == org then r.usage.used else 0
  {
    AppendLast(records, r);
  }

  /** The invoice of a month for a request log, as the subscription's period has it. */
  function Closing(org: Id, log: seq<int>, starts: int -> int, period: int): Action {
    CloseInvoice(org, Periods.CountIn(log, starts, period))
  }

  /** One month: apply the plan, close the invoice for the period so stamped, let the month end. */
  function StampedMonth(org: Id, plan: Plan, log: seq<int>, starts: int -> int, m: int): seq<Action> {
    [Subscribe(org, plan)] + ([Closing(org, log, starts, m)] + ([NextMonth] + []))
  }

  /** n months from month m on. */
  function StampedMonths(org: Id, plan: Plan, log: seq<int>, starts: int -> int, m: int, n: nat): seq<Action>
    decreases n
  {
    if n == 0 then []
    else StampedMonths(org, plan, log, starts, m, n - 1) + StampedMonth(org, plan, log, starts, m + n - 1)
  }

  /** n months later, everything logged in them is billed, period by period. */
  ghost predicate BilledMonths(s: State, s': State, org: Id, log: seq<int>, starts: int -> int, n: nat) {
    && org in s'.orgs && s'.month == s.month + n && s.records <= s'.records
    && BilledFrom(s'.records, |s.records|, org) == Periods.CountPeriods(log, starts, s.month, s.month + n)
  }

  lemma ExecThree(s: State, a: Action, b: Action, c: Action)
    ensures Exec(s, [a] + ([b] + ([c] + []))) == Apply(Apply(Apply(s, a), b), c)
  {
    ExecCons(s, a, [b] + ([c] + []));
    ExecCons(Apply(s, a), b, [c] + []);
    ExecCons(Apply(Apply(s, a), b), c, []);
  }

  /** The three states of such a month. */
  lemma MonthSteps(s: State, org: Id, plan: Plan, log: seq<int>, starts: int -> int)
    returns (s1: State, s2: State, s3: State)
    ensures s1 == Apply(s, Subscribe(org, plan))
    ensures s2 == Apply(s1, Closing(org, log, starts, s.month)) && s3 == Apply(s2, NextMonth)
    ensures Exec(s, StampedMonth(org, plan, log, starts, s.month)) == s3
  {
    ExecThree(s, Subscribe(org, plan), Closing(org, log, starts, s.month), NextMonth);
    s1 := Apply(s, Subscribe(org, plan));
    s2 := Apply(s1, Closing(org, log, starts, s.month));
    s3 := Apply(s2, NextMonth);
  }

  /** Applying a plan puts the organization on it and stamps the month; no record changes. */
  lemma SubscribeStamps(s: State, org: Id, plan: Plan)
    requires Inv(s) && org in s.orgs
    ensures var s' := Apply(s, Subscribe(org, plan));
      && org in s'.orgs && org in s'.billing && s'.billing[org].period == s.month
      && s'.records == s.records && s'.month == s.month
  {
    PlanAfterStep(s, Subscribe(org, plan), org);
    ApplyPlanInside(s, org, plan);
  }

  lemma MonthBills(s: State, org: Id, plan: Plan, log: seq<int>, starts: int -> int) returns (s': State)
    requires Inv(s) && org in s.orgs
    ensures s' == Exec(s, StampedMonth(org, plan, log, starts, s.month))
    ensures org in s'.orgs && s'.month == s.month + 1
    ensures |s'.records| == |s.records| + 1 && s.records <= s'.records
    ensures Last(s'.records).org == org && Last(s'.records).period == s.month
    ensures Last(s'.records).usage.used == Periods.CountIn(log, starts, s.month)
  {
    var s1, s2, s3 := MonthSteps(s, org, plan, log, starts);
    SubscribeStamps(s, org, plan);
    ClosedRecord(s1, org, Periods.CountIn(log, starts, s.month));
    assert s2.records == s1.records + [Last(s2.records)];
    s' := s3;
  }

  /** What one invoice appends for a subscription that is there. */
  lemma ClosedRecord(s: State, org: Id, used: nat)
    requires org in s.billing && org in s.orgs
    ensures var s' := Apply(s, CloseInvoice(org, used));
      && s' == s.(records := s.records + [OpenRecord(org, s.billing[org], used)])
      && OpenRecord(org, s.billing[org], used).org == org && OpenRecord(org, s.billing[org], used).usage.used == used
      && OpenRecord(org, s.billing[org], used).period == s.billing[org].period
  {
  }

  lemma NextBilled(s: State, s1: State, s2: State, org: Id, log: seq<int>, starts: int -> int, n: nat)
    requires BilledMonths(s, s1, org, log, starts, n)
    requires org in s2.orgs && s2.month == s1.month + 1
    requires |s2.records| == |s1.records| + 1 && s1.records <= s2.records
    requires Last(s2.records).org == org && Last(s2.records).usage.used == Periods.CountIn(log, starts, s1.month)
    ensures BilledMonths(s, s2, org, log, starts, n + 1)
  {
    assert s2.records == s1.records + [Last(s2.records)];
    BilledAppend(s1.records, |s.records|, org, Last(s2.records));
  }

  lemma NoMonthBilled(s: State, org: Id, plan: Plan, log: seq<int>, starts: int -> int)
    requires Inv(s) && org in s.orgs
    ensures Exec(s, StampedMonths(org, plan, log, starts, s.month, 0)) == s && BilledMonths(s, s, org, log, starts, 0)
  {
  }

  lemma NextMonthBilled(s: State, s1: State, org: Id, plan: Plan, log: seq<int>, starts: int -> int, n: nat)
    returns (s2: State)
    requires Inv(s1) && BilledMonths(s, s1, org, log, starts, n)
    requires s1 == Exec(s, StampedMonths(org, plan, log, starts, s.month, n))
    ensures s2 == Exec(s, StampedMonths(org, plan, log, starts, s.month, n + 1))
    ensures BilledMonths(s, s2, org, log, starts, n + 1)
  {
    s2 := MonthBills(s1, org, plan, log, starts);
    NextBilled(s, s1, s2, org, log, starts, n);
    OneMoreExec(s, org, plan, log, starts, n + 1, s1.month);
  }

  lemma {:induction false} MonthsBill(
    s: State, org: Id, plan: Plan, log: seq<int>, starts: int -> int, n: nat) returns (s': State)
    requires Inv(s) && org in s.orgs
    ensures s' == Exec(s, StampedMonths(org, plan, log, starts, s.month, n))
    ensures BilledMonths(s, s', org, log, starts, n)
    decreases n
  {
    if n == 0 {
      s' := s;
      NoMonthBilled(s, org, plan, log, starts);
    } else {
      var s1 := MonthsBill(s, org, plan, log, starts, n - 1);
      InvHolds(s, StampedMonths(org, plan, log, starts, s.month, n - 1));
      s' := NextMonthBilled(s, s1, org, plan, log, starts, n - 1);
    }
  }

  lemma OneMoreExec(s: State, org: Id, plan: Plan, log: seq<int>, starts: int -> int, n: nat, m: int)
    requires n > 0 && m == s.month + (n - 1)
    ensures Exec(s, StampedMonths(org, plan, log, starts, s.month, n)) ==
      Exec(Exec(s, StampedMonths(org, plan, log, starts, s.month, n - 1)), StampedMonth(org, plan, log, starts, m))
  {
    ExecAppend(s, StampedMonths(org, plan, log, starts, s.month, n - 1), StampedMonth(org, plan, log, starts, m));
  }

  /**
   * If the plan is applied anew each month before its invoice is closed, n invoices
   * bill every request of the n months, and each once, if and only if no request was
   * logged exactly on an interior month boundary.
   */
  lemma StampedMonthsExactIff(s: State, org: Id, plan: Plan, log: seq<int>, starts: int -> int, n: nat)
    requires Inv(s) && org in s.orgs && n > 0 && Periods.Increasing(starts)
    ensures var s' := Exec(s, StampedMonths(org, plan, log, starts, s.month, n));
      BilledFrom(s'.records, |s.records|, org) == Periods.CountBetween(log, starts(s.month), starts(s.month + n))
      <==> forall m :: s.month < m < s.month + n ==> Periods.Off(log, starts, m)
  {
    var s' := MonthsBill(s, org, plan, log, starts, n);
    BilledExactIff(s, s', org, log, starts, n);
  }

  lemma BilledExactIff(s: State, s': State, org: Id, log: seq<int>, starts: int -> int, n: nat)
    requires BilledMonths(s, s', org, log, starts, n) && n > 0 && Periods.Increasing(starts)
    ensures BilledFrom(s'.records, |s.records|, org) == Periods.CountBetween(log, starts(s.month), starts(s.month + n))
      <==> forall m :: s.month < m < s.month + n ==> Periods.Off(log, starts, m)
  {
    Periods.UsageExactIff(log, starts, s.month, s.month + n);
  }

  /** n months in which invoices are closed and no plan is applied: all for the period p. */
  function StaleMonths(org: Id, log: seq<int>, starts: int -> int, p: int, n: nat): seq<Action>
    decreases n
  {
    if n == 0 then [] else [Closing(org, log, starts, p)] + ([NextMonth] + StaleMonths(org, log, starts, p, n - 1))
  }

  /**
   * The gap: nothing else moves the period, so n invoices closed in n consecutive
   * months bill the first period's usage n times and the later months' never.
   */
  lemma {:induction false} StaleMonthsRun(s: State, org: Id, log: seq<int>, starts: int -> int, n: nat)
    requires Inv(s) && org in s.orgs && org in s.billing
    ensures var p := s.billing[org].period;
      var s' := Exec(s, StaleMonths(org, log, starts, p, n));
      && s'.month == s.month + n && org in s'.billing && s'.billing[org].period == p
      && |s'.records| == |s.records| + n
      && (forall k :: |s.records| <= k < |s'.records| ==>
           s'.records[k].org == org && s'.records[k].period == p
           && s'.records[k].usage.used == Periods.CountIn(log, starts, p))
      && s.records <= s'.records
    decreases n
  {
    if n > 0 {
      var p := s.billing[org].period;
      var a, rest := Closing(org, log, starts, p), StaleMonths(org, log, starts, p, n - 1);
      ExecCons(s, a, [NextMonth] + rest);
      var s1 := Apply(s, a);
      ExecCons(s1, NextMonth, rest);
      var s2 := Apply(s1, NextMonth);
      ClosedRecord(s, org, Periods.CountIn(log, starts, p));
      StepKeepsInv(s, a);
      StepKeepsInv(s1, NextMonth);
      StaleMonthsRun(s2, org, log, starts, n - 1);
      var s' := Exec(s2, rest);
      assert s2.records == s.records + [s2.records[|s.records|]] && s'.records[|s.records|] == s2.records[|s.records|];
    }
  }
}
