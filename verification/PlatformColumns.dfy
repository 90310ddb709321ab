/**
 * Exactly what each step does to the columns of a subscription beside its plan, to
 * its organization and to the open sessions, and what every run makes of them.
 */
module PlatformColumns {
  import opened Basics
  import opened Bill
  import opened PlatformModel
  import opened PlatformInvariants
  import opened PlatformResults
  import opened PlatformReplay
  import opened PlatformPlans

  function Or<T>(change: Option<T>, otherwise: T): T {
    if change.Some? then change.value else otherwise
  }

  /** The organization's subscription, or the one created on first use: FREE, in good standing, linked to nothing. */
  function RowOr(s: State, org: Id): Subscription {
    if org in s.billing then s.billing[org]
    else Subscription(FREE, ACTIVE, 10_000, 0, 0, s.month, None, None, None, false)
  }

  // ----- What a step sets ----------------------------------------------------

  /** The organization's subscription is linked to this Stripe subscription. */
  predicate LinkedTo(s: State, org: Id, i: Option<Id>) {
    i.Some? && org in s.billing && s.billing[org].stripeSub == i
  }

  /** The completed plan session of the organization that the step reports, if its report counts. */
  function Bought(s: State, a: Action, org: Id): Option<Session> {
    if a.ConfirmCheckout? && Buys(s, a, org, a.session) then Some(s.sessions[a.session])
    else if a.Deliver? && a.event.SessionCompleted? && Buys(s, a, org, a.event.session) then
      Some(s.sessions[a.event.session])
    else None
  }

  /** Every plan application sets the status, and so do Stripe's reports about the linked subscription. */
  function StatusSet(s: State, a: Action, org: Id): Option<SubStatus> {
    if Applied(s, a, org).Some? then Some(ACTIVE)
    else if !a.Deliver? then None
    else match a.event
      case SubUpdated(i, StripeActive) => if LinkedTo(s, org, Some(i)) then Some(ACTIVE) else None
      case SubUpdated(i, StripePastDue) => if LinkedTo(s, org, Some(i)) then Some(PAST_DUE) else None
      case PaymentFailed(i) => if LinkedTo(s, org, i) then Some(PAST_DUE) else None
      case _ => None
  }

  /** A downgrade and a reported deletion drop the link; a bought session with a subscription replaces it. */
  function LinkSet(s: State, a: Action, org: Id): Option<Option<Id>> {
    if a.Checkout? && a.org == org && org in s.orgs && a.plan == FREE then Some(None)
    else if a.Deliver? && a.event.SubDeleted? && LinkedTo(s, org, Some(a.event.stripeSub)) then Some(None)
    else match Bought(s, a, org)
      case Some(x) => if x.stripeSub.Some? then Some(x.stripeSub) else None
      case None => None
  }

  /** The call asks Stripe for a session to pay for this API. */
  ghost predicate Charged(s: State, a: Action) {
    && a.SubscribeApi? && MayLink(s, a.org, a.api) && (forall r :: !IsPair(s.rows, r, a.org, a.api))
    && s.apis[a.api].price > 0 && s.stripeEnabled
  }

  predicate HasPayouts(s: State, org: Id) {
    org in s.billing && s.billing[org].connect.Some? && s.stripeEnabled
  }

  /** What Stripe answers or reports about the organization's payout account. */
  ghost function PayoutsSet(s: State, a: Action, org: Id): Option<bool> {
    if a.CheckPayouts? && a.org == org && HasPayouts(s, org) then a.lookup
    else if Charged(s, a) && s.apis[a.api].owner == org && HasPayouts(s, org) then a.lookup
    else if a.Deliver? && a.event.AccountUpdated? && HasAccount(s.billing, org, a.event.account) then
      Some(a.event.ready)
    else None
  }

  /** The publisher has a payout account, and Stripe's answer, or the stored one without it, is yes. */
  predicate CanBePaid(s: State, publisher: Id, lookup: Option<bool>) {
    HasPayouts(s, publisher) && if lookup.Some? then lookup.value else s.billing[publisher].payoutsEnabled
  }

  /** What the session opened by the step is for, if it opens one. */
  ghost function Opens(s: State, a: Action): Option<Metadata> {
    if a.Checkout? && a.org in s.orgs && a.plan != FREE && s.stripeEnabled then Some(Platform(a.org, a.plan))
    else if Charged(s, a) && CanBePaid(s, s.apis[a.api].owner, a.lookup) then Some(Marketplace(a.org, a.api))
    else None
  }

  /** The first session gets the organization a customer; a bought one names its own. */
  ghost function CustomerSet(s: State, a: Action, org: Id): Option<Id> {
    if Opens(s, a).Some? && Opens(s, a).value.org == org && RowOr(s, org).customer.None? then Some(s.nextId)
    else match Bought(s, a, org)
      case Some(x) => Some(x.customer)
      case None => None
  }

  function AccountSet(s: State, a: Action, org: Id): Option<Id> {
    if a.Onboard? && a.org == org && org in s.orgs && s.orgs[org].kind == PUBLISHER && s.stripeEnabled
      && RowOr(s, org).connect.None? then Some(s.nextId)
    else None
  }

  /** The step needs the organization's subscription, and creates it where there is none. */
  ghost predicate Uses(s: State, a: Action, org: Id) {
    || ((a.Subscribe? || a.Checkout? || a.CloseInvoice?) && a.org == org && org in s.orgs)
    || (a.Onboard? && a.org == org && org in s.orgs && s.orgs[org].kind == PUBLISHER)
    || (Opens(s, a).Some? && Opens(s, a).value.org == org)
    || Bought(s, a, org).Some?
  }

  datatype Changes = Changes(
    status: Option<SubStatus>, link: Option<Option<Id>>, payouts: Option<bool>, customer: Option<Id>,
    account: Option<Id>)

  const NOTHING := Changes(None, None, None, None, None)

  ghost function ChangesOf(s: State, a: Action, org: Id): Changes {
    Changes(StatusSet(s, a, org), LinkSet(s, a, org), PayoutsSet(s, a, org), CustomerSet(s, a, org),
            AccountSet(s, a, org))
  }

  /** The row took exactly these changes. */
  ghost predicate TookChanges(s: State, s': State, org: Id, c: Changes) {
    && (org in s.billing ==> org in s'.billing)
    && var row, was := RowOr(s', org), RowOr(s, org);
       && row.status == Or(c.status, was.status) && row.stripeSub == Or(c.link, was.stripeSub)
       && row.payoutsEnabled == Or(c.payouts, was.payoutsEnabled)
       && row.customer == (if c.customer.Some? then c.customer else was.customer)
       && row.connect == (if c.account.Some? then c.account else was.connect)
  }

  lemma TookThen(s: State, s1: State, s2: State, org: Id, c: Changes)
    requires TookChanges(s, s1, org, NOTHING) && TookChanges(s1, s2, org, c)
    ensures TookChanges(s, s2, org, c)
  {
  }

  lemma EnsureSubTakes(s: State, o: Id, org: Id)
    ensures TookChanges(s, EnsureSub(s, o), org, NOTHING)
  {
    ApplyPlanTakes(s, o, FREE, org);
    assert TookChanges(s, s, org, NOTHING);
  }

  lemma ApplyPlanTakes(s: State, o: Id, plan: Plan, org: Id)
    ensures TookChanges(s, ApplyPlan(s, o, plan), org, if o == org then NOTHING.(status := Some(ACTIVE)) else NOTHING)
  {
  }

  lemma DowngradeTakes(s: State, o: Id, org: Id)
    requires o in s.orgs
    ensures TookChanges(s, Downgrade(s, o), org,
                        if o == org then NOTHING.(status := Some(ACTIVE), link := Some(None)) else NOTHING)
  {
    ApplyPlanTakes(s, o, FREE, org);
  }

  lemma ActivateTakes(s: State, o: Id, plan: Plan, customer: Id, stripeSub: Option<Id>, org: Id)
    requires o in s.orgs
    ensures TookChanges(s, Activate(s, o, plan, customer, stripeSub), org,
                        if o != org then NOTHING
                        else Changes(Some(ACTIVE), if stripeSub.Some? then Some(stripeSub) else None, None,
                                     Some(customer), None))
  {
    ApplyPlanTakes(s, o, plan, org);
  }

  lemma CustomerTakes(s: State, o: Id, org: Id)
    ensures TookChanges(s, EnsureCustomer(s, o), org,
                        if o == org && RowOr(s, org).customer.None? then NOTHING.(customer := Some(s.nextId))
                        else NOTHING)
    ensures o in EnsureCustomer(s, o).billing
  {
    EnsureSubTakes(s, o, org);
    ApplyPlanInside(s, o, FREE);
    LaterCustomerTakes(EnsureSub(s, o), o, org);
    TookThen(s, EnsureSub(s, o), EnsureCustomer(s, o), org,
             if o == org && RowOr(s, org).customer.None? then NOTHING.(customer := Some(s.nextId)) else NOTHING);
  }

  lemma LaterCustomerTakes(s: State, o: Id, org: Id)
    requires o in s.billing
    ensures TookChanges(s, EnsureCustomer(s, o), org,
                        if o == org && RowOr(s, org).customer.None? then NOTHING.(customer := Some(s.nextId))
                        else NOTHING)
  {
    if s.billing[o].customer.None? {
      NewCustomerTakes(s, o, org);
      assert EnsureCustomer(s, o).billing == PutSub(s, o, s.billing[o].(customer := Some(s.nextId))).billing;
    } else {
      assert EnsureCustomer(s, o) == s;
    }
  }

  lemma NewCustomerTakes(s: State, o: Id, org: Id)
    requires o in s.billing
    ensures TookChanges(s, PutSub(s, o, s.billing[o].(customer := Some(s.nextId))), org,
                        if o == org then NOTHING.(customer := Some(s.nextId)) else NOTHING)
  {
  }

  lemma DropTakes(s: State, o: Id, org: Id)
    requires o in s.orgs
    ensures TookChanges(s, Apply(s, Checkout(o, FREE)), org, ChangesOf(s, Checkout(o, FREE), org))
  {
    var s1 := EnsureSub(s, o);
    EnsureSubTakes(s, o, org);
    ApplyPlanInside(s, o, FREE);
    var s2 := CancelContract(s1, s1.billing[o].stripeSub);
    DowngradeTakes(s2, o, org);
    assert s2.billing == s1.billing && Apply(s, Checkout(o, FREE)) == Downgrade(s2, o);
  }

  lemma CheckoutTakes(s: State, o: Id, plan: Plan, org: Id)
    requires o in s.orgs && plan != FREE
    ensures TookChanges(s, Apply(s, Checkout(o, plan)), org, ChangesOf(s, Checkout(o, plan), org))
  {
    var s1 := EnsureSub(s, o);
    EnsureSubTakes(s, o, org);
    ApplyPlanInside(s, o, FREE);
    if s.stripeEnabled {
      CustomerTakes(s1, o, org);
      assert Apply(s, Checkout(o, plan)).billing == EnsureCustomer(s1, o).billing;
    }
  }

  lemma PayoutsTake(s: State, o: Id, lookup: Option<bool>, org: Id)
    ensures TookChanges(s, DoCheckPayouts(s, o, lookup), org,
                        if o == org && HasPayouts(s, org) then NOTHING.(payouts := lookup) else NOTHING)
  {
  }

  /** The publisher's payout flag is refreshed first; the subscriber's row is another one. */
  lemma RefusedTakes(s: State, a: Action, org: Id)
    requires Inv(s) && Charged(s, a) && !CanBePaid(s, s.apis[a.api].owner, a.lookup)
    ensures TookChanges(s, Apply(s, a), org, ChangesOf(s, a, org))
  {
    var owner := s.apis[a.api].owner;
    PayoutsTake(s, owner, a.lookup, org);
    assert Apply(s, a) == DoCheckPayouts(s, owner, a.lookup);
  }

  lemma OpenedTakes(s: State, a: Action, org: Id)
    requires Inv(s) && Charged(s, a) && CanBePaid(s, s.apis[a.api].owner, a.lookup)
    ensures TookChanges(s, Apply(s, a), org, ChangesOf(s, a, org))
  {
    var owner := s.apis[a.api].owner;
    assert ApiInv(s, a.api) && owner != a.org;
    var s1 := DoCheckPayouts(s, owner, a.lookup);
    PayoutsTake(s, owner, a.lookup, org);
    CustomerTakes(s1, a.org, org);
    OpenedBilling(s, a);
  }

  lemma OpenedBilling(s: State, a: Action)
    requires Inv(s) && Charged(s, a) && CanBePaid(s, s.apis[a.api].owner, a.lookup)
    ensures Apply(s, a).billing == EnsureCustomer(DoCheckPayouts(s, s.apis[a.api].owner, a.lookup), a.org).billing
  {
    var s1 := DoCheckPayouts(s, s.apis[a.api].owner, a.lookup);
    assert FindPair(s.rows, a.org, a.api).None? && PayoutsReady(s, s.apis[a.api].owner, a.lookup);
    IssueLeavesBilling(EnsureCustomer(s1, a.org), Marketplace(a.org, a.api));
  }

  lemma IssueLeavesBilling(s: State, m: Metadata)
    requires m.org in s.billing && s.billing[m.org].customer.Some?
    ensures IssueSession(s, m).billing == s.billing
  {
  }

  lemma SubscribeApiTakes(s: State, a: Action, org: Id)
    requires Inv(s) && a.SubscribeApi?
    ensures TookChanges(s, Apply(s, a), org, ChangesOf(s, a, org))
  {
    if Charged(s, a) {
      if CanBePaid(s, s.apis[a.api].owner, a.lookup) { OpenedTakes(s, a, org); } else { RefusedTakes(s, a, org); }
    } else {
      assert Apply(s, a).billing == s.billing;
    }
  }

  lemma AccountTakes(s: State, o: Id, org: Id)
    requires o in s.billing
    ensures TookChanges(s, EnsureAccount(s, o), org,
                        if o == org && s.stripeEnabled && RowOr(s, org).connect.None? then
                          NOTHING.(account := Some(s.nextId))
                        else NOTHING)
  {
  }

  lemma OnboardTakes(s: State, o: Id, org: Id)
    ensures TookChanges(s, Apply(s, Onboard(o)), org, ChangesOf(s, Onboard(o), org))
  {
    if o in s.orgs && s.orgs[o].kind == PUBLISHER {
      EnsureSubTakes(s, o, org);
      ApplyPlanInside(s, o, FREE);
      AccountTakes(EnsureSub(s, o), o, org);
      assert Apply(s, Onboard(o)) == EnsureAccount(EnsureSub(s, o), o);
      TookThen(s, EnsureSub(s, o), Apply(s, Onboard(o)), org, ChangesOf(s, Onboard(o), org));
    }
  }

  /** What a report changes, read off the session. */
  lemma ReportChanges(s: State, a: Action, x: Id, org: Id)
    requires Reports(a, x) && !a.ConfirmApi?
    ensures ChangesOf(s, a, org) ==
      if !Buys(s, a, org, x) then NOTHING
      else
        var v := s.sessions[x];
        Changes(Some(ACTIVE), if v.stripeSub.Some? then Some(v.stripeSub) else None, None, Some(v.customer), None)
  {
  }

  lemma ReportTakes(s: State, a: Action, x: Id, org: Id)
    requires Inv(s) && Reports(a, x) && !a.ConfirmApi?
    ensures TookChanges(s, Apply(s, a), org, ChangesOf(s, a, org))
  {
    ReportChanges(s, a, x, org);
    if IsCompleted(s, x) {
      ReportDeliversOrNot(s, x, a);
      DeliveredTakes(s, x, org);
    } else {
      assert Apply(s, a) == s;
    }
  }

  lemma DeliveredTakes(s: State, x: Id, org: Id)
    requires Inv(s) && IsCompleted(s, x)
    ensures var v := s.sessions[x];
      TookChanges(s, Delivered(s, x), org,
        if !v.metadata.Platform? || v.metadata.org != org then NOTHING
        else Changes(Some(ACTIVE), if v.stripeSub.Some? then Some(v.stripeSub) else None, None, Some(v.customer), None))
  {
    DeliveredIsActivated(s, x);
    assert SessionInv(s, x);
    var v := s.sessions[x];
    if v.metadata.Platform? {
      ActivateTakes(s, v.metadata.org, v.metadata.plan, v.customer, v.stripeSub, org);
    }
  }

  lemma DeletionTakes(s: State, i: Id, org: Id)
    requires Inv(s)
    ensures TookChanges(s, BillingHandle(s, SubDeleted(i)), org, ChangesOf(s, Deliver(SubDeleted(i)), org))
  {
    var o := FindBilling(s.billing, i);
    if o.Some? {
      assert SubInv(s, o.value);
      DowngradeTakes(s, o.value, org);
    }
    if HasContract(s.billing, org, i) { BillingOwnerUnique(s, i, org, o.value); }
  }

  /** Rewriting the status of a row. */
  lemma StatusTakes(s: State, o: Id, status: SubStatus, org: Id)
    requires o in s.billing
    ensures TookChanges(s, PutSub(s, o, s.billing[o].(status := status)), org,
                        if o == org then NOTHING.(status := Some(status)) else NOTHING)
  {
  }

  /** The row a Stripe subscription is looked up by is the organization it is linked to. */
  lemma FoundIsLinked(s: State, i: Id, org: Id)
    requires Inv(s)
    ensures FindBilling(s.billing, i) == Some(org) <==> LinkedTo(s, org, Some(i))
  {
    if LinkedTo(s, org, Some(i)) {
      assert HasContract(s.billing, org, i);
      BillingOwnerUnique(s, i, org, FindBilling(s.billing, i).value);
    }
  }

  lemma UpdateTakes(s: State, i: Id, status: StripeStatus, org: Id)
    requires Inv(s)
    ensures var e := SubUpdated(i, status);
      TookChanges(s, BillingHandle(s, e), org, NOTHING.(status := StatusSet(s, Deliver(e), org)))
  {
    FoundIsLinked(s, i, org);
    var o := FindBilling(s.billing, i);
    if o.Some? {
      StatusTakes(s, o.value, Restated(s.billing[o.value], status).status, org);
    }
  }

  lemma FailureTakes(s: State, i: Id, org: Id)
    requires Inv(s)
    ensures var e := PaymentFailed(Some(i));
      TookChanges(s, BillingHandle(s, e), org, NOTHING.(status := StatusSet(s, Deliver(e), org)))
  {
    FoundIsLinked(s, i, org);
    var o := FindBilling(s.billing, i);
    if o.Some? {
      StatusTakes(s, o.value, PAST_DUE, org);
    }
  }

  lemma StatusEventTakes(s: State, e: Event, org: Id)
    requires Inv(s) && (e.SubUpdated? || e.PaymentFailed? || e.InvoicePaid?)
    ensures TookChanges(s, BillingHandle(s, e), org, ChangesOf(s, Deliver(e), org))
  {
    match e {
      case SubUpdated(i, status) => UpdateTakes(s, i, status, org);
      case PaymentFailed(i) => if i.Some? { FailureTakes(s, i.value, org); }
      case InvoicePaid(_, _) =>
    }
  }

  lemma AccountEventTakes(s: State, e: Event, org: Id)
    requires AccountsDistinct(s) && e.AccountUpdated?
    ensures TookChanges(s, BillingHandle(s, e), org, ChangesOf(s, Deliver(e), org))
  {
    var o := FindAccount(s.billing, e.account);
    if o.Some? {
      FlagTakes(s, o.value, e.ready, org);
    }
    if HasAccount(s.billing, org, e.account) {
      assert o == Some(org);
    }
  }

  lemma FlagTakes(s: State, o: Id, ready: bool, org: Id)
    requires o in s.billing
    ensures TookChanges(s, PutSub(s, o, s.billing[o].(payoutsEnabled := ready)), org,
                        if o == org then NOTHING.(payouts := Some(ready)) else NOTHING)
  {
  }

  lemma EventTakes(s: State, e: Event, org: Id)
    requires Inv(s) && AccountsDistinct(s) && !e.SessionCompleted?
    ensures TookChanges(s, Apply(s, Deliver(e)), org, ChangesOf(s, Deliver(e), org))
  {
    match e {
      case SubDeleted(i) => DeletionTakes(s, i, org);
      case AccountUpdated(_, _) => AccountEventTakes(s, e, org);
      case _ => StatusEventTakes(s, e, org);
    }
    assert Apply(s, Deliver(e)).billing == BillingHandle(s, e).billing;
  }

  lemma CallTakes(s: State, a: Action, org: Id)
    requires Inv(s) && !a.ConfirmCheckout? && !a.Deliver? && !OutsideBilling(a)
    ensures TookChanges(s, Apply(s, a), org, ChangesOf(s, a, org))
  {
    match a {
      case Subscribe(o, plan) => if o in s.orgs { ApplyPlanTakes(s, o, plan, org); }
      case Checkout(o, plan) =>
        if o in s.orgs { if plan == FREE { DropTakes(s, o, org); } else { CheckoutTakes(s, o, plan, org); } }
      case CloseInvoice(o, used) => EnsureSubTakes(s, o, org);
      case Onboard(o) => OnboardTakes(s, o, org);
      case CheckPayouts(o, lookup) => PayoutsTake(s, o, lookup, org);
      case SubscribeApi(_, _, _) => SubscribeApiTakes(s, a, org);
    }
  }

  /**
   * Exactly what a step does to an organization's subscription: ACTIVE after a plan
   * application or an `active` report, PAST_DUE after `past_due` or a failed payment,
   * the link replaced or dropped, the payout flag as Stripe answered; else as before.
   */
  lemma ColumnsAfterStep(s: State, a: Action, org: Id)
    requires Inv(s) && AccountsDistinct(s)
    ensures TookChanges(s, Apply(s, a), org, ChangesOf(s, a, org))
  {
    if OutsideBilling(a) {
      OutsideLeavesBilling(s, a);
    } else if a.ConfirmCheckout? {
      ReportTakes(s, a, a.session, org);
    } else if a.Deliver? {
      if a.event.SessionCompleted? {
        ReportTakes(s, a, a.event.session, org);
      } else {
        EventTakes(s, a.event, org);
      }
    } else {
      CallTakes(s, a, org);
    }
  }

  // ----- When a subscription is created --------------------------------------

  lemma EnsureSubCreates(s: State, o: Id, plan: Plan)
    ensures EnsureSub(s, o).billing.Keys == s.billing.Keys + {o}
    ensures ApplyPlan(s, o, plan).billing.Keys == s.billing.Keys + {o}
  {
  }

  lemma DropCreates(s: State, o: Id)
    ensures Downgrade(s, o).billing.Keys == s.billing.Keys + {o}
  {
    EnsureSubCreates(s, o, FREE);
  }

  lemma ActivateCreates(s: State, o: Id, plan: Plan, customer: Id, stripeSub: Option<Id>)
    ensures Activate(s, o, plan, customer, stripeSub).billing.Keys == s.billing.Keys + {o}
  {
    EnsureSubCreates(s, o, plan);
  }

  lemma CustomerCreates(s: State, o: Id)
    ensures EnsureCustomer(s, o).billing.Keys == s.billing.Keys + {o}
  {
    EnsureSubCreates(s, o, FREE);
  }

  lemma CheckoutCreates(s: State, o: Id, plan: Plan)
    ensures DoCheckout(s, o, plan).billing.Keys == s.billing.Keys + {o}
  {
    EnsureSubCreates(s, o, plan);
    var s1 := EnsureSub(s, o);
    if plan == FREE {
      DropCreates(CancelContract(s1, s1.billing[o].stripeSub), o);
    } else {
      CustomerCreates(s1, o);
    }
  }

  lemma SubscribeApiCreates(s: State, a: Action)
    requires Inv(s) && a.SubscribeApi?
    ensures Apply(s, a).billing.Keys == s.billing.Keys + if Opens(s, a).Some? then {a.org} else {}
  {
    if Opens(s, a).Some? {
      OpenedBilling(s, a);
      CustomerCreates(DoCheckPayouts(s, s.apis[a.api].owner, a.lookup), a.org);
    } else if Charged(s, a) {
      assert Apply(s, a) == DoCheckPayouts(s, s.apis[a.api].owner, a.lookup);
    } else {
      assert Apply(s, a).billing == s.billing;
    }
  }

  lemma ReportCreates(s: State, a: Action, x: Id, org: Id)
    requires Inv(s) && Reports(a, x) && !a.ConfirmApi?
    ensures org in Apply(s, a).billing <==> org in s.billing || Buys(s, a, org, x)
  {
    if IsCompleted(s, x) {
      ReportDeliversOrNot(s, x, a);
      DeliveredIsActivated(s, x);
      var v := s.sessions[x];
      if v.metadata.Platform? {
        ActivateCreates(s, v.metadata.org, v.metadata.plan, v.customer, v.stripeSub);
      }
    } else {
      assert Apply(s, a) == s;
    }
  }

  lemma EventCreates(s: State, e: Event)
    requires !e.SessionCompleted?
    ensures Apply(s, Deliver(e)).billing.Keys == s.billing.Keys
  {
    HandleCreates(s, e);
    assert Apply(s, Deliver(e)).billing == BillingHandle(s, e).billing;
  }

  lemma HandleCreates(s: State, e: Event)
    requires !e.SessionCompleted?
    ensures BillingHandle(s, e).billing.Keys == s.billing.Keys
  {
    if e.SubDeleted? && FindBilling(s.billing, e.stripeSub).Some? {
      DropCreates(s, FindBilling(s.billing, e.stripeSub).value);
    }
  }

  /** Which of these calls use the caller's subscription. */
  lemma CallUses(s: State, a: Action, org: Id)
    requires a.Subscribe? || a.Checkout? || a.CloseInvoice? || a.Onboard?
    ensures Uses(s, a, org) <==> a.org == org && org in s.orgs && (a.Onboard? ==> s.orgs[org].kind == PUBLISHER)
  {
  }

  lemma OnboardCreates(s: State, o: Id)
    ensures DoOnboard(s, o).billing.Keys ==
      s.billing.Keys + if o in s.orgs && s.orgs[o].kind == PUBLISHER then {o} else {}
  {
    EnsureSubCreates(s, o, FREE);
  }

  lemma CallCreates(s: State, a: Action, org: Id)
    requires a.Subscribe? || a.Checkout? || a.CloseInvoice? || a.Onboard?
    ensures org in Apply(s, a).billing <==> org in s.billing || Uses(s, a, org)
  {
    CallUses(s, a, org);
    if Guarded(s, a) {
      match a {
        case Subscribe(o, plan) => EnsureSubCreates(s, o, plan);
        case Checkout(o, plan) => CheckoutCreates(s, o, plan);
        case CloseInvoice(o, used) => CloseCreates(s, o, used);
        case Onboard(o) => OnboardCreates(s, o);
      }
    }
  }

  lemma CloseCreates(s: State, o: Id, used: nat)
    ensures DoCloseInvoice(s, o, used).billing.Keys == s.billing.Keys + {o}
  {
    EnsureSubCreates(s, o, FREE);
  }

  /** An organization has a subscription after a step exactly if it had one or the step used it. */
  lemma HasSubIff(s: State, a: Action, org: Id)
    requires Inv(s)
    ensures org in Apply(s, a).billing <==> org in s.billing || Uses(s, a, org)
  {
    if OutsideBilling(a) {
      OutsideLeavesBilling(s, a);
    } else if a.ConfirmCheckout? {
      ReportCreates(s, a, a.session, org);
    } else if a.Deliver? {
      if a.event.SessionCompleted? {
        ReportCreates(s, a, a.event.session, org);
      } else {
        EventCreates(s, a.event);
      }
    } else if a.SubscribeApi? {
      SubscribeApiCreates(s, a);
    } else if a.CheckPayouts? {
      assert Apply(s, a).billing.Keys == s.billing.Keys;
    } else {
      CallCreates(s, a, org);
    }
  }

  // ----- Over a run ----------------------------------------------------------

  /** Change k is the last one made, and it is to v. */
  predicate LastAt<T(==)>(changes: seq<Option<T>>, k: int, v: T) {
    0 <= k < |changes| && changes[k] == Some(v) && forall j :: k < j < |changes| ==> changes[j] == None
  }

  /** The last change was to v; or there was none, and it is v from the start. */
  ghost predicate Settled<T>(changes: seq<Option<T>>, start: T, v: T) {
    || (exists k :: LastAt(changes, k, v))
    || (start == v && forall k :: 0 <= k < |changes| ==> changes[k] == None)
  }

  lemma SettledNext<T>(changes: seq<Option<T>>, start: T, was: T, change: Option<T>)
    requires Settled(changes, start, was)
    ensures Settled(changes + [change], start, Or(change, was))
  {
    var next := changes + [change];
    if change.Some? {
      assert LastAt(next, |changes|, change.value);
    } else if k :| LastAt(changes, k, was) {
      assert LastAt(next, k, was);
    }
  }

  lemma SettledOnce<T>(changes: seq<Option<T>>, start: T, v: T, w: T)
    requires Settled(changes, start, v) && Settled(changes, start, w)
    ensures v == w
  {
    if k :| LastAt(changes, k, v) {
      if l :| LastAt(changes, l, w) {
        assert k < l ==> changes[l] == None;
        assert l < k ==> changes[k] == None;
      }
    }
  }

  lemma ExecLast(s: State, actions: seq<Action>)
    requires actions != []
    ensures Exec(s, actions) == Apply(Exec(s, ButLast(actions)), Last(actions))
  {
    assert actions == ButLast(actions) + [Last(actions)];
    ExecAppend(s, ButLast(actions), [Last(actions)]);
    ExecCons(Exec(s, ButLast(actions)), Last(actions), []);
  }

  /** What each step of the run changed on the organization's subscription. */
  ghost function Trace(s: State, actions: seq<Action>, org: Id): (t: seq<Changes>)
    ensures |t| == |actions|
  {
    if actions == [] then []
    else Trace(s, ButLast(actions), org) + [ChangesOf(Exec(s, ButLast(actions)), Last(actions), org)]
  }

  /** Each step's entry is what it changed, in the state it was taken in. */
  lemma {:induction false} TraceAt(s: State, actions: seq<Action>, org: Id, k: nat)
    requires k < |actions|
    ensures Trace(s, actions, org)[k] == ChangesOf(Exec(s, actions[..k]), actions[k], org)
  {
    if k < |actions| - 1 {
      TraceAt(s, ButLast(actions), org, k);
      assert ButLast(actions)[..k] == actions[..k];
    }
  }

  function Statuses(t: seq<Changes>): seq<Option<SubStatus>> {
    seq(|t|, i requires 0 <= i < |t| => t[i].status)
  }

  function Links(t: seq<Changes>): seq<Option<Option<Id>>> {
    seq(|t|, i requires 0 <= i < |t| => t[i].link)
  }

  function PayoutFlags(t: seq<Changes>): seq<Option<bool>> {
    seq(|t|, i requires 0 <= i < |t| => t[i].payouts)
  }

  ghost predicate ColumnsSettled(t: seq<Changes>, was: Subscription, row: Subscription) {
    && Settled(Statuses(t), was.status, row.status) && Settled(Links(t), was.stripeSub, row.stripeSub)
    && Settled(PayoutFlags(t), was.payoutsEnabled, row.payoutsEnabled)
  }

  lemma ColumnsSettledNext(t: seq<Changes>, was: Subscription, s: State, s': State, org: Id, c: Changes)
    requires ColumnsSettled(t, was, RowOr(s, org)) && TookChanges(s, s', org, c)
    ensures ColumnsSettled(t + [c], was, RowOr(s', org))
  {
    var row := RowOr(s, org);
    assert Statuses(t + [c]) == Statuses(t) + [c.status];
    assert Links(t + [c]) == Links(t) + [c.link];
    assert PayoutFlags(t + [c]) == PayoutFlags(t) + [c.payouts];
    SettledNext(Statuses(t), was.status, row.status, c.status);
    SettledNext(Links(t), was.stripeSub, row.stripeSub, c.link);
    SettledNext(PayoutFlags(t), was.payoutsEnabled, row.payoutsEnabled, c.payouts);
  }

  lemma {:induction false} RunSettles(s: State, actions: seq<Action>, org: Id)
    requires Inv(s) && AccountsDistinct(s)
    ensures ColumnsSettled(Trace(s, actions, org), RowOr(s, org), RowOr(Exec(s, actions), org))
    decreases |actions|
  {
    if actions != [] {
      var s1 := Exec(s, ButLast(actions));
      RunSettles(s, ButLast(actions), org);
      InvHolds(s, ButLast(actions));
      AccountsHold(s, ButLast(actions));
      ColumnsAfterStep(s1, Last(actions), org);
      ExecLast(s, actions);
      ColumnsSettledNext(Trace(s, ButLast(actions), org), RowOr(s, org), s1, Exec(s, actions), org,
                         ChangesOf(s1, Last(actions), org));
    }
  }

  /** A value that is not the first one is held exactly if the last change was to it. */
  lemma SettledIff<T>(changes: seq<Option<T>>, start: T, v: T, w: T)
    requires Settled(changes, start, v) && w != start
    ensures v == w <==> exists k :: LastAt(changes, k, w)
  {
    if exists k :: LastAt(changes, k, w) {
      SettledOnce(changes, start, v, w);
    }
  }

  /** The changes of the run to an organization's subscription, and the row it ends with. */
  lemma FromStart(enabled: bool, month: int, actions: seq<Action>, org: Id)
    returns (trace: seq<Changes>, row: Subscription)
    requires org in Exec(Init(enabled, month), actions).billing
    ensures trace == Trace(Init(enabled, month), actions, org)
    ensures row == Exec(Init(enabled, month), actions).billing[org]
    ensures Settled(Statuses(trace), ACTIVE, row.status) && Settled(Links(trace), None, row.stripeSub)
    ensures Settled(PayoutFlags(trace), false, row.payoutsEnabled)
  {
    InitInv(enabled, month);
    RunSettles(Init(enabled, month), actions, org);
    trace := Trace(Init(enabled, month), actions, org);
    row := Exec(Init(enabled, month), actions).billing[org];
  }

  /**
   * In every run from the start a subscription is past due if and only if the last
   * step that set its status was a `past_due` or failed-payment report about it.
   */
  lemma PastDueIff(enabled: bool, month: int, actions: seq<Action>, org: Id)
    requires org in Exec(Init(enabled, month), actions).billing
    ensures var changes := Statuses(Trace(Init(enabled, month), actions, org));
      Exec(Init(enabled, month), actions).billing[org].status == PAST_DUE
      <==> exists k :: LastAt(changes, k, PAST_DUE)
  {
    var trace, row := FromStart(enabled, month, actions, org);
    SettledIff(Statuses(trace), ACTIVE, row.status, PAST_DUE);
  }

  /** It is linked to a Stripe subscription if and only if the last step that set its link set that one. */
  lemma LinkedIff(enabled: bool, month: int, actions: seq<Action>, org: Id, i: Id)
    requires org in Exec(Init(enabled, month), actions).billing
    ensures var changes := Links(Trace(Init(enabled, month), actions, org));
      Exec(Init(enabled, month), actions).billing[org].stripeSub == Some(i)
      <==> exists k :: LastAt(changes, k, Some(i))
  {
    var trace, row := FromStart(enabled, month, actions, org);
    SettledIff(Links(trace), None, row.stripeSub, Some(i));
  }

  /** Payouts are stored as enabled if and only if that was Stripe's last answer or report. */
  lemma PayoutsEnabledIff(enabled: bool, month: int, actions: seq<Action>, org: Id)
    requires org in Exec(Init(enabled, month), actions).billing
    ensures var changes := PayoutFlags(Trace(Init(enabled, month), actions, org));
      Exec(Init(enabled, month), actions).billing[org].payoutsEnabled
      <==> exists k :: LastAt(changes, k, true)
  {
    var trace, row := FromStart(enabled, month, actions, org);
    SettledIff(PayoutFlags(trace), false, row.payoutsEnabled, true);
  }
}
