/**
 * Exactly which sessions, records and cancellations a step adds and what it does to
 * the marketplace rows; and that an organization keeps its one Stripe customer.
 */
module PlatformLedger {
  import opened Basics
  import opened Bill
  import opened PlatformModel
  import opened PlatformInvariants
  import opened PlatformResults
  import opened PlatformReplay
  import opened PlatformAccess
  import opened PlatformPlans
  import opened PlatformColumns

  // ----- Sessions ------------------------------------------------------------

  /** The new session is for m, open, and charged to its organization's customer. */
  ghost predicate AddsSession(s: State, s': State, m: Metadata, x: Id) {
    && x !in s.sessions && s.nextId <= x < s'.nextId && m.org in s'.billing && s'.billing[m.org].customer.Some?
    && s'.sessions == s.sessions[x := Session(m, s'.billing[m.org].customer.value, false, None)]
  }

  lemma IssueAdds(s: State, m: Metadata)
    requires m.org in s.billing && s.billing[m.org].customer.Some? && s.nextId !in s.sessions
    ensures AddsSession(s, IssueSession(s, m), m, s.nextId)
  {
  }

  lemma CustomerFirst(s: State, org: Id)
    ensures var s1 := EnsureCustomer(s, org);
      s1.sessions == s.sessions && s.nextId <= s1.nextId && org in s1.billing && s1.billing[org].customer.Some?
  {
    ApplyPlanInside(s, org, FREE);
  }

  lemma CheckoutOpens(s: State, org: Id, plan: Plan) returns (x: Id)
    requires Inv(s) && org in s.orgs && plan != FREE && s.stripeEnabled
    ensures AddsSession(s, DoCheckout(s, org, plan), Platform(org, plan), x)
  {
    ApplyPlanInside(s, org, FREE);
    var s1 := EnsureSub(s, org);
    CustomerFirst(s1, org);
    var s2 := EnsureCustomer(s1, org);
    x := s2.nextId;
    assert SessionInv(s, x);
    IssueAdds(s2, Platform(org, plan));
  }

  lemma PaidSubscribeOpens(s: State, a: Action) returns (x: Id)
    requires Inv(s) && Charged(s, a) && CanBePaid(s, s.apis[a.api].owner, a.lookup)
    ensures AddsSession(s, Apply(s, a), Marketplace(a.org, a.api), x)
  {
    var s1 := DoCheckPayouts(s, s.apis[a.api].owner, a.lookup);
    CustomerFirst(s1, a.org);
    var s2 := EnsureCustomer(s1, a.org);
    x := s2.nextId;
    assert SessionInv(s, x);
    IssueAdds(s2, Marketplace(a.org, a.api));
    assert FindPair(s.rows, a.org, a.api).None? && PayoutsReady(s, s.apis[a.api].owner, a.lookup);
  }

  lemma ClosedCheckout(s: State, org: Id, plan: Plan)
    requires plan == FREE || !s.stripeEnabled
    ensures DoCheckout(s, org, plan).sessions == s.sessions
  {
    ApplyPlanInside(s, org, FREE);
    var s1 := EnsureSub(s, org);
    DowngradeInside(CancelContract(s1, s1.billing[org].stripeSub), org);
  }

  /** A step opens a session exactly for a paid plan or an API to pay for, and then one. */
  lemma SessionsAfterStep(s: State, a: Action)
    requires Inv(s) && !a.Complete?
    ensures match Opens(s, a)
      case None => Apply(s, a).sessions == s.sessions
      case Some(m) => exists x :: AddsSession(s, Apply(s, a), m, x)
  {
    if Opens(s, a).Some? {
      if a.Checkout? {
        var x := CheckoutOpens(s, a.org, a.plan);
        assert AddsSession(s, Apply(s, a), Platform(a.org, a.plan), x);
      } else {
        var x := PaidSubscribeOpens(s, a);
      }
    } else if a.Checkout? {
      if Guarded(s, a) { ClosedCheckout(s, a.org, a.plan); }
    } else if a.SubscribeApi? {
      ClosedSubscribe(s, a);
    } else {
      OtherStepLeavesSessions(s, a);
    }
  }

  lemma ClosedSubscribe(s: State, a: Action)
    requires a.SubscribeApi? && Opens(s, a).None?
    ensures Apply(s, a).sessions == s.sessions
  {
  }

  // ----- One customer per organization ---------------------------------------

  ghost predicate HasCustomer(s: State, org: Id, customer: Id) {
    org in s.billing && s.billing[org].customer == Some(customer)
  }

  /** Every session is charged to its organization's customer, which no other one has. */
  ghost predicate CustomersFit(s: State) {
    && (forall o: Id, c: Id :: HasCustomer(s, o, c) ==> c < s.nextId)
    && (forall o: Id, p: Id, c: Id :: HasCustomer(s, o, c) && HasCustomer(s, p, c) ==> o == p)
    && (forall x :: x in s.sessions ==> ChargedToOwn(s, x))
  }

  /** The session is charged to the customer of the organization it is for. */
  ghost predicate ChargedToOwn(s: State, x: Id) {
    x in s.sessions && HasCustomer(s, s.sessions[x].metadata.org, s.sessions[x].customer)
  }

  /** A customer stays, and a new one is fresh and its organization had none. */
  lemma CustomerAfterStep(s: State, a: Action, org: Id, c: Id)
    requires Inv(s) && AccountsDistinct(s) && CustomersFit(s)
    ensures HasCustomer(s, org, c) ==> HasCustomer(Apply(s, a), org, c)
    ensures HasCustomer(Apply(s, a), org, c) ==>
      HasCustomer(s, org, c) || (Opens(s, a).Some? && Opens(s, a).value.org == org && c == s.nextId)
  {
    ColumnsAfterStep(s, a, org);
    if Bought(s, a, org).Some? {
      var x := if a.ConfirmCheckout? then a.session else a.event.session;
      assert s.sessions[x] == Bought(s, a, org).value && ChargedToOwn(s, x);
    }
  }

  /** No two organizations share a customer after the step. */
  lemma CustomersStayDistinct(s: State, a: Action)
    requires Inv(s) && AccountsDistinct(s) && CustomersFit(s)
    ensures forall o: Id, p: Id, c: Id :: HasCustomer(Apply(s, a), o, c) && HasCustomer(Apply(s, a), p, c) ==> o == p
  {
    var s' := Apply(s, a);
    forall o: Id, p: Id, c: Id | HasCustomer(s', o, c) && HasCustomer(s', p, c) ensures o == p {
      CustomerAfterStep(s, a, o, c);
      CustomerAfterStep(s, a, p, c);
    }
  }

  lemma StepKeepsCustomers(s: State, a: Action)
    requires Inv(s) && AccountsDistinct(s) && CustomersFit(s)
    ensures CustomersFit(Apply(s, a))
  {
    var s' := Apply(s, a);
    IdGrows(s, a);
    if !a.Complete? { SessionsAfterStep(s, a); }
    CustomersStayDistinct(s, a);
    forall o: Id, c: Id | HasCustomer(s', o, c) ensures c < s'.nextId {
      CustomerAfterStep(s, a, o, c);
    }
    forall x | x in s'.sessions ensures ChargedToOwn(s', x) {
      if x in s.sessions { StaysCharged(s, a, x); }
    }
  }

  lemma StaysCharged(s: State, a: Action, x: Id)
    requires Inv(s) && AccountsDistinct(s) && CustomersFit(s) && x in s.sessions
    ensures ChargedToOwn(Apply(s, a), x)
  {
    SessionKeepsCustomer(s, a, x);
    assert ChargedToOwn(s, x);
    CustomerAfterStep(s, a, s.sessions[x].metadata.org, s.sessions[x].customer);
  }

  lemma SessionKeepsCustomer(s: State, a: Action, x: Id)
    requires Inv(s) && x in s.sessions
    ensures var s' := Apply(s, a);
      && x in s'.sessions && s'.sessions[x].metadata == s.sessions[x].metadata
      && s'.sessions[x].customer == s.sessions[x].customer
  {
    if !a.Complete? { SessionsAfterStep(s, a); }
  }

  /** In every run each session is charged to its organization's own customer. */
  lemma {:induction false} CustomersHold(s: State, actions: seq<Action>)
    requires Inv(s) && AccountsDistinct(s) && CustomersFit(s)
    ensures CustomersFit(Exec(s, actions))
    decreases |actions|
  {
    if actions != [] {
      StepKeepsCustomers(s, actions[0]);
      StepKeepsInv(s, actions[0]);
      StepKeepsAccounts(s, actions[0]);
      CustomersHold(Apply(s, actions[0]), actions[1..]);
    }
  }

  /** So from the start: no two organizations share a customer, and every session is charged to its own. */
  lemma OneCustomerEach(enabled: bool, month: int, actions: seq<Action>, x: Id)
    ensures var s := Exec(Init(enabled, month), actions);
      && (x in s.sessions ==> HasCustomer(s, s.sessions[x].metadata.org, s.sessions[x].customer))
      && forall o: Id, p: Id, c: Id :: HasCustomer(s, o, c) && HasCustomer(s, p, c) ==> o == p
  {
    InitInv(enabled, month);
    CustomersHold(Init(enabled, month), actions);
    assert x in Exec(Init(enabled, month), actions).sessions ==> ChargedToOwn(Exec(Init(enabled, month), actions), x);
  }

  /** An organization keeps its Stripe customer and its payout account for good. */
  lemma {:induction false} CustomerAndAccountKept(s: State, actions: seq<Action>, org: Id)
    requires Inv(s) && AccountsDistinct(s) && CustomersFit(s) && org in s.billing
    ensures var row := s.billing[org];
      org in Exec(s, actions).billing && var row' := Exec(s, actions).billing[org];
      && (row.customer.Some? ==> row'.customer == row.customer)
      && (row.connect.Some? ==> row'.connect == row.connect)
    decreases |actions|
  {
    if actions != [] {
      var c := Or(s.billing[org].customer, 0);
      ColumnsAfterStep(s, actions[0], org);
      CustomerAfterStep(s, actions[0], org, c);
      StepKeepsCustomers(s, actions[0]);
      StepKeepsInv(s, actions[0]);
      StepKeepsAccounts(s, actions[0]);
      CustomerAndAccountKept(Apply(s, actions[0]), actions[1..], org);
    }
  }

  // ----- Cancellations -------------------------------------------------------

  /** The Stripe subscription a call asks Stripe to cancel: the one of the plan or row it gives up. */
  function Ends(s: State, a: Action): Option<Id> {
    match a
    case Checkout(org, plan) =>
      if org in s.orgs && plan == FREE && s.stripeEnabled then RowOr(s, org).stripeSub else None
    case Unsubscribe(org, r) =>
      if r in s.rows && s.rows[r].org == org && s.stripeEnabled then s.rows[r].stripeSub else None
    case _ => None
  }

  lemma CheckoutEnds(s: State, org: Id, plan: Plan)
    ensures DoCheckout(s, org, plan).canceled ==
      if plan == FREE && s.stripeEnabled && RowOr(s, org).stripeSub.Some? then
        s.canceled + {RowOr(s, org).stripeSub.value}
      else s.canceled
  {
    EnsureSubTakes(s, org, org);
    ApplyPlanInside(s, org, FREE);
    var s1 := EnsureSub(s, org);
    if plan == FREE {
      DowngradeInside(CancelContract(s1, s1.billing[org].stripeSub), org);
    } else {
      CustomerLeavesRows(s1, org);
    }
  }

  /** Only a downgrade and an unsubscription cancel at Stripe, and exactly what they give up. */
  lemma CanceledAfterStep(s: State, a: Action)
    requires Inv(s)
    ensures Apply(s, a).canceled == s.canceled + if Ends(s, a).Some? then {Ends(s, a).value} else {}
  {
    if OutsideMarket(a) {
      OutsideLeavesRows(s, a);
    } else {
      match a {
        case Checkout(org, plan) => if org in s.orgs { CheckoutEnds(s, org, plan); }
        case SubscribeApi(org, api, lookup) => SubscribeApiRows(s, org, api, lookup);
        case Unsubscribe(_, _) =>
        case ConfirmApi(_, x) => ReportRows(s, a, x);
        case Deliver(e) => if e.SessionCompleted? { ReportRows(s, a, e.session); } else { OtherEventRows(s, e); }
      }
    }
  }

  // ----- Records -------------------------------------------------------------

  /** The open record of a closed invoice: the subscription's plan and month, and what its plan charges. */
  ghost predicate Closes(s: State, org: Id, used: nat, r: BillingRecord) {
    && r.org == org && r.status == OPEN && r.plan == RowOr(s, org).plan && r.period == RowOr(s, org).period
    && Charges(TermsOf(r.plan), used, r.usage)
  }

  /** The record of a paid Stripe invoice: the amount is the whole of it, and no usage is billed. */
  ghost predicate RecordsPayment(s: State, org: Id, amount: nat, r: BillingRecord) {
    && org in s.billing && r.org == org && r.status == PAID
    && r.plan == s.billing[org].plan && r.period == s.billing[org].period
    && r.usage.included == TermsOf(r.plan).monthlyQuota && r.usage.used == 0 && r.usage.overage == 0
    && r.usage.baseCost == amount && r.usage.overageCost == 0 && r.usage.totalCost == amount
  }

  ghost predicate PaysFor(s: State, a: Action, org: Id) {
    a.Deliver? && a.event.InvoicePaid? && LinkedTo(s, org, a.event.invoiceSub)
  }

  lemma CloseRecords(s: State, org: Id, used: nat) returns (r: BillingRecord)
    requires Inv(s) && org in s.orgs
    ensures DoCloseInvoice(s, org, used).records == s.records + [r] && Closes(s, org, used, r)
  {
    EnsureSubKeeps(s, org);
    ApplyPlanInside(s, org, FREE);
    EnsureSubTouches(s, org, org);
    var sub := EnsureSub(s, org).billing[org];
    r := OpenRecord(org, sub, used);
    OpenRecordFits(org, sub, used);
  }

  lemma PaymentRecords(s: State, a: Action, org: Id) returns (r: BillingRecord)
    requires Inv(s) && PaysFor(s, a, org)
    ensures Apply(s, a).records == s.records + [r] && RecordsPayment(s, org, a.event.amount, r)
  {
    FoundIsLinked(s, a.event.invoiceSub.value, org);
    assert SubInv(s, org);
    r := PaidRecord(org, s.billing[org], a.event.amount);
    MarketLeavesRecords(BillingHandle(s, a.event), a.event);
  }

  lemma NoPaymentRecords(s: State, a: Action)
    requires Inv(s) && a.Deliver? && forall org :: !PaysFor(s, a, org)
    ensures Apply(s, a).records == s.records
  {
    MarketLeavesRecords(BillingHandle(s, a.event), a.event);
    if a.event.InvoicePaid? {
      if a.event.invoiceSub.Some? && FindBilling(s.billing, a.event.invoiceSub.value).Some? {
        assert PaysFor(s, a, FindBilling(s.billing, a.event.invoiceSub.value).value);
      }
    } else {
      BillingLeavesMarket(s, a.event);
    }
  }

  /** A step appends a record exactly if it closes an invoice or pays one of a linked subscription. */
  lemma RecordsAfterStep(s: State, a: Action)
    requires Inv(s)
    ensures a.CloseInvoice? && a.org in s.orgs ==>
      exists r :: Apply(s, a).records == s.records + [r] && Closes(s, a.org, a.used, r)
    ensures forall org :: PaysFor(s, a, org) ==>
      exists r :: Apply(s, a).records == s.records + [r] && RecordsPayment(s, org, a.event.amount, r)
    ensures !(a.CloseInvoice? && a.org in s.orgs) && (forall org :: !PaysFor(s, a, org)) ==>
      Apply(s, a).records == s.records
  {
    if a.CloseInvoice? {
      if a.org in s.orgs { var r := CloseRecords(s, a.org, a.used); }
    } else if a.Deliver? {
      forall org | PaysFor(s, a, org)
        ensures exists r :: Apply(s, a).records == s.records + [r] && RecordsPayment(s, org, a.event.amount, r)
      {
        var r := PaymentRecords(s, a, org);
      }
      if forall org :: !PaysFor(s, a, org) { NoPaymentRecords(s, a); }
    } else {
      CallLeavesRecords(s, a);
    }
  }

  // ----- Marketplace rows ----------------------------------------------------

  /** The completed marketplace session the step reports, if its report counts. */
  function Activated(s: State, a: Action): Option<Session> {
    if a.ConfirmApi? && Activates(s, a, a.session) then Some(s.sessions[a.session])
    else if a.Deliver? && a.event.SessionCompleted? && Activates(s, a, a.event.session) then
      Some(s.sessions[a.event.session])
    else None
  }

  /** A counting report activates its pair's row; a deletion report cancels the row it is linked to. */
  function RowStatusSet(s: State, a: Action, row: MarketRow): Option<SubStatus> {
    match Activated(s, a)
    case Some(x) => if x.metadata == Marketplace(row.org, row.api) then Some(ACTIVE) else None
    case None =>
      if a.Deliver? && a.event.SubDeleted? && row.stripeSub == Some(a.event.stripeSub) then Some(CANCELED) else None
  }

  function RowLinkSet(s: State, a: Action, row: MarketRow): Option<Option<Id>> {
    match Activated(s, a)
    case Some(x) => if x.metadata == Marketplace(row.org, row.api) then Some(x.stripeSub) else None
    case None => None
  }

  /** A row leaves exactly when its own organization unsubscribes; otherwise it takes exactly these changes. */
  ghost predicate RowOutcome(s: State, a: Action, r: Id) {
    r in s.rows ==>
      var row := s.rows[r];
      if a == Unsubscribe(row.org, r) then r !in Apply(s, a).rows
      else
        r in Apply(s, a).rows && Apply(s, a).rows[r] ==
          MarketRow(row.org, row.api, Or(RowStatusSet(s, a, row), row.status), Or(RowLinkSet(s, a, row), row.stripeSub))
  }

  /** A new row is active: granted at once and linked to nothing, or to what its session paid for. */
  ghost predicate NewRowOutcome(s: State, a: Action, r: Id) {
    r in Apply(s, a).rows && r !in s.rows ==>
      var row := Apply(s, a).rows[r];
      && row.status == ACTIVE && !HasRow(s, row.org, row.api)
      && if Activated(s, a).Some? then
           row.stripeSub == Activated(s, a).value.stripeSub
           && Activated(s, a).value.metadata == Marketplace(row.org, row.api)
         else GrantsFree(s, a, row.org, row.api) && row.stripeSub == None
  }

  lemma ActivationRewrites(s: State, a: Action, x: Id, r: Id)
    requires Inv(s) && Reports(a, x) && !a.ConfirmCheckout? && r in s.rows
    ensures RowOutcome(s, a, r)
  {
    ReportRows(s, a, x);
    if Activates(s, a, x) { ActivatedAt(s, x, r); }
  }

  lemma ActivationAdds(s: State, a: Action, x: Id, r: Id)
    requires Inv(s) && Reports(a, x) && !a.ConfirmCheckout? && r !in s.rows
    ensures NewRowOutcome(s, a, r)
  {
    ReportRows(s, a, x);
    if Activates(s, a, x) { ActivatedNew(s, x, r); }
  }

  lemma ActivatedNew(s: State, x: Id, r: Id)
    requires IsCompleted(s, x) && s.sessions[x].metadata.Marketplace? && r !in s.rows
    ensures var m, rows := s.sessions[x].metadata, ActivateMarketSession(s, x).rows;
      r in rows ==> rows[r] == MarketRow(m.org, m.api, ACTIVE, s.sessions[x].stripeSub) && !HasRow(s, m.org, m.api)
  {
  }

  lemma ActivationOutcome(s: State, a: Action, x: Id, r: Id)
    requires Inv(s) && Reports(a, x) && !a.ConfirmCheckout?
    ensures RowOutcome(s, a, r) && NewRowOutcome(s, a, r)
  {
    if r in s.rows {
      ActivationRewrites(s, a, x, r);
      assert NewRowOutcome(s, a, r);
    } else {
      ActivationAdds(s, a, x, r);
      assert RowOutcome(s, a, r);
    }
  }

  /** Activation rewrites the row of its pair and no other. */
  lemma ActivatedAt(s: State, x: Id, r: Id)
    requires Inv(s) && IsCompleted(s, x) && s.sessions[x].metadata.Marketplace? && r in s.rows
    ensures var m, rows := s.sessions[x].metadata, ActivateMarketSession(s, x).rows;
      r in rows && rows[r] == if IsPair(s.rows, r, m.org, m.api)
                              then MarketRow(m.org, m.api, ACTIVE, s.sessions[x].stripeSub) else s.rows[r]
  {
    var m := s.sessions[x].metadata;
    assert RowInv(s, s.nextId);
    var q := FindPair(s.rows, m.org, m.api);
    if IsPair(s.rows, r, m.org, m.api) {
      assert q == Some(r);
    } else {
      assert q != Some(r);
    }
  }

  lemma DeletionOutcome(s: State, a: Action, r: Id)
    requires Inv(s) && a.Deliver? && !a.event.SessionCompleted?
    ensures RowOutcome(s, a, r) && NewRowOutcome(s, a, r)
  {
    var e := a.event;
    BillingLeavesMarket(s, e);
    if e.SubDeleted? && RowHasContract(s.rows, r, e.stripeSub) {
      RowOwnerUnique(s, e.stripeSub, r, FindRow(s.rows, e.stripeSub).value);
    }
  }

  lemma SubscribeOutcome(s: State, a: Action, r: Id)
    requires Inv(s) && a.SubscribeApi?
    ensures RowOutcome(s, a, r) && NewRowOutcome(s, a, r)
  {
    SubscribeApiRows(s, a.org, a.api, a.lookup);
    assert RowInv(s, s.nextId);
  }

  lemma UnsubscribeOutcome(s: State, a: Action, r: Id)
    requires a.Unsubscribe?
    ensures RowOutcome(s, a, r) && NewRowOutcome(s, a, r)
  {
  }

  /** Exactly what a step does to each marketplace row, and what a new row is. */
  lemma RowsAfterStep(s: State, a: Action, r: Id)
    requires Inv(s)
    ensures RowOutcome(s, a, r) && NewRowOutcome(s, a, r)
  {
    if OutsideMarket(a) {
      OutsideLeavesRows(s, a);
    } else if a.ConfirmApi? {
      ActivationOutcome(s, a, a.session, r);
    } else if a.Deliver? && a.event.SessionCompleted? {
      ActivationOutcome(s, a, a.event.session, r);
    } else if a.Deliver? {
      DeletionOutcome(s, a, r);
    } else if a.SubscribeApi? {
      SubscribeOutcome(s, a, r);
    } else if a.Unsubscribe? {
      UnsubscribeOutcome(s, a, r);
    } else {
      if Guarded(s, a) { CheckoutLeavesRows(s, a.org, a.plan); }
    }
  }
}
