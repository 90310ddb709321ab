/** Repeated, reordered and late Stripe events. */
module PlatformReplay {
  import opened Basics
  import opened Bill
  import opened PlatformModel
  import opened PlatformInvariants
  import opened PlatformResults

  // ----- Confirm and webhook for one session ---------------------------------

  /** The action reports that this session is done: its webhook, or a confirm call by anyone. */
  predicate Reports(a: Action, x: Id) {
    || a == Deliver(SessionCompleted(x))
    || (a.ConfirmCheckout? && a.session == x)
    || (a.ConfirmApi? && a.session == x)
  }

  /** The report is the webhook, or a confirm call by the organization the session is for. */
  predicate Counts(m: Metadata, a: Action) {
    || a.Deliver?
    || (a.ConfirmCheckout? && m.Platform? && a.org == m.org)
    || (a.ConfirmApi? && m.Marketplace? && a.org == m.org)
  }

  ghost function Delivered(s: State, x: Id): State {
    Apply(s, Deliver(SessionCompleted(x)))
  }

  lemma ReportDeliversOrNot(s: State, x: Id, a: Action)
    requires Inv(s) && IsCompleted(s, x) && Reports(a, x)
    ensures Apply(s, a) == if Counts(s.sessions[x].metadata, a) then Delivered(s, x) else s
  {
    assert SessionInv(s, x);
    DeliveredIsActivated(s, x);
  }

  lemma DeliveredIsActivated(s: State, x: Id)
    requires IsCompleted(s, x)
    ensures Delivered(s, x) ==
      if s.sessions[x].metadata.Platform? then ActivateSession(s, x) else ActivateMarketSession(s, x)
  {
    if s.sessions[x].metadata.Platform? {
      BillingLeavesMarket(s, SessionCompleted(x));
      assert BillingHandle(s, SessionCompleted(x)) == ActivateSession(s, x);
    } else {
      assert BillingHandle(s, SessionCompleted(x)) == s;
    }
  }

  lemma PlanTwice(s: State, org: Id, plan: Plan, customer: Id, stripeSub: Option<Id>)
    requires org in s.orgs
    ensures var s1 := Activate(s, org, plan, customer, stripeSub); Activate(s1, org, plan, customer, stripeSub) == s1
  {
    var s1 := Activate(s, org, plan, customer, stripeSub);
    var s2 := Activate(s1, org, plan, customer, stripeSub);
    assert s1.orgs[org] == s2.orgs[org] && s1.billing[org] == s2.billing[org];
    assert s2.orgs == s1.orgs && s2.billing == s1.billing;
  }

  lemma RowTwice(s: State, org: Id, api: Id, stripeSub: Option<Id>)
    requires OnePerPair(s) && forall r :: r in s.rows ==> r < s.nextId
    ensures var s1 := ActivateRow(s, org, api, stripeSub); ActivateRow(s1, org, api, stripeSub) == s1
  {
    var s1 := ActivateRow(s, org, api, stripeSub);
    var r := if FindPair(s.rows, org, api).Some? then FindPair(s.rows, org, api).value else s.nextId;
    assert IsPair(s1.rows, r, org, api);
    forall q | IsPair(s1.rows, q, org, api) ensures q == r {
      assert q == r || IsPair(s.rows, q, org, api);
    }
    assert s1.rows[r] == s1.rows[r].(status := ACTIVE, stripeSub := stripeSub);
    assert s1.rows[r := s1.rows[r]] == s1.rows;
  }

  lemma DeliveredTwice(s: State, x: Id)
    requires Inv(s) && IsCompleted(s, x)
    ensures Delivered(Delivered(s, x), x) == Delivered(s, x) && Inv(Delivered(s, x))
    ensures IsCompleted(Delivered(s, x), x) && Delivered(s, x).sessions[x] == s.sessions[x]
  {
    StepKeepsInv(s, Deliver(SessionCompleted(x)));
    assert SessionInv(s, x);
    var v := s.sessions[x];
    if v.metadata.Platform? {
      ActivateInside(s, v.metadata.org, v.metadata.plan, v.customer, v.stripeSub);
      PlanTwice(s, v.metadata.org, v.metadata.plan, v.customer, v.stripeSub);
    } else {
      forall r | r in s.rows ensures r < s.nextId { assert RowInv(s, r); }
      RowTwice(s, v.metadata.org, v.metadata.api, v.stripeSub);
    }
  }

  /**
   * Confirm calls and webhooks for one session, in any order and number with
   * nothing in between, leave the state that one webhook leaves, as soon as one
   * of them counts.
   */
  lemma {:induction false} AnyReportsAreOne(s: State, x: Id, actions: seq<Action>)
    requires Inv(s) && IsCompleted(s, x)
    requires forall i :: 0 <= i < |actions| ==> Reports(actions[i], x)
    ensures Exec(s, actions) ==
      if exists i :: 0 <= i < |actions| && Counts(s.sessions[x].metadata, actions[i]) then Delivered(s, x) else s
    decreases |actions|
  {
    if actions != [] {
      var m := s.sessions[x].metadata;
      var a, rest := actions[0], actions[1..];
      ReportDeliversOrNot(s, x, a);
      DeliveredTwice(s, x);
      AnyReportsAreOne(Apply(s, a), x, rest);
      if exists i :: 0 <= i < |rest| && Counts(m, rest[i]) {
        var i :| 0 <= i < |rest| && Counts(m, rest[i]);
        assert Counts(m, actions[i + 1]);
      }
      if !Counts(m, a) && exists i :: 0 <= i < |actions| && Counts(m, actions[i]) {
        var i :| 0 <= i < |actions| && Counts(m, actions[i]);
        assert Counts(m, rest[i - 1]);
      }
    }
  }

  // ----- Repeated events -----------------------------------------------------

  lemma SubDeletedTwice(s: State, i: Id)
    requires Inv(s)
    ensures var s1 := BillingHandle(s, SubDeleted(i)); BillingHandle(s1, SubDeleted(i)) == s1
  {
    var o := FindBilling(s.billing, i);
    if o.Some? {
      assert SubInv(s, o.value);
      var s1 := Downgrade(s, o.value);
      forall p ensures !HasContract(s1.billing, p, i) {
        if HasContract(s.billing, p, i) { BillingOwnerUnique(s, i, o.value, p); }
      }
    }
  }

  lemma StatusTwice(s: State, e: Event)
    requires Inv(s) && (e.SubUpdated? || e.PaymentFailed?)
    ensures BillingHandle(BillingHandle(s, e), e) == BillingHandle(s, e)
  {
    if e.SubUpdated? || e.invoiceSub.Some? {
      var i := if e.SubUpdated? then e.stripeSub else e.invoiceSub.value;
      var o := FindBilling(s.billing, i);
      if o.Some? {
        var s1 := BillingHandle(s, e);
        assert HasContract(s1.billing, o.value, i);
        forall p | HasContract(s1.billing, p, i) ensures p == o.value {
          assert HasContract(s.billing, p, i);
          BillingOwnerUnique(s, i, o.value, p);
        }
        assert BillingHandle(s1, e).billing == s1.billing;
      }
    }
  }

  lemma SessionTwice(s: State, x: Id)
    requires Inv(s)
    ensures var s1 := BillingHandle(s, SessionCompleted(x)); BillingHandle(s1, SessionCompleted(x)) == s1
  {
    if IsCompleted(s, x) && s.sessions[x].metadata.Platform? {
      assert SessionInv(s, x);
      var v := s.sessions[x];
      ActivateInside(s, v.metadata.org, v.metadata.plan, v.customer, v.stripeSub);
      PlanTwice(s, v.metadata.org, v.metadata.plan, v.customer, v.stripeSub);
    }
  }

  /** The invoice is for the Stripe subscription of this organization. */
  ghost predicate Bills(s: State, e: Event, org: Id)
    requires e.InvoicePaid?
  {
    e.invoiceSub.Some? && HasContract(s.billing, org, e.invoiceSub.value)
  }

  /** A paid invoice appends its record to the linked organization, and changes nothing without one. */
  lemma InvoiceAppends(s: State, e: Event)
    requires Inv(s) && e.InvoicePaid?
    ensures forall o :: Bills(s, e, o) ==>
      BillingHandle(s, e) == s.(records := s.records + [PaidRecord(o, s.billing[o], e.amount)])
    ensures (forall o :: !Bills(s, e, o)) ==> BillingHandle(s, e) == s
  {
    forall o | Bills(s, e, o)
      ensures BillingHandle(s, e) == s.(records := s.records + [PaidRecord(o, s.billing[o], e.amount)])
    {
      BillingOwnerUnique(s, e.invoiceSub.value, o, FindBilling(s.billing, e.invoiceSub.value).value);
    }
    if forall o :: !Bills(s, e, o) {
      if e.invoiceSub.Some? && FindBilling(s.billing, e.invoiceSub.value).Some? {
        assert Bills(s, e, FindBilling(s.billing, e.invoiceSub.value).value);
      }
    }
  }

  lemma InvoiceTwice(s: State, e: Event)
    requires Inv(s) && e.InvoicePaid?
    ensures forall o :: Bills(s, e, o) ==>
      var r := PaidRecord(o, s.billing[o], e.amount);
      BillingHandle(s, e) == s.(records := s.records + [r])
      && BillingHandle(BillingHandle(s, e), e) == s.(records := s.records + [r] + [r])
    ensures (forall o :: !Bills(s, e, o)) ==> BillingHandle(s, e) == s
  {
    InvoiceAppends(s, e);
    BillingHandleKeeps(s, e);
    InvoiceAppends(BillingHandle(s, e), e);
    forall o | Bills(s, e, o) ensures Bills(BillingHandle(s, e), e, o) {}
  }

  lemma EventTwice(s: State, e: Event)
    requires Inv(s) && AccountsDistinct(s) && !e.InvoicePaid?
    ensures BillingHandle(BillingHandle(s, e), e) == BillingHandle(s, e)
  {
    match e {
      case SessionCompleted(x) => SessionTwice(s, x);
      case SubDeleted(i) => SubDeletedTwice(s, i);
      case AccountUpdated(account, ready) => AccountTwice(s, account, ready);
      case _ => StatusTwice(s, e);
    }
  }

  lemma AccountTwice(s: State, account: Id, ready: bool)
    requires forall o, p :: HasAccount(s.billing, o, account) && HasAccount(s.billing, p, account) ==> o == p
    ensures var e := AccountUpdated(account, ready); BillingHandle(BillingHandle(s, e), e) == BillingHandle(s, e)
  {
    var e := AccountUpdated(account, ready);
    var o := FindAccount(s.billing, account);
    if o.Some? {
      var s1 := BillingHandle(s, e);
      assert HasAccount(s1.billing, o.value, account);
      forall p | HasAccount(s1.billing, p, account) ensures p == o.value {
        assert HasAccount(s.billing, p, account);
      }
      assert BillingHandle(s1, e).billing == s1.billing;
    }
  }

  // ----- Superseded and dropped subscriptions --------------------------------

  /** No billing row is linked to this Stripe subscription. */
  ghost predicate Unlinked(s: State, i: Id) {
    forall o :: !HasContract(s.billing, o, i)
  }

  /** Moving to another Stripe subscription unlinks the old one, and does not cancel it at Stripe. */
  lemma SupersedeUnlinks(s: State, x: Id, i: Id)
    requires Inv(s) && IsCompleted(s, x) && s.sessions[x].metadata.Platform?
    requires s.sessions[x].stripeSub.Some? && s.sessions[x].stripeSub.value != i
    requires HasContract(s.billing, s.sessions[x].metadata.org, i)
    ensures Unlinked(ActivateSession(s, x), i) && ActivateSession(s, x).canceled == s.canceled
  {
    assert SessionInv(s, x);
    var v := s.sessions[x];
    var s1 := ActivateSession(s, x);
    ActivateInside(s, v.metadata.org, v.metadata.plan, v.customer, v.stripeSub);
    forall p ensures !HasContract(s1.billing, p, i) {
      if HasContract(s.billing, p, i) { BillingOwnerUnique(s, i, v.metadata.org, p); }
    }
  }

  /** Dropping to FREE cancels the Stripe subscription and unlinks it. */
  lemma DropUnlinks(s: State, org: Id, i: Id)
    requires Inv(s) && s.stripeEnabled && HasContract(s.billing, org, i)
    ensures var s1 := Apply(s, Checkout(org, FREE));
      Unlinked(s1, i) && i in s1.canceled && s1.billing[org].plan == FREE && s1.orgs[org].plan == FREE
  {
    assert SubInv(s, org);
    var s0 := CancelContract(s, Some(i));
    var s1 := Apply(s, Checkout(org, FREE));
    assert s1 == Downgrade(s0, org);
    DowngradeInside(s0, org);
    forall p ensures !HasContract(s1.billing, p, i) {
      if HasContract(s.billing, p, i) { BillingOwnerUnique(s, i, org, p); }
    }
  }

  /** A deletion event is ignored by billing exactly if no row is linked to the subscription. */
  lemma DeletionIgnoredIff(s: State, i: Id)
    requires Inv(s)
    ensures BillingHandle(s, SubDeleted(i)) == s <==> Unlinked(s, i)
  {
    var o := FindBilling(s.billing, i);
    if o.Some? {
      assert SubInv(s, o.value) && HasContract(s.billing, o.value, i);
      assert !HasContract(BillingHandle(s, SubDeleted(i)).billing, o.value, i);
    }
  }

  /** The step is a report that counts, of a completed plan session behind this Stripe subscription. */
  ghost predicate Relinks(s: State, a: Action, i: Id) {
    exists x :: RelinksBy(s, a, i, x)
  }

  predicate RelinksBy(s: State, a: Action, i: Id, x: Id) {
    && Reports(a, x) && IsCompleted(s, x) && s.sessions[x].metadata.Platform? && s.sessions[x].stripeSub == Some(i)
    && Counts(s.sessions[x].metadata, a)
  }

  ghost predicate NeverRelinked(s: State, actions: seq<Action>, i: Id)
    decreases |actions|
  {
    actions != [] ==> !Relinks(s, actions[0], i) && NeverRelinked(Apply(s, actions[0]), actions[1..], i)
  }

  /** Unlinked now and after every step. */
  ghost predicate AlwaysUnlinked(s: State, actions: seq<Action>, i: Id)
    decreases |actions|
  {
    Unlinked(s, i) && (actions != [] ==> AlwaysUnlinked(Apply(s, actions[0]), actions[1..], i))
  }

  /** Billing rows keep or drop their Stripe subscription and their payout account, and gain none. */
  ghost predicate NoNewLinks(s: State, s': State) {
    && (forall o, i :: HasContract(s'.billing, o, i) ==> HasContract(s.billing, o, i))
    && NoNewAccounts(s, s')
  }

  ghost predicate NoNewAccounts(s: State, s': State) {
    forall o, a :: HasAccount(s'.billing, o, a) ==> HasAccount(s.billing, o, a)
  }

  /** Writing one row that keeps or drops the links it had. */
  lemma PutSubLinksNothing(s: State, org: Id, sub: Subscription)
    requires var was := if org in s.billing then s.billing[org] else BLANK_SUBSCRIPTION;
      sub.stripeSub in {None, was.stripeSub} && sub.connect in {None, was.connect}
    ensures NoNewLinks(s, PutSub(s, org, sub))
  {
  }

  lemma PlanLinksNothing(s: State, org: Id, plan: Plan)
    ensures NoNewLinks(s, ApplyPlan(s, org, plan)) && NoNewLinks(s, EnsureSub(s, org))
  {
    var was := if org in s.billing then s.billing[org] else BLANK_SUBSCRIPTION;
    PutSubLinksNothing(s, org, Stamped(was, plan, s.month));
    PutSubLinksNothing(s, org, Stamped(was, FREE, s.month));
  }

  lemma DowngradeLinksNothing(s: State, org: Id)
    ensures NoNewLinks(s, Downgrade(s, org))
  {
    PlanLinksNothing(s, org, FREE);
    var s1 := ApplyPlan(s, org, FREE);
    PutSubLinksNothing(s1, org, s1.billing[org].(stripeSub := None));
  }

  lemma CustomerLinksNothing(s: State, org: Id)
    ensures NoNewLinks(s, EnsureCustomer(s, org))
  {
    PlanLinksNothing(s, org, FREE);
    var s1 := EnsureSub(s, org);
    var sub := s1.billing[org].(customer := Some(s1.nextId));
    PutSubLinksNothing(s1, org, sub);
    assert EnsureCustomer(s, org).billing in {s1.billing, PutSub(s1, org, sub).billing};
  }

  lemma CheckoutLinksNothing(s: State, org: Id, plan: Plan)
    ensures NoNewLinks(s, DoCheckout(s, org, plan))
  {
    var s1 := EnsureSub(s, org);
    PlanLinksNothing(s, org, plan);
    CustomerLinksNothing(s1, org);
    DowngradeLinksNothing(CancelContract(s1, s1.billing[org].stripeSub), org);
  }

  lemma PayoutsLinkNothing(s: State, org: Id, lookup: Option<bool>)
    ensures NoNewLinks(s, DoCheckPayouts(s, org, lookup))
  {
    if org in s.billing && lookup.Some? {
      PutSubLinksNothing(s, org, s.billing[org].(payoutsEnabled := lookup.value));
    }
  }

  lemma SubscribeApiLinksNothing(s: State, org: Id, api: Id, lookup: Option<bool>)
    ensures NoNewLinks(s, DoSubscribeApi(s, org, api, lookup))
  {
    if api in s.apis {
      PayoutsLinkNothing(s, s.apis[api].owner, lookup);
      CustomerLinksNothing(DoCheckPayouts(s, s.apis[api].owner, lookup), org);
    }
  }

  lemma EventLinksNothing(s: State, e: Event)
    requires !e.SessionCompleted?
    ensures NoNewLinks(s, BillingHandle(s, e))
  {
    match e {
      case SubDeleted(i) =>
        if FindBilling(s.billing, i).Some? { DowngradeLinksNothing(s, FindBilling(s.billing, i).value); }
      case SubUpdated(i, status) =>
        var o := FindBilling(s.billing, i);
        if o.Some? { PutSubLinksNothing(s, o.value, Restated(s.billing[o.value], status)); }
      case InvoicePaid(_, _) =>
      case PaymentFailed(i) =>
        if i.Some? && FindBilling(s.billing, i.value).Some? {
          var o := FindBilling(s.billing, i.value).value;
          PutSubLinksNothing(s, o, s.billing[o].(status := PAST_DUE));
        }
      case AccountUpdated(account, ready) =>
        var o := FindAccount(s.billing, account);
        if o.Some? { PutSubLinksNothing(s, o.value, s.billing[o.value].(payoutsEnabled := ready)); }
    }
  }

  lemma ReportLinksItsOwn(s: State, x: Id, i: Id)
    requires IsCompleted(s, x) && s.sessions[x].metadata.Platform?
    ensures NoNewAccounts(s, ActivateSession(s, x))
    ensures s.sessions[x].stripeSub != Some(i) && Unlinked(s, i) ==> Unlinked(ActivateSession(s, x), i)
  {
    var v := s.sessions[x];
    var s1 := ApplyPlan(s, v.metadata.org, v.metadata.plan);
    PlanLinksNothing(s, v.metadata.org, v.metadata.plan);
    forall o, a | HasAccount(ActivateSession(s, x).billing, o, a) ensures HasAccount(s1.billing, o, a) {}
    if Unlinked(s, i) && v.stripeSub != Some(i) {
      forall o ensures !HasContract(ActivateSession(s, x).billing, o, i) {
        assert !HasContract(s.billing, o, i) && !HasContract(s1.billing, o, i);
      }
    }
  }

  /** Only the onboarding call opens an account, and its id is fresh. */
  lemma OnboardOpensFresh(s: State, org: Id)
    ensures forall o, i :: HasContract(DoOnboard(s, org).billing, o, i) ==> HasContract(s.billing, o, i)
    ensures forall o, a :: HasAccount(DoOnboard(s, org).billing, o, a) ==>
      HasAccount(s.billing, o, a) || (o == org && a == s.nextId && DoOnboard(s, org).nextId == s.nextId + 1)
  {
    PlanLinksNothing(s, org, FREE);
    ApplyPlanInside(s, org, FREE);
  }

  /** The actions that leave every billing row alone. */
  predicate OutsideBilling(a: Action) {
    a.NextMonth? || a.NewOrg? || a.Patch? || a.Publish? || a.ConfirmApi? || a.Unsubscribe? || a.Complete?
  }

  lemma OutsideLeavesBilling(s: State, a: Action)
    requires OutsideBilling(a)
    ensures Apply(s, a).billing == s.billing
  {
    match a {
      case Patch(org, plan, limit) => assert DoPatch(s, org, plan, limit).billing == s.billing;
      case ConfirmApi(org, x) => assert DoConfirmApi(s, org, x).billing == s.billing;
      case Unsubscribe(org, r) => assert DoUnsubscribe(s, org, r).billing == s.billing;
      case Complete(x, subscribed) => assert DoComplete(s, x, subscribed).billing == s.billing;
      case _ =>
    }
  }

  /** Every step but a session report and an onboarding links nothing new. */
  lemma StepLinksNothing(s: State, a: Action)
    requires !a.Onboard? && !a.ConfirmCheckout? && !(a.Deliver? && a.event.SessionCompleted?)
    ensures NoNewLinks(s, Apply(s, a))
  {
    if OutsideBilling(a) {
      OutsideLeavesBilling(s, a);
    } else {
      match a {
        case Subscribe(org, plan) => PlanLinksNothing(s, org, plan);
        case Checkout(org, plan) => CheckoutLinksNothing(s, org, plan);
        case CloseInvoice(org, _) => PlanLinksNothing(s, org, FREE);
        case SubscribeApi(org, api, lookup) => SubscribeApiLinksNothing(s, org, api, lookup);
        case CheckPayouts(org, lookup) => PayoutsLinkNothing(s, org, lookup);
        case Deliver(e) => EventLinksNothing(s, e);
      }
    }
  }

  /** A report of a session that is not a confirm call to the marketplace. */
  lemma ReportStaysUnlinkedIff(s: State, a: Action, x: Id, i: Id)
    requires Inv(s) && Unlinked(s, i) && Reports(a, x) && !a.ConfirmApi?
    ensures Unlinked(Apply(s, a), i) <==> !RelinksBy(s, a, i, x)
  {
    if IsCompleted(s, x) {
      var v := s.sessions[x];
      ReportDeliversOrNot(s, x, a);
      DeliveredIsActivated(s, x);
      assert SessionInv(s, x);
      if v.metadata.Marketplace? {
        assert Delivered(s, x).billing == s.billing;
      } else if Counts(v.metadata, a) {
        ReportLinksItsOwn(s, x, i);
        assert v.stripeSub == Some(i) ==> HasContract(ActivateSession(s, x).billing, v.metadata.org, i);
      }
    } else {
      assert Apply(s, a) == s;
    }
  }

  /** An unlinked Stripe subscription stays unlinked exactly unless the step relinks it. */
  lemma StepStaysUnlinkedIff(s: State, a: Action, i: Id)
    requires Inv(s) && Unlinked(s, i)
    ensures Unlinked(Apply(s, a), i) <==> !Relinks(s, a, i)
  {
    if a.Onboard? {
      OnboardOpensFresh(s, a.org);
      assert forall x :: !Reports(a, x);
    } else if a.ConfirmCheckout? || (a.Deliver? && a.event.SessionCompleted?) {
      var x := if a.ConfirmCheckout? then a.session else a.event.session;
      ReportStaysUnlinkedIff(s, a, x, i);
      assert forall y :: Reports(a, y) ==> y == x;
    } else {
      StepLinksNothing(s, a);
      assert forall x :: Reports(a, x) ==> a.ConfirmApi?;
    }
  }

  /**
   * Once a Stripe subscription is superseded or dropped it stays unlinked at every
   * point of a run, and so its deletion event is ignored there, if and only if no
   * step is a counting report of its session.
   */
  lemma {:induction false} DroppedStaysDropped(s: State, actions: seq<Action>, i: Id)
    requires Inv(s) && Unlinked(s, i)
    ensures AlwaysUnlinked(s, actions, i) <==> NeverRelinked(s, actions, i)
    ensures NeverRelinked(s, actions, i) ==> BillingHandle(Exec(s, actions), SubDeleted(i)) == Exec(s, actions)
    decreases |actions|
  {
    if actions != [] {
      var s1 := Apply(s, actions[0]);
      StepStaysUnlinkedIff(s, actions[0], i);
      StepKeepsInv(s, actions[0]);
      if Unlinked(s1, i) {
        DroppedStaysDropped(s1, actions[1..], i);
      }
    }
  }

  // ----- Payout accounts -----------------------------------------------------

  ghost predicate AccountsDistinct(s: State) {
    && (forall o: Id, a: Id :: HasAccount(s.billing, o, a) ==> a < s.nextId)
    && (forall o: Id, p: Id, a: Id :: HasAccount(s.billing, o, a) && HasAccount(s.billing, p, a) ==> o == p)
  }

  lemma CustomerIdGrows(s: State, org: Id)
    ensures s.nextId <= EnsureCustomer(s, org).nextId
  {
    ApplyPlanInside(s, org, FREE);
  }

  lemma CheckoutIdGrows(s: State, org: Id, plan: Plan)
    ensures s.nextId <= DoCheckout(s, org, plan).nextId
  {
    ApplyPlanInside(s, org, FREE);
    var s1 := EnsureSub(s, org);
    DowngradeInside(CancelContract(s1, s1.billing[org].stripeSub), org);
    CustomerIdGrows(s1, org);
  }

  lemma SubscribeApiIdGrows(s: State, org: Id, api: Id, lookup: Option<bool>)
    ensures s.nextId <= DoSubscribeApi(s, org, api, lookup).nextId
  {
    if api in s.apis {
      CustomerIdGrows(DoCheckPayouts(s, s.apis[api].owner, lookup), org);
    }
  }

  lemma BillingCallIdGrows(s: State, a: Action)
    requires IsBillingCall(a)
    ensures s.nextId <= Apply(s, a).nextId
  {
    match a {
      case Subscribe(org, plan) => ApplyPlanInside(s, org, plan);
      case Checkout(org, plan) => CheckoutIdGrows(s, org, plan);
      case ConfirmCheckout(org, x) => BillingLeavesMarket(s, SessionCompleted(x));
      case CloseInvoice(org, used) => ApplyPlanInside(s, org, FREE);
      case _ =>
    }
  }

  lemma IdGrows(s: State, a: Action)
    ensures s.nextId <= Apply(s, a).nextId
  {
    if IsBillingCall(a) {
      BillingCallIdGrows(s, a);
    } else {
      match a {
        case Onboard(org) => ApplyPlanInside(s, org, FREE);
        case SubscribeApi(org, api, lookup) => SubscribeApiIdGrows(s, org, api, lookup);
        case Deliver(e) => BillingLeavesMarket(s, e);
        case _ =>
      }
    }
  }

  lemma ReportOpensNothing(s: State, a: Action)
    requires a.ConfirmCheckout? || (a.Deliver? && a.event.SessionCompleted?)
    ensures NoNewAccounts(s, Apply(s, a))
  {
    var x := if a.ConfirmCheckout? then a.session else a.event.session;
    if IsCompleted(s, x) && s.sessions[x].metadata.Platform? {
      ReportLinksItsOwn(s, x, 0);
    }
  }

  lemma StepKeepsAccounts(s: State, a: Action)
    requires AccountsDistinct(s)
    ensures AccountsDistinct(Apply(s, a))
  {
    IdGrows(s, a);
    if a.Onboard? {
      OnboardOpensFresh(s, a.org);
    } else {
      if a.ConfirmCheckout? || (a.Deliver? && a.event.SessionCompleted?) {
        ReportOpensNothing(s, a);
      } else {
        StepLinksNothing(s, a);
      }
      OldAccountsDistinct(s, Apply(s, a));
    }
  }

  lemma OldAccountsDistinct(s: State, s': State)
    requires AccountsDistinct(s) && NoNewAccounts(s, s') && s.nextId <= s'.nextId
    ensures AccountsDistinct(s')
  {
  }

  lemma {:induction false} AccountsHold(s: State, actions: seq<Action>)
    requires AccountsDistinct(s)
    ensures AccountsDistinct(Exec(s, actions))
    decreases |actions|
  {
    if actions != [] {
      StepKeepsAccounts(s, actions[0]);
      AccountsHold(Apply(s, actions[0]), actions[1..]);
    }
  }

  /**
   * In every reachable state each billing event except `invoice.paid` is
   * idempotent; each delivery of `invoice.paid` appends one paid record for the
   * linked organization and changes nothing else, or nothing at all without one.
   */
  lemma EventsIdempotent(enabled: bool, month: int, actions: seq<Action>, e: Event)
    ensures var s := Exec(Init(enabled, month), actions);
      var s1 := BillingHandle(s, e);
      && (!e.InvoicePaid? ==> BillingHandle(s1, e) == s1)
      && (e.InvoicePaid? ==>
           && (forall o :: Bills(s, e, o) ==>
                var r := PaidRecord(o, s.billing[o], e.amount);
                s1 == s.(records := s.records + [r]) && BillingHandle(s1, e) == s.(records := s.records + [r] + [r]))
           && ((forall o :: !Bills(s, e, o)) ==> s1 == s))
  {
    Reachable(enabled, month, actions);
    AccountsHold(Init(enabled, month), actions);
    var s := Exec(Init(enabled, month), actions);
    if e.InvoicePaid? {
      InvoiceTwice(s, e);
    } else {
      EventTwice(s, e);
    }
  }

  // ----- The life of a paid plan ---------------------------------------------

  /** After the event the organization is on the plan, linked to the subscription, and in good standing. */
  ghost predicate OnPlan(s: State, org: Id, plan: Plan, link: Option<Id>) {
    && org in s.billing && org in s.orgs
    && s.billing[org].plan == plan && s.billing[org].stripeSub == link && s.billing[org].status == ACTIVE
    && s.orgs[org].plan == plan && TermsMatch(s.billing[org])
  }

  /**
   * From any reachable state: reporting a completed session puts its organization
   * on the plan it was bought for; the deletion of that subscription takes it back
   * to FREE; and a late replay of the session puts it on the paid plan again.
   */
  lemma PaidPlanLifecycle(s: State, x: Id, i: Id)
    requires Inv(s) && IsCompleted(s, x) && s.sessions[x].metadata.Platform? && s.sessions[x].stripeSub == Some(i)
    ensures var m := s.sessions[x].metadata;
      var s1 := Apply(s, Deliver(SessionCompleted(x)));
      var s2 := Apply(s1, Deliver(SubDeleted(i)));
      var s3 := Apply(s2, Deliver(SessionCompleted(x)));
      OnPlan(s1, m.org, m.plan, Some(i)) && OnPlan(s2, m.org, FREE, None) && OnPlan(s3, m.org, m.plan, Some(i))
  {
    var m := s.sessions[x].metadata;
    var s1 := Apply(s, Deliver(SessionCompleted(x)));
    ReportPutsOnPlan(s, x);
    assert HasContract(s1.billing, m.org, i);
    var s2 := Apply(s1, Deliver(SubDeleted(i)));
    DeletionDropsPlan(s1, m.org, i);
    ReportPutsOnPlan(s2, x);
  }

  lemma ReportPutsOnPlan(s: State, x: Id)
    requires Inv(s) && IsCompleted(s, x) && s.sessions[x].metadata.Platform? && s.sessions[x].stripeSub.Some?
    ensures var m := s.sessions[x].metadata;
      var s1 := Apply(s, Deliver(SessionCompleted(x)));
      OnPlan(s1, m.org, m.plan, s.sessions[x].stripeSub) && Inv(s1) && s1.sessions == s.sessions
  {
    assert SessionInv(s, x);
    StepKeepsInv(s, Deliver(SessionCompleted(x)));
    var v := s.sessions[x];
    ActivateInside(s, v.metadata.org, v.metadata.plan, v.customer, v.stripeSub);
  }

  lemma DeletionDropsPlan(s: State, org: Id, i: Id)
    requires Inv(s) && HasContract(s.billing, org, i)
    ensures var s1 := Apply(s, Deliver(SubDeleted(i)));
      OnPlan(s1, org, FREE, None) && Inv(s1) && s1.sessions == s.sessions
  {
    assert SubInv(s, org);
    StepKeepsInv(s, Deliver(SubDeleted(i)));
    var o := FindBilling(s.billing, i);
    BillingOwnerUnique(s, i, org, o.value);
    DowngradeInside(s, org);
    forall r ensures !RowHasContract(s.rows, r, i) { TablesDisjoint(s, i, org, r); }
  }
}
