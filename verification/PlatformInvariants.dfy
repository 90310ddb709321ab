/**
 * What every operation and every Stripe event keeps: published terms on every
 * subscription, rows that trace back to the sessions that paid for them, and one
 * owner for every Stripe subscription.
 */
module PlatformInvariants {
  import opened Basics
  import opened Bill
  import opened PlatformModel

  ghost predicate TermsMatch(sub: Subscription) {
    var t := TermsOf(sub.plan);
    sub.monthlyQuota == t.monthlyQuota && sub.pricePerMonth == t.pricePerMonth
    && sub.overagePerThousand == t.overagePerThousand
  }

  /** The Stripe subscription exists and was bought for this organization's plan. */
  ghost predicate BillsPlan(s: State, i: Option<Id>, org: Id) {
    i.Some? ==> i.value in s.contracts && s.contracts[i.value].Platform? && s.contracts[i.value].org == org
  }

  ghost predicate BillsApi(s: State, i: Option<Id>, org: Id, api: Id) {
    i.Some? ==> i.value in s.contracts && s.contracts[i.value] == Marketplace(org, api)
  }

  ghost predicate SubInv(s: State, org: Id) {
    org in s.billing ==>
      org in s.orgs && TermsMatch(s.billing[org]) && BillsPlan(s, s.billing[org].stripeSub, org)
  }

  ghost predicate ApiInv(s: State, api: Id) {
    api in s.apis ==>
      api < s.nextId && s.apis[api].owner in s.orgs && s.orgs[s.apis[api].owner].kind == PUBLISHER
  }

  /** A subscriber organization and an API it may subscribe to. */
  ghost predicate MayLink(s: State, org: Id, api: Id) {
    org in s.orgs && s.orgs[org].kind == SUBSCRIBER && api in s.apis
  }

  /** A completed session, issued for exactly this pair, behind this Stripe subscription. */
  ghost predicate PaidBy(s: State, org: Id, api: Id, stripeSub: Option<Id>, session: Id) {
    && IsCompleted(s, session) && s.sessions[session].metadata == Marketplace(org, api)
    && s.sessions[session].stripeSub == stripeSub
  }

  ghost predicate RowInv(s: State, r: Id) {
    r in s.rows ==>
      var row := s.rows[r];
      && r < s.nextId && MayLink(s, row.org, row.api) && BillsApi(s, row.stripeSub, row.org, row.api)
      && (s.stripeEnabled && s.apis[row.api].price > 0 ==>
           exists session :: PaidBy(s, row.org, row.api, row.stripeSub, session))
  }

  ghost predicate OnePerPair(s: State) {
    forall q, r :: q in s.rows && r in s.rows && s.rows[q].org == s.rows[r].org && s.rows[q].api == s.rows[r].api
      ==> q == r
  }

  ghost predicate SessionInv(s: State, session: Id) {
    session in s.sessions ==>
      var x := s.sessions[session];
      && session < s.nextId && x.metadata.org in s.orgs && s.stripeEnabled
      && (x.metadata.Platform? ==> x.metadata.plan != FREE)
      && (x.metadata.Marketplace? ==>
           MayLink(s, x.metadata.org, x.metadata.api) && s.apis[x.metadata.api].price > 0)
      && (x.stripeSub.Some? ==>
           x.completed && x.stripeSub.value in s.contracts && s.contracts[x.stripeSub.value] == x.metadata)
  }

  ghost predicate FreshIds(s: State) {
    && (forall o :: o in s.orgs ==> o < s.nextId)
    && (forall i :: i in s.contracts ==> i < s.nextId && s.stripeEnabled)
  }

  ghost predicate Inv(s: State) {
    && FreshIds(s) && OnePerPair(s)
    && (forall o :: SubInv(s, o))
    && (forall a :: ApiInv(s, a))
    && (forall r :: RowInv(s, r))
    && (forall x :: SessionInv(s, x))
  }

  // ----- What only ever grows ------------------------------------------------

  ghost predicate SessionKept(s: State, s': State, x: Id) {
    x in s.sessions ==>
      && x in s'.sessions && s'.sessions[x].metadata == s.sessions[x].metadata
      && (s.sessions[x].completed ==> s'.sessions[x] == s.sessions[x])
  }

  /** Organizations keep their kind; APIs, contracts and completed sessions stay as they are. */
  ghost predicate Grows(s: State, s': State) {
    && s'.stripeEnabled == s.stripeEnabled && s.nextId <= s'.nextId
    && (forall o :: o in s.orgs ==> o in s'.orgs && s'.orgs[o].kind == s.orgs[o].kind)
    && (forall a :: a in s.apis ==> a in s'.apis && s'.apis[a] == s.apis[a])
    && (forall i :: i in s.contracts ==> i in s'.contracts && s'.contracts[i] == s.contracts[i])
    && (forall x :: SessionKept(s, s', x))
  }

  lemma RowCarries(s: State, s': State, r: Id)
    requires RowInv(s, r) && Grows(s, s') && Get(s'.rows, r) == Get(s.rows, r)
    ensures RowInv(s', r)
  {
    if r in s.rows && s.stripeEnabled && s.apis[s.rows[r].api].price > 0 {
      var row := s.rows[r];
      var x :| PaidBy(s, row.org, row.api, row.stripeSub, x);
      assert SessionKept(s, s', x);
      assert PaidBy(s', row.org, row.api, row.stripeSub, x);
    }
  }

  // ----- The elementary changes ----------------------------------------------

  /** New organization rows, months, records, cancellations: nothing the invariant reads shrinks. */
  lemma SideChangeKeeps(s: State, s': State)
    requires Inv(s) && Grows(s, s') && FreshIds(s')
    requires s'.billing == s.billing && s'.rows == s.rows && s'.sessions == s.sessions && s'.apis == s.apis
    ensures Inv(s')
  {
    forall o ensures SubInv(s', o) { assert SubInv(s, o); }
    forall a ensures ApiInv(s', a) { assert ApiInv(s, a); }
    forall r ensures RowInv(s', r) { RowCarries(s, s', r) by { assert RowInv(s, r); } }
    forall x ensures SessionInv(s', x) { assert SessionInv(s, x); }
  }

  lemma PutSubKeeps(s: State, org: Id, sub: Subscription)
    requires Inv(s) && org in s.orgs && TermsMatch(sub) && BillsPlan(s, sub.stripeSub, org)
    ensures Inv(PutSub(s, org, sub))
  {
    var s' := PutSub(s, org, sub);
    forall o ensures SubInv(s', o) { assert SubInv(s, o); }
    forall a ensures ApiInv(s', a) { assert ApiInv(s, a); }
    forall r ensures RowInv(s', r) { RowCarries(s, s', r) by { assert RowInv(s, r); } }
    forall x ensures SessionInv(s', x) { assert SessionInv(s, x); }
  }

  lemma PatchKeeps(s: State, org: Id, plan: Option<Plan>, limit: Option<nat>)
    requires Inv(s)
    ensures Inv(DoPatch(s, org, plan, limit)) && Grows(s, DoPatch(s, org, plan, limit))
  {
    if org in s.orgs {
      var updated := UpdatedOrg(s.orgs[org], plan, limit);
      assert updated.kind == s.orgs[org].kind;
      var s' := s.(orgs := s.orgs[org := updated]);
      forall x ensures SessionKept(s, s', x) {}
      SideChangeKeeps(s, s');
    }
  }

  lemma ApplyPlanKeeps(s: State, org: Id, plan: Plan)
    requires Inv(s) && org in s.orgs
    ensures Inv(ApplyPlan(s, org, plan))
    ensures BillsPlan(ApplyPlan(s, org, plan), ApplyPlan(s, org, plan).billing[org].stripeSub, org)
  {
    var old_ := if org in s.billing then s.billing[org] else BLANK_SUBSCRIPTION;
    var sub := Stamped(old_, plan, s.month);
    assert SubInv(s, org);
    PutSubKeeps(s, org, sub);
    PatchKeeps(PutSub(s, org, sub), org, Some(plan), None);
  }

  lemma EnsureSubKeeps(s: State, org: Id)
    requires Inv(s) && org in s.orgs
    ensures var s' := EnsureSub(s, org);
      Inv(s') && TermsMatch(s'.billing[org]) && BillsPlan(s', s'.billing[org].stripeSub, org)
      && org in s'.orgs && s'.nextId == s.nextId && s'.sessions == s.sessions && s'.rows == s.rows && s'.apis == s.apis
      && s'.stripeEnabled == s.stripeEnabled && s'.orgs.Keys == s.orgs.Keys && s'.contracts == s.contracts
      && (forall o :: o in s.orgs ==> s'.orgs[o].kind == s.orgs[o].kind)
  {
    if org !in s.billing { ApplyPlanKeeps(s, org, FREE); }
    assert SubInv(EnsureSub(s, org), org);
  }

  lemma BumpKeeps(s: State)
    requires Inv(s)
    ensures Inv(s.(nextId := s.nextId + 1))
  {
    var s' := s.(nextId := s.nextId + 1);
    SideChangeKeeps(s, s');
  }

  lemma DowngradeKeeps(s: State, org: Id)
    requires Inv(s) && org in s.orgs
    ensures Inv(Downgrade(s, org))
  {
    ApplyPlanKeeps(s, org, FREE);
    var s1 := ApplyPlan(s, org, FREE);
    assert SubInv(s1, org);
    PutSubKeeps(s1, org, s1.billing[org].(stripeSub := None));
  }

  lemma EnsureCustomerKeeps(s: State, org: Id)
    requires Inv(s) && org in s.orgs
    ensures Inv(EnsureCustomer(s, org))
  {
    EnsureSubKeeps(s, org);
    CustomerIdKeeps(EnsureSub(s, org), org);
    assert EnsureCustomer(s, org) == EnsureCustomer(EnsureSub(s, org), org);
  }

  lemma EnsureCustomerFrame(s: State, org: Id)
    requires Inv(s) && org in s.orgs
    ensures var s' := EnsureCustomer(s, org);
      && org in s'.billing && s'.billing[org].customer.Some? && s'.orgs.Keys == s.orgs.Keys && s'.apis == s.apis
      && s'.stripeEnabled == s.stripeEnabled && (forall o :: o in s.orgs ==> s'.orgs[o].kind == s.orgs[o].kind)
  {
    EnsureSubKeeps(s, org);
    assert EnsureCustomer(s, org).orgs == EnsureSub(s, org).orgs;
  }

  /** Giving an existing subscription a fresh Stripe customer. */
  lemma CustomerIdKeeps(s: State, org: Id)
    requires Inv(s) && org in s.billing
    ensures var s' := EnsureCustomer(s, org);
      Inv(s') && s'.orgs == s.orgs && s'.apis == s.apis && s'.stripeEnabled == s.stripeEnabled
  {
    if s.billing[org].customer.None? {
      var sub := s.billing[org].(customer := Some(s.nextId));
      TouchKeeps(s, org, sub);
      BumpKeeps(PutSub(s, org, sub));
    }
  }

  lemma IssueKeeps(s: State, m: Metadata)
    requires Inv(s) && m.org in s.billing && s.billing[m.org].customer.Some? && s.stripeEnabled
    requires m.Platform? ==> m.plan != FREE
    requires m.Marketplace? ==> MayLink(s, m.org, m.api) && s.apis[m.api].price > 0
    ensures Inv(IssueSession(s, m))
  {
    var s' := IssueSession(s, m);
    assert SessionInv(s, s.nextId) && SubInv(s, m.org);
    forall x ensures SessionKept(s, s', x) {}
    forall o ensures SubInv(s', o) { assert SubInv(s, o); }
    forall a ensures ApiInv(s', a) { assert ApiInv(s, a); }
    forall r ensures RowInv(s', r) { RowCarries(s, s', r) by { assert RowInv(s, r); } }
    forall x ensures SessionInv(s', x) { assert SessionInv(s, x); }
  }

  lemma PutRowKeeps(s: State, r: Id, row: MarketRow)
    requires Inv(s) && r < s.nextId && MayLink(s, row.org, row.api) && BillsApi(s, row.stripeSub, row.org, row.api)
    requires s.stripeEnabled && s.apis[row.api].price > 0 ==>
      exists x :: PaidBy(s, row.org, row.api, row.stripeSub, x)
    requires forall q :: IsPair(s.rows, q, row.org, row.api) ==> q == r
    ensures Inv(PutRow(s, r, row))
  {
    var s' := PutRow(s, r, row);
    forall o ensures SubInv(s', o) { assert SubInv(s, o); }
    forall a ensures ApiInv(s', a) { assert ApiInv(s, a); }
    forall x ensures SessionInv(s', x) { assert SessionInv(s, x); }
    forall q ensures RowInv(s', q) {
      if q != r {
        RowCarries(s, s', q) by { assert RowInv(s, q); }
      } else if s.stripeEnabled && s.apis[row.api].price > 0 {
        var x :| PaidBy(s, row.org, row.api, row.stripeSub, x);
        assert PaidBy(s', row.org, row.api, row.stripeSub, x);
      }
    }
    forall p, q | p in s'.rows && q in s'.rows && s'.rows[p].org == s'.rows[q].org && s'.rows[p].api == s'.rows[q].api
      ensures p == q
    {
      assert p != r ==>
        (IsPair(s.rows, p, row.org, row.api) <==> s'.rows[p].org == row.org && s'.rows[p].api == row.api);
      assert q != r ==>
        (IsPair(s.rows, q, row.org, row.api) <==> s'.rows[q].org == row.org && s'.rows[q].api == row.api);
    }
  }

  lemma DropRowKeeps(s: State, r: Id)
    requires Inv(s)
    ensures Inv(s.(rows := s.rows - {r}))
  {
    var s' := s.(rows := s.rows - {r});
    forall o ensures SubInv(s', o) { assert SubInv(s, o); }
    forall a ensures ApiInv(s', a) { assert ApiInv(s, a); }
    forall x ensures SessionInv(s', x) { assert SessionInv(s, x); }
    forall q ensures RowInv(s', q) {
      if q != r { RowCarries(s, s', q) by { assert RowInv(s, q); } }
    }
  }

  lemma ActivateKeeps(s: State, org: Id, plan: Plan, customer: Id, stripeSub: Option<Id>)
    requires Inv(s) && org in s.orgs && BillsPlan(s, stripeSub, org)
    ensures Inv(Activate(s, org, plan, customer, stripeSub))
  {
    ApplyPlanKeeps(s, org, plan);
    var s1 := ApplyPlan(s, org, plan);
    assert SubInv(s1, org);
    var sub := s1.billing[org];
    PutSubKeeps(s1, org, sub.(customer := Some(customer),
                              stripeSub := if stripeSub.Some? then stripeSub else sub.stripeSub, status := ACTIVE));
  }

  lemma ActivateRowKeeps(s: State, x: Id)
    requires Inv(s) && IsCompleted(s, x) && s.sessions[x].metadata.Marketplace?
    ensures Inv(ActivateMarketSession(s, x))
  {
    var m := s.sessions[x].metadata;
    var stripeSub := s.sessions[x].stripeSub;
    assert SessionInv(s, x);
    assert PaidBy(s, m.org, m.api, stripeSub, x);
    var r := FindPair(s.rows, m.org, m.api);
    if r.Some? {
      assert RowInv(s, r.value);
      PutRowKeeps(s, r.value, s.rows[r.value].(status := ACTIVE, stripeSub := stripeSub));
    } else {
      BumpKeeps(s);
      var s1 := s.(nextId := s.nextId + 1);
      assert PaidBy(s1, m.org, m.api, stripeSub, x);
      PutRowKeeps(s1, s.nextId, MarketRow(m.org, m.api, ACTIVE, stripeSub));
    }
  }

  // ----- Every operation -----------------------------------------------------

  lemma CheckoutKeeps(s: State, org: Id, plan: Plan)
    requires Inv(s) && org in s.orgs
    ensures Inv(DoCheckout(s, org, plan))
  {
    EnsureSubKeeps(s, org);
    var s1 := EnsureSub(s, org);
    if plan == FREE {
      var s2 := CancelContract(s1, s1.billing[org].stripeSub);
      SideChangeKeeps(s1, s2);
      DowngradeKeeps(s2, org);
    } else if s.stripeEnabled {
      EnsureCustomerKeeps(s1, org);
      EnsureCustomerFrame(s1, org);
      IssueKeeps(EnsureCustomer(s1, org), Platform(org, plan));
    }
  }

  lemma OnboardKeeps(s: State, org: Id)
    requires Inv(s)
    ensures Inv(DoOnboard(s, org))
  {
    if org in s.orgs && s.orgs[org].kind == PUBLISHER {
      EnsureSubKeeps(s, org);
      var s1 := EnsureSub(s, org);
      if s1.billing[org].connect.None? && s.stripeEnabled {
        var sub := s1.billing[org].(connect := Some(s1.nextId));
        PutSubKeeps(s1, org, sub);
        BumpKeeps(PutSub(s1, org, sub));
      }
    }
  }

  lemma CheckPayoutsKeeps(s: State, org: Id, lookup: Option<bool>)
    requires Inv(s)
    ensures Inv(DoCheckPayouts(s, org, lookup))
  {
    assert SubInv(s, org);
    if org in s.billing && lookup.Some? {
      PutSubKeeps(s, org, s.billing[org].(payoutsEnabled := lookup.value));
    }
  }

  lemma SubscribeApiKeeps(s: State, org: Id, api: Id, lookup: Option<bool>)
    requires Inv(s)
    ensures Inv(DoSubscribeApi(s, org, api, lookup))
  {
    if MayLink(s, org, api) && FindPair(s.rows, org, api).None? {
      if s.apis[api].price == 0 || !s.stripeEnabled {
        BumpKeeps(s);
        PutRowKeeps(s.(nextId := s.nextId + 1), s.nextId, MarketRow(org, api, ACTIVE, None));
      } else {
        CheckPayoutsKeeps(s, s.apis[api].owner, lookup);
        var s1 := DoCheckPayouts(s, s.apis[api].owner, lookup);
        EnsureCustomerKeeps(s1, org);
        EnsureCustomerFrame(s1, org);
        IssueKeeps(EnsureCustomer(s1, org), Marketplace(org, api));
      }
    }
  }

  lemma CompleteKeeps(s: State, session: Id, subscribed: bool)
    requires Inv(s)
    ensures Inv(DoComplete(s, session, subscribed))
  {
    var s' := DoComplete(s, session, subscribed);
    assert SessionInv(s, session);
    forall x ensures SessionKept(s, s', x) {}
    forall o ensures SubInv(s', o) { assert SubInv(s, o); }
    forall a ensures ApiInv(s', a) { assert ApiInv(s, a); }
    forall r ensures RowInv(s', r) { RowCarries(s, s', r) by { assert RowInv(s, r); } }
    forall x ensures SessionInv(s', x) { assert SessionInv(s, x); }
  }

  lemma PublishKeeps(s: State, org: Id, price: nat)
    requires Inv(s) && org in s.orgs && s.orgs[org].kind == PUBLISHER
    ensures Inv(s.(apis := s.apis[s.nextId := Api(org, price)], nextId := s.nextId + 1))
  {
    var s' := s.(apis := s.apis[s.nextId := Api(org, price)], nextId := s.nextId + 1);
    assert ApiInv(s, s.nextId);
    forall o ensures SubInv(s', o) { assert SubInv(s, o); }
    forall a ensures ApiInv(s', a) { assert ApiInv(s, a); }
    forall r ensures RowInv(s', r) { RowCarries(s, s', r) by { assert RowInv(s, r); } }
    forall x ensures SessionInv(s', x) { assert SessionInv(s, x); }
  }

  lemma BillingHandleKeeps(s: State, e: Event)
    requires Inv(s)
    ensures Inv(BillingHandle(s, e))
  {
    match e {
      case SessionCompleted(x) =>
        if IsCompleted(s, x) && s.sessions[x].metadata.Platform? {
          assert SessionInv(s, x);
          var v := s.sessions[x];
          ActivateKeeps(s, v.metadata.org, v.metadata.plan, v.customer, v.stripeSub);
        }
      case SubDeleted(i) =>
        var o := FindBilling(s.billing, i);
        if o.Some? { assert SubInv(s, o.value); DowngradeKeeps(s, o.value); }
      case _ => OtherEventKeeps(s, e);
    }
  }

  lemma RecordsKeep(s: State, records: seq<BillingRecord>)
    requires Inv(s)
    ensures Inv(s.(records := records))
  {
    var s' := s.(records := records);
    forall x ensures SessionKept(s, s', x) {}
    SideChangeKeeps(s, s');
  }

  lemma OtherEventKeeps(s: State, e: Event)
    requires Inv(s) && !e.SessionCompleted? && !e.SubDeleted?
    ensures Inv(BillingHandle(s, e))
  {
    match e {
      case SubUpdated(i, status) =>
        var o := FindBilling(s.billing, i);
        if o.Some? { TouchKeeps(s, o.value, Restated(s.billing[o.value], status)); }
      case InvoicePaid(i, amount) => RecordsKeep(s, BillingHandle(s, e).records);
      case PaymentFailed(i) =>
        if i.Some? && FindBilling(s.billing, i.value).Some? {
          var o := FindBilling(s.billing, i.value).value;
          TouchKeeps(s, o, s.billing[o].(status := PAST_DUE));
        }
      case AccountUpdated(account, ready) =>
        var o := FindAccount(s.billing, account);
        if o.Some? { TouchKeeps(s, o.value, s.billing[o.value].(payoutsEnabled := ready)); }
    }
  }

  /** Rewriting columns other than the plan, its terms and the Stripe link. */
  lemma TouchKeeps(s: State, org: Id, sub: Subscription)
    requires Inv(s) && org in s.billing && sub.stripeSub == s.billing[org].stripeSub && sub.plan == s.billing[org].plan
    requires TermsOfSub(sub) == TermsOfSub(s.billing[org])
    ensures Inv(PutSub(s, org, sub))
  {
    assert SubInv(s, org);
    PutSubKeeps(s, org, sub);
  }

  lemma MarketHandleKeeps(s: State, e: Event)
    requires Inv(s)
    ensures Inv(MarketHandle(s, e))
  {
    match e {
      case SessionCompleted(x) =>
        if IsCompleted(s, x) && s.sessions[x].metadata.Marketplace? { ActivateRowKeeps(s, x); }
      case SubDeleted(i) =>
        var r := FindRow(s.rows, i);
        if r.Some? { assert RowInv(s, r.value); PutRowKeeps(s, r.value, s.rows[r.value].(status := CANCELED)); }
      case _ =>
    }
  }

  lemma CloseInvoiceKeeps(s: State, org: Id, used: nat)
    requires Inv(s) && org in s.orgs
    ensures Inv(DoCloseInvoice(s, org, used))
  {
    EnsureSubKeeps(s, org);
    SideChangeKeeps(EnsureSub(s, org), DoCloseInvoice(s, org, used));
  }

  lemma UnsubscribeKeeps(s: State, org: Id, r: Id)
    requires Inv(s)
    ensures Inv(DoUnsubscribe(s, org, r))
  {
    if r in s.rows {
      var s1 := CancelContract(s, s.rows[r].stripeSub);
      SideChangeKeeps(s, s1);
      DropRowKeeps(s1, r);
    }
  }

  lemma NewOrgKeeps(s: State, kind: OrgKind)
    requires Inv(s)
    ensures Inv(Apply(s, NewOrg(kind)))
  {
    SideChangeKeeps(s, Apply(s, NewOrg(kind)));
  }

  /** The calls of the billing controller and of an organization's owner. */
  predicate IsBillingCall(a: Action) {
    a.NextMonth? || a.NewOrg? || a.Patch? || a.Subscribe? || a.Checkout? || a.ConfirmCheckout? || a.CloseInvoice?
  }

  lemma BillingCallKeepsInv(s: State, a: Action)
    requires Inv(s) && IsBillingCall(a) && Guarded(s, a)
    ensures Inv(Apply(s, a))
  {
    match a {
      case NextMonth => SideChangeKeeps(s, s.(month := s.month + 1));
      case NewOrg(kind) => NewOrgKeeps(s, kind);
      case Patch(org, plan, limit) => PatchKeeps(s, org, plan, limit);
      case Subscribe(org, plan) => ApplyPlanKeeps(s, org, plan);
      case Checkout(org, plan) => CheckoutKeeps(s, org, plan);
      case ConfirmCheckout(org, x) => BillingHandleKeeps(s, SessionCompleted(x));
      case CloseInvoice(org, used) => CloseInvoiceKeeps(s, org, used);
    }
  }

  lemma MarketCallKeepsInv(s: State, a: Action)
    requires Inv(s) && !IsBillingCall(a)
    ensures Inv(Apply(s, a))
  {
    match a {
      case Onboard(org) => OnboardKeeps(s, org);
      case CheckPayouts(org, lookup) => CheckPayoutsKeeps(s, org, lookup);
      case Publish(org, price) =>
        if org in s.orgs && s.orgs[org].kind == PUBLISHER { PublishKeeps(s, org, price); }
      case SubscribeApi(org, api, lookup) => SubscribeApiKeeps(s, org, api, lookup);
      case ConfirmApi(org, x) => MarketHandleKeeps(s, SessionCompleted(x));
      case Unsubscribe(org, r) => UnsubscribeKeeps(s, org, r);
      case Complete(x, subscribed) => CompleteKeeps(s, x, subscribed);
      case Deliver(e) =>
        BillingHandleKeeps(s, e);
        MarketHandleKeeps(BillingHandle(s, e), e);
    }
  }

  lemma StepKeepsInv(s: State, a: Action)
    requires Inv(s)
    ensures Inv(Apply(s, a))
  {
    if IsBillingCall(a) {
      if Guarded(s, a) {
        BillingCallKeepsInv(s, a);
      }
    } else {
      MarketCallKeepsInv(s, a);
    }
  }

  lemma {:induction false} InvHolds(s: State, actions: seq<Action>)
    requires Inv(s)
    ensures Inv(Exec(s, actions))
    decreases |actions|
  {
    if actions != [] {
      StepKeepsInv(s, actions[0]);
      InvHolds(Apply(s, actions[0]), actions[1..]);
    }
  }
}
