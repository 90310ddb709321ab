/**
 * OrganizationsService, BillingService and MarketplaceService over one database,
 * with Stripe's sessions and subscriptions beside it.
 */
module PlatformService {
  import opened Basics
  import opened Bill
  import opened PlatformModel
  import opened PlatformInvariants
  import opened PlatformResults
  import opened PlatformReplay
  import opened PlatformColumns
  import Periods

  /** What every operation and every event keeps. */
  ghost predicate Sound(s: State) {
    Inv(s) && AccountsDistinct(s)
  }

  lemma StepKeepsSound(s: State, a: Action)
    requires Sound(s)
    ensures Sound(Apply(s, a))
  {
    StepKeepsInv(s, a);
    StepKeepsAccounts(s, a);
  }

  lemma NoSessionsWithoutStripe(s: State, session: Id)
    requires Inv(s) && !s.stripeEnabled
    ensures session !in s.sessions
  {
    assert SessionInv(s, session);
  }

  class Database {
    var month: int
    const stripeEnabled: bool
    const monthStart: int -> int        // the calendar
    var orgs: map<Id, Org>
    var billing: map<Id, Subscription>
    var records: seq<BillingRecord>
    var apis: map<Id, PlatformModel.Api>
    var rows: map<Id, MarketRow>
    var sessions: map<Id, Session>      // Stripe's checkout sessions
    var contracts: map<Id, Metadata>    // Stripe's subscriptions
    var canceled: set<Id>
    var nextId: Id

    function Now(): State
      reads this
    {
      State(month, stripeEnabled, orgs, billing, records, apis, rows, sessions, contracts, canceled, nextId)
    }

    ghost predicate Valid()
      reads this
    {
      Sound(Now())
    }

    constructor (stripeEnabled: bool, month: int)
      ensures Now() == Init(stripeEnabled, month) && Valid()
      ensures monthStart == Periods.MonthStart
    {
      monthStart := Periods.MonthStart;
      this.stripeEnabled, this.month := stripeEnabled, month;
      orgs, billing, records, apis, rows := map[], map[], [], map[], map[];
      sessions, contracts, canceled, nextId := map[], map[], {}, 0;
    }

    method NewId() returns (id: Id)
      modifies this`nextId
      ensures id == old(nextId) && nextId == id + 1
    {
      id := nextId;
      nextId := nextId + 1;
    }

    /** The customer pays: Stripe completes the session and opens the subscription. */
    method CompleteSession(session: Id, subscribed: bool)
      modifies this
      ensures Now() == Apply(old(Now()), Complete(session, subscribed))
    {
      if session in sessions && !sessions[session].completed {
        var x := sessions[session].(completed := true);
        if subscribed {
          var i := NewId();
          contracts := contracts[i := x.metadata];
          x := x.(stripeSub := Some(i));
        }
        sessions := sessions[session := x];
      }
    }
  }

  class OrganizationsService {
    const db: Database

    constructor (db: Database)
      ensures this.db == db
    {
      this.db := db;
    }

    method AssertType(org: Id, expected: OrgKind) returns (r: Outcome<()>)
      ensures r == if org !in db.orgs then NotFound else if db.orgs[org].kind != expected then Forbidden else Ok(())
    {
      if org !in db.orgs {
        return NotFound;
      }
      if db.orgs[org].kind != expected {
        return Forbidden;
      }
      r := Ok(());
    }

    /** A fixed plan brings its limit; ENTERPRISE takes an explicit one, or keeps what was there. */
    method UpdateRateLimit(id: Id, plan: Option<Plan>, requestsPerMinute: Option<nat>) returns (r: Outcome<Org>)
      modifies db`orgs
      ensures db.Now() == Apply(old(db.Now()), Patch(id, plan, requestsPerMinute))
      ensures r == if id in db.orgs then Ok(db.orgs[id]) else NotFound
      ensures id in old(db.orgs) ==>
        var was := old(db.orgs)[id];
        && r.Ok? && r.value.kind == was.kind && r.value.plan == Or(plan, was.plan)
        && (plan == Some(FREE) ==> r.value.requestsPerMinute == 100)
        && (plan == Some(PRO) ==> r.value.requestsPerMinute == 5_000)
        && (plan in {None, Some(ENTERPRISE)} ==>
             r.value.requestsPerMinute == Or(requestsPerMinute, was.requestsPerMinute))
    {
      if id !in db.orgs {
        return NotFound;
      }
      var org := db.orgs[id];
      if plan.Some? {
        org := org.(plan := plan.value);
        if plan.value != ENTERPRISE {
          org := org.(requestsPerMinute := RateLimitOf(plan.value));
        } else if requestsPerMinute.Some? {
          org := org.(requestsPerMinute := requestsPerMinute.value);
        }
      } else if requestsPerMinute.Some? {
        org := org.(requestsPerMinute := requestsPerMinute.value);
      }
      db.orgs := db.orgs[id := org];
      r := Ok(org);
    }
  }

  /**
   * How a confirm call ends: without Stripe it is not implemented; the session must
   * exist, be of this kind, be this organization's, and be completed.
   */
  function ConfirmAnswer(
    enabled: bool, sessions: map<Id, Session>, org: Id, session: Id, marketplace: bool): Outcome<()>
  {
    if !enabled then NotImplemented
    else if session !in sessions then NotFound
    else
      var x := sessions[session];
      if x.metadata.Marketplace? == marketplace && x.metadata.org == org && x.completed then Ok(()) else BadRequest
  }

  lemma EnsureSubSound(s: State, org: Id)
    requires Sound(s) && org in s.orgs
    ensures Sound(EnsureSub(s, org)) && EnsureSub(s, org).records == s.records
  {
    EnsureSubKeeps(s, org);
    PlanLinksNothing(s, org, FREE);
    OldAccountsDistinct(s, EnsureSub(s, org));
  }

  lemma EnsureThenClose(s: State, org: Id, used: nat)
    requires org in s.orgs
    ensures Apply(s, PlatformModel.CloseInvoice(org, used)) == DoCloseInvoice(EnsureSub(s, org), org, used)
  {
    assert EnsureSub(EnsureSub(s, org), org) == EnsureSub(s, org);
  }

  class BillingService {
    const db: Database
    const organizations: OrganizationsService

    ghost predicate Wired() {
      organizations.db == db
    }

    constructor (db: Database, organizations: OrganizationsService)
      requires organizations.db == db
      ensures this.db == db && this.organizations == organizations && Wired()
    {
      this.db, this.organizations := db, organizations;
    }

    /** Stamp the plan's terms and the current month, save, then update the gateway limit. */
    method ApplyPlan(org: Id, plan: Plan) returns (found: bool)
      requires Wired()
      modifies db
      ensures db.Now() == PlatformModel.ApplyPlan(old(db.Now()), org, plan) && org in db.billing
      ensures found <==> org in db.orgs
    {
      var terms := TermsOf(plan);
      var sub := BLANK_SUBSCRIPTION;
      if org in db.billing {
        sub := db.billing[org];
      }
      sub := sub.(plan := plan);
      sub := sub.(status := ACTIVE);
      sub := sub.(monthlyQuota := terms.monthlyQuota);
      sub := sub.(pricePerMonth := terms.pricePerMonth);
      sub := sub.(overagePerThousand := terms.overagePerThousand);
      sub := sub.(period := db.month);
      db.billing := db.billing[org := sub];
      var updated := organizations.UpdateRateLimit(org, Some(plan), None);
      found := updated.Ok?;
    }

    method EnsureSubscription(org: Id)
      requires Wired()
      modifies db
      ensures db.Now() == EnsureSub(old(db.Now()), org) && org in db.billing
    {
      if org !in db.billing {
        var _ := ApplyPlan(org, FREE);
      }
    }

    /** Change plan at once, without payment. */
    method Subscribe(org: Id, plan: Plan)
      requires Wired() && db.Valid() && org in db.orgs
      modifies db
      ensures db.Valid() && db.Now() == Apply(old(db.Now()), PlatformModel.Subscribe(org, plan))
      ensures TermsMatch(db.billing[org]) && db.billing[org].plan == plan && db.orgs[org].plan == plan
    {
      ghost var s := db.Now();
      var _ := ApplyPlan(org, plan);
      StepKeepsSound(s, PlatformModel.Subscribe(org, plan));
    }

    method CancelSubscription(i: Option<Id>)
      modifies db`canceled
      ensures db.Now() == CancelContract(old(db.Now()), i)
    {
      if i.Some? && db.stripeEnabled {
        db.canceled := db.canceled + {i.value};
      }
    }

    method DropToFree(org: Id)
      requires Wired()
      modifies db
      ensures db.Now() == Downgrade(old(db.Now()), org)
    {
      var found := ApplyPlan(org, FREE);
      if found {
        db.billing := db.billing[org := db.billing[org].(stripeSub := None)];
      }
    }

    method EnsureStripeCustomer(org: Id)
      requires Wired()
      modifies db
      ensures db.Now() == EnsureCustomer(old(db.Now()), org) && org in db.billing && db.billing[org].customer.Some?
    {
      EnsureSubscription(org);
      if db.billing[org].customer.None? {
        var customer := db.NewId();
        db.billing := db.billing[org := db.billing[org].(customer := Some(customer))];
      }
    }

    method CreateCheckoutSession(metadata: Metadata) returns (session: Id)
      requires metadata.org in db.billing && db.billing[metadata.org].customer.Some?
      modifies db
      ensures db.Now() == IssueSession(old(db.Now()), metadata) && session == old(db.nextId)
    {
      var customer := db.billing[metadata.org].customer.value;
      session := db.NewId();
      db.sessions := db.sessions[session := Session(metadata, customer, false, None)];
    }

    /** FREE downgrades at once; a paid plan only opens a session, and no plan changes yet. */
    method CreateCheckout(org: Id, plan: Plan) returns (r: Outcome<Option<Id>>)
      requires Wired() && db.Valid() && org in db.orgs
      modifies db
      ensures db.Valid() && db.Now() == Apply(old(db.Now()), Checkout(org, plan))
      ensures plan == FREE ==> r == Ok(None) && db.billing[org].stripeSub == None && db.orgs[org].plan == FREE
      ensures plan != FREE ==> (r.NotImplemented? <==> !db.stripeEnabled) && (r.Ok? <==> db.stripeEnabled)
      ensures plan != FREE && r.Ok? ==>
        r.value.Some? && r.value.value in db.sessions && db.sessions[r.value.value].metadata == Platform(org, plan)
      ensures plan != FREE && org in old(db.billing) ==>
        db.orgs == old(db.orgs) && db.billing[org].plan == old(db.billing)[org].plan
    {
      ghost var s := db.Now();
      StepKeepsSound(s, Checkout(org, plan));
      EnsureSubscription(org);
      if plan == FREE {
        CancelSubscription(db.billing[org].stripeSub);
        DropToFree(org);
        return Ok(None);
      }
      if !db.stripeEnabled {
        return NotImplemented;
      }
      EnsureStripeCustomer(org);
      var session := CreateCheckoutSession(Platform(org, plan));
      r := Ok(Some(session));
    }

    method ActivateFromStripe(org: Id, plan: Plan, customer: Id, stripeSub: Option<Id>)
      requires Wired()
      modifies db
      ensures db.Now() == Activate(old(db.Now()), org, plan, customer, stripeSub)
    {
      var found := ApplyPlan(org, plan);
      if found {
        var sub := db.billing[org];
        sub := sub.(customer := Some(customer));
        if stripeSub.Some? {
          sub := sub.(stripeSub := stripeSub);
        }
        sub := sub.(status := ACTIVE);
        db.billing := db.billing[org := sub];
      }
    }

    method ConfirmCheckout(org: Id, session: Id) returns (r: Outcome<()>)
      requires Wired() && db.Valid() && org in db.orgs
      modifies db
      ensures db.Valid() && db.Now() == Apply(old(db.Now()), PlatformModel.ConfirmCheckout(org, session))
      ensures r == ConfirmAnswer(db.stripeEnabled, old(db.sessions), org, session, false)
    {
      ghost var s := db.Now();
      StepKeepsSound(s, PlatformModel.ConfirmCheckout(org, session));
      if !db.stripeEnabled {
        NoSessionsWithoutStripe(s, session);
        return NotImplemented;
      }
      if session !in db.sessions {
        return NotFound;                            // Stripe knows no such session
      }
      var x := db.sessions[session];
      if !x.metadata.Platform? || x.metadata.org != org {
        return BadRequest;
      }
      if !x.completed {
        return BadRequest;
      }
      ActivateFromStripe(org, x.metadata.plan, x.customer, x.stripeSub);
      r := Ok(());
    }

    /** The bill so far of the subscription's period, for the organization's request log (its times). */
    method GetUsage(org: Id, log: seq<int>) returns (bill: Usage)
      requires Wired() && db.Valid() && org in db.orgs
      modifies db
      ensures db.Valid() && db.Now() == EnsureSub(old(db.Now()), org) && org in db.billing
      ensures var sub := db.billing[org];
        Charges(TermsOf(sub.plan), Periods.CountIn(log, db.monthStart, sub.period), bill)
    {
      EnsureSubKeeps(db.Now(), org);
      EnsureSubSound(db.Now(), org);
      EnsureSubscription(org);
      var sub := db.billing[org];
      var used := Periods.CountIn(log, db.monthStart, sub.period);
      bill := ComputeBill(TermsOfSub(sub), used);
      SameBill(sub, used);
      BillCharges(TermsOf(sub.plan), used);
    }

    /** Append the record of a loaded subscription for this usage. */
    method SaveRecord(org: Id, used: nat) returns (record: BillingRecord)
      requires Wired() && db.Valid() && org in db.billing
      modifies db
      ensures db.Valid() && db.Now() == DoCloseInvoice(old(db.Now()), org, used)
      ensures db.records == old(db.records) + [record] && record.org == org && record.status == OPEN
      ensures record.period == old(db.billing)[org].period
      ensures Charges(TermsOf(record.plan), used, record.usage) && RecordFits(record)
      ensures record.plan == db.billing[org].plan
    {
      ghost var s := db.Now();
      assert SubInv(s, org);
      StepKeepsSound(s, PlatformModel.CloseInvoice(org, used));
      var sub := db.billing[org];
      var bill := ComputeBill(TermsOfSub(sub), used);
      SameBill(sub, used);
      BillCharges(TermsOf(sub.plan), used);
      record := BillingRecord(org, sub.plan, sub.period, bill, OPEN);
      db.records := db.records + [record];
    }

    /** Snapshot the period's usage into a record; existing records stay as they are. */
    method CloseInvoice(org: Id, log: seq<int>) returns (record: BillingRecord, used: nat)
      requires Wired() && db.Valid() && org in db.orgs
      modifies db
      ensures db.Valid() && used == Periods.CountIn(log, db.monthStart, record.period)
      ensures db.Now() == Apply(old(db.Now()), PlatformModel.CloseInvoice(org, used))
      ensures db.records == old(db.records) + [record] && record.org == org && record.status == OPEN
      ensures Charges(TermsOf(record.plan), used, record.usage) && RecordFits(record)
      ensures record.plan == db.billing[org].plan
    {
      ghost var s := db.Now();
      EnsureSubSound(s, org);
      EnsureSubscription(org);
      used := Periods.CountIn(log, db.monthStart, db.billing[org].period);
      EnsureThenClose(s, org, used);
      record := SaveRecord(org, used);
    }

    method FindByStripeSub(i: Id) returns (org: Option<Id>)
      requires db.Valid()
      ensures org == FindBilling(db.billing, i)
    {
      if o :| o in db.billing && db.billing[o].stripeSub == Some(i) {
        assert HasContract(db.billing, o, i);
        BillingOwnerUnique(db.Now(), i, o, FindBilling(db.billing, i).value);
        org := Some(o);
      } else {
        assert forall o :: !HasContract(db.billing, o, i);
        org := None;
      }
    }

    method FindByAccount(account: Id) returns (org: Option<Id>)
      requires db.Valid()
      ensures org == FindAccount(db.billing, account)
    {
      if o :| o in db.billing && db.billing[o].connect == Some(account) {
        assert HasAccount(db.billing, o, account);
        org := Some(o);
      } else {
        assert forall o :: !HasAccount(db.billing, o, account);
        org := None;
      }
    }

    method RecordPaidInvoice(invoiceSub: Option<Id>, amount: nat)
      requires db.Valid()
      modifies db`records
      ensures db.Now() == BillingHandle(old(db.Now()), InvoicePaid(invoiceSub, amount))
    {
      if invoiceSub.None? {
        return;
      }
      var org := FindByStripeSub(invoiceSub.value);
      if org.None? {
        return;
      }
      var sub := db.billing[org.value];
      var usage := Usage(sub.monthlyQuota, 0, 0, amount, 0, amount);
      db.records := db.records + [BillingRecord(org.value, sub.plan, sub.period, usage, PAID)];
    }

    method HandleStripeEvent(e: Event)
      requires Wired() && db.Valid()
      modifies db
      ensures db.Now() == BillingHandle(old(db.Now()), e)
    {
      match e {
        case SessionCompleted(x) =>
          if x in db.sessions && db.sessions[x].completed {
            var m := db.sessions[x].metadata;
            if m.Platform? {
              ActivateFromStripe(m.org, m.plan, db.sessions[x].customer, db.sessions[x].stripeSub);
            }
          }
        case SubDeleted(i) =>
          var org := FindByStripeSub(i);
          if org.Some? {
            DropToFree(org.value);
          }
        case SubUpdated(i, status) =>
          var org := FindByStripeSub(i);
          if org.Some? {
            var sub := db.billing[org.value];
            if status == StripeActive {
              sub := sub.(status := ACTIVE);
            } else if status == StripePastDue {
              sub := sub.(status := PAST_DUE);
            }
            db.billing := db.billing[org.value := sub];
          }
        case InvoicePaid(i, amount) =>
          RecordPaidInvoice(i, amount);
        case PaymentFailed(i) =>
          if i.Some? {
            var org := FindByStripeSub(i.value);
            if org.Some? {
              db.billing := db.billing[org.value := db.billing[org.value].(status := PAST_DUE)];
            }
          }
        case AccountUpdated(account, ready) =>
          var org := FindByAccount(account);
          if org.Some? {
            db.billing := db.billing[org.value := db.billing[org.value].(payoutsEnabled := ready)];
          }
      }
    }

    method EnsureConnectAccount(org: Id) returns (r: Outcome<Id>)
      requires Wired() && org in db.orgs
      modifies db
      ensures db.Now() == EnsureAccount(old(db.Now()), org)
      ensures org in db.billing
      ensures r == if db.billing[org].connect.Some? then Ok(db.billing[org].connect.value) else NotImplemented
    {
      EnsureSubscription(org);
      if db.billing[org].connect.Some? {
        return Ok(db.billing[org].connect.value);
      }
      if !db.stripeEnabled {
        return NotImplemented;
      }
      var account := db.NewId();
      db.billing := db.billing[org := db.billing[org].(connect := Some(account))];
      r := Ok(account);
    }

    /** Ask Stripe whether the account can receive transfers; fall back on the cached answer. */
    method GetConnectStatus(org: Id, lookup: Option<bool>) returns (payoutsReady: bool)
      modifies db`billing
      ensures db.Now() == DoCheckPayouts(old(db.Now()), org, lookup)
      ensures payoutsReady == PayoutsReady(old(db.Now()), org, lookup)
      ensures var was := old(db.billing);
        payoutsReady == (
          && org in was && was[org].connect.Some?
          && if db.stripeEnabled && lookup.Some? then lookup.value else was[org].payoutsEnabled)
    {
      if org !in db.billing || db.billing[org].connect.None? {
        return false;
      }
      var sub := db.billing[org];
      if !db.stripeEnabled || lookup.None? {
        return sub.payoutsEnabled;
      }
      if sub.payoutsEnabled != lookup.value {
        sub := sub.(payoutsEnabled := lookup.value);
        db.billing := db.billing[org := sub];
      }
      assert db.billing[org] == old(db.billing)[org].(payoutsEnabled := lookup.value);
      assert db.billing == old(db.billing)[org := db.billing[org]];
      payoutsReady := lookup.value;
    }
  }

  class MarketplaceService {
    const db: Database
    const billing: BillingService
    const organizations: OrganizationsService

    ghost predicate Wired() {
      billing.db == db && organizations.db == db && billing.Wired()
    }

    constructor (db: Database, billing: BillingService, organizations: OrganizationsService)
      requires billing.db == db && organizations.db == db && billing.Wired()
      ensures this.db == db && this.billing == billing && this.organizations == organizations && Wired()
    {
      this.db, this.billing, this.organizations := db, billing, organizations;
    }

    method Publish(org: Id, price: nat) returns (r: Outcome<Id>)
      requires Wired() && db.Valid()
      modifies db
      ensures db.Valid() && db.Now() == Apply(old(db.Now()), PlatformModel.Publish(org, price))
      ensures r.Ok? <==> org in db.orgs && db.orgs[org].kind == PUBLISHER
      ensures r.Ok? ==> r.value in db.apis && db.apis[r.value] == Api(org, price)
    {
      ghost var s := db.Now();
      StepKeepsSound(s, PlatformModel.Publish(org, price));
      var typed := organizations.AssertType(org, PUBLISHER);
      if !typed.Ok? {
        return Propagate(typed);
      }
      var id := db.NewId();
      db.apis := db.apis[id := Api(org, price)];
      r := Ok(id);
    }

    /** Only publishers are onboarded; the payout account is theirs alone. */
    method ConnectOnboard(org: Id) returns (r: Outcome<Id>)
      requires Wired() && db.Valid()
      modifies db
      ensures db.Valid() && db.Now() == Apply(old(db.Now()), Onboard(org))
      ensures r.NotFound? <==> org !in old(db.orgs)
      ensures r.Forbidden? <==> org in old(db.orgs) && old(db.orgs)[org].kind != PUBLISHER
      ensures r.Ok? ==>
        HasAccount(db.billing, org, r.value) && forall p :: HasAccount(db.billing, p, r.value) ==> p == org
    {
      ghost var s := db.Now();
      StepKeepsSound(s, Onboard(org));
      var typed := organizations.AssertType(org, PUBLISHER);
      if !typed.Ok? {
        return Propagate(typed);
      }
      r := billing.EnsureConnectAccount(org);
    }

    method FindSubscription(org: Id, api: Id) returns (row: Option<Id>)
      requires db.Valid()
      ensures row == FindPair(db.rows, org, api)
    {
      if r :| r in db.rows && db.rows[r].org == org && db.rows[r].api == api {
        assert IsPair(db.rows, r, org, api);
        row := Some(r);
      } else {
        assert forall r :: !IsPair(db.rows, r, org, api);
        row := None;
      }
    }

    method AddSubscription(org: Id, api: Id, stripeSub: Option<Id>) returns (row: Id)
      modifies db
      ensures db.Now() == AddRow(old(db.Now()), org, api, stripeSub)
      ensures row == old(db.nextId) && IsPair(db.rows, row, org, api)
    {
      row := db.NewId();
      db.rows := db.rows[row := MarketRow(org, api, ACTIVE, stripeSub)];
    }

    /**
     * The checks before a subscription: it may go on exactly if the organization may
     * link to the API and the pair has no row.
     */
    method CheckSubscribable(org: Id, api: Id) returns (r: Outcome<()>)
      requires Wired() && db.Valid()
      ensures r.Ok? <==> MayLink(db.Now(), org, api) && forall q :: !IsPair(db.rows, q, org, api)
      ensures r.Conflict? <==> MayLink(db.Now(), org, api) && exists q :: IsPair(db.rows, q, org, api)
      ensures r.Forbidden? <==> org in db.orgs && db.orgs[org].kind != SUBSCRIBER
      ensures r.Ok? || r.Conflict? || r.Forbidden? || r.NotFound?
    {
      r := organizations.AssertType(org, SUBSCRIBER);
      if !r.Ok? {
        return;
      }
      if api !in db.apis {
        return NotFound;
      }
      var existing := FindSubscription(org, api);
      if existing.Some? {
        return Conflict;
      }
    }

    /** A free API (or no Stripe) grants access at once; a priced one only opens a session. */
    method Subscribe(org: Id, api: Id, lookup: Option<bool>) returns (r: Outcome<Id>)
      requires Wired() && db.Valid()
      modifies db
      ensures db.Valid() && db.Now() == Apply(old(db.Now()), SubscribeApi(org, api, lookup))
      ensures r.Forbidden? <==> org in old(db.orgs) && old(db.orgs)[org].kind != SUBSCRIBER
      ensures r.Conflict? ==> exists q :: IsPair(old(db.rows), q, org, api)
      ensures r.Ok? ==> api in old(db.apis)
      ensures r.BadRequest? == (
        && Charged(old(db.Now()), SubscribeApi(org, api, lookup))
        && !CanBePaid(old(db.Now()), old(db.apis)[api].owner, lookup))
      ensures r.Ok? && (old(db.apis)[api].price == 0 || !db.stripeEnabled) ==> IsPair(db.rows, r.value, org, api)
      ensures r.Ok? && old(db.apis)[api].price > 0 && db.stripeEnabled ==>
        db.rows == old(db.rows) && r.value in db.sessions && db.sessions[r.value].metadata == Marketplace(org, api)
      ensures !r.Ok? ==> db.rows == old(db.rows) && db.sessions == old(db.sessions)
    {
      ghost var s := db.Now();
      StepKeepsSound(s, SubscribeApi(org, api, lookup));
      var checked := CheckSubscribable(org, api);
      if !checked.Ok? {
        return Propagate(checked);
      }
      r := GrantOrCharge(org, api, lookup);
    }

    /** What `subscribe` does once its checks have passed. */
    method GrantOrCharge(org: Id, api: Id, lookup: Option<bool>) returns (r: Outcome<Id>)
      requires Wired() && MayLink(db.Now(), org, api) && FindPair(db.rows, org, api).None?
      modifies db
      ensures db.Now() == DoSubscribeApi(old(db.Now()), org, api, lookup) && (r.Ok? || r.BadRequest?)
      ensures var free := old(db.apis)[api].price == 0 || !db.stripeEnabled;
        && (free ==> r.Ok? && IsPair(db.rows, r.value, org, api))
        && (!free && r.Ok? ==>
             && db.rows == old(db.rows) && r.value in db.sessions
             && db.sessions[r.value].metadata == Marketplace(org, api))
        && (r.BadRequest? <==> !free && !CanBePaid(old(db.Now()), old(db.apis)[api].owner, lookup))
        && (!r.Ok? ==> db.rows == old(db.rows) && db.sessions == old(db.sessions))
    {
      if db.apis[api].price == 0 || !db.stripeEnabled {
        var row := AddSubscription(org, api, None);
        return Ok(row);
      }
      r := OpenPaidSession(org, api, lookup);
    }

    method OpenPaidSession(org: Id, api: Id, lookup: Option<bool>) returns (r: Outcome<Id>)
      requires Wired() && api in db.apis && db.stripeEnabled
      modifies db
      ensures var s1 := DoCheckPayouts(old(db.Now()), old(db.apis)[api].owner, lookup);
        db.Now() == if r.Ok? then IssueSession(EnsureCustomer(s1, org), Marketplace(org, api)) else s1
      ensures r.Ok? <==> CanBePaid(old(db.Now()), old(db.apis)[api].owner, lookup)
      ensures r.Ok? || r.BadRequest?
      ensures r.Ok? ==> r.value in db.sessions && db.sessions[r.value].metadata == Marketplace(org, api)
    {
      var ready := billing.GetConnectStatus(db.apis[api].owner, lookup);
      if !ready {
        return BadRequest;
      }
      billing.EnsureStripeCustomer(org);
      var session := billing.CreateCheckoutSession(Marketplace(org, api));
      r := Ok(session);
    }

    /** Find or create the row, activate it and link it. */
    method ActivateSubscription(org: Id, api: Id, stripeSub: Option<Id>)
      requires Wired() && db.Valid()
      modifies db
      ensures db.Now() == ActivateRow(old(db.Now()), org, api, stripeSub)
    {
      var existing := FindSubscription(org, api);
      if existing.Some? {
        var sub := db.rows[existing.value];
        sub := sub.(status := ACTIVE);
        sub := sub.(stripeSub := stripeSub);
        db.rows := db.rows[existing.value := sub];
      } else {
        var row := AddSubscription(org, api, stripeSub);
      }
    }

    method ConfirmSubscription(org: Id, session: Id) returns (r: Outcome<()>)
      requires Wired() && db.Valid()
      modifies db
      ensures db.Valid() && db.Now() == Apply(old(db.Now()), ConfirmApi(org, session))
      ensures r == ConfirmAnswer(db.stripeEnabled, old(db.sessions), org, session, true)
    {
      ghost var s := db.Now();
      StepKeepsSound(s, ConfirmApi(org, session));
      if !db.stripeEnabled {
        NoSessionsWithoutStripe(s, session);
        return NotImplemented;
      }
      if session !in db.sessions {
        return NotFound;                            // Stripe knows no such session
      }
      var x := db.sessions[session];
      if !x.metadata.Marketplace? || x.metadata.org != org {
        return BadRequest;
      }
      if !x.completed {
        return BadRequest;
      }
      ActivateSubscription(org, x.metadata.api, x.stripeSub);
      r := Ok(());
    }

    method HandleStripeEvent(e: Event)
      requires Wired() && db.Valid()
      modifies db
      ensures db.Now() == MarketHandle(old(db.Now()), e)
    {
      if e.SessionCompleted? {
        var x := e.session;
        if x in db.sessions && db.sessions[x].completed {
          var m := db.sessions[x].metadata;
          if m.Marketplace? {
            ActivateSubscription(m.org, m.api, db.sessions[x].stripeSub);
          }
        }
      } else if e.SubDeleted? {
        if r :| r in db.rows && db.rows[r].stripeSub == Some(e.stripeSub) {
          assert RowHasContract(db.rows, r, e.stripeSub);
          RowOwnerUnique(db.Now(), e.stripeSub, r, FindRow(db.rows, e.stripeSub).value);
          db.rows := db.rows[r := db.rows[r].(status := CANCELED)];
        } else {
          assert forall r :: !RowHasContract(db.rows, r, e.stripeSub);
        }
      }
    }

    method Unsubscribe(org: Id, row: Id) returns (r: Outcome<()>)
      requires Wired() && db.Valid()
      modifies db
      ensures db.Valid() && db.Now() == Apply(old(db.Now()), PlatformModel.Unsubscribe(org, row))
      ensures r == if row in old(db.rows) && old(db.rows)[row].org == org then Ok(()) else NotFound
      ensures r.Ok? ==> row !in db.rows
    {
      ghost var s := db.Now();
      StepKeepsSound(s, PlatformModel.Unsubscribe(org, row));
      if row !in db.rows || db.rows[row].org != org {
        return NotFound;
      }
      billing.CancelSubscription(db.rows[row].stripeSub);
      db.rows := db.rows - {row};
      r := Ok(());
    }
  }

  /** The webhook controller: both services handle every verified event. */
  method DeliverEvent(db: Database, billing: BillingService, marketplace: MarketplaceService, e: Event)
    requires billing.db == db && marketplace.db == db && billing.Wired() && marketplace.Wired() && db.Valid()
    modifies db
    ensures db.Valid() && db.Now() == Apply(old(db.Now()), Deliver(e))
  {
    ghost var s := db.Now();
    StepKeepsSound(s, Deliver(e));
    billing.HandleStripeEvent(e);
    HandledStaysValid(s, e);
    marketplace.HandleStripeEvent(e);
  }

  lemma HandledStaysValid(s: State, e: Event)
    requires Sound(s)
    ensures Sound(BillingHandle(s, e))
  {
    BillingHandleKeeps(s, e);
    StepKeepsAccounts(s, Deliver(e));
    BillingLeavesMarket(s, e);
    assert MarketHandle(BillingHandle(s, e), e).billing == BillingHandle(s, e).billing;
    HandleOpensNothing(s, e);
  }

  lemma HandleOpensNothing(s: State, e: Event)
    ensures NoNewAccounts(s, BillingHandle(s, e))
  {
    if e.SessionCompleted? {
      if IsCompleted(s, e.session) && s.sessions[e.session].metadata.Platform? {
        ReportLinksItsOwn(s, e.session, 0);
      }
    } else {
      EventLinksNothing(s, e);
    }
  }
}
