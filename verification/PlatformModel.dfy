/**
 * Billing and marketplace as one machine driven by its own calls and by Stripe.
 * Every operation is one atomic step. Stripe's side is three facts: sessions the
 * services issued, their completion, and the subscriptions ("contracts") that
 * completion creates, which carry the session's metadata. Ids are never reused.
 */
module PlatformModel {
  import opened Basics
  import opened Bill

  type Id = nat

  datatype OrgKind = PUBLISHER | SUBSCRIBER

  datatype Org = Org(kind: OrgKind, plan: Plan, requestsPerMinute: nat)

  datatype SubStatus = ACTIVE | PAST_DUE | CANCELED

  /** A row of `subscriptions`; `period` is the month it is stamped with, as 12 * year + month. */
  datatype Subscription = Subscription(
    plan: Plan, status: SubStatus, monthlyQuota: nat, pricePerMonth: nat, overagePerThousand: nat, period: int,
    customer: Option<Id>, stripeSub: Option<Id>, connect: Option<Id>, payoutsEnabled: bool)

  datatype RecordStatus = OPEN | PAID

  datatype BillingRecord = BillingRecord(org: Id, plan: Plan, period: int, usage: Usage, status: RecordStatus)

  datatype Api = Api(owner: Id, price: nat)

  /** A row of `marketplace_subscriptions`. */
  datatype MarketRow = MarketRow(org: Id, api: Id, status: SubStatus, stripeSub: Option<Id>)

  datatype Metadata = Platform(org: Id, plan: Plan) | Marketplace(org: Id, api: Id)

  datatype Session = Session(metadata: Metadata, customer: Id, completed: bool, stripeSub: Option<Id>)

  datatype StripeStatus = StripeActive | StripePastDue | StripeOther

  datatype Event =
    | SessionCompleted(session: Id)
    | SubDeleted(stripeSub: Id)
    | SubUpdated(stripeSub: Id, status: StripeStatus)
    | InvoicePaid(invoiceSub: Option<Id>, amount: nat)
    | PaymentFailed(invoiceSub: Option<Id>)
    | AccountUpdated(account: Id, ready: bool)

  datatype State = State(
    month: int, stripeEnabled: bool,
    orgs: map<Id, Org>, billing: map<Id, Subscription>, records: seq<BillingRecord>,
    apis: map<Id, Api>, rows: map<Id, MarketRow>,
    sessions: map<Id, Session>, contracts: map<Id, Metadata>, canceled: set<Id>, nextId: Id)

  /** `lookup` is what retrieving a connected account gives: its readiness, or a failure. */
  datatype Action =
    | NextMonth
    | NewOrg(kind: OrgKind)
    | Patch(org: Id, newPlan: Option<Plan>, newLimit: Option<nat>)
    | Subscribe(org: Id, plan: Plan)
    | Checkout(org: Id, plan: Plan)
    | ConfirmCheckout(org: Id, session: Id)
    | CloseInvoice(org: Id, used: nat)
    | Onboard(org: Id)
    | CheckPayouts(org: Id, lookup: Option<bool>)
    | Publish(org: Id, price: nat)
    | SubscribeApi(org: Id, api: Id, lookup: Option<bool>)
    | ConfirmApi(org: Id, session: Id)
    | Unsubscribe(org: Id, row: Id)
    | Complete(session: Id, subscribed: bool)
    | Deliver(event: Event)

  function Init(stripeEnabled: bool, month: int): State {
    State(month, stripeEnabled, map[], map[], [], map[], map[], map[], map[], {}, 0)
  }

  // ----- Finding rows --------------------------------------------------------

  ghost predicate HasContract(billing: map<Id, Subscription>, org: Id, i: Id) {
    org in billing && billing[org].stripeSub == Some(i)
  }

  ghost function FindBilling(billing: map<Id, Subscription>, i: Id): Option<Id> {
    if exists o :: HasContract(billing, o, i) then
      var o :| HasContract(billing, o, i); Some(o)
    else None
  }

  ghost predicate HasAccount(billing: map<Id, Subscription>, org: Id, account: Id) {
    org in billing && billing[org].connect == Some(account)
  }

  ghost function FindAccount(billing: map<Id, Subscription>, account: Id): Option<Id> {
    if exists o :: HasAccount(billing, o, account) then
      var o :| HasAccount(billing, o, account); Some(o)
    else None
  }

  ghost predicate RowHasContract(rows: map<Id, MarketRow>, r: Id, i: Id) {
    r in rows && rows[r].stripeSub == Some(i)
  }

  ghost function FindRow(rows: map<Id, MarketRow>, i: Id): Option<Id> {
    if exists r :: RowHasContract(rows, r, i) then
      var r :| RowHasContract(rows, r, i); Some(r)
    else None
  }

  ghost predicate IsPair(rows: map<Id, MarketRow>, r: Id, org: Id, api: Id) {
    r in rows && rows[r].org == org && rows[r].api == api
  }

  ghost function FindPair(rows: map<Id, MarketRow>, org: Id, api: Id): Option<Id> {
    if exists r :: IsPair(rows, r, org, api) then
      var r :| IsPair(rows, r, org, api); Some(r)
    else None
  }

  // ----- Organizations -------------------------------------------------------

  /** `updateRateLimit` on a loaded organization. */
  function UpdatedOrg(org: Org, plan: Option<Plan>, requestsPerMinute: Option<nat>): Org {
    match plan
    case Some(p) =>
      if p != ENTERPRISE then org.(plan := p, requestsPerMinute := RateLimitOf(p))
      else if requestsPerMinute.Some? then org.(plan := p, requestsPerMinute := requestsPerMinute.value)
      else org.(plan := p)
    case None =>
      if requestsPerMinute.Some? then org.(requestsPerMinute := requestsPerMinute.value) else org
  }

  function DoPatch(s: State, org: Id, plan: Option<Plan>, requestsPerMinute: Option<nat>): State {
    if org in s.orgs then s.(orgs := s.orgs[org := UpdatedOrg(s.orgs[org], plan, requestsPerMinute)]) else s
  }

  // ----- Billing -------------------------------------------------------------

  const BLANK_SUBSCRIPTION := Subscription(FREE, ACTIVE, 0, 0, 0, 0, None, None, None, false)

  function PutSub(s: State, org: Id, sub: Subscription): State {
    s.(billing := s.billing[org := sub])
  }

  function Stamped(sub: Subscription, plan: Plan, month: int): Subscription {
    var t := TermsOf(plan);
    sub.(plan := plan, status := ACTIVE, monthlyQuota := t.monthlyQuota, pricePerMonth := t.pricePerMonth,
         overagePerThousand := t.overagePerThousand, period := month)
  }

  /** Save the subscription, then update the organization, which throws if it is gone. */
  function ApplyPlan(s: State, org: Id, plan: Plan): State {
    var sub := if org in s.billing then s.billing[org] else BLANK_SUBSCRIPTION;
    DoPatch(PutSub(s, org, Stamped(sub, plan, s.month)), org, Some(plan), None)
  }

  function EnsureSub(s: State, org: Id): State {
    if org in s.billing then s else ApplyPlan(s, org, FREE)
  }

  function CancelContract(s: State, i: Option<Id>): State {
    if i.Some? && s.stripeEnabled then s.(canceled := s.canceled + {i.value}) else s
  }

  /** Drop to FREE and forget the Stripe subscription. */
  function Downgrade(s: State, org: Id): State {
    var s1 := ApplyPlan(s, org, FREE);
    if org in s.orgs then PutSub(s1, org, s1.billing[org].(stripeSub := None)) else s1
  }

  function EnsureCustomer(s: State, org: Id): State {
    var s1 := EnsureSub(s, org);
    if s1.billing[org].customer.Some? then s1
    else PutSub(s1, org, s1.billing[org].(customer := Some(s1.nextId))).(nextId := s1.nextId + 1)
  }

  function IssueSession(s: State, metadata: Metadata): State
    requires metadata.org in s.billing && s.billing[metadata.org].customer.Some?
  {
    s.(sessions := s.sessions[s.nextId := Session(metadata, s.billing[metadata.org].customer.value, false, None)],
       nextId := s.nextId + 1)
  }

  function DoCheckout(s: State, org: Id, plan: Plan): State {
    var s1 := EnsureSub(s, org);
    if plan == FREE then Downgrade(CancelContract(s1, s1.billing[org].stripeSub), org)
    else if !s.stripeEnabled then s1
    else IssueSession(EnsureCustomer(s1, org), Platform(org, plan))
  }

  function Activate(s: State, org: Id, plan: Plan, customer: Id, stripeSub: Option<Id>): State {
    var s1 := ApplyPlan(s, org, plan);
    if org !in s.orgs then s1
    else
      var sub := s1.billing[org];
      PutSub(s1, org, sub.(customer := Some(customer),
                           stripeSub := if stripeSub.Some? then stripeSub else sub.stripeSub, status := ACTIVE))
  }

  predicate IsCompleted(s: State, session: Id) {
    session in s.sessions && s.sessions[session].completed
  }

  function ActivateSession(s: State, session: Id): State
    requires IsCompleted(s, session) && s.sessions[session].metadata.Platform?
  {
    var x := s.sessions[session];
    Activate(s, x.metadata.org, x.metadata.plan, x.customer, x.stripeSub)
  }

  function DoConfirmCheckout(s: State, org: Id, session: Id): State {
    if IsCompleted(s, session) && s.sessions[session].metadata.Platform? && s.sessions[session].metadata.org == org
    then ActivateSession(s, session) else s
  }

  function TermsOfSub(sub: Subscription): Terms {
    Terms(sub.monthlyQuota, sub.pricePerMonth, sub.overagePerThousand, 0)
  }

  function OpenRecord(org: Id, sub: Subscription, used: nat): BillingRecord {
    BillingRecord(org, sub.plan, sub.period, ComputeBill(TermsOfSub(sub), used), OPEN)
  }

  function DoCloseInvoice(s: State, org: Id, used: nat): State {
    var s1 := EnsureSub(s, org);
    var sub := s1.billing[org];
    s1.(records := s1.records + [OpenRecord(org, sub, used)])
  }

  /** `ensureConnectAccount`: reuse the payout account, or open one. */
  function EnsureAccount(s: State, org: Id): State {
    var s1 := EnsureSub(s, org);
    if s1.billing[org].connect.Some? || !s.stripeEnabled then s1
    else PutSub(s1, org, s1.billing[org].(connect := Some(s1.nextId))).(nextId := s1.nextId + 1)
  }

  function DoOnboard(s: State, org: Id): State {
    if org in s.orgs && s.orgs[org].kind == PUBLISHER then EnsureAccount(s, org) else s
  }

  /** `getConnectStatus`: refresh the cached readiness when the account can be read. */
  function DoCheckPayouts(s: State, org: Id, lookup: Option<bool>): State {
    if org in s.billing && s.billing[org].connect.Some? && s.stripeEnabled && lookup.Some? then
      PutSub(s, org, s.billing[org].(payoutsEnabled := lookup.value))
    else s
  }

  function PayoutsReady(s: State, org: Id, lookup: Option<bool>): bool {
    && org in s.billing && s.billing[org].connect.Some?
    && if s.stripeEnabled && lookup.Some? then lookup.value else s.billing[org].payoutsEnabled
  }

  function PaidRecord(org: Id, sub: Subscription, amount: nat): BillingRecord {
    BillingRecord(org, sub.plan, sub.period, Usage(sub.monthlyQuota, 0, 0, amount, 0, amount), PAID)
  }

  /** Stripe's `active` and `past_due` carry over; any other status leaves the row's. */
  function Restated(sub: Subscription, status: StripeStatus): Subscription {
    match status
    case StripeActive => sub.(status := ACTIVE)
    case StripePastDue => sub.(status := PAST_DUE)
    case StripeOther => sub
  }

  /** BillingService's handler of a verified Stripe event. */
  ghost function BillingHandle(s: State, e: Event): State {
    match e
    case SessionCompleted(x) =>
      if IsCompleted(s, x) && s.sessions[x].metadata.Platform? then ActivateSession(s, x) else s
    case SubDeleted(i) =>
      var o := FindBilling(s.billing, i);
      if o.Some? then Downgrade(s, o.value) else s
    case SubUpdated(i, status) =>
      var o := FindBilling(s.billing, i);
      if o.Some? then
        PutSub(s, o.value, Restated(s.billing[o.value], status))
      else s
    case InvoicePaid(i, amount) =>
      var o := if i.Some? then FindBilling(s.billing, i.value) else None;
      if o.Some? then s.(records := s.records + [PaidRecord(o.value, s.billing[o.value], amount)]) else s
    case PaymentFailed(i) =>
      var o := if i.Some? then FindBilling(s.billing, i.value) else None;
      if o.Some? then PutSub(s, o.value, s.billing[o.value].(status := PAST_DUE)) else s
    case AccountUpdated(account, ready) =>
      var o := FindAccount(s.billing, account);
      if o.Some? then PutSub(s, o.value, s.billing[o.value].(payoutsEnabled := ready)) else s
  }

  // ----- Marketplace ---------------------------------------------------------

  function PutRow(s: State, r: Id, row: MarketRow): State {
    s.(rows := s.rows[r := row])
  }

  function AddRow(s: State, org: Id, api: Id, stripeSub: Option<Id>): State {
    PutRow(s, s.nextId, MarketRow(org, api, ACTIVE, stripeSub)).(nextId := s.nextId + 1)
  }

  ghost function DoSubscribeApi(s: State, org: Id, api: Id, lookup: Option<bool>): State {
    if org !in s.orgs || s.orgs[org].kind != SUBSCRIBER || api !in s.apis || FindPair(s.rows, org, api).Some? then s
    else if s.apis[api].price == 0 || !s.stripeEnabled then AddRow(s, org, api, None)
    else
      var s1 := DoCheckPayouts(s, s.apis[api].owner, lookup);
      if PayoutsReady(s, s.apis[api].owner, lookup) then IssueSession(EnsureCustomer(s1, org), Marketplace(org, api))
      else s1
  }

  ghost function ActivateRow(s: State, org: Id, api: Id, stripeSub: Option<Id>): State {
    var r := FindPair(s.rows, org, api);
    if r.Some? then PutRow(s, r.value, s.rows[r.value].(status := ACTIVE, stripeSub := stripeSub))
    else AddRow(s, org, api, stripeSub)
  }

  ghost function ActivateMarketSession(s: State, session: Id): State
    requires IsCompleted(s, session) && s.sessions[session].metadata.Marketplace?
  {
    var x := s.sessions[session];
    ActivateRow(s, x.metadata.org, x.metadata.api, x.stripeSub)
  }

  ghost function DoConfirmApi(s: State, org: Id, session: Id): State {
    if IsCompleted(s, session) && s.sessions[session].metadata.Marketplace? && s.sessions[session].metadata.org == org
    then ActivateMarketSession(s, session) else s
  }

  function DoUnsubscribe(s: State, org: Id, r: Id): State {
    if r in s.rows && s.rows[r].org == org then
      CancelContract(s, s.rows[r].stripeSub).(rows := s.rows - {r})
    else s
  }

  /** MarketplaceService's handler of the same event. */
  ghost function MarketHandle(s: State, e: Event): State {
    match e
    case SessionCompleted(x) =>
      if IsCompleted(s, x) && s.sessions[x].metadata.Marketplace? then ActivateMarketSession(s, x) else s
    case SubDeleted(i) =>
      var r := FindRow(s.rows, i);
      if r.Some? then PutRow(s, r.value, s.rows[r.value].(status := CANCELED)) else s
    case _ => s
  }

  // ----- Stripe --------------------------------------------------------------

  function DoComplete(s: State, session: Id, subscribed: bool): State {
    if session !in s.sessions || s.sessions[session].completed then s
    else
      var x := s.sessions[session];
      if subscribed then
        s.(sessions := s.sessions[session := x.(completed := true, stripeSub := Some(s.nextId))],
           contracts := s.contracts[s.nextId := x.metadata], nextId := s.nextId + 1)
      else s.(sessions := s.sessions[session := x.(completed := true)])
  }

  /** Calls that pass through the organization guard only reach organizations that exist. */
  predicate Guarded(s: State, a: Action) {
    match a
    case Subscribe(org, _) => org in s.orgs
    case Checkout(org, _) => org in s.orgs
    case ConfirmCheckout(org, _) => org in s.orgs
    case CloseInvoice(org, _) => org in s.orgs
    case _ => true
  }

  ghost function Apply(s: State, a: Action): State {
    if !Guarded(s, a) then s
    else match a
      case NextMonth => s.(month := s.month + 1)
      case NewOrg(kind) => s.(orgs := s.orgs[s.nextId := Org(kind, FREE, 100)], nextId := s.nextId + 1)
      case Patch(org, plan, rpm) => DoPatch(s, org, plan, rpm)
      case Subscribe(org, plan) => ApplyPlan(s, org, plan)
      case Checkout(org, plan) => DoCheckout(s, org, plan)
      case ConfirmCheckout(org, x) => DoConfirmCheckout(s, org, x)
      case CloseInvoice(org, used) => DoCloseInvoice(s, org, used)
      case Onboard(org) => DoOnboard(s, org)
      case CheckPayouts(org, lookup) => DoCheckPayouts(s, org, lookup)
      case Publish(org, price) =>
        if org in s.orgs && s.orgs[org].kind == PUBLISHER then
          s.(apis := s.apis[s.nextId := Api(org, price)], nextId := s.nextId + 1)
        else s
      case SubscribeApi(org, api, lookup) => DoSubscribeApi(s, org, api, lookup)
      case ConfirmApi(org, x) => DoConfirmApi(s, org, x)
      case Unsubscribe(org, r) => DoUnsubscribe(s, org, r)
      case Complete(x, subscribed) => DoComplete(s, x, subscribed)
      case Deliver(e) => MarketHandle(BillingHandle(s, e), e)
  }

  ghost function Exec(s: State, actions: seq<Action>): State
    decreases |actions|
  {
    if actions == [] then s else Exec(Apply(s, actions[0]), actions[1..])
  }

  lemma ExecCons(s: State, a: Action, rest: seq<Action>)
    ensures Exec(s, [a] + rest) == Exec(Apply(s, a), rest)
  {
    assert ([a] + rest)[1..] == rest;
  }

  lemma {:induction false} ExecAppend(s: State, xs: seq<Action>, ys: seq<Action>)
    ensures Exec(s, xs + ys) == Exec(Exec(s, xs), ys)
    decreases |xs|
  {
    if xs == [] {
      assert xs + ys == ys;
    } else {
      assert (xs + ys)[1..] == xs[1..] + ys;
      ExecAppend(Apply(s, xs[0]), xs[1..], ys);
    }
  }
}
