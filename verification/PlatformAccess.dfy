/**
 * When a pair of organization and API gains its marketplace row, when an active
 * row is still backed by a Stripe subscription, and when a subscription loses its row.
 */
module PlatformAccess {
  import opened Basics
  import Bill
  import opened PlatformModel
  import opened PlatformInvariants
  import opened PlatformResults
  import opened PlatformReplay

  // ----- What each call does to the rows and the cancellations ---------------

  /** The actions that leave the marketplace rows and the cancelled subscriptions alone. */
  predicate OutsideMarket(a: Action) {
    !a.Checkout? && !a.SubscribeApi? && !a.Unsubscribe? && !a.Deliver? && !a.ConfirmApi?
  }

  lemma OutsideLeavesRows(s: State, a: Action)
    requires OutsideMarket(a)
    ensures Apply(s, a).rows == s.rows && Apply(s, a).canceled == s.canceled
  {
    match a {
      case Subscribe(org, plan) => ApplyPlanInside(s, org, plan);
      case ConfirmCheckout(org, x) => BillingLeavesMarket(s, SessionCompleted(x));
      case CloseInvoice(org, used) => ApplyPlanInside(s, org, Bill.FREE);
      case Onboard(org) => ApplyPlanInside(s, org, Bill.FREE);
      case _ =>
    }
  }

  lemma CustomerLeavesRows(s: State, org: Id)
    ensures EnsureCustomer(s, org).rows == s.rows && EnsureCustomer(s, org).canceled == s.canceled
  {
    ApplyPlanInside(s, org, Bill.FREE);
  }

  /** A checkout cancels at most the organization's own plan subscription. */
  lemma CheckoutLeavesRows(s: State, org: Id, plan: Bill.Plan)
    ensures var s' := DoCheckout(s, org, plan);
      && s'.rows == s.rows
      && forall i :: i in s'.canceled && i !in s.canceled ==> HasContract(EnsureSub(s, org).billing, org, i)
  {
    ApplyPlanInside(s, org, Bill.FREE);
    var s1 := EnsureSub(s, org);
    DowngradeInside(CancelContract(s1, s1.billing[org].stripeSub), org);
    CustomerLeavesRows(s1, org);
  }

  /** A subscribe call that is granted at once: a free API, or no Stripe. */
  predicate GrantsFree(s: State, a: Action, org: Id, api: Id) {
    && a.SubscribeApi? && a.org == org && a.api == api
    && org in s.orgs && s.orgs[org].kind == SUBSCRIBER && api in s.apis && (s.apis[api].price == 0 || !s.stripeEnabled)
  }

  lemma SubscribeApiRows(s: State, org: Id, api: Id, lookup: Option<bool>)
    ensures var s' := DoSubscribeApi(s, org, api, lookup);
      && s'.canceled == s.canceled
      && s'.rows == if GrantsFree(s, SubscribeApi(org, api, lookup), org, api) && FindPair(s.rows, org, api).None?
                    then s.rows[s.nextId := MarketRow(org, api, ACTIVE, None)] else s.rows
  {
    if api in s.apis {
      CustomerLeavesRows(DoCheckPayouts(s, s.apis[api].owner, lookup), org);
    }
  }

  /** The step is a report that counts, of this completed marketplace session. */
  predicate Activates(s: State, a: Action, x: Id) {
    && Reports(a, x) && IsCompleted(s, x) && s.sessions[x].metadata.Marketplace? && Counts(s.sessions[x].metadata, a)
  }

  lemma DeliveredRows(s: State, x: Id)
    requires IsCompleted(s, x)
    ensures var s' := Delivered(s, x);
      && s'.canceled == s.canceled
      && s'.rows == if s.sessions[x].metadata.Marketplace? then ActivateMarketSession(s, x).rows else s.rows
  {
    DeliveredIsActivated(s, x);
    var v := s.sessions[x];
    if v.metadata.Platform? {
      ActivateInside(s, v.metadata.org, v.metadata.plan, v.customer, v.stripeSub);
    }
  }

  /** Any other report leaves the rows alone, and this one activates its pair's row. */
  lemma ReportRows(s: State, a: Action, x: Id)
    requires Inv(s) && Reports(a, x) && !a.ConfirmCheckout?
    ensures Apply(s, a).canceled == s.canceled
    ensures Apply(s, a).rows == if Activates(s, a, x) then ActivateMarketSession(s, x).rows else s.rows
  {
    if IsCompleted(s, x) {
      ReportDeliversOrNot(s, x, a);
      DeliveredRows(s, x);
    } else {
      assert Apply(s, a) == s;
    }
  }

  lemma OtherEventRows(s: State, e: Event)
    requires !e.SessionCompleted?
    ensures var s' := Apply(s, Deliver(e));
      && s'.canceled == s.canceled && s'.rows.Keys == s.rows.Keys
      && forall r :: r in s.rows ==>
           s'.rows[r] == s.rows[r] || s'.rows[r] == s.rows[r].(status := CANCELED)
  {
    BillingLeavesMarket(s, e);
  }

  // ----- When a pair gains a row ---------------------------------------------

  ghost predicate HasRow(s: State, org: Id, api: Id) {
    exists r :: IsPair(s.rows, r, org, api)
  }

  /** The step is a report that counts, of a completed session for exactly this pair. */
  ghost predicate ReportsPair(s: State, a: Action, org: Id, api: Id) {
    exists x :: Activates(s, a, x) && s.sessions[x].metadata == Marketplace(org, api)
  }

  lemma ReportGainsRowIff(s: State, a: Action, x: Id, org: Id, api: Id)
    requires Inv(s) && !HasRow(s, org, api) && Reports(a, x) && !a.ConfirmCheckout?
    ensures HasRow(Apply(s, a), org, api) <==> Activates(s, a, x) && s.sessions[x].metadata == Marketplace(org, api)
  {
    ReportRows(s, a, x);
    var s' := Apply(s, a);
    if Activates(s, a, x) {
      var m := s.sessions[x].metadata;
      ActivatedRow(s, x);
      forall r | IsPair(s'.rows, r, org, api) ensures m == Marketplace(org, api) {
        assert IsPair(s.rows, r, org, api) || IsPair(s'.rows, r, m.org, m.api);
      }
    } else {
      assert forall r :: IsPair(s'.rows, r, org, api) ==> IsPair(s.rows, r, org, api);
    }
  }

  /** Activation changes only its pair's row, which is then active and linked. */
  lemma ActivatedRow(s: State, x: Id)
    requires IsCompleted(s, x) && s.sessions[x].metadata.Marketplace?
    ensures var m := s.sessions[x].metadata;
      var rows := ActivateMarketSession(s, x).rows;
      && (exists r ::
           IsPair(rows, r, m.org, m.api) && rows[r] == MarketRow(m.org, m.api, ACTIVE, s.sessions[x].stripeSub))
      && (forall r :: r in rows ==>
           rows[r] == MarketRow(m.org, m.api, ACTIVE, s.sessions[x].stripeSub) || (r in s.rows && rows[r] == s.rows[r]))
  {
    var m := s.sessions[x].metadata;
    var r := if FindPair(s.rows, m.org, m.api).Some? then FindPair(s.rows, m.org, m.api).value else s.nextId;
    assert IsPair(ActivateMarketSession(s, x).rows, r, m.org, m.api);
  }

  /**
   * A pair without a row, never subscribed or unsubscribed, gains one in a step if
   * and only if the step is a subscribe call granted at once or a counting report of
   * a completed session for that pair, however old the session is.
   */
  lemma GainsRowIff(s: State, a: Action, org: Id, api: Id)
    requires Inv(s) && !HasRow(s, org, api)
    ensures HasRow(Apply(s, a), org, api) <==> GrantsFree(s, a, org, api) || ReportsPair(s, a, org, api)
  {
    var s' := Apply(s, a);
    if a.ConfirmApi? || (a.Deliver? && a.event.SessionCompleted?) {
      var x := if a.ConfirmApi? then a.session else a.event.session;
      ReportGainsRowIff(s, a, x, org, api);
      assert forall y :: Reports(a, y) ==> y == x;
    } else {
      assert forall x :: Activates(s, a, x) ==> false by {
        assert forall x :: Reports(a, x) ==> a.ConfirmCheckout?;
      }
      OtherStepGainsRow(s, a, org, api);
    }
  }

  lemma OtherStepGainsRow(s: State, a: Action, org: Id, api: Id)
    requires Inv(s) && !HasRow(s, org, api) && !a.ConfirmApi? && !(a.Deliver? && a.event.SessionCompleted?)
    ensures HasRow(Apply(s, a), org, api) <==> GrantsFree(s, a, org, api)
  {
    var s' := Apply(s, a);
    if a.SubscribeApi? {
      SubscribeApiRows(s, a.org, a.api, a.lookup);
      if GrantsFree(s, a, org, api) {
        assert forall r :: !IsPair(s.rows, r, org, api);
        assert IsPair(s'.rows, s.nextId, org, api);
      }
    } else if a.Deliver? {
      OtherEventRows(s, a.event);
    } else if a.Checkout? {
      CheckoutLeavesRows(s, a.org, a.plan);
    } else if OutsideMarket(a) {
      OutsideLeavesRows(s, a);
    }
    assert !a.SubscribeApi? ==> forall r :: IsPair(s'.rows, r, org, api) ==> IsPair(s.rows, r, org, api);
    assert forall r :: IsPair(s'.rows, r, org, api) ==> IsPair(s.rows, r, org, api) || GrantsFree(s, a, org, api);
  }

  // ----- When an active row is still backed ----------------------------------

  /** The Stripe subscriptions whose deletion Stripe has reported, after one more step. */
  function Told(deleted: set<Id>, a: Action): set<Id> {
    if a.Deliver? && a.event.SubDeleted? then deleted + {a.event.stripeSub} else deleted
  }

  /** No active row is linked to a Stripe subscription the services cancelled or Stripe reported deleted. */
  ghost predicate Backed(s: State, deleted: set<Id>) {
    forall r :: r in s.rows && s.rows[r].status == ACTIVE && s.rows[r].stripeSub.Some? ==>
      s.rows[r].stripeSub.value !in s.canceled + deleted
  }

  /** The step is a counting report of a marketplace session whose subscription has ended already. */
  predicate LateReportOf(s: State, deleted: set<Id>, a: Action, x: Id) {
    Activates(s, a, x) && s.sessions[x].stripeSub.Some? && s.sessions[x].stripeSub.value in s.canceled + deleted
  }

  ghost predicate LateReport(s: State, deleted: set<Id>, a: Action) {
    exists x :: LateReportOf(s, deleted, a, x)
  }

  lemma ReportStaysBackedIff(s: State, deleted: set<Id>, a: Action, x: Id)
    requires Inv(s) && Backed(s, deleted) && Reports(a, x) && !a.ConfirmCheckout?
    ensures Backed(Apply(s, a), Told(deleted, a)) <==> !LateReportOf(s, deleted, a, x)
  {
    ReportRows(s, a, x);
    if Activates(s, a, x) {
      ActivatedRow(s, x);
      var m, rows := s.sessions[x].metadata, ActivateMarketSession(s, x).rows;
      var r :| IsPair(rows, r, m.org, m.api) && rows[r] == MarketRow(m.org, m.api, ACTIVE, s.sessions[x].stripeSub);
      assert LateReportOf(s, deleted, a, x) ==>
        Apply(s, a).rows[r].stripeSub.value in Apply(s, a).canceled + deleted;
    }
  }

  /** One step keeps every active row backed exactly unless it is a late report. */
  lemma StaysBackedIff(s: State, deleted: set<Id>, a: Action)
    requires Inv(s) && Backed(s, deleted)
    ensures Backed(Apply(s, a), Told(deleted, a)) <==> !LateReport(s, deleted, a)
  {
    if a.ConfirmApi? || (a.Deliver? && a.event.SessionCompleted?) {
      var x := if a.ConfirmApi? then a.session else a.event.session;
      ReportStaysBackedIff(s, deleted, a, x);
      assert forall y :: Reports(a, y) ==> y == x;
    } else {
      assert forall x :: !LateReportOf(s, deleted, a, x) by {
        assert forall x :: Reports(a, x) ==> a.ConfirmCheckout?;
      }
      OtherStepStaysBacked(s, deleted, a);
    }
  }

  lemma OtherStepStaysBacked(s: State, deleted: set<Id>, a: Action)
    requires Inv(s) && Backed(s, deleted) && !a.ConfirmApi? && !(a.Deliver? && a.event.SessionCompleted?)
    ensures Backed(Apply(s, a), Told(deleted, a))
  {
    if a.SubscribeApi? {
      SubscribeApiRows(s, a.org, a.api, a.lookup);
    } else if a.Deliver? {
      EventStaysBacked(s, deleted, a.event);
    } else if a.Checkout? {
      CheckoutStaysBacked(s, deleted, a.org, a.plan);
    } else if a.Unsubscribe? {
      UnsubscribeStaysBacked(s, deleted, a.org, a.row);
    } else {
      OutsideLeavesRows(s, a);
    }
  }

  lemma EventStaysBacked(s: State, deleted: set<Id>, e: Event)
    requires Inv(s) && Backed(s, deleted) && !e.SessionCompleted?
    ensures Backed(Apply(s, Deliver(e)), Told(deleted, Deliver(e)))
  {
    OtherEventRows(s, e);
    if e.SubDeleted? {
      forall r | RowHasContract(s.rows, r, e.stripeSub)
        ensures Apply(s, Deliver(e)).rows[r].status == CANCELED
      {
        DeletedRowEnds(s, e.stripeSub, r);
      }
    }
  }

  /** A deletion event cancels the row linked to the subscription. */
  lemma DeletedRowEnds(s: State, i: Id, r: Id)
    requires Inv(s) && RowHasContract(s.rows, r, i)
    ensures var s' := Apply(s, Deliver(SubDeleted(i)));
      s'.rows == s.rows[r := s.rows[r].(status := CANCELED)] && s'.canceled == s.canceled
      && s'.sessions == s.sessions
  {
    BillingLeavesMarket(s, SubDeleted(i));
    RowOwnerUnique(s, i, r, FindRow(s.rows, i).value);
  }

  lemma CheckoutStaysBacked(s: State, deleted: set<Id>, org: Id, plan: Bill.Plan)
    requires Inv(s) && Backed(s, deleted)
    ensures Backed(Apply(s, Checkout(org, plan)), deleted)
  {
    if org in s.orgs {
      CheckoutLeavesRows(s, org, plan);
      forall i | i in DoCheckout(s, org, plan).canceled && i !in s.canceled
        ensures forall r :: !RowHasContract(s.rows, r, i)
      {
        CheckoutCancelsNoRow(s, org, plan, i);
      }
      assert forall r :: r in s.rows && s.rows[r].stripeSub.Some? ==>
        RowHasContract(s.rows, r, s.rows[r].stripeSub.value);
    }
  }

  /** What a checkout cancels is a plan subscription, not linked to any row. */
  lemma CheckoutCancelsNoRow(s: State, org: Id, plan: Bill.Plan, i: Id)
    requires Inv(s) && org in s.orgs && i in DoCheckout(s, org, plan).canceled && i !in s.canceled
    ensures i in s.contracts && s.contracts[i].Platform? && forall r :: !RowHasContract(s.rows, r, i)
  {
    CheckoutLeavesRows(s, org, plan);
    EnsureSubKeeps(s, org);
    var s1 := EnsureSub(s, org);
    assert SubInv(s1, org);
    forall r ensures !RowHasContract(s.rows, r, i) { TablesDisjoint(s1, i, org, r); }
  }

  lemma UnsubscribeStaysBacked(s: State, deleted: set<Id>, org: Id, q: Id)
    requires Inv(s) && Backed(s, deleted)
    ensures Backed(Apply(s, Unsubscribe(org, q)), deleted)
  {
    var s' := DoUnsubscribe(s, org, q);
    forall r | r in s'.rows && s'.rows[r].status == ACTIVE && s'.rows[r].stripeSub.Some?
      ensures s'.rows[r].stripeSub.value !in s'.canceled + deleted
    {
      var i := s.rows[r].stripeSub.value;
      assert RowHasContract(s.rows, r, i);
      if RowHasContract(s.rows, q, i) { RowOwnerUnique(s, i, q, r); }
    }
  }

  ghost predicate NeverLate(s: State, deleted: set<Id>, actions: seq<Action>)
    decreases |actions|
  {
    actions != [] ==>
      !LateReport(s, deleted, actions[0]) && NeverLate(Apply(s, actions[0]), Told(deleted, actions[0]), actions[1..])
  }

  /** Every active row is backed now and after every step. */
  ghost predicate AlwaysBacked(s: State, deleted: set<Id>, actions: seq<Action>)
    decreases |actions|
  {
    && Backed(s, deleted)
    && (actions != [] ==> AlwaysBacked(Apply(s, actions[0]), Told(deleted, actions[0]), actions[1..]))
  }

  lemma {:induction false} BackedAllAlong(s: State, deleted: set<Id>, actions: seq<Action>)
    requires Inv(s) && Backed(s, deleted)
    ensures AlwaysBacked(s, deleted, actions) <==> NeverLate(s, deleted, actions)
    decreases |actions|
  {
    if actions != [] {
      var s1, deleted1 := Apply(s, actions[0]), Told(deleted, actions[0]);
      StaysBackedIff(s, deleted, actions[0]);
      StepKeepsInv(s, actions[0]);
      if Backed(s1, deleted1) {
        BackedAllAlong(s1, deleted1, actions[1..]);
      }
    }
  }

  /**
   * Over every run: no active row is ever linked to a Stripe subscription that the
   * services have cancelled or that Stripe has reported deleted, if and only if no
   * marketplace session is reported, in a way that counts, after that happened to
   * its subscription.
   */
  lemma PaidForIff(enabled: bool, month: int, actions: seq<Action>)
    ensures AlwaysBacked(Init(enabled, month), {}, actions) <==> NeverLate(Init(enabled, month), {}, actions)
  {
    InitInv(enabled, month);
    BackedAllAlong(Init(enabled, month), {}, actions);
  }

  /**
   * The gap: after unsubscribing, the organization's own confirm call for its old
   * session grants access again, on the subscription that was just cancelled.
   */
  lemma ConfirmAfterUnsubscribe(s: State, r: Id, x: Id, i: Id)
    requires Inv(s) && s.stripeEnabled && r in s.rows && s.rows[r].stripeSub == Some(i)
    requires PaidBy(s, s.rows[r].org, s.rows[r].api, Some(i), x)
    ensures var org, api := s.rows[r].org, s.rows[r].api;
      var s1 := Apply(s, Unsubscribe(org, r));
      var s2 := Apply(s1, ConfirmApi(org, x));
      && !HasRow(s1, org, api) && i in s2.canceled
      && exists q :: IsPair(s2.rows, q, org, api) && s2.rows[q] == MarketRow(org, api, ACTIVE, Some(i))
  {
    var org, api := s.rows[r].org, s.rows[r].api;
    var s1 := Apply(s, Unsubscribe(org, r));
    forall q ensures !IsPair(s1.rows, q, org, api) {
      assert IsPair(s1.rows, q, org, api) ==> q == r;
    }
    StepKeepsInv(s, Unsubscribe(org, r));
    ReportRows(s1, ConfirmApi(org, x), x);
    ActivatedRow(s1, x);
  }

  /**
   * The same gap without any call of the services in between: Stripe reports the
   * subscription deleted, and the confirm call for its session makes the row active
   * again on it.
   */
  lemma ConfirmAfterDeletion(s: State, r: Id, x: Id, i: Id)
    requires Inv(s) && r in s.rows && s.rows[r].stripeSub == Some(i)
    requires PaidBy(s, s.rows[r].org, s.rows[r].api, Some(i), x)
    ensures var org, api := s.rows[r].org, s.rows[r].api;
      var s1 := Apply(s, Deliver(SubDeleted(i)));
      var s2 := Apply(s1, ConfirmApi(org, x));
      && r in s1.rows && s1.rows[r].status == CANCELED
      && r in s2.rows && s2.rows[r] == MarketRow(org, api, ACTIVE, Some(i))
  {
    var org, api := s.rows[r].org, s.rows[r].api;
    var s1 := Apply(s, Deliver(SubDeleted(i)));
    assert RowHasContract(s.rows, r, i);
    DeletedRowEnds(s, i, r);
    StepKeepsInv(s, Deliver(SubDeleted(i)));
    ReportRows(s1, ConfirmApi(org, x), x);
    assert IsPair(s1.rows, r, org, api);
    assert FindPair(s1.rows, org, api) == Some(r);
  }

  // ----- When a subscription loses its row -----------------------------------

  ghost predicate RowLinked(s: State, i: Id) {
    exists r :: RowHasContract(s.rows, r, i)
  }

  /** The step activates the pair of this subscription's row from another session. */
  ghost predicate Supersedes(s: State, a: Action, i: Id) {
    exists x, r :: SupersedesBy(s, a, i, x, r)
  }

  ghost predicate SupersedesBy(s: State, a: Action, i: Id, x: Id, r: Id) {
    && RowHasContract(s.rows, r, i) && Activates(s, a, x)
    && s.sessions[x].metadata == Marketplace(s.rows[r].org, s.rows[r].api) && s.sessions[x].stripeSub != Some(i)
  }

  lemma ReportLosesRowIff(s: State, a: Action, x: Id, i: Id, r: Id)
    requires Inv(s) && RowHasContract(s.rows, r, i) && Reports(a, x) && !a.ConfirmCheckout?
    ensures Apply(s, a).canceled == s.canceled
    ensures !RowLinked(Apply(s, a), i) <==> SupersedesBy(s, a, i, x, r)
  {
    ReportRows(s, a, x);
    var s' := Apply(s, a);
    if Activates(s, a, x) {
      var m := s.sessions[x].metadata;
      ActivatedRow(s, x);
      if m == Marketplace(s.rows[r].org, s.rows[r].api) {
        assert IsPair(s.rows, r, m.org, m.api) && FindPair(s.rows, m.org, m.api) == Some(r);
        assert s'.rows == s.rows[r := MarketRow(m.org, m.api, ACTIVE, s.sessions[x].stripeSub)];
        if s.sessions[x].stripeSub == Some(i) {
          assert RowHasContract(s'.rows, r, i);
        } else {
          forall q ensures !RowHasContract(s'.rows, q, i) {
            if RowHasContract(s.rows, q, i) { RowOwnerUnique(s, i, q, r); }
          }
        }
      } else {
        OtherPairKept(s, x, r);
        assert RowHasContract(s'.rows, r, i);
      }
    } else {
      assert RowHasContract(s'.rows, r, i);
    }
  }

  /** Activating one pair leaves another pair's row alone. */
  lemma OtherPairKept(s: State, x: Id, r: Id)
    requires Inv(s) && IsCompleted(s, x) && s.sessions[x].metadata.Marketplace? && r in s.rows
    requires s.sessions[x].metadata != Marketplace(s.rows[r].org, s.rows[r].api)
    ensures r in ActivateMarketSession(s, x).rows && ActivateMarketSession(s, x).rows[r] == s.rows[r]
  {
    assert RowInv(s, r);
  }

  /**
   * A live subscription loses its row without being cancelled in a step if and only
   * if the step activates another session of the same pair.
   */
  lemma LosesRowIff(s: State, a: Action, i: Id)
    requires Inv(s) && RowLinked(s, i) && i !in s.canceled
    ensures !RowLinked(Apply(s, a), i) && i !in Apply(s, a).canceled <==> Supersedes(s, a, i)
  {
    var r :| RowHasContract(s.rows, r, i);
    forall q | RowHasContract(s.rows, q, i) ensures q == r { RowOwnerUnique(s, i, q, r); }
    if a.ConfirmApi? || (a.Deliver? && a.event.SessionCompleted?) {
      var x := if a.ConfirmApi? then a.session else a.event.session;
      ReportLosesRowIff(s, a, x, i, r);
      assert forall y :: Reports(a, y) ==> y == x;
      assert Supersedes(s, a, i) <==> SupersedesBy(s, a, i, x, r);
    } else {
      assert forall x :: Reports(a, x) ==> a.ConfirmCheckout?;
      OtherStepKeepsRow(s, a, i, r);
    }
  }

  lemma OtherStepKeepsRow(s: State, a: Action, i: Id, r: Id)
    requires Inv(s) && RowHasContract(s.rows, r, i) && !a.ConfirmApi? && !(a.Deliver? && a.event.SessionCompleted?)
    ensures RowHasContract(Apply(s, a).rows, r, i) || i in Apply(s, a).canceled
  {
    assert RowInv(s, r);
    if a.SubscribeApi? {
      SubscribeApiRows(s, a.org, a.api, a.lookup);
    } else if a.Deliver? {
      OtherEventRows(s, a.event);
    } else if a.Checkout? {
      CheckoutLeavesRows(s, a.org, a.plan);
    } else if !a.Unsubscribe? {
      OutsideLeavesRows(s, a);
    }
  }

  /** A marketplace subscription that no row knows and nobody cancelled: it goes on billing. */
  ghost predicate Abandoned(s: State, i: Id) {
    i in s.contracts && s.contracts[i].Marketplace? && !RowLinked(s, i) && i !in s.canceled
  }

  /** The step is a counting report of the session behind this subscription. */
  ghost predicate Readopts(s: State, a: Action, i: Id) {
    exists x :: Activates(s, a, x) && s.sessions[x].stripeSub == Some(i)
  }

  lemma ContractsStay(s: State, a: Action, i: Id)
    requires Inv(s) && i in s.contracts
    ensures i in Apply(s, a).contracts && Apply(s, a).contracts[i] == s.contracts[i]
  {
    match a {
      case Subscribe(org, plan) => ApplyPlanInside(s, org, plan);
      case Checkout(org, plan) => CheckoutLeavesContracts(s, org, plan);
      case ConfirmCheckout(org, x) => BillingLeavesMarket(s, SessionCompleted(x));
      case CloseInvoice(org, used) => ApplyPlanInside(s, org, Bill.FREE);
      case Onboard(org) => ApplyPlanInside(s, org, Bill.FREE);
      case SubscribeApi(org, api, lookup) => SubscribeApiLeavesContracts(s, org, api, lookup);
      case Deliver(e) => BillingLeavesMarket(s, e);
      case _ =>
    }
  }

  lemma CustomerLeavesContracts(s: State, org: Id)
    ensures EnsureCustomer(s, org).contracts == s.contracts
  {
    ApplyPlanInside(s, org, Bill.FREE);
  }

  lemma CheckoutLeavesContracts(s: State, org: Id, plan: Bill.Plan)
    ensures DoCheckout(s, org, plan).contracts == s.contracts
  {
    ApplyPlanInside(s, org, Bill.FREE);
    var s1 := EnsureSub(s, org);
    DowngradeInside(CancelContract(s1, s1.billing[org].stripeSub), org);
    CustomerLeavesContracts(s1, org);
  }

  lemma SubscribeApiLeavesContracts(s: State, org: Id, api: Id, lookup: Option<bool>)
    ensures DoSubscribeApi(s, org, api, lookup).contracts == s.contracts
  {
    if api in s.apis {
      CustomerLeavesContracts(DoCheckPayouts(s, s.apis[api].owner, lookup), org);
    }
  }

  lemma ReportReadoptsIff(s: State, a: Action, x: Id, i: Id)
    requires Inv(s) && Abandoned(s, i) && Reports(a, x) && !a.ConfirmCheckout?
    ensures Apply(s, a).canceled == s.canceled
    ensures RowLinked(Apply(s, a), i) <==> Activates(s, a, x) && s.sessions[x].stripeSub == Some(i)
  {
    ReportRows(s, a, x);
    var rows := Apply(s, a).rows;
    assert forall r :: !RowHasContract(s.rows, r, i);
    if Activates(s, a, x) {
      ActivatedRow(s, x);
      var m := s.sessions[x].metadata;
      var r :| IsPair(rows, r, m.org, m.api) && rows[r] == MarketRow(m.org, m.api, ACTIVE, s.sessions[x].stripeSub);
      assert s.sessions[x].stripeSub == Some(i) ==> RowHasContract(rows, r, i);
      assert forall q :: RowHasContract(rows, q, i) ==>
        s.sessions[x].stripeSub == Some(i) || RowHasContract(s.rows, q, i);
    }
  }

  /** An abandoned subscription stays abandoned in a step exactly unless its own session is reported again. */
  lemma StaysAbandonedIff(s: State, a: Action, i: Id)
    requires Inv(s) && Abandoned(s, i)
    ensures Abandoned(Apply(s, a), i) <==> !Readopts(s, a, i)
  {
    ContractsStay(s, a, i);
    if a.ConfirmApi? || (a.Deliver? && a.event.SessionCompleted?) {
      var x := if a.ConfirmApi? then a.session else a.event.session;
      ReportReadoptsIff(s, a, x, i);
      assert forall y :: Reports(a, y) ==> y == x;
    } else {
      assert forall x :: Reports(a, x) ==> a.ConfirmCheckout?;
      OtherStepAdoptsNothing(s, a, i);
    }
  }

  lemma OtherStepAdoptsNothing(s: State, a: Action, i: Id)
    requires Inv(s) && Abandoned(s, i) && !a.ConfirmApi? && !(a.Deliver? && a.event.SessionCompleted?)
    ensures !RowLinked(Apply(s, a), i) && i !in Apply(s, a).canceled
  {
    var s' := Apply(s, a);
    assert forall r :: !RowHasContract(s.rows, r, i);
    if a.SubscribeApi? {
      SubscribeApiRows(s, a.org, a.api, a.lookup);
    } else if a.Deliver? {
      OtherEventRows(s, a.event);
    } else if a.Checkout? {
      if a.org in s.orgs {
        CheckoutLeavesRows(s, a.org, a.plan);
        if i in s'.canceled { CheckoutCancelsNoRow(s, a.org, a.plan, i); }
      }
    } else if a.Unsubscribe? {
      assert a.row in s.rows && s.rows[a.row].stripeSub == Some(i) ==> RowHasContract(s.rows, a.row, i);
    } else {
      OutsideLeavesRows(s, a);
    }
    assert forall r :: RowHasContract(s'.rows, r, i) ==> RowHasContract(s.rows, r, i);
  }

  ghost predicate NeverReadopted(s: State, actions: seq<Action>, i: Id)
    decreases |actions|
  {
    actions != [] ==> !Readopts(s, actions[0], i) && NeverReadopted(Apply(s, actions[0]), actions[1..], i)
  }

  ghost predicate AlwaysAbandoned(s: State, actions: seq<Action>, i: Id)
    decreases |actions|
  {
    Abandoned(s, i) && (actions != [] ==> AlwaysAbandoned(Apply(s, actions[0]), actions[1..], i))
  }

  /**
   * A superseded subscription is out of the services' reach, `unsubscribe` included,
   * at every point of a run if and only if its old session is never reported again.
   */
  lemma {:induction false} AbandonedAllAlong(s: State, actions: seq<Action>, i: Id)
    requires Inv(s) && Abandoned(s, i)
    ensures AlwaysAbandoned(s, actions, i) <==> NeverReadopted(s, actions, i)
    decreases |actions|
  {
    if actions != [] {
      var s1 := Apply(s, actions[0]);
      StaysAbandonedIff(s, actions[0], i);
      StepKeepsInv(s, actions[0]);
      if Abandoned(s1, i) {
        AbandonedAllAlong(s1, actions[1..], i);
      }
    }
  }
}
