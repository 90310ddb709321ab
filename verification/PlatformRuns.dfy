/** Runs from the empty platform that reach the gaps. */
module PlatformRuns {
  import opened Basics
  import opened Bill
  import opened PlatformModel
  import opened PlatformInvariants
  import opened PlatformResults
  import opened PlatformReplay
  import opened PlatformAccess

  /**
   * Publisher 0 offers API 2 for a dollar and can be paid; subscriber 1 opens two
   * sessions for it, 5 and 6, pays both (contracts 7 and 8) and confirms the first;
   * and then `rest` happens.
   */
  function PaidTwice(rest: seq<Action>): seq<Action> {
    [NewOrg(PUBLISHER)] + ([NewOrg(SUBSCRIBER)] + ([Publish(0, 100)] + ([Onboard(0)] + Sessions(rest))))
  }

  function Sessions(rest: seq<Action>): seq<Action> {
    [SubscribeApi(1, 2, Some(true))] + ([SubscribeApi(1, 2, Some(true))] + ([Complete(5, true)] +
      ([Complete(6, true)] + ([ConfirmApi(1, 5)] + rest))))
  }

  function FreeSub(month: int): Subscription {
    Subscription(FREE, ACTIVE, 10_000, 0, 0, month, None, None, None, false)
  }

  /** The publisher is ready. */
  function Ready(month: int): State {
    State(month, true, map[0 := Org(PUBLISHER, FREE, 100), 1 := Org(SUBSCRIBER, FREE, 100)],
          map[0 := FreeSub(month).(connect := Some(3))], [], map[2 := Api(0, 100)], map[],
          map[], map[], {}, 4)
  }

  /** Both sessions are open. */
  function Opened(month: int): State {
    Ready(month).(
      billing := map[0 := FreeSub(month).(connect := Some(3), payoutsEnabled := true),
                     1 := FreeSub(month).(customer := Some(4))],
      sessions := map[5 := Session(Marketplace(1, 2), 4, false, None), 6 := Session(Marketplace(1, 2), 4, false, None)],
      nextId := 7)
  }

  /** Both are paid, and the first is confirmed: row 9 is linked to contract 7. */
  function Confirmed(month: int): State {
    Opened(month).(
      sessions := map[5 := Session(Marketplace(1, 2), 4, true, Some(7)),
                      6 := Session(Marketplace(1, 2), 4, true, Some(8))],
      contracts := map[7 := Marketplace(1, 2), 8 := Marketplace(1, 2)],
      rows := map[9 := MarketRow(1, 2, ACTIVE, Some(7))], nextId := 10)
  }

  lemma ReadyReached(month: int, rest: seq<Action>)
    ensures Exec(Init(true, month), PaidTwice(rest)) == Exec(Ready(month), Sessions(rest))
  {
    var s0 := Init(true, month);
    var s1 := Apply(s0, NewOrg(PUBLISHER));
    var s2 := Apply(s1, NewOrg(SUBSCRIBER));
    var s3 := Apply(s2, Publish(0, 100));
    ExecCons(s0, NewOrg(PUBLISHER), [NewOrg(SUBSCRIBER)] + ([Publish(0, 100)] + ([Onboard(0)] + Sessions(rest))));
    ExecCons(s1, NewOrg(SUBSCRIBER), [Publish(0, 100)] + ([Onboard(0)] + Sessions(rest)));
    ExecCons(s2, Publish(0, 100), [Onboard(0)] + Sessions(rest));
    ExecCons(s3, Onboard(0), Sessions(rest));
    ReadyAfterOnboard(month, s3);
  }

  lemma ReadyAfterOnboard(month: int, s: State)
    requires s == Ready(month).(billing := map[], nextId := 3)
    ensures Apply(s, Onboard(0)) == Ready(month)
  {
    var s1 := EnsureSub(s, 0);
    assert s1.orgs == s.orgs && s1.billing == map[0 := FreeSub(month)];
  }

  lemma FirstOpened(month: int)
    ensures Apply(Ready(month), SubscribeApi(1, 2, Some(true))) ==
      Opened(month).(sessions := map[5 := Session(Marketplace(1, 2), 4, false, None)], nextId := 6)
  {
    var s := Ready(month);
    var s1 := DoCheckPayouts(s, 0, Some(true));
    assert FindPair(s.rows, 1, 2) == None;
    var s2 := EnsureSub(s1, 1);
    assert s2.orgs == s.orgs;
    assert s2.billing == map[0 := FreeSub(month).(connect := Some(3), payoutsEnabled := true), 1 := FreeSub(month)];
    var s3 := EnsureCustomer(s1, 1);
    assert s3.billing == Opened(month).billing && s3.nextId == 5;
  }

  lemma SecondOpened(month: int)
    ensures Apply(Opened(month).(sessions := map[5 := Session(Marketplace(1, 2), 4, false, None)], nextId := 6),
                  SubscribeApi(1, 2, Some(true))) == Opened(month)
  {
    var s := Opened(month).(sessions := map[5 := Session(Marketplace(1, 2), 4, false, None)], nextId := 6);
    assert FindPair(s.rows, 1, 2) == None;
    var s1 := DoCheckPayouts(s, 0, Some(true));
    assert s1.billing == s.billing;
    assert EnsureCustomer(s1, 1) == s1;
  }

  lemma BothPaid(month: int)
    ensures Apply(Apply(Opened(month), Complete(5, true)), Complete(6, true)) ==
      Confirmed(month).(rows := map[], nextId := 9)
  {
    var s1 := Apply(Opened(month), Complete(5, true));
    assert s1.sessions == map[5 := Session(Marketplace(1, 2), 4, true, Some(7)),
                              6 := Session(Marketplace(1, 2), 4, false, None)];
  }

  lemma FirstConfirmed(month: int)
    ensures Apply(Confirmed(month).(rows := map[], nextId := 9), ConfirmApi(1, 5)) == Confirmed(month)
  {
    var s := Confirmed(month).(rows := map[], nextId := 9);
    assert FindPair(s.rows, 1, 2) == None;
  }

  lemma PaidTwiceRuns(month: int, rest: seq<Action>)
    ensures Exec(Init(true, month), PaidTwice(rest)) == Exec(Confirmed(month), rest) && Inv(Confirmed(month))
  {
    ReadyReached(month, rest);
    var s0 := Ready(month);
    var s1 := Apply(s0, SubscribeApi(1, 2, Some(true)));
    var s2 := Apply(s1, SubscribeApi(1, 2, Some(true)));
    var s3 := Apply(s2, Complete(5, true));
    var s4 := Apply(s3, Complete(6, true));
    var t3 := [Complete(6, true)] + ([ConfirmApi(1, 5)] + rest);
    ExecCons(s0, SubscribeApi(1, 2, Some(true)), [SubscribeApi(1, 2, Some(true))] + ([Complete(5, true)] + t3));
    ExecCons(s1, SubscribeApi(1, 2, Some(true)), [Complete(5, true)] + t3);
    ExecCons(s2, Complete(5, true), t3);
    ExecCons(s3, Complete(6, true), [ConfirmApi(1, 5)] + rest);
    ExecCons(s4, ConfirmApi(1, 5), rest);
    FirstOpened(month);
    SecondOpened(month);
    BothPaid(month);
    FirstConfirmed(month);
    ConfirmedInv(month);
  }

  /** The state is reachable, so the invariant holds in it. */
  lemma ConfirmedInv(month: int)
    ensures Inv(Confirmed(month))
  {
    var s := Confirmed(month);
    assert forall o :: o in s.billing ==> TermsMatch(s.billing[o]);
    forall r ensures RowInv(s, r) {
      if r == 9 { assert PaidBy(s, 1, 2, Some(7), 5); }
    }
  }

  /** An unsubscribed organization gets its access back on the cancelled subscription 7. */
  lemma ConfirmAfterUnsubscribePossible(month: int)
    ensures var s := Exec(Init(true, month), PaidTwice([Unsubscribe(1, 9)] + ([ConfirmApi(1, 5)] + [])));
      7 in s.canceled && exists q :: IsPair(s.rows, q, 1, 2) && s.rows[q] == MarketRow(1, 2, ACTIVE, Some(7))
  {
    PaidTwiceRuns(month, [Unsubscribe(1, 9)] + ([ConfirmApi(1, 5)] + []));
    var s := Confirmed(month);
    ExecCons(s, Unsubscribe(1, 9), [ConfirmApi(1, 5)] + []);
    ExecCons(Apply(s, Unsubscribe(1, 9)), ConfirmApi(1, 5), []);
    assert PaidBy(s, 1, 2, Some(7), 5);
    ConfirmAfterUnsubscribe(s, 9, 5, 7);
  }

  /** Row 9 is active on subscription 7 although Stripe has reported it deleted. */
  lemma ConfirmAfterDeletionPossible(month: int)
    ensures var s := Exec(Init(true, month), PaidTwice([Deliver(SubDeleted(7))] + ([ConfirmApi(1, 5)] + [])));
      9 in s.rows && s.rows[9] == MarketRow(1, 2, ACTIVE, Some(7))
  {
    PaidTwiceRuns(month, [Deliver(SubDeleted(7))] + ([ConfirmApi(1, 5)] + []));
    var s := Confirmed(month);
    ExecCons(s, Deliver(SubDeleted(7)), [ConfirmApi(1, 5)] + []);
    ExecCons(Apply(s, Deliver(SubDeleted(7))), ConfirmApi(1, 5), []);
    assert PaidBy(s, 1, 2, Some(7), 5);
    ConfirmAfterDeletion(s, 9, 5, 7);
  }

  /** Confirming the second session abandons subscription 7, and unsubscribing then cancels only 8. */
  lemma AbandonedPossible(month: int)
    ensures var s := Exec(Init(true, month), PaidTwice([ConfirmApi(1, 6)] + ([Unsubscribe(1, 9)] + [])));
      Abandoned(s, 7) && s.rows == map[] && s.canceled == {8}
  {
    PaidTwiceRuns(month, [ConfirmApi(1, 6)] + ([Unsubscribe(1, 9)] + []));
    SecondConfirmed(month);
    var s := Confirmed(month);
    ExecCons(s, ConfirmApi(1, 6), [Unsubscribe(1, 9)] + []);
    ExecCons(Reconfirmed(month), Unsubscribe(1, 9), []);
    SecondUnsubscribed(month);
  }

  lemma SecondUnsubscribed(month: int)
    ensures var s := Apply(Reconfirmed(month), Unsubscribe(1, 9));
      Abandoned(s, 7) && s.rows == map[] && s.canceled == {8}
  {
    var s := Apply(Reconfirmed(month), Unsubscribe(1, 9));
    assert s.rows == map[];
  }

  /** The second session is confirmed: row 9 is linked to contract 8. */
  function Reconfirmed(month: int): State {
    Confirmed(month).(rows := map[9 := MarketRow(1, 2, ACTIVE, Some(8))])
  }

  lemma SecondConfirmed(month: int)
    ensures Apply(Confirmed(month), ConfirmApi(1, 6)) == Reconfirmed(month)
  {
    var s := Confirmed(month);
    assert IsPair(s.rows, 9, 1, 2) && FindPair(s.rows, 1, 2) == Some(9);
    assert ActivateRow(s, 1, 2, Some(8)).rows == Reconfirmed(month).rows;
  }
}
