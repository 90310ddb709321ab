/** A publisher's recurring earnings, in whole cents. */
module Earnings {
  import opened Basics
  import Bill

  const PLATFORM_FEE_PERCENT: nat := 10

  datatype Api = Api(id: nat, owner: nat, price: nat)

  /** A marketplace subscription row, as the count query sees it. */
  datatype Subscriber = Subscriber(org: nat, api: nat, active: bool)

  datatype ApiEarnings = ApiEarnings(id: nat, price: nat, subscribers: nat, gross: nat, net: nat)

  datatype Summary = Summary(
    publishedApis: nat, totalSubscribers: nat, gross: nat, platformFee: nat, net: nat, perApi: seq<ApiEarnings>)

  function CountFor(subs: seq<Subscriber>, api: nat): nat {
    if subs == [] then 0
    else CountFor(ButLast(subs), api) + if Last(subs).api == api && Last(subs).active then 1 else 0
  }

  function RowOf(a: Api, subs: seq<Subscriber>): ApiEarnings {
    var gross := a.price * CountFor(subs, a.id);
    ApiEarnings(a.id, a.price, CountFor(subs, a.id), gross, Bill.RoundHalfUp(gross * (100 - PLATFORM_FEE_PERCENT), 100))
  }

  function RowsOf(apis: seq<Api>, subs: seq<Subscriber>): seq<ApiEarnings> {
    seq(|apis|, i requires 0 <= i < |apis| => RowOf(apis[i], subs))
  }

  /** The active subscription rows for an API, by their place in the table. */
  ghost function ActiveRows(subs: seq<Subscriber>, api: nat): set<int> {
    set i | 0 <= i < |subs| && subs[i].api == api && subs[i].active
  }

  lemma {:induction false} CountIsSize(subs: seq<Subscriber>, api: nat)
    ensures CountFor(subs, api) == |ActiveRows(subs, api)|
  {
    if subs == [] {
      assert ActiveRows(subs, api) == {};
    } else {
      CountIsSize(ButLast(subs), api);
      var rest := ActiveRows(ButLast(subs), api);
      if Last(subs).api == api && Last(subs).active {
        assert ActiveRows(subs, api) == rest + {|subs| - 1};
      } else {
        assert ActiveRows(subs, api) == rest;
      }
    }
  }

  /**
   * What a row says of its API: its active subscriptions, their price together, and
   * the cents nearest to nine tenths of that, the larger on a tie.
   */
  ghost predicate RowTells(r: ApiEarnings, a: Api, subs: seq<Subscriber>) {
    && r.id == a.id && r.price == a.price && r.subscribers == |ActiveRows(subs, a.id)|
    && r.gross == a.price * r.subscribers && 20 * r.net - 10 <= 18 * r.gross < 20 * r.net + 10
  }

  lemma RowOfTells(a: Api, subs: seq<Subscriber>)
    ensures RowTells(RowOf(a, subs), a, subs)
  {
    CountIsSize(subs, a.id);
    NetNearest(a.price * CountFor(subs, a.id));
  }

  lemma NetNearest(gross: nat)
    ensures var net := Bill.RoundHalfUp(gross * (100 - PLATFORM_FEE_PERCENT), 100);
      20 * net - 10 <= 18 * gross < 20 * net + 10
  {
  }

  /** Every API of the publisher has its row, and every row is of one of its APIs. */
  ghost predicate RowsTell(rows: seq<ApiEarnings>, apis: seq<Api>, org: nat, subs: seq<Subscriber>) {
    && (forall a :: a in apis && a.owner == org ==> exists r :: r in rows && RowTells(r, a, subs))
    && (forall r :: r in rows ==> exists a :: a in apis && a.owner == org && RowTells(r, a, subs))
  }

  lemma RowsOfTell(apis: seq<Api>, org: nat, subs: seq<Subscriber>)
    ensures RowsTell(RowsOf(Owned(apis, org), subs), apis, org, subs)
  {
    var owned := Owned(apis, org);
    var rows := RowsOf(owned, subs);
    OwnedExactly(apis, org);
    forall a | a in apis && a.owner == org ensures exists r :: r in rows && RowTells(r, a, subs) {
      assert multiset(owned)[a] > 0;
      var i :| 0 <= i < |owned| && owned[i] == a;
      RowOfTells(a, subs);
      assert rows[i] == RowOf(a, subs);
    }
    forall r | r in rows ensures exists a :: a in apis && a.owner == org && RowTells(r, a, subs) {
      var i :| 0 <= i < |rows| && rows[i] == r;
      RowOfTells(owned[i], subs);
      assert multiset(owned)[owned[i]] > 0;
    }
  }

  /** The query finds exactly the publisher's APIs. */
  lemma {:induction false} OwnedExactly(apis: seq<Api>, org: nat)
    ensures forall a :: multiset(Owned(apis, org))[a] == if a.owner == org then multiset(apis)[a] else 0
  {
    if apis != [] {
      OwnedExactly(ButLast(apis), org);
      assert apis == ButLast(apis) + [Last(apis)];
    }
  }

  lemma SortedStillTell(
    rows: seq<ApiEarnings>, sorted: seq<ApiEarnings>, apis: seq<Api>, org: nat, subs: seq<Subscriber>)
    requires RowsTell(rows, apis, org, subs) && multiset(sorted) == multiset(rows)
    ensures RowsTell(sorted, apis, org, subs)
  {
    assert forall r :: r in rows <==> r in multiset(rows);
    assert forall r :: r in sorted <==> r in multiset(sorted);
  }

  // ----- Sorting by gross, largest first -------------------------------------

  function Insert(x: ApiEarnings, s: seq<ApiEarnings>): seq<ApiEarnings> {
    if s == [] || x.gross > s[0].gross then [x] + s else [s[0]] + Insert(x, s[1..])
  }

  function SortDescending(s: seq<ApiEarnings>): seq<ApiEarnings> {
    if s == [] then [] else Insert(Last(s), SortDescending(ButLast(s)))
  }

  ghost predicate Descending(s: seq<ApiEarnings>) {
    forall i, j :: 0 <= i < j < |s| ==> s[i].gross >= s[j].gross
  }

  lemma {:induction false} InsertAdds(x: ApiEarnings, s: seq<ApiEarnings>)
    ensures multiset(Insert(x, s)) == multiset(s) + multiset{x}
  {
    if s != [] && x.gross <= s[0].gross {
      InsertAdds(x, s[1..]);
      assert s == [s[0]] + s[1..];
    }
  }

  lemma {:induction false} InsertKeeps(x: ApiEarnings, s: seq<ApiEarnings>)
    requires Descending(s)
    ensures Descending(Insert(x, s))
  {
    if s != [] && x.gross <= s[0].gross {
      InsertKeeps(x, s[1..]);
      InsertAdds(x, s[1..]);
      HeadIsLargest(s[0], Insert(x, s[1..]), s[1..], x);
    }
  }

  lemma HeadIsLargest(head: ApiEarnings, t: seq<ApiEarnings>, s: seq<ApiEarnings>, x: ApiEarnings)
    requires multiset(t) == multiset(s) + multiset{x} && Descending(t)
    requires x.gross <= head.gross && forall k :: 0 <= k < |s| ==> s[k].gross <= head.gross
    ensures Descending([head] + t)
  {
    forall k | 0 <= k < |t| ensures t[k].gross <= head.gross {
      assert t[k] in multiset(t);
    }
  }

  lemma {:induction false} SortPermutes(s: seq<ApiEarnings>)
    ensures Descending(SortDescending(s)) && multiset(SortDescending(s)) == multiset(s)
  {
    if s != [] {
      SortPermutes(ButLast(s));
      InsertKeeps(Last(s), SortDescending(ButLast(s)));
      InsertAdds(Last(s), SortDescending(ButLast(s)));
      assert s == ButLast(s) + [Last(s)];
    }
  }

  lemma SameSize(a: seq<ApiEarnings>, b: seq<ApiEarnings>)
    requires multiset(a) == multiset(b)
    ensures |a| == |b|
  {
    assert |multiset(a)| == |multiset(b)|;
  }

  // ----- The same totals counted over subscriptions --------------------------

  ghost predicate DistinctIds(apis: seq<Api>) {
    forall i, j :: 0 <= i < j < |apis| ==> apis[i].id != apis[j].id
  }

  /** The price of the listed API with this id, if there is one. */
  ghost function PriceIn(apis: seq<Api>, id: nat): Option<nat> {
    if apis == [] then None
    else if Last(apis).id == id then Some(Last(apis).price)
    else PriceIn(ButLast(apis), id)
  }

  /** Active subscriptions to any of the listed APIs: a join, one row at a time. */
  ghost function JoinCount(subs: seq<Subscriber>, apis: seq<Api>): nat {
    if subs == [] then 0
    else JoinCount(ButLast(subs), apis) + if Last(subs).active && PriceIn(apis, Last(subs).api).Some? then 1 else 0
  }

  ghost function JoinGross(subs: seq<Subscriber>, apis: seq<Api>): nat {
    if subs == [] then 0
    else
      var price := PriceIn(apis, Last(subs).api);
      JoinGross(ButLast(subs), apis) + if Last(subs).active && price.Some? then price.value else 0
  }

  lemma {:induction false} PriceAbsent(apis: seq<Api>, id: nat)
    requires forall i :: 0 <= i < |apis| ==> apis[i].id != id
    ensures PriceIn(apis, id) == None
  {
    if apis != [] {
      PriceAbsent(ButLast(apis), id);
    }
  }

  /** One more API adds its own count and its own gross to the join. */
  lemma {:induction false} JoinAddsApi(subs: seq<Subscriber>, apis: seq<Api>, a: Api)
    requires PriceIn(apis, a.id) == None
    ensures JoinCount(subs, apis + [a]) == JoinCount(subs, apis) + CountFor(subs, a.id)
    ensures JoinGross(subs, apis + [a]) == JoinGross(subs, apis) + a.price * CountFor(subs, a.id)
  {
    AppendLast(apis, a);
    if subs != [] {
      JoinAddsApi(ButLast(subs), apis, a);
      OneMoreTime(a.price, CountFor(ButLast(subs), a.id));
    }
  }

  lemma OneMoreTime(price: nat, n: nat)
    ensures price * (n + 1) == price * n + price
  {
  }

  lemma {:induction false} EmptyJoin(subs: seq<Subscriber>)
    ensures JoinCount(subs, []) == 0 && JoinGross(subs, []) == 0
  {
    if subs != [] {
      EmptyJoin(ButLast(subs));
    }
  }

  // ----- Rounding ------------------------------------------------------------

  ghost function SumNet(rows: seq<ApiEarnings>): nat {
    if rows == [] then 0 else SumNet(ButLast(rows)) + Last(rows).net
  }

  /** The fee is at most the gross, and rounding moves a tenth by at most half a cent. */
  lemma FeeBounds(gross: nat)
    ensures var fee := Bill.RoundHalfUp(gross * PLATFORM_FEE_PERCENT, 100);
      fee <= gross && -4 <= 10 * fee - gross <= 5
  {
  }

  lemma NetBounds(gross: nat)
    ensures var net := Bill.RoundHalfUp(gross * (100 - PLATFORM_FEE_PERCENT), 100);
      -4 <= 10 * net - 9 * gross <= 5
  {
  }

  // ----- The loop ------------------------------------------------------------

  function Owned(apis: seq<Api>, org: nat): seq<Api> {
    if apis == [] then []
    else Owned(ButLast(apis), org) + if Last(apis).owner == org then [Last(apis)] else []
  }

  lemma {:induction false} OwnedDistinct(apis: seq<Api>, org: nat)
    requires DistinctIds(apis)
    ensures DistinctIds(Owned(apis, org))
    ensures forall k :: 0 <= k < |Owned(apis, org)| ==> Owned(apis, org)[k] in apis && Owned(apis, org)[k].owner == org
  {
    if apis != [] {
      OwnedDistinct(ButLast(apis), org);
      var front := Owned(ButLast(apis), org);
      forall k | 0 <= k < |front| ensures front[k].id != Last(apis).id {
        var j :| 0 <= j < |ButLast(apis)| && ButLast(apis)[j] == front[k];
        assert apis[j].id != apis[|apis| - 1].id;
      }
    }
  }

  /** The running totals after the APIs in `done`. */
  ghost predicate Totals(
    subs: seq<Subscriber>, done: seq<Api>, perApi: seq<ApiEarnings>, subscribers: nat, gross: nat)
  {
    && perApi == RowsOf(done, subs) && subscribers == JoinCount(subs, done) && gross == JoinGross(subs, done)
    && -4 * |done| <= 10 * SumNet(perApi) - 9 * gross <= 5 * |done|
  }

  lemma BoundsAdd(nets: int, gross: int, n: nat, net: int, g: int)
    requires -4 * n <= 10 * nets - 9 * gross <= 5 * n && -4 <= 10 * net - 9 * g <= 5
    ensures -4 * (n + 1) <= 10 * (nets + net) - 9 * (gross + g) <= 5 * (n + 1)
  {
  }

  lemma NextApi(subs: seq<Subscriber>, done: seq<Api>, api: Api, perApi: seq<ApiEarnings>, subscribers: nat, gross: nat)
    requires Totals(subs, done, perApi, subscribers, gross) && DistinctIds(done + [api])
    ensures Totals(subs, done + [api], perApi + [RowOf(api, subs)],
                   subscribers + CountFor(subs, api.id), gross + api.price * CountFor(subs, api.id))
  {
    forall i | 0 <= i < |done| ensures done[i].id != api.id {
      assert (done + [api])[i].id != (done + [api])[|done|].id;
    }
    PriceAbsent(done, api.id);
    JoinAddsApi(subs, done, api);
    var row := RowOf(api, subs);
    NetBounds(row.gross);
    AppendLast(perApi, row);
    assert SumNet(perApi + [row]) == SumNet(perApi) + row.net;
    BoundsAdd(SumNet(perApi), gross, |done|, row.net, row.gross);
    assert RowsOf(done + [api], subs) == RowsOf(done, subs) + [RowOf(api, subs)];
  }

  /**
   * Fee plus net is the gross to the cent; the totals are those of the join over
   * active subscriptions; ten times the difference between the per-API nets and
   * the overall net stays between -4(n+1) and 5(n+1); perApi is the rows of the
   * owned APIs by descending gross.
   */
  method GetEarnings(org: nat, apis: seq<Api>, subs: seq<Subscriber>) returns (r: Summary)
    requires DistinctIds(apis)
    ensures r.publishedApis == |Owned(apis, org)|
    ensures r.totalSubscribers == JoinCount(subs, Owned(apis, org))
    ensures r.gross == JoinGross(subs, Owned(apis, org))
    ensures r.platformFee + r.net == r.gross && -4 <= 10 * r.platformFee - r.gross <= 5
    ensures RowsTell(r.perApi, apis, org, subs) && |r.perApi| == r.publishedApis
    ensures multiset(r.perApi) == multiset(RowsOf(Owned(apis, org), subs)) && Descending(r.perApi)
    ensures var n := r.publishedApis;
      -4 * (n + 1) <= 10 * (SumNet(RowsOf(Owned(apis, org), subs)) - r.net) <= 5 * (n + 1)
  {
    var owned := Owned(apis, org);
    OwnedDistinct(apis, org);
    var totalSubscribers: nat := 0;
    var gross: nat := 0;
    var perApi := [];
    EmptyJoin(subs);
    assert RowsOf(owned[..0], subs) == [];
    for i := 0 to |owned|
      invariant Totals(subs, owned[..i], perApi, totalSubscribers, gross)
    {
      var api := owned[i];
      assert owned[..i + 1] == owned[..i] + [api];
      NextApi(subs, owned[..i], api, perApi, totalSubscribers, gross);
      var subscribers := CountFor(subs, api.id);
      var apiGross := api.price * subscribers;
      totalSubscribers := totalSubscribers + subscribers;
      gross := gross + apiGross;
      perApi := perApi + [ApiEarnings(api.id, api.price, subscribers, apiGross,
                                      Bill.RoundHalfUp(apiGross * (100 - PLATFORM_FEE_PERCENT), 100))];
    }
    assert owned[..|owned|] == owned;
    var platformFee := Bill.RoundHalfUp(gross * PLATFORM_FEE_PERCENT, 100);
    FeeBounds(gross);
    SortPermutes(perApi);
    RowsOfTell(apis, org, subs);
    SortedStillTell(perApi, SortDescending(perApi), apis, org, subs);
    SameSize(perApi, SortDescending(perApi));
    r := Summary(|owned|, totalSubscribers, gross, platformFee, gross - platformFee, SortDescending(perApi));
  }
}
