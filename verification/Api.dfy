/**
  The client's API service without the network: the price helper and the
  route formatter it exports, and the mock-data branches of the city search,
  the route search, the seat listing and order creation. Delays, logging and
  random values are left out; clock readings and generated ids are
  parameters.
 */
module Api {
  import opened Options
  import opened Text
  import opened Seqs
  import opened ApiData

  // ---------------------------------------------------------------------
  // getMinPrice
  // ---------------------------------------------------------------------

  /** A class whose bottom price is present and truthy (not zero). */
  predicate TruthyBottom(info: PriceInfo, c: WagonClass) {
    BottomPrice(info, c).Some? && BottomPrice(info, c).value != 0
  }

  /** `getMinPrice`: the least truthy bottom price of the route's price
      information, preferring the departure's; 0 without information or
      without such a price. Negative prices take part. */
  function GetMinPrice(r: Route): (m: int)
    ensures RoutePriceInfo(r).None? ==> m == 0
    ensures RoutePriceInfo(r).Some? && (forall c :: !TruthyBottom(RoutePriceInfo(r).value, c)) ==> m == 0
    ensures RoutePriceInfo(r).Some? && (exists c :: TruthyBottom(RoutePriceInfo(r).value, c)) ==>
      var info := RoutePriceInfo(r).value;
      (exists c :: TruthyBottom(info, c) && BottomPrice(info, c).value == m) &&
      (forall c :: TruthyBottom(info, c) ==> m <= BottomPrice(info, c).value)
  {
    match RoutePriceInfo(r)
    case None => 0
    case Some(info) =>
      var prices := KeptBottoms(info, x => x != 0);
      if |prices| == 0 then 0
      else
        assert prices[0] in prices;
        TruthyWitness(info, prices[0]);
        Min(prices)
  }

  lemma TruthyWitness(info: PriceInfo, x: int)
    requires exists c :: BottomPrice(info, c) == Some(x) && x != 0
    ensures exists c :: TruthyBottom(info, c)
  {
    var c :| BottomPrice(info, c) == Some(x) && x != 0;
    assert TruthyBottom(info, c);
  }

  // ---------------------------------------------------------------------
  // formatRouteForUI
  // ---------------------------------------------------------------------

  /** A wagon entry of a formatted route. */
  datatype UiWagon = UiWagon(
    id: string,
    kind: string,
    name: string,
    price: int,
    availableSeats: int,
    topPrice: int,
    number: string)

  /** A formatted route. The locale-formatted dates are left out. */
  datatype UiRoute = UiRoute(
    id: Option<string>,
    number: string,
    name: string,
    fromCity: string,
    fromStation: string,
    toCity: string,
    toStation: string,
    departureTime: string,
    arrivalTime: string,
    duration: int,
    minPrice: int,
    priceInfo: Option<PriceInfo>,
    seatsInfo: Option<SeatsInfo>,
    hasWifi: bool,
    hasConditioner: bool,
    hasLinens: bool,
    wagons: seq<UiWagon>)

  /** `apiRoute.departure || apiRoute`. */
  function Dep(r: Route): Departure {
    r.departure.GetOr(r.own)
  }

  function WagonLabel(c: WagonClass): string {
    match c
    case First => "Люкс"
    case Second => "Купе"
    case Third => "Плацкарт"
    case Fourth => "Сидячий"
  }

  /** The wagon number shown for a class: "1" to "4" in class order. */
  function WagonNumber(c: WagonClass): (s: string)
    ensures |s| == 1 && s[0] as int == '1' as int + ClassIndex(c)
  {
    match c
    case First => "1"
    case Second => "2"
    case Third => "3"
    case Fourth => "4"
  }

  /** The wagon id `wagon-<route _id>-<class>`. */
  function WagonId(routeId: Option<string>, c: WagonClass): string {
    "wagon-" + Rendered(routeId) + "-" + ClassName(c)
  }

  function UiWagonOf(routeId: Option<string>, d: Departure, c: WagonClass): UiWagon {
    UiWagon(WagonId(routeId, c), ClassName(c), WagonLabel(c), ClassPriceOrZero(d, c),
      ClassSeatsOrZero(d, c), NumberOr(TopPrice(d.priceInfo, c), 0), WagonNumber(c))
  }

  /** `train?.number || train?.name || 'Unknown'`. */
  function TrainNumber(t: Option<Train>): string {
    match t
    case None => "Unknown"
    case Some(tr) => TextOr(tr.number, TextOr(tr.name, "Unknown"))
  }

  /** The wagons of a formatted route: one per offered class, in class
      order, each with a positive price. */
  function UiWagons(r: Route): (ws: seq<UiWagon>)
    ensures |ws| == |OfferedClasses(Dep(r))| <= 4
    ensures forall i :: 0 <= i < |ws| ==> ws[i] == UiWagonOf(r.underscoreId, Dep(r), OfferedClasses(Dep(r))[i])
    ensures forall w :: w in ws ==> w.price > 0
  {
    var d := Dep(r);
    var classes := OfferedClasses(d);
    seq(|classes|, i requires 0 <= i < |classes| => UiWagonOf(r.underscoreId, d, classes[i]))
  }

  /** `formatRouteForUI`. `nowIso` and `laterIso` stand for the clock readings
      (now, and eight hours later) used when a time is missing. */
  function FormatRouteForUI(r: Route, nowIso: string, laterIso: string): (u: UiRoute)
    ensures |u.wagons| == |OfferedClasses(Dep(r))| <= 4
    ensures forall i :: 0 <= i < |u.wagons| ==> u.wagons[i] == UiWagonOf(r.underscoreId, Dep(r), OfferedClasses(Dep(r))[i])
    ensures forall w :: w in u.wagons ==> w.price > 0
    ensures Given(r.underscoreId) ==> u.id == r.underscoreId
    ensures !Given(r.underscoreId) ==> u.id == r.id
    ensures Given(CityName(Dep(r).from)) ==> u.fromCity == CityName(Dep(r).from).value
    ensures !Given(CityName(Dep(r).from)) ==> u.fromCity == "Unknown"
    ensures Given(CityName(Dep(r).to)) ==> u.toCity == CityName(Dep(r).to).value
    ensures !Given(CityName(Dep(r).to)) ==> u.toCity == "Unknown"
    ensures Given(StationName(Dep(r).from)) ==> u.fromStation == StationName(Dep(r).from).value
    ensures !Given(StationName(Dep(r).from)) ==> u.fromStation == "Unknown"
    ensures Given(StationName(Dep(r).to)) ==> u.toStation == StationName(Dep(r).to).value
    ensures !Given(StationName(Dep(r).to)) ==> u.toStation == "Unknown"
    ensures Dep(r).train.None? ==> u.number == "Unknown"
    ensures Dep(r).train.Some? && Given(Dep(r).train.value.number) ==> u.number == Dep(r).train.value.number.value
    ensures Dep(r).train.Some? && !Given(Dep(r).train.value.number) && Given(Dep(r).train.value.name) ==>
      u.number == Dep(r).train.value.name.value
    ensures Dep(r).train.Some? && !Given(Dep(r).train.value.number) && !Given(Dep(r).train.value.name) ==>
      u.number == "Unknown"
    ensures u.name == u.fromCity + " → " + u.toCity
    ensures Dep(r).duration.Some? && Dep(r).duration.value != 0 ==> u.duration == Dep(r).duration.value
    ensures Dep(r).duration.None? || Dep(r).duration.value == 0 ==> u.duration == 0
    ensures Given(DateTime(Dep(r).from)) ==> u.departureTime == DateTime(Dep(r).from).value
    ensures !Given(DateTime(Dep(r).from)) ==> u.departureTime == nowIso
    ensures Given(DateTime(Dep(r).to)) ==> u.arrivalTime == DateTime(Dep(r).to).value
    ensures !Given(DateTime(Dep(r).to)) ==> u.arrivalTime == laterIso
    ensures u.minPrice == GetMinPrice(r)
    ensures u.priceInfo == Dep(r).priceInfo && u.seatsInfo == Dep(r).seatsInfo
    ensures u.hasWifi == Dep(r).haveWifi && u.hasConditioner == Dep(r).haveAirConditioning
    ensures u.hasLinens == Dep(r).haveLinensIncluded
  {
    var d := Dep(r);
    var fromCity := TextOr(CityName(d.from), "Unknown");
    var toCity := TextOr(CityName(d.to), "Unknown");
    UiRoute(
      if TextOr(r.underscoreId, "") != "" then r.underscoreId else r.id,
      TrainNumber(d.train),
      fromCity + " → " + toCity,
      fromCity,
      TextOr(StationName(d.from), "Unknown"),
      toCity,
      TextOr(StationName(d.to), "Unknown"),
      TextOr(DateTime(d.from), nowIso),
      TextOr(DateTime(d.to), laterIso),
      NumberOr(d.duration, 0),
      GetMinPrice(r),
      d.priceInfo,
      d.seatsInfo,
      d.haveWifi,
      d.haveAirConditioning,
      d.haveLinensIncluded,
      UiWagons(r))
  }

  /** The wagons of a formatted route come in class order, each offered
      class exactly once, numbered "1" to "4" by class, with pairwise
      different ids. */
  lemma FormattedWagons(r: Route, nowIso: string, laterIso: string)
    ensures var u := FormatRouteForUI(r, nowIso, laterIso);
      (forall c :: Offered(Dep(r), c) <==> exists i :: 0 <= i < |u.wagons| && u.wagons[i].kind == ClassName(c)) &&
      (forall i :: 0 <= i < |u.wagons| ==> |u.wagons[i].number| == 1) &&
      (forall i, j :: 0 <= i < j < |u.wagons| ==> u.wagons[i].number[0] < u.wagons[j].number[0]) &&
      (forall i, j :: 0 <= i < j < |u.wagons| ==> u.wagons[i].id != u.wagons[j].id)
  {
    var ws := FormatRouteForUI(r, nowIso, laterIso).wagons;
    WagonKinds(r.underscoreId, Dep(r), ws);
    WagonOrder(r.underscoreId, Dep(r), ws);
  }

  lemma WagonKinds(routeId: Option<string>, d: Departure, ws: seq<UiWagon>)
    requires |ws| == |OfferedClasses(d)|
    requires forall i :: 0 <= i < |ws| ==> ws[i] == UiWagonOf(routeId, d, OfferedClasses(d)[i])
    ensures forall c :: Offered(d, c) <==> exists i :: 0 <= i < |ws| && ws[i].kind == ClassName(c)
  {
    var cs := OfferedClasses(d);
    forall c | Offered(d, c)
      ensures exists i :: 0 <= i < |ws| && ws[i].kind == ClassName(c)
    {
      var i :| 0 <= i < |cs| && cs[i] == c;
      assert ws[i].kind == ClassName(c);
    }
    forall c | exists i :: 0 <= i < |ws| && ws[i].kind == ClassName(c)
      ensures Offered(d, c)
    {
      var i :| 0 <= i < |ws| && ws[i].kind == ClassName(c);
      ClassNameInjective(cs[i], c);
      assert cs[i] in cs;
    }
  }

  lemma WagonOrder(routeId: Option<string>, d: Departure, ws: seq<UiWagon>)
    requires |ws| == |OfferedClasses(d)|
    requires forall i :: 0 <= i < |ws| ==> ws[i] == UiWagonOf(routeId, d, OfferedClasses(d)[i])
    ensures forall i :: 0 <= i < |ws| ==> |ws[i].number| == 1
    ensures forall i, j :: 0 <= i < j < |ws| ==> ws[i].number[0] < ws[j].number[0] && ws[i].id != ws[j].id
  {
    var cs := OfferedClasses(d);
    forall i, j | 0 <= i < j < |ws|
      ensures ws[i].number[0] < ws[j].number[0] && ws[i].id != ws[j].id
    {
      assert ClassIndex(cs[i]) < ClassIndex(cs[j]);
      assert ws[i].number == WagonNumber(cs[i]) && ws[j].number == WagonNumber(cs[j]);
      WagonIdsDiffer(routeId, cs[i], cs[j]);
    }
  }

  lemma ClassNameInjective(c: WagonClass, d: WagonClass)
    requires ClassName(c) == ClassName(d)
    ensures c == d
  {
  }

  lemma WagonIdsDiffer(routeId: Option<string>, c: WagonClass, d: WagonClass)
    requires c != d
    ensures WagonId(routeId, c) != WagonId(routeId, d)
  {
    var p := "wagon-" + Rendered(routeId) + "-";
    assert WagonId(routeId, c) == p + ClassName(c);
    assert WagonId(routeId, d) == p + ClassName(d);
    assert ClassName(c) == (p + ClassName(c))[|p|..];
    assert ClassName(d) == (p + ClassName(d))[|p|..];
  }

  /** When the departure carries its own price information, the route's
      minimum price is at most the price of every listed wagon. */
  lemma MinPriceAtMostWagonPrices(r: Route, nowIso: string, laterIso: string)
    requires Dep(r).priceInfo.Some?
    ensures var u := FormatRouteForUI(r, nowIso, laterIso);
      forall w :: w in u.wagons ==> u.minPrice <= w.price
  {
    MinBelowWagons(r);
    var u := FormatRouteForUI(r, nowIso, laterIso);
    assert u.wagons == UiWagons(r) && u.minPrice == GetMinPrice(r);
  }

  lemma MinBelowWagons(r: Route)
    requires Dep(r).priceInfo.Some?
    ensures forall w :: w in UiWagons(r) ==> GetMinPrice(r) <= w.price
  {
    var ws := UiWagons(r);
    var d := Dep(r);
    var info := d.priceInfo.value;
    assert RoutePriceInfo(r) == Some(info);
    var cs := OfferedClasses(d);
    forall w | w in ws
      ensures GetMinPrice(r) <= w.price
    {
      var i :| 0 <= i < |ws| && ws[i] == w;
      var c := cs[i];
      assert Offered(d, c);
      assert TruthyBottom(info, c) && BottomPrice(info, c).value == w.price;
    }
  }

  // ---------------------------------------------------------------------
  // searchCities (mock branch)
  // ---------------------------------------------------------------------

  /** The mock city list. */
  const MockCities: seq<City> := [
    City("city-1", "Москва"),
    City("city-2", "Санкт-Петербург"),
    City("city-3", "Казань"),
    City("city-4", "Екатеринбург"),
    City("city-5", "Новосибирск"),
    City("city-6", "Красноярск"),
    City("city-7", "Сочи"),
    City("city-8", "Владивосток"),
    City("city-9", "Хабаровск"),
    City("city-10", "Нижний Новгород"),
    City("city-11", "Самара"),
    City("city-12", "Омск"),
    City("city-13", "Ростов-на-Дону"),
    City("city-14", "Уфа"),
    City("city-15", "Волгоград")
  ]

  predicate NameMatches(c: City, query: string) {
    Contains(Lower(c.name), Lower(query))
  }

  /** The mock branch of `searchCities`: the mock cities whose name contains
      the query, ignoring case, in list order. */
  function SearchCitiesMock(query: string): (r: seq<City>)
    ensures forall c :: c in r <==> c in MockCities && NameMatches(c, query)
    ensures multiset(r) <= multiset(MockCities)
  {
    Filter(MockCities, c => NameMatches(c, query))
  }

  /** An empty query lists every mock city. */
  lemma EmptyQueryListsAll()
    ensures SearchCitiesMock("") == MockCities
  {
    EmptyQueryKeepsAll(MockCities);
  }

  /** Every name contains the empty query, so it filters nothing out. */
  lemma EmptyQueryKeepsAll(cs: seq<City>)
    ensures Filter(cs, c => NameMatches(c, "")) == cs
  {
    forall i | 0 <= i < |cs|
      ensures NameMatches(cs[i], "")
    {
      assert Lower("") == "";
      assert OccursAt(Lower(cs[i].name), "", 0);
    }
  }

  /** The search ignores case: an upper-case prefix finds Moscow. */
  lemma QueryIgnoresCase()
    ensures City("city-1", "Москва") in SearchCitiesMock("МОСК")
  {
    var name := Lower("Москва");
    assert name[0..4] == Lower("МОСК");
    assert OccursAt(name, Lower("МОСК"), 0);
    assert MockCities[0] == City("city-1", "Москва");
  }

  // ---------------------------------------------------------------------
  // searchRoutes (mock branch and its fallback)
  // ---------------------------------------------------------------------

  /** The search parameters the mock branch reads. A missing class flag is
      false. */
  datatype RouteQuery = RouteQuery(criteria: Criteria, limit: Option<int>, offset: Option<int>)

  /** The parameters the mock filters read. */
  datatype Criteria = Criteria(fromCityId: Option<string>, toCityId: Option<string>, classes: PerClass<bool>)

  /** A route-search response: `total_count`, `offset`, `limit` and `items`. */
  datatype RoutesResponse = RoutesResponse(totalCount: int, offset: int, limit: int, items: seq<Route>)

  /** The header of the mock route list, which every mock response copies. */
  const MockTotalCount := 6
  const MockOffset := 0
  const MockLimit := 6

  predicate Given(s: Option<string>) {
    s.Some? && s.value != ""
  }

  /** `route.departure.from.city._id`; `None` where the chain breaks and
      the code would throw. */
  function FromCityId(r: Route): Option<string> {
    match r.departure
    case None => None
    case Some(d) => (match d.from case None => None case Some(e) => (match e.city case None => None case Some(c) => Some(c.id)))
  }

  /** `route.departure.to.city._id`, likewise. */
  function ToCityId(r: Route): Option<string> {
    match r.departure
    case None => None
    case Some(d) => (match d.to case None => None case Some(e) => (match e.city case None => None case Some(c) => Some(c.id)))
  }

  /** One filter test of the mock search: `Some(verdict)`, or `None` when
      reading the route throws. */
  function Test(q: Criteria, k: nat, r: Route): Option<bool>
    requires k < 6
  {
    if k == 0 then (match FromCityId(r) case None => None case Some(id) => Some(Some(id) == q.fromCityId))
    else if k == 1 then (match ToCityId(r) case None => None case Some(id) => Some(Some(id) == q.toCityId))
    else (match r.departure case None => None case Some(d) => Some(d.classes.At(ClassOrder[k - 2])))
  }

  /** Whether the `k`-th filter of the mock search is switched on. */
  predicate Active(q: Criteria, k: nat) {
    if k == 0 then Given(q.fromCityId)
    else if k == 1 then Given(q.toCityId)
    else if k < 6 then q.classes.At(ClassOrder[k - 2])
    else false
  }

  /** `s.filter(test)` where a throwing test aborts the whole search. */
  function KeepPassing(q: Criteria, k: nat, s: seq<Route>): (r: Option<seq<Route>>)
    requires k < 6
    ensures r.None? <==> exists i :: 0 <= i < |s| && Test(q, k, s[i]).None?
    ensures r.Some? ==> forall x :: x in r.value <==> x in s && Test(q, k, x) == Some(true)
    ensures r.Some? ==> multiset(r.value) <= multiset(s)
  {
    if forall i :: 0 <= i < |s| ==> Test(q, k, s[i]).Some? then Some(Filter(s, x => Test(q, k, x) == Some(true)))
    else None
  }

  /** A route passes the `k`-th filter: it is off, or the route meets it. */
  predicate PassesFrom(q: Criteria, k: nat, r: Route) {
    forall j :: k <= j < 6 && Active(q, j) ==> Test(q, j, r) == Some(true)
  }

  /** The chain of filters `k..5` of the mock search applied to `s`. */
  function FilterChain(q: Criteria, k: nat, s: seq<Route>): (r: Option<seq<Route>>)
    requires k <= 6
    ensures r.Some? ==> forall x :: x in r.value <==> x in s && PassesFrom(q, k, x)
    ensures r.Some? ==> multiset(r.value) <= multiset(s)
    decreases 6 - k
  {
    if k == 6 then Some(s)
    else if !Active(q, k) then FilterChain(q, k + 1, s)
    else match KeepPassing(q, k, s)
      case None => None
      case Some(s') => FilterChain(q, k + 1, s')
  }

  /** Every route the filters read is complete: the chain never throws. */
  predicate Readable(r: Route) {
    FromCityId(r).Some? && ToCityId(r).Some?
  }

  lemma {:induction false} ReadableChainSucceeds(q: Criteria, k: nat, s: seq<Route>)
    requires k <= 6
    requires forall i :: 0 <= i < |s| ==> Readable(s[i])
    ensures FilterChain(q, k, s).Some?
    decreases 6 - k
  {
    if k < 6 {
      if Active(q, k) {
        var s' := KeepPassing(q, k, s);
        assert s'.Some?;
        forall i | 0 <= i < |s'.value|
          ensures Readable(s'.value[i])
        {
          assert s'.value[i] in s;
        }
        ReadableChainSucceeds(q, k + 1, s'.value);
      } else {
        ReadableChainSucceeds(q, k + 1, s);
      }
    }
  }

  /** `params.limit || 6` and `params.offset || 0`. */
  function PageLimit(q: RouteQuery): int { NumberOr(q.limit, 6) }
  function PageOffset(q: RouteQuery): int { NumberOr(q.offset, 0) }

  /** `list.slice(offset, offset + limit)` with the parameters' defaults. */
  function Page(f: seq<Route>, q: RouteQuery): (r: seq<Route>)
    ensures forall x :: x in r ==> x in f
    ensures 0 <= PageOffset(q) && 0 <= PageLimit(q) ==>
      r == f[Clamp(PageOffset(q), |f|)..Clamp(PageOffset(q) + PageLimit(q), |f|)]
  {
    Slice(f, PageOffset(q), PageOffset(q) + PageLimit(q))
  }

  /** The mock branch of `searchRoutes` over the mock list `items`. The
      response reports the number of matches before paging, but keeps the
      mock list's own `offset` and `limit`. When a filter throws on an
      incomplete route, the error handler answers with the first
      `limit || 6` mock routes instead. */
  function SearchRoutesMock(items: seq<Route>, q: RouteQuery): (r: RoutesResponse)
    ensures r.offset == MockOffset && r.limit == MockLimit
    ensures forall x :: x in r.items ==> x in items
    ensures FilterChain(q.criteria, 0, items).Some? ==>
      var f := FilterChain(q.criteria, 0, items).value;
      r.totalCount == |f| && r.items == Page(f, q) && (forall x :: x in r.items ==> PassesFrom(q.criteria, 0, x))
    ensures FilterChain(q.criteria, 0, items).None? ==> r.totalCount == MockTotalCount && r.items == Slice(items, 0, PageLimit(q))
  {
    match FilterChain(q.criteria, 0, items)
    case Some(f) => RoutesResponse(|f|, MockOffset, MockLimit, Page(f, q))
    case None => RoutesResponse(MockTotalCount, MockOffset, MockLimit, Slice(items, 0, PageLimit(q)))
  }

  /** Two queries whose pages are the windows `a..b` and `b..c` of the
      results: their pages, one after the other, are the window `a..c`,
      whatever else the queries say. */
  lemma ConsecutivePages(f: seq<Route>, q1: RouteQuery, q2: RouteQuery, a: int, b: int, c: int)
    requires 0 <= a < b < c
    requires q1.offset == Some(a) && q1.limit == Some(b - a)
    requires q2.offset == Some(b) && q2.limit == Some(c - b)
    ensures Page(f, q1) + Page(f, q2) == Slice(f, a, c)
  {
    PageAt(f, q1, a, b);
    PageAt(f, q2, b, c);
    SliceTiles(f, a, b, c);
  }

  /** The page of a query with an explicit offset and a positive limit is
      that window of the list. */
  lemma PageAt(f: seq<Route>, q: RouteQuery, start: int, end: int)
    requires q.offset == Some(start) && q.limit == Some(end - start) && start < end
    ensures Page(f, q) == Slice(f, start, end)
  {
    assert PageOffset(q) + PageLimit(q) == end;
  }

  // ---------------------------------------------------------------------
  // getRouteSeats (mock branch)
  // ---------------------------------------------------------------------

  /** A generated seat; its random availability is left out. */
  datatype MockSeat = MockSeat(coachId: string, seatNumber: string, price: int)

  datatype SeatsResponse = SeatsResponse(routeId: string, totalSeats: nat, seats: seq<MockSeat>)

  /** The requested classes in class order, or the second class alone when
      none is requested. */
  function RequestedTypes(p: PerClass<bool>): (ts: seq<WagonClass>)
    ensures |ts| > 0
    ensures (forall c :: !p.At(c)) ==> ts == [Second]
    ensures (exists c :: p.At(c)) ==> forall c :: c in ts <==> p.At(c)
    ensures forall i, j :: 0 <= i < j < |ts| ==> ClassIndex(ts[i]) < ClassIndex(ts[j])
  {
    var ts := FlaggedClasses(p);
    if |ts| == 0 then [Second]
    else
      assert ts[0] in ts;
      ts
  }

  /** Seats in a mock wagon: 60 in a seated wagon, 36 otherwise. */
  function SeatsPerWagon(c: WagonClass): nat {
    if c == Fourth then 60 else 36
  }

  /** The fixed mock seat price of a class. */
  function MockPrice(c: WagonClass): int {
    match c
    case First => 5500
    case Second => 2500
    case Third => 1800
    case Fourth => 1200
  }

  function CoachId(routeId: string, c: WagonClass): string {
    "wagon-" + routeId + "-" + ClassName(c)
  }

  /** The seats of one mock wagon, numbered from "1". */
  function WagonSeats(routeId: string, c: WagonClass): (r: seq<MockSeat>)
    ensures |r| == SeatsPerWagon(c)
    ensures forall i :: 0 <= i < |r| ==> r[i].seatNumber == NatToString(i + 1)
    ensures forall s :: s in r ==> s.coachId == CoachId(routeId, c) && s.price == MockPrice(c)
  {
    seq(SeatsPerWagon(c), i requires 0 <= i => MockSeat(CoachId(routeId, c), NatToString(i + 1), MockPrice(c)))
  }

  function Capacity(ts: seq<WagonClass>): nat {
    if |ts| == 0 then 0 else SeatsPerWagon(ts[0]) + Capacity(ts[1..])
  }

  /** The seats of the wagons `ts`, wagon after wagon. */
  function SeatsFor(routeId: string, ts: seq<WagonClass>): (r: seq<MockSeat>)
    ensures |r| == Capacity(ts)
    ensures forall s :: s in r ==> exists c :: c in ts && s.coachId == CoachId(routeId, c) && s.price == MockPrice(c)
  {
    if |ts| == 0 then []
    else
      var rest := SeatsFor(routeId, ts[1..]);
      assert forall c :: c in ts[1..] ==> c in ts;
      WagonSeats(routeId, ts[0]) + rest
  }

  /** The mock branch of `getRouteSeats`: one wagon per requested class,
      every seat priced by its class. */
  function GetRouteSeatsMock(routeId: string, p: PerClass<bool>): (r: SeatsResponse)
    ensures r.routeId == routeId
    ensures r.totalSeats == |r.seats| == Capacity(RequestedTypes(p))
    ensures forall s :: s in r.seats ==> exists c :: c in RequestedTypes(p) && s.coachId == CoachId(routeId, c) && s.price == MockPrice(c)
  {
    var seats := SeatsFor(routeId, RequestedTypes(p));
    SeatsResponse(routeId, |seats|, seats)
  }

  /** Without a requested class there is one coupe wagon of 36 seats at
      2500 each. */
  lemma DefaultSeats(routeId: string, p: PerClass<bool>)
    requires !p.first && !p.second && !p.third && !p.fourth
    ensures var r := GetRouteSeatsMock(routeId, p);
      r.totalSeats == 36 && forall s :: s in r.seats ==> s.price == 2500 && s.coachId == CoachId(routeId, Second)
  {
    assert forall c :: !p.At(c);
    var ts := RequestedTypes(p);
    assert ts == [Second];
    assert Capacity(ts) == 36 by { assert ts[1..] == []; }
    var r := GetRouteSeatsMock(routeId, p);
    forall s | s in r.seats
      ensures s.price == 2500 && s.coachId == CoachId(routeId, Second)
    {
      var c :| c in ts && s.coachId == CoachId(routeId, c) && s.price == MockPrice(c);
      assert c == Second;
    }
  }

  /** Requesting every class gives three 36-seat wagons and a 60-seat one. */
  lemma AllClassesSeats(routeId: string)
    ensures GetRouteSeatsMock(routeId, PerClass(true, true, true, true)).totalSeats == 168
  {
    assert RequestedTypes(PerClass(true, true, true, true)) == [First, Second, Third, Fourth];
  }

  // ---------------------------------------------------------------------
  // createOrder (mock branch and its fallback)
  // ---------------------------------------------------------------------

  datatype SeatRequest = SeatRequest(price: Option<int>)

  datatype OrderDeparture = OrderDeparture(seats: Option<seq<SeatRequest>>)

  /** An order request; `user` stands for the user record. */
  datatype OrderRequest = OrderRequest(user: Option<string>, departure: Option<OrderDeparture>)

  /** The order part of a reply. */
  datatype OrderReply = OrderReply(orderId: string, status: string, total: int, createdAt: string)

  /** `seats.reduce((sum, seat) => sum + (seat.price || 2500), 0)`. */
  function SeatTotal(seats: seq<SeatRequest>): int {
    if |seats| == 0 then 0 else SeatTotal(seats[..|seats| - 1]) + NumberOr(seats[|seats| - 1].price, 2500)
  }

  lemma {:induction false} SeatTotalAppend(a: seq<SeatRequest>, b: seq<SeatRequest>)
    ensures SeatTotal(a + b) == SeatTotal(a) + SeatTotal(b)
    decreases |b|
  {
    if |b| > 0 {
      assert (a + b)[..|a + b| - 1] == a + b[..|b| - 1];
      SeatTotalAppend(a, b[..|b| - 1]);
    } else {
      assert a + b == a;
    }
  }

  /** Seats without a price are charged 2500 each. */
  lemma {:induction false} SeatTotalWithoutPrices(seats: seq<SeatRequest>)
    requires forall i :: 0 <= i < |seats| ==> seats[i].price.None?
    ensures SeatTotal(seats) == 2500 * |seats|
  {
    if |seats| > 0 {
      SeatTotalWithoutPrices(seats[..|seats| - 1]);
    }
  }

  /** The request carries a user, a departure and its seats. */
  predicate Complete(o: OrderRequest) {
    o.user.Some? && o.departure.Some? && o.departure.value.seats.Some?
  }

  /** `orderData?.departure?.seats?.reduce(...) || 2500`. */
  function FallbackTotal(o: OrderRequest): int {
    if o.departure.Some? && o.departure.value.seats.Some? && SeatTotal(o.departure.value.seats.value) != 0
    then SeatTotal(o.departure.value.seats.value)
    else 2500
  }

  /** `createOrder` with mock data on. A complete request gets a new order
      charged the seat total; an incomplete one is rejected, and the error
      handler answers with a fallback order instead, charged the seat total
      when there are seats and it is not zero, and 2500 otherwise. `orderId`,
      `fallbackId`, `now` and `loadTime` stand for the generated ids and the
      clock readings. */
  function CreateOrderMock(o: OrderRequest, orderId: string, fallbackId: string, now: string, loadTime: string): (r: OrderReply)
    ensures r.status == "confirmed"
    ensures Complete(o) ==> r.orderId == orderId && r.createdAt == now && r.total == SeatTotal(o.departure.value.seats.value)
    ensures !Complete(o) ==> r.orderId == fallbackId && r.createdAt == loadTime
    ensures !Complete(o) && (o.departure.None? || o.departure.value.seats.None?) ==> r.total == 2500
    ensures !Complete(o) && o.departure.Some? && o.departure.value.seats.Some? && SeatTotal(o.departure.value.seats.value) != 0 ==>
      r.total == SeatTotal(o.departure.value.seats.value)
    ensures !Complete(o) && o.departure.Some? && o.departure.value.seats.Some? && SeatTotal(o.departure.value.seats.value) == 0 ==>
      r.total == 2500
  {
    if Complete(o) then OrderReply(orderId, "confirmed", SeatTotal(o.departure.value.seats.value), now)
    else OrderReply(fallbackId, "confirmed", FallbackTotal(o), loadTime)
  }

  /** A request without seats is still answered with an order, charged
      2500, even though it names no seat. */
  lemma OrderWithoutSeatsIsCharged(user: Option<string>, orderId: string, fallbackId: string, now: string, loadTime: string)
    ensures CreateOrderMock(OrderRequest(user, Some(OrderDeparture(None))), orderId, fallbackId, now, loadTime).total == 2500
  {
  }
}
