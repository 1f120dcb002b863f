/**
  The data-shaping helpers: the route and seat records reshaped for display,
  the positive-only minimum price of a route, and the split of a duration in
  minutes into hours and minutes. The locale-dependent price and date
  formatters are left out.
 */
module TransformData {
  import opened Options
  import opened Text
  import opened ApiData
  import Api
  import Seqs

  // ---------------------------------------------------------------------
  // getMinPriceFromRoute
  // ---------------------------------------------------------------------

  /** A class whose bottom price is present and positive. */
  predicate PositiveBottom(info: PriceInfo, c: WagonClass) {
    BottomPrice(info, c).Some? && BottomPrice(info, c).value > 0
  }

  lemma PositiveWitness(info: PriceInfo, x: int)
    requires exists c :: BottomPrice(info, c) == Some(x) && x > 0
    ensures exists c :: PositiveBottom(info, c)
  {
    var c :| BottomPrice(info, c) == Some(x) && x > 0;
    assert PositiveBottom(info, c);
  }

  /** `getMinPriceFromRoute`: the least positive bottom price of the route's
      price information, preferring the departure's; 0 without information
      or without a positive price. */
  function GetMinPriceFromRoute(r: Route): (m: int)
    ensures m >= 0
    ensures RoutePriceInfo(r).None? ==> m == 0
    ensures RoutePriceInfo(r).Some? ==> (m == 0 <==> forall c :: !PositiveBottom(RoutePriceInfo(r).value, c))
    ensures RoutePriceInfo(r).Some? && m != 0 ==>
      var info := RoutePriceInfo(r).value;
      (exists c :: PositiveBottom(info, c) && BottomPrice(info, c).value == m) &&
      (forall c :: PositiveBottom(info, c) ==> m <= BottomPrice(info, c).value)
  {
    match RoutePriceInfo(r)
    case None => 0
    case Some(info) =>
      var prices := KeptBottoms(info, x => x > 0);
      if |prices| == 0 then 0
      else
        assert prices[0] in prices;
        PositiveWitness(info, prices[0]);
        assert forall i :: 0 <= i < |prices| ==> prices[i] in prices;
        Seqs.Min(prices)
  }

  /** A route whose first-class bottom price is negative and whose
      second-class bottom price is 100. */
  function NegativePriceRoute(): Route {
    var info := PerClass(Some(ClassPrice(Some(-5), None)), Some(ClassPrice(Some(100), None)), None, None);
    var d := Departure(None, None, None, None, None, PerClass(true, true, false, false),
      false, false, false, false, Some(info), None);
    Route(Some("route"), None, Some(d), d)
  }

  /** The two minimum-price helpers differ on negative prices: the service's
      helper takes any non-zero price, this one only positive prices. */
  lemma NegativePriceOnlyCountsInService()
    ensures Api.GetMinPrice(NegativePriceRoute()) == -5
    ensures GetMinPriceFromRoute(NegativePriceRoute()) == 100
  {
    ServiceTakesNegative();
    RouteSkipsNegative();
  }

  lemma ServiceTakesNegative()
    ensures Api.GetMinPrice(NegativePriceRoute()) == -5
  {
    var info := RoutePriceInfo(NegativePriceRoute()).value;
    assert Api.TruthyBottom(info, First) && BottomPrice(info, First).value == -5;
    assert BottomPrice(info, Second).value == 100;
    assert BottomPrice(info, Third).None? && BottomPrice(info, Fourth).None?;
  }

  lemma RouteSkipsNegative()
    ensures GetMinPriceFromRoute(NegativePriceRoute()) == 100
  {
    var info := RoutePriceInfo(NegativePriceRoute()).value;
    assert PositiveBottom(info, Second) && BottomPrice(info, Second).value == 100;
    assert forall c :: PositiveBottom(info, c) ==> c == Second;
  }

  /** Without negative prices the two helpers agree. */
  lemma HelpersAgreeWithoutNegativePrices(r: Route)
    requires RoutePriceInfo(r).Some? ==> forall c :: BottomPrice(RoutePriceInfo(r).value, c).Some? ==> BottomPrice(RoutePriceInfo(r).value, c).value >= 0
    ensures Api.GetMinPrice(r) == GetMinPriceFromRoute(r)
  {
    if RoutePriceInfo(r).Some? {
      var info := RoutePriceInfo(r).value;
      assert forall c :: Api.TruthyBottom(info, c) <==> PositiveBottom(info, c);
      var a := Api.GetMinPrice(r);
      var b := GetMinPriceFromRoute(r);
      if exists c :: PositiveBottom(info, c) {
        var ca :| PositiveBottom(info, ca) && BottomPrice(info, ca).value == a;
        var cb :| PositiveBottom(info, cb) && BottomPrice(info, cb).value == b;
        assert a <= b && b <= a;
      }
    }
  }

  // ---------------------------------------------------------------------
  // formatDuration
  // ---------------------------------------------------------------------

  datatype Duration = Duration(hours: int, minutes: int)

  /** `formatDuration`'s numbers: `Math.floor(m / 60)` hours and `m % 60`
      minutes, where `%` keeps the sign of `m`. For a non-negative count they
      add back up to `m`; for a negative count that is not a whole number of
      hours they add up to an hour less. */
  function SplitMinutes(m: int): (d: Duration)
    ensures m >= 0 ==> 60 * d.hours + d.minutes == m && 0 <= d.minutes < 60
    ensures m < 0 ==> -60 < d.minutes <= 0
    ensures m < 0 && d.minutes == 0 ==> 60 * d.hours == m
    ensures m < 0 && d.minutes != 0 ==> 60 * d.hours + d.minutes == m - 60
  {
    var h := FloorDiv(m, 60);
    var r := JsRem(m, 60);
    if m < 0 then
      var q := FloorDiv(-m, 60);
      if r == 0 then Duration(-q, r)
      else
        assert h == -q - 1;
        Duration(h, r)
    else Duration(h, r)
  }

  /** `formatDuration`: "<hours> ч <minutes> мин". */
  function FormatDuration(m: int): (s: string)
    ensures m >= 0 ==> s == NatToString(m / 60) + " ч " + NatToString(m % 60) + " мин"
  {
    var d := SplitMinutes(m);
    IntToString(d.hours) + " ч " + IntToString(d.minutes) + " мин"
  }

  // ---------------------------------------------------------------------
  // transformRouteData
  // ---------------------------------------------------------------------

  /** The amenity flags of a departure. */
  datatype Amenities = Amenities(wifi: bool, conditioner: bool, linens: bool, express: bool)

  /** A route reshaped for display. A field read through a missing departure
      is missing; the class and amenity groups are missing together. */
  datatype RouteView = RouteView(
    id: Option<string>,
    trainNumber: Option<string>,
    routeName: string,
    fromCity: Option<string>,
    fromStation: Option<string>,
    fromDate: Option<string>,
    toCity: Option<string>,
    toStation: Option<string>,
    toDate: Option<string>,
    duration: Option<int>,
    minPrice: int,
    availableClasses: Option<PerClass<bool>>,
    amenities: Option<Amenities>,
    priceInfo: Option<PriceInfo>,
    seatsInfo: Option<SeatsInfo>)

  /** `a || b` for optional text. */
  function FirstGiven(a: Option<string>, b: Option<string>): (r: Option<string>)
    ensures a.Some? && a.value != "" ==> r == a
    ensures a.None? || a.value == "" ==> r == b
  {
    if a.Some? && a.value != "" then a else b
  }

  function TrainIdOf(t: Option<Train>): Option<string> {
    match t case None => None case Some(tr) => tr.id
  }

  function TrainNameOf(t: Option<Train>): Option<string> {
    match t case None => None case Some(tr) => tr.name
  }

  /** `transformRouteData`. Without a departure record the source still
      builds the class and amenity groups, as objects whose every field is
      `undefined`; `None` stands for such a group here. */
  function TransformRouteData(route: Option<Route>): (v: Option<RouteView>)
    ensures route.None? <==> v.None?
    ensures route.Some? ==> v.value.minPrice == GetMinPriceFromRoute(route.value)
    ensures route.Some? && route.value.departure.None? ==>
      var w := v.value;
      w.id == route.value.underscoreId && w.trainNumber == TrainNameOf(route.value.own.train) &&
      w.routeName == "undefined → undefined" &&
      w.fromCity.None? && w.fromStation.None? && w.fromDate.None? &&
      w.toCity.None? && w.toStation.None? && w.toDate.None? && w.duration.None? &&
      w.availableClasses.None? && w.amenities.None? && w.priceInfo.None? && w.seatsInfo.None?
    ensures route.Some? && route.value.departure.Some? ==>
      var d := route.value.departure.value;
      var w := v.value;
      w.availableClasses == Some(d.classes) && w.priceInfo == d.priceInfo &&
      w.routeName == Rendered(CityName(d.from)) + " → " + Rendered(CityName(d.to))
    ensures route.Some? && route.value.departure.Some? ==>
      var d := route.value.departure.value;
      var w := v.value;
      && w.id == FirstGiven(d.id, route.value.underscoreId)
      && w.trainNumber == FirstGiven(TrainIdOf(d.train), TrainNameOf(route.value.own.train))
      && w.fromCity == CityName(d.from) && w.fromStation == StationName(d.from) && w.fromDate == DateTime(d.from)
      && w.toCity == CityName(d.to) && w.toStation == StationName(d.to) && w.toDate == DateTime(d.to)
      && w.duration == d.duration
      && w.amenities == Some(Amenities(d.haveWifi, d.haveAirConditioning, d.haveLinensIncluded, d.haveExpress))
      && w.seatsInfo == d.seatsInfo
  {
    match route
    case None => None
    case Some(r) =>
      match r.departure
      case None =>
        Some(RouteView(r.underscoreId, TrainNameOf(r.own.train), "undefined → undefined",
          None, None, None, None, None, None, None, GetMinPriceFromRoute(r), None, None, None, None))
      case Some(d) =>
        Some(RouteView(
          FirstGiven(d.id, r.underscoreId),
          FirstGiven(TrainIdOf(d.train), TrainNameOf(r.own.train)),
          Rendered(CityName(d.from)) + " → " + Rendered(CityName(d.to)),
          CityName(d.from), StationName(d.from), DateTime(d.from),
          CityName(d.to), StationName(d.to), DateTime(d.to),
          d.duration,
          GetMinPriceFromRoute(r),
          Some(d.classes),
          Some(Amenities(d.haveWifi, d.haveAirConditioning, d.haveLinensIncluded, d.haveExpress)),
          d.priceInfo,
          d.seatsInfo))
  }

  /** For a route with a departure record, the route card's view and the
      formatted route agree: the formatter shows the view's names, stations,
      times and duration, or its fallback where the view has none, and
      carries the same price and seat information and amenity flags. The
      route names agree when both city names are given, and the minimum
      prices agree when no bottom price is negative. */
  lemma ViewAgreesWithFormatter(r: Route, nowIso: string, laterIso: string)
    ensures var u, w := Api.FormatRouteForUI(r, nowIso, laterIso), TransformRouteData(Some(r)).value;
      r.departure.Some? ==>
        && u.fromCity == TextOr(w.fromCity, "Unknown") && u.toCity == TextOr(w.toCity, "Unknown")
        && u.fromStation == TextOr(w.fromStation, "Unknown") && u.toStation == TextOr(w.toStation, "Unknown")
        && u.departureTime == TextOr(w.fromDate, nowIso) && u.arrivalTime == TextOr(w.toDate, laterIso)
        && u.duration == NumberOr(w.duration, 0)
        && u.priceInfo == w.priceInfo && u.seatsInfo == w.seatsInfo
        && w.amenities.Some?
        && u.hasWifi == w.amenities.value.wifi && u.hasConditioner == w.amenities.value.conditioner
        && u.hasLinens == w.amenities.value.linens
        && (Api.Given(w.fromCity) && Api.Given(w.toCity) ==> u.name == w.routeName)
    ensures (RoutePriceInfo(r).Some? ==> forall c :: BottomPrice(RoutePriceInfo(r).value, c).Some? ==>
        BottomPrice(RoutePriceInfo(r).value, c).value >= 0) ==>
      Api.FormatRouteForUI(r, nowIso, laterIso).minPrice == TransformRouteData(Some(r)).value.minPrice
  {
    if RoutePriceInfo(r).Some? ==> forall c :: BottomPrice(RoutePriceInfo(r).value, c).Some? ==>
        BottomPrice(RoutePriceInfo(r).value, c).value >= 0 {
      HelpersAgreeWithoutNegativePrices(r);
    }
  }

  // ---------------------------------------------------------------------
  // transformSeatsData
  // ---------------------------------------------------------------------

  datatype ApiSeat = ApiSeat(seatNumber: Option<int>, available: Option<bool>, price: Option<int>)
  datatype CoachInfo = CoachInfo(number: Option<string>, classType: Option<string>)
  datatype ApiCoach = ApiCoach(id: Option<string>, coach: CoachInfo, seats: seq<ApiSeat>)
  datatype ApiSeats = ApiSeats(totalSeats: Option<int>, availableSeats: Option<int>, coaches: Option<seq<ApiCoach>>)

  datatype SeatView = SeatView(number: Option<int>, available: Option<bool>, price: Option<int>)
  datatype CoachView = CoachView(id: Option<string>, number: Option<string>, classType: Option<string>, seats: seq<SeatView>)
  datatype SeatsView = SeatsView(totalSeats: Option<int>, availableSeats: Option<int>, coaches: seq<CoachView>)

  function SeatViewOf(s: ApiSeat): SeatView {
    SeatView(s.seatNumber, s.available, s.price)
  }

  function CoachViewOf(c: ApiCoach): (v: CoachView)
    ensures |v.seats| == |c.seats|
    ensures forall j :: 0 <= j < |c.seats| ==> v.seats[j] == SeatViewOf(c.seats[j])
  {
    CoachView(c.id, c.coach.number, c.coach.classType,
      seq(|c.seats|, j requires 0 <= j < |c.seats| => SeatViewOf(c.seats[j])))
  }

  /** `transformSeatsData`: the coaches in order, each with its seats in
      order, and no coaches when the list is absent. */
  function TransformSeatsData(data: Option<ApiSeats>): (v: Option<SeatsView>)
    ensures data.None? <==> v.None?
    ensures data.Some? && data.value.coaches.None? ==> v.value.coaches == []
    ensures data.Some? && data.value.coaches.Some? ==>
      var cs := data.value.coaches.value;
      |v.value.coaches| == |cs| &&
      forall i :: 0 <= i < |cs| ==> v.value.coaches[i] == CoachViewOf(cs[i])
    ensures data.Some? ==> v.value.totalSeats == data.value.totalSeats && v.value.availableSeats == data.value.availableSeats
  {
    match data
    case None => None
    case Some(a) =>
      var cs := a.coaches.GetOr([]);
      Some(SeatsView(a.totalSeats, a.availableSeats, seq(|cs|, i requires 0 <= i < |cs| => CoachViewOf(cs[i]))))
  }

  function SeatCount(cs: seq<ApiCoach>): nat {
    if |cs| == 0 then 0 else |cs[0].seats| + SeatCount(cs[1..])
  }

  function ViewSeatCount(cs: seq<CoachView>): nat {
    if |cs| == 0 then 0 else |cs[0].seats| + ViewSeatCount(cs[1..])
  }

  /** Reshaping keeps every seat: the views hold as many seats as the
      coaches they come from. */
  lemma {:induction false} TransformKeepsSeats(data: ApiSeats)
    requires data.coaches.Some?
    ensures ViewSeatCount(TransformSeatsData(Some(data)).value.coaches) == SeatCount(data.coaches.value)
  {
    SeatCountsAgree(data.coaches.value, TransformSeatsData(Some(data)).value.coaches);
  }

  lemma {:induction false} SeatCountsAgree(cs: seq<ApiCoach>, vs: seq<CoachView>)
    requires |vs| == |cs|
    requires forall i :: 0 <= i < |cs| ==> vs[i] == CoachViewOf(cs[i])
    ensures ViewSeatCount(vs) == SeatCount(cs)
  {
    if |cs| > 0 {
      SeatCountsAgree(cs[1..], vs[1..]);
    }
  }
}
