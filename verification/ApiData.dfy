/**
  The route records of the ticketing API as the client reads them: the four
  wagon classes, per-class price and seat information, and a route's
  departure. Every `?.` chain of the client becomes an `Option`; a missing
  class flag or amenity flag reads as false.
 */
module ApiData {
  import opened Options

  /** The API's wagon classes: `first` (lux), `second` (coupe), `third`
      (platzkart) and `fourth` (seated). */
  datatype WagonClass = First | Second | Third | Fourth

  /** The classes in the order the client always lists them. */
  const ClassOrder: seq<WagonClass> := [First, Second, Third, Fourth]

  function ClassIndex(c: WagonClass): (i: nat)
    ensures i < |ClassOrder| && ClassOrder[i] == c
  {
    match c
    case First => 0
    case Second => 1
    case Third => 2
    case Fourth => 3
  }

  /** The class name the API and the client use as a `type`. */
  function ClassName(c: WagonClass): string {
    match c
    case First => "first"
    case Second => "second"
    case Third => "third"
    case Fourth => "fourth"
  }

  /** One value per class, as in `price_info.first` … `price_info.fourth`. */
  datatype PerClass<T> = PerClass(first: T, second: T, third: T, fourth: T) {
    function At(c: WagonClass): T {
      match c
      case First => first
      case Second => second
      case Third => third
      case Fourth => fourth
    }
  }

  /** A class's price entry; either bound may be missing. */
  datatype ClassPrice = ClassPrice(bottomPrice: Option<int>, topPrice: Option<int>)

  type PriceInfo = PerClass<Option<ClassPrice>>
  type SeatsInfo = PerClass<Option<int>>

  datatype City = City(id: string, name: string)

  /** One end of a trip; `datetime` is the timestamp text. */
  datatype Endpoint = Endpoint(city: Option<City>, stationName: Option<string>, datetime: Option<string>)

  datatype Train = Train(id: Option<string>, name: Option<string>, number: Option<string>)

  /** A departure record, or the fields a route carries itself. */
  datatype Departure = Departure(
    id: Option<string>,
    train: Option<Train>,
    from: Option<Endpoint>,
    to: Option<Endpoint>,
    duration: Option<int>,
    classes: PerClass<bool>,
    haveWifi: bool,
    haveAirConditioning: bool,
    haveLinensIncluded: bool,
    haveExpress: bool,
    priceInfo: Option<PriceInfo>,
    seatsInfo: Option<SeatsInfo>)

  /** A route: `_id`, `id`, the optional `departure` record and the route's
      own top-level fields. */
  datatype Route = Route(underscoreId: Option<string>, id: Option<string>, departure: Option<Departure>, own: Departure)

  /** `route.departure?.price_info || route.price_info`. */
  function RoutePriceInfo(r: Route): (info: Option<PriceInfo>)
    ensures r.departure.Some? && r.departure.value.priceInfo.Some? ==> info == r.departure.value.priceInfo
    ensures !(r.departure.Some? && r.departure.value.priceInfo.Some?) ==> info == r.own.priceInfo
  {
    if r.departure.Some? && r.departure.value.priceInfo.Some? then r.departure.value.priceInfo else r.own.priceInfo
  }

  /** `info.<c>?.bottom_price`. */
  function BottomPrice(info: PriceInfo, c: WagonClass): Option<int> {
    match info.At(c)
    case None => None
    case Some(p) => p.bottomPrice
  }

  /** `info?.<c>?.top_price`. */
  function TopPrice(info: Option<PriceInfo>, c: WagonClass): Option<int> {
    match info
    case None => None
    case Some(i) => (match i.At(c) case None => None case Some(p) => p.topPrice)
  }

  /** `d.price_info?.<c>?.bottom_price || 0`. */
  function ClassPriceOrZero(d: Departure, c: WagonClass): int {
    match d.priceInfo
    case None => 0
    case Some(info) => NumberOr(BottomPrice(info, c), 0)
  }

  /** `d.available_seats_info?.<c> || 0`. */
  function ClassSeatsOrZero(d: Departure, c: WagonClass): int {
    match d.seatsInfo
    case None => 0
    case Some(info) => NumberOr(info.At(c), 0)
  }

  /** `[info.<c>?.bottom_price]` when `keep` accepts it, else `[]`. */
  function KeptBottom(info: PriceInfo, c: WagonClass, keep: int -> bool): (r: seq<int>)
    ensures forall x :: x in r <==> BottomPrice(info, c) == Some(x) && keep(x)
  {
    match BottomPrice(info, c)
    case Some(x) => if keep(x) then [x] else []
    case None => []
  }

  /** The bottom prices that `keep` accepts, first class to fourth. */
  function KeptBottoms(info: PriceInfo, keep: int -> bool): (r: seq<int>)
    ensures forall x :: x in r <==> exists c :: BottomPrice(info, c) == Some(x) && keep(x)
  {
    var r := KeptBottom(info, First, keep) + KeptBottom(info, Second, keep)
      + KeptBottom(info, Third, keep) + KeptBottom(info, Fourth, keep);
    assert forall x :: (exists c :: BottomPrice(info, c) == Some(x) && keep(x)) ==>
      x in KeptBottom(info, First, keep) || x in KeptBottom(info, Second, keep) ||
      x in KeptBottom(info, Third, keep) || x in KeptBottom(info, Fourth, keep);
    r
  }

  /** A class a departure offers a wagon of: flagged, and with a bottom price
      that, read as `price || 0`, is positive. */
  predicate Offered(d: Departure, c: WagonClass) {
    d.classes.At(c) && ClassPriceOrZero(d, c) > 0
  }

  /** The wagon list both the search results and the route formatter build:
      one entry per offered class, first to fourth. */
  function OfferedClasses(d: Departure): (r: seq<WagonClass>)
    ensures forall c :: c in r <==> Offered(d, c)
    ensures forall i, j :: 0 <= i < j < |r| ==> ClassIndex(r[i]) < ClassIndex(r[j])
    ensures |r| <= 4
  {
    (if Offered(d, First) then [First] else [])
    + (if Offered(d, Second) then [Second] else [])
    + (if Offered(d, Third) then [Third] else [])
    + (if Offered(d, Fourth) then [Fourth] else [])
  }
  /** A value in a template literal: a missing one renders as "undefined". */
  function Rendered(s: Option<string>): (r: string)
    ensures s.Some? ==> r == s.value
    ensures s.None? ==> r == "undefined"
  {
    match s
    case Some(v) => v
    case None => "undefined"
  }

  /** `e?.city?.name`. */
  function CityName(e: Option<Endpoint>): Option<string> {
    match e
    case None => None
    case Some(p) => (match p.city case None => None case Some(c) => Some(c.name))
  }

  /** `e?.railway_station_name`. */
  function StationName(e: Option<Endpoint>): Option<string> {
    match e
    case None => None
    case Some(p) => p.stationName
  }

  /** `e?.datetime`. */
  function DateTime(e: Option<Endpoint>): Option<string> {
    match e
    case None => None
    case Some(p) => p.datetime
  }
  /** The classes whose flag is set, in class order. */
  function FlaggedClasses(p: PerClass<bool>): (r: seq<WagonClass>)
    ensures forall c :: c in r <==> p.At(c)
    ensures forall i, j :: 0 <= i < j < |r| ==> ClassIndex(r[i]) < ClassIndex(r[j])
  {
    (if p.first then [First] else [])
    + (if p.second then [Second] else [])
    + (if p.third then [Third] else [])
    + (if p.fourth then [Fourth] else [])
  }
}
