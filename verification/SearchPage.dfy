/**
  The search-results screen: the wagon list built for each loaded route, the
  filters (wagon type, price range, departure-time bucket, amenities), the
  sort orders, the minimum relevant price of a train, and the filter reset.
  The departure hour and instant of a train are given as integers; loading
  and the demonstration trains are left out.
 */
module SearchPage {
  import opened Options
  import opened Seqs
  import opened ApiData
  import Api

  /** A wagon entry of a loaded train. */
  datatype WagonEntry = WagonEntry(kind: WagonClass, price: int, availableSeats: int, topPrice: int)

  /** A train of the results list. `departureHour` is the local hour of
      departure and `departureStamp` the departure instant in milliseconds. */
  datatype Train = Train(
    id: string,
    number: string,
    duration: int,
    departureStamp: int,
    departureHour: int,
    wagons: seq<WagonEntry>,
    hasWifi: bool,
    hasConditioner: bool,
    hasLinens: bool)

  function EntryOf(d: Departure, c: WagonClass): WagonEntry {
    WagonEntry(c, ClassPriceOrZero(d, c), ClassSeatsOrZero(d, c), NumberOr(TopPrice(d.priceInfo, c), 0))
  }

  /** The wagon list of a loaded route: an entry per flagged class, first to
      fourth, with the bottom price read as `price || 0`, and the entries of
      price 0 or less dropped. */
  function WagonList(d: Departure): (ws: seq<WagonEntry>)
    ensures |ws| <= 4
    ensures forall i :: 0 <= i < |ws| ==> ws[i].price > 0 && d.classes.At(ws[i].kind)
    ensures forall c :: Offered(d, c) <==> exists i :: 0 <= i < |ws| && ws[i].kind == c
    ensures forall i, j :: 0 <= i < j < |ws| ==> ClassIndex(ws[i].kind) < ClassIndex(ws[j].kind)
    ensures forall i :: 0 <= i < |ws| ==>
      ws[i].price == ClassPriceOrZero(d, ws[i].kind) &&
      ws[i].availableSeats == ClassSeatsOrZero(d, ws[i].kind) &&
      ws[i].topPrice == NumberOr(TopPrice(d.priceInfo, ws[i].kind), 0)
  {
    var cs := OfferedClasses(d);
    var ws := seq(|cs|, i requires 0 <= i < |cs| => EntryOf(d, cs[i]));
    EntriesCover(cs, ws);
    ws
  }

  lemma EntriesCover(cs: seq<WagonClass>, ws: seq<WagonEntry>)
    requires |ws| == |cs| && forall i :: 0 <= i < |cs| ==> ws[i].kind == cs[i]
    ensures forall c :: c in cs ==> exists i :: 0 <= i < |ws| && ws[i].kind == c
  {
    forall c | c in cs
      ensures exists i :: 0 <= i < |ws| && ws[i].kind == c
    {
      var i :| 0 <= i < |cs| && cs[i] == c;
      assert ws[i].kind == c;
    }
  }

  /** The results list and the route formatter build the same wagons: entry
      by entry the same class, bottom price, free seats and top price. */
  lemma WagonListMatchesFormatter(r: Route)
    ensures var ws, us := WagonList(Api.Dep(r)), Api.UiWagons(r);
      |ws| == |us| &&
      forall i :: 0 <= i < |ws| ==>
        && us[i].kind == ClassName(ws[i].kind)
        && us[i].price == ws[i].price
        && us[i].availableSeats == ws[i].availableSeats
        && us[i].topPrice == ws[i].topPrice
  {
    var d := Api.Dep(r);
    var ws := WagonList(d);
    var cs := OfferedClasses(d);
    assert |ws| == |cs| && forall i :: 0 <= i < |ws| ==> ws[i] == EntryOf(d, cs[i]);
  }

  // ---------------------------------------------------------------------
  // Filters
  // ---------------------------------------------------------------------

  /** A price bound; `Inf` is `Infinity`. */
  datatype Bound = Fin(n: int) | Inf

  /** `a <= b` on bounds. */
  predicate BoundLe(a: Bound, b: Bound) {
    b.Inf? || (a.Fin? && a.n <= b.n)
  }

  datatype PriceRange = PriceRange(id: string, min: int, max: Bound)

  /** The price categories of the filter panel. */
  const PriceRanges: seq<PriceRange> := [
    PriceRange("all", 0, Inf),
    PriceRange("budget", 0, Fin(2500)),
    PriceRange("medium", 2500, Fin(4000)),
    PriceRange("premium", 4000, Inf)
  ]

  /** `priceRanges.find(range => range.id === id)`. */
  function FindRange(id: string): (r: Option<PriceRange>)
    ensures r.Some? ==> r.value in PriceRanges && r.value.id == id
    ensures r.None? ==> forall i :: 0 <= i < |PriceRanges| ==> PriceRanges[i].id != id
  {
    if id == "all" then Some(PriceRanges[0])
    else if id == "budget" then Some(PriceRanges[1])
    else if id == "medium" then Some(PriceRanges[2])
    else if id == "premium" then Some(PriceRanges[3])
    else None
  }

  /** The filter panel. */
  datatype Filters = Filters(
    priceRange: string,
    wagonType: string,
    departureTime: string,
    hasWifi: bool,
    hasConditioner: bool,
    hasLinens: bool)

  /** The panel's initial state, which the reset button restores. */
  const DefaultFilters := Filters("all", "all", "any", false, false, false)

  /** `handleResetFilters`. */
  function HandleResetFilters(f: Filters): (r: Filters)
    ensures r.priceRange == "all" && r.wagonType == "all" && r.departureTime == "any"
    ensures !r.hasWifi && !r.hasConditioner && !r.hasLinens
  {
    DefaultFilters
  }

  /** The wagons a price is taken from: those of the chosen type, or all. */
  function Relevant(t: Train, wagonType: string): (ws: seq<WagonEntry>)
    ensures forall w :: w in ws <==> w in t.wagons && (wagonType == "all" || ClassName(w.kind) == wagonType)
  {
    if wagonType != "all" then Filter(t.wagons, (w: WagonEntry) => ClassName(w.kind) == wagonType) else t.wagons
  }

  function Prices(ws: seq<WagonEntry>): (ps: seq<int>)
    ensures |ps| == |ws|
    ensures forall i :: 0 <= i < |ws| ==> ps[i] == ws[i].price
  {
    seq(|ws|, i requires 0 <= i < |ws| => ws[i].price)
  }

  /** `getTrainMinPrice`: `Infinity` without a relevant wagon, else the
      least relevant price. */
  function TrainMinPrice(t: Train, wagonType: string): (m: Bound)
    ensures m.Inf? <==> |Relevant(t, wagonType)| == 0
    ensures m.Fin? ==> exists w :: w in Relevant(t, wagonType) && w.price == m.n
    ensures m.Fin? ==> forall w :: w in Relevant(t, wagonType) ==> m.n <= w.price
  {
    var ws := Relevant(t, wagonType);
    if |ws| == 0 then Inf
    else
      var m := Min(Prices(ws));
      assert forall w :: w in ws ==> exists i :: 0 <= i < |ws| && ws[i] == w;
      Fin(m)
  }

  /** `train.wagons.some(wagon => wagon.type === type)`. */
  predicate HasWagonType(t: Train, wagonType: string) {
    exists i :: 0 <= i < |t.wagons| && ClassName(t.wagons[i].kind) == wagonType
  }

  /** The price-range test: a known range other than "all" keeps the trains
      whose least relevant price lies in it, bounds included. */
  predicate PriceOk(f: Filters, t: Train) {
    match FindRange(f.priceRange)
    case None => true
    case Some(r) =>
      r.id == "all" ||
      (TrainMinPrice(t, f.wagonType).Fin? &&
       r.min <= TrainMinPrice(t, f.wagonType).n && BoundLe(TrainMinPrice(t, f.wagonType), r.max))
  }

  /** The departure-time buckets; an unknown bucket keeps every train. */
  predicate HourOk(bucket: string, h: int) {
    if bucket == "morning" then 5 <= h < 12
    else if bucket == "day" then 12 <= h < 18
    else if bucket == "evening" then 18 <= h < 23
    else if bucket == "night" then h >= 23 || h < 5
    else true
  }

  /** The buckets split the hours of a day: each hour is in exactly one. */
  lemma HourBucketsPartition(h: int)
    requires 0 <= h < 24
    ensures HourOk("morning", h) || HourOk("day", h) || HourOk("evening", h) || HourOk("night", h)
    ensures !(HourOk("morning", h) && HourOk("day", h)) && !(HourOk("morning", h) && HourOk("evening", h))
    ensures !(HourOk("morning", h) && HourOk("night", h)) && !(HourOk("day", h) && HourOk("evening", h))
    ensures !(HourOk("day", h) && HourOk("night", h)) && !(HourOk("evening", h) && HourOk("night", h))
  {
  }

  /** Everything the filters ask of a train. */
  predicate Passes(f: Filters, t: Train) {
    (f.wagonType == "all" || HasWagonType(t, f.wagonType))
    && PriceOk(f, t)
    && (f.departureTime == "any" || HourOk(f.departureTime, t.departureHour))
    && (!f.hasWifi || t.hasWifi)
    && (!f.hasConditioner || t.hasConditioner)
    && (!f.hasLinens || t.hasLinens)
  }

  /** A filter step that is switched on or off. */
  function Step(s: seq<Train>, on: bool, p: Train -> bool): (r: seq<Train>)
    ensures forall t :: t in r <==> t in s && (!on || p(t))
    ensures multiset(r) <= multiset(s)
    ensures |r| <= |s|
  {
    if on then Filter(s, p) else s
  }

  /** The filtering half of the filter-and-sort effect: the filters applied
      in turn, each keeping the order of what it is given. */
  function FilterTrains(trains: seq<Train>, f: Filters): (r: seq<Train>)
    ensures multiset(r) <= multiset(trains)
    ensures |r| <= |trains|
  {
    FlagSteps(PriceSteps(trains, f), f)
  }

  /** The wagon-type and price steps, which run first. */
  function PriceSteps(trains: seq<Train>, f: Filters): (r: seq<Train>)
    ensures multiset(r) <= multiset(trains)
    ensures |r| <= |trains|
  {
    var range := FindRange(f.priceRange);
    var s1 := Step(trains, f.wagonType != "all", t => HasWagonType(t, f.wagonType));
    Step(s1, range.Some? && range.value.id != "all", t => PriceOk(f, t))
  }

  /** The departure-time and amenity steps, which run after them. */
  function FlagSteps(s: seq<Train>, f: Filters): (r: seq<Train>)
    ensures multiset(r) <= multiset(s)
    ensures |r| <= |s|
  {
    var s3 := Step(s, f.departureTime != "any", (t: Train) => HourOk(f.departureTime, t.departureHour));
    var s4 := Step(s3, f.hasWifi, (t: Train) => t.hasWifi);
    var s5 := Step(s4, f.hasConditioner, (t: Train) => t.hasConditioner);
    Step(s5, f.hasLinens, (t: Train) => t.hasLinens)
  }

  /** A train is listed exactly when it was loaded and passes every filter. */
  lemma FilterTrainsMembers(trains: seq<Train>, f: Filters)
    ensures forall t :: t in FilterTrains(trains, f) <==> t in trains && Passes(f, t)
  {
    forall t
      ensures t in FilterTrains(trains, f) <==> t in trains && Passes(f, t)
    {
      PriceStepsMember(trains, f, t);
      FlagStepsMember(PriceSteps(trains, f), f, t);
    }
  }

  /** The filters keep exactly the passing trains, every occurrence, in the
      order they were loaded, as one `filter` by all the criteria would. */
  lemma {:induction false} FilterTrainsIsFilter(trains: seq<Train>, f: Filters)
    ensures FilterTrains(trains, f) == Filter(trains, t => Passes(f, t))
  {
    if |trains| > 0 {
      FilterTrainsCons(trains, f);
      FilterTrainsSingle(trains[0], f);
      FilterTrainsIsFilter(trains[1..], f);
    }
  }

  lemma FilterTrainsCons(s: seq<Train>, f: Filters)
    requires |s| > 0
    ensures FilterTrains(s, f) == FilterTrains([s[0]], f) + FilterTrains(s[1..], f)
  {
    assert s == [s[0]] + s[1..];
    FilterTrainsAppend([s[0]], s[1..], f);
  }

  /** Every filter step works on each train separately. */
  lemma StepAppend(a: seq<Train>, b: seq<Train>, on: bool, p: Train -> bool)
    ensures Step(a + b, on, p) == Step(a, on, p) + Step(b, on, p)
  {
    if on {
      FilterAppend(a, b, p);
    }
  }

  lemma FilterTrainsAppend(a: seq<Train>, b: seq<Train>, f: Filters)
    ensures FilterTrains(a + b, f) == FilterTrains(a, f) + FilterTrains(b, f)
  {
    PriceStepsAppend(a, b, f);
    FlagStepsAppend(PriceSteps(a, f), PriceSteps(b, f), f);
  }

  lemma PriceStepsAppend(a: seq<Train>, b: seq<Train>, f: Filters)
    ensures PriceSteps(a + b, f) == PriceSteps(a, f) + PriceSteps(b, f)
  {
    var range := FindRange(f.priceRange);
    var on1, p1 := f.wagonType != "all", t => HasWagonType(t, f.wagonType);
    var on2, p2 := range.Some? && range.value.id != "all", t => PriceOk(f, t);
    StepAppend(a, b, on1, p1);
    StepAppend(Step(a, on1, p1), Step(b, on1, p1), on2, p2);
  }

  lemma FlagStepsAppend(a: seq<Train>, b: seq<Train>, f: Filters)
    ensures FlagSteps(a + b, f) == FlagSteps(a, f) + FlagSteps(b, f)
  {
    var p3 := (t: Train) => HourOk(f.departureTime, t.departureHour);
    var p4 := (t: Train) => t.hasWifi;
    var p5 := (t: Train) => t.hasConditioner;
    var p6 := (t: Train) => t.hasLinens;
    StepAppend(a, b, f.departureTime != "any", p3);
    var a3, b3 := Step(a, f.departureTime != "any", p3), Step(b, f.departureTime != "any", p3);
    StepAppend(a3, b3, f.hasWifi, p4);
    var a4, b4 := Step(a3, f.hasWifi, p4), Step(b3, f.hasWifi, p4);
    StepAppend(a4, b4, f.hasConditioner, p5);
    var a5, b5 := Step(a4, f.hasConditioner, p5), Step(b4, f.hasConditioner, p5);
    StepAppend(a5, b5, f.hasLinens, p6);
  }

  lemma FilterTrainsSingle(x: Train, f: Filters)
    ensures FilterTrains([x], f) == if Passes(f, x) then [x] else []
  {
    var r := FilterTrains([x], f);
    FilterTrainsMembers([x], f);
    if |r| == 1 {
      assert r[0] in r;
    }
  }

  lemma PriceStepsMember(trains: seq<Train>, f: Filters, t: Train)
    ensures t in PriceSteps(trains, f) <==>
      t in trains && (f.wagonType == "all" || HasWagonType(t, f.wagonType)) && PriceOk(f, t)
  {
    var range := FindRange(f.priceRange);
    var s1 := Step(trains, f.wagonType != "all", t => HasWagonType(t, f.wagonType));
    assert t in s1 <==> t in trains && (f.wagonType == "all" || HasWagonType(t, f.wagonType));
    assert !(range.Some? && range.value.id != "all") ==> PriceOk(f, t);
  }

  lemma FlagStepsMember(s: seq<Train>, f: Filters, t: Train)
    ensures t in FlagSteps(s, f) <==>
      (t in s && (f.departureTime == "any" || HourOk(f.departureTime, t.departureHour))
       && (!f.hasWifi || t.hasWifi) && (!f.hasConditioner || t.hasConditioner) && (!f.hasLinens || t.hasLinens))
  {
    var s3 := Step(s, f.departureTime != "any", (t: Train) => HourOk(f.departureTime, t.departureHour));
    var s4 := Step(s3, f.hasWifi, (t: Train) => t.hasWifi);
    var s5 := Step(s4, f.hasConditioner, (t: Train) => t.hasConditioner);
    assert t in s3 <==> t in s && (f.departureTime == "any" || HourOk(f.departureTime, t.departureHour));
    assert t in s4 <==> t in s3 && (!f.hasWifi || t.hasWifi);
    assert t in s5 <==> t in s4 && (!f.hasConditioner || t.hasConditioner);
  }

  // ---------------------------------------------------------------------
  // Sorting
  // ---------------------------------------------------------------------

  /** A sort key: compared by rank, then by value. */
  datatype Key = Key(rank: int, value: int)

  predicate KeyLe(a: Key, b: Key) {
    a.rank < b.rank || (a.rank == b.rank && a.value <= b.value)
  }

  /** The comparator of each sort order as a key. Prices compare as numbers
      with `Infinity` after every price (before, descending); two infinite
      prices compare as equal, as their difference is `NaN`. */
  function SortKey(sortBy: string, wagonType: string, t: Train): Key {
    if sortBy == "price-asc" then
      (match TrainMinPrice(t, wagonType) case Fin(n) => Key(0, n) case Inf => Key(1, 0))
    else if sortBy == "price-desc" then
      (match TrainMinPrice(t, wagonType) case Fin(n) => Key(1, -n) case Inf => Key(0, 0))
    else if sortBy == "duration" then Key(0, t.duration)
    else Key(0, t.departureStamp)
  }

  predicate SortedBy<T>(s: seq<T>, key: T -> Key) {
    forall i, j :: 0 <= i < j < |s| ==> KeyLe(key(s[i]), key(s[j]))
  }

  /** Puts `x` before the first element whose key is not less than its own. */
  function Insert<T(!new)>(x: T, s: seq<T>, key: T -> Key): (r: seq<T>)
    requires SortedBy(s, key)
    ensures SortedBy(r, key)
    ensures |r| == |s| + 1
    ensures forall y :: y in r <==> y == x || y in s
    ensures multiset(r) == multiset(s) + multiset{x}
  {
    if |s| == 0 then [x]
    else if KeyLe(key(x), key(s[0])) then
      assert forall j :: 0 <= j < |s| ==> KeyLe(key(x), key(s[j]));
      [x] + s
    else
      var rest := Insert(x, s[1..], key);
      assert s == [s[0]] + s[1..];
      assert forall y :: y in rest ==> KeyLe(key(s[0]), key(y));
      SortedCons(s[0], rest, key);
      [s[0]] + rest
  }

  lemma SortedCons<T(!new)>(x: T, s: seq<T>, key: T -> Key)
    requires SortedBy(s, key)
    requires forall y :: y in s ==> KeyLe(key(x), key(y))
    ensures SortedBy([x] + s, key)
  {
    var r := [x] + s;
    forall i, j | 0 <= i < j < |r|
      ensures KeyLe(key(r[i]), key(r[j]))
    {
      assert r[j] == s[j - 1];
      if i > 0 {
        assert r[i] == s[i - 1];
      } else {
        assert s[j - 1] in s;
      }
    }
  }

  /** A stable insertion sort, standing for `Array.prototype.sort`. */
  function Sort<T(!new)>(s: seq<T>, key: T -> Key): (r: seq<T>)
    ensures SortedBy(r, key)
    ensures multiset(r) == multiset(s)
  {
    if |s| == 0 then []
    else
      assert s == [s[0]] + s[1..];
      Insert(s[0], Sort(s[1..], key), key)
  }

  /** What ascending keys mean for each sort order. */
  lemma KeyOrderMeaning(sortBy: string, wagonType: string, a: Train, b: Train)
    requires KeyLe(SortKey(sortBy, wagonType, a), SortKey(sortBy, wagonType, b))
    ensures sortBy == "price-asc" ==> BoundLe(TrainMinPrice(a, wagonType), TrainMinPrice(b, wagonType))
    ensures sortBy == "price-desc" ==> BoundLe(TrainMinPrice(b, wagonType), TrainMinPrice(a, wagonType))
    ensures sortBy == "duration" ==> a.duration <= b.duration
    ensures sortBy !in {"price-asc", "price-desc", "duration"} ==> a.departureStamp <= b.departureStamp
  {
  }

  lemma SortedMeaning(r: seq<Train>, sortBy: string, wagonType: string)
    requires SortedBy(r, t => SortKey(sortBy, wagonType, t))
    ensures sortBy == "price-asc" ==> forall i, j :: 0 <= i < j < |r| ==>
      BoundLe(TrainMinPrice(r[i], wagonType), TrainMinPrice(r[j], wagonType))
    ensures sortBy == "price-desc" ==> forall i, j :: 0 <= i < j < |r| ==>
      BoundLe(TrainMinPrice(r[j], wagonType), TrainMinPrice(r[i], wagonType))
    ensures sortBy == "duration" ==> forall i, j :: 0 <= i < j < |r| ==> r[i].duration <= r[j].duration
    ensures sortBy !in {"price-asc", "price-desc", "duration"} ==>
      forall i, j :: 0 <= i < j < |r| ==> r[i].departureStamp <= r[j].departureStamp
  {
    forall i, j | 0 <= i < j < |r|
      ensures sortBy == "price-asc" ==> BoundLe(TrainMinPrice(r[i], wagonType), TrainMinPrice(r[j], wagonType))
      ensures sortBy == "price-desc" ==> BoundLe(TrainMinPrice(r[j], wagonType), TrainMinPrice(r[i], wagonType))
      ensures sortBy == "duration" ==> r[i].duration <= r[j].duration
      ensures sortBy !in {"price-asc", "price-desc", "duration"} ==> r[i].departureStamp <= r[j].departureStamp
    {
      KeyOrderMeaning(sortBy, wagonType, r[i], r[j]);
    }
  }

  /** The filter-and-sort effect: the trains that pass every filter, each
      as often as it was loaded, in the order `sortBy` asks for. */
  function ApplyFilters(trains: seq<Train>, f: Filters, sortBy: string): (r: seq<Train>)
    ensures forall t :: t in r <==> t in trains && Passes(f, t)
    ensures multiset(r) <= multiset(trains)
    ensures multiset(r) == multiset(Filter(trains, t => Passes(f, t)))
    ensures sortBy == "price-asc" ==> forall i, j :: 0 <= i < j < |r| ==>
      BoundLe(TrainMinPrice(r[i], f.wagonType), TrainMinPrice(r[j], f.wagonType))
    ensures sortBy == "price-desc" ==> forall i, j :: 0 <= i < j < |r| ==>
      BoundLe(TrainMinPrice(r[j], f.wagonType), TrainMinPrice(r[i], f.wagonType))
    ensures sortBy == "duration" ==> forall i, j :: 0 <= i < j < |r| ==> r[i].duration <= r[j].duration
    ensures sortBy !in {"price-asc", "price-desc", "duration"} ==>
      forall i, j :: 0 <= i < j < |r| ==> r[i].departureStamp <= r[j].departureStamp
  {
    var filtered := FilterTrains(trains, f);
    FilterTrainsMembers(trains, f);
    FilterTrainsIsFilter(trains, f);
    var r := Sort(filtered, t => SortKey(sortBy, f.wagonType, t));
    assert forall t :: t in r <==> t in multiset(filtered);
    SortedMeaning(r, sortBy, f.wagonType);
    r
  }

  /** After a reset the list shows every loaded train, each once per load. */
  lemma ResetShowsAll(trains: seq<Train>, f: Filters, sortBy: string)
    ensures multiset(ApplyFilters(trains, HandleResetFilters(f), sortBy)) == multiset(trains)
  {
    var d := HandleResetFilters(f);
    assert FindRange(d.priceRange) == Some(PriceRanges[0]);
    assert FilterTrains(trains, d) == trains;
  }
}
