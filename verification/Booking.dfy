/**
  The shared booking state (the ticket context): search parameters, the
  chosen train, wagon and seats, the passenger list, the order record and the
  payment-card draft, with the transitions the screens apply to it and the
  derived total.
 */
module Booking {
  import opened Options
  import opened Seqs

  /** One passenger record. `category` is the source's `type` field, the fare category: only
      "adult" and "child" are priced; `birthDate` is the date input's text. */
  datatype Passenger = Passenger(
    id: string,
    category: string,
    seatNumber: int,
    lastName: string,
    firstName: string,
    middleName: string,
    gender: string,
    birthDate: string,
    documentType: string,
    documentSeries: string,
    documentNumber: string,
    phone: string,
    email: string,
    limitedMobility: bool,
    includeBedding: bool,
    foodPreference: string)

  /** A wagon offering; `price` is the adult fare per seat. */
  datatype Wagon = Wagon(
    id: string, number: int, kind: string, name: string,
    totalSeats: int, availableSeats: int, price: int)

  /** The train summary the seat screen stores. */
  datatype TrainInfo = TrainInfo(
    number: string, name: string,
    fromCity: string, toCity: string, fromStation: string, toStation: string,
    departureDate: string, arrivalDate: string,
    departureTime: string, arrivalTime: string)

  /** The payment-card draft. */
  datatype CardData = CardData(number: string, expiry: string, cvv: string, holder: string)

  const EmptyCard := CardData("", "", "", "")

  /** A value stored under one search-parameter key. */
  datatype ParamValue = Text(text: string) | Number(n: int) | Flag(b: bool) | Counts(counts: map<string, int>)

  type SearchParams = map<string, ParamValue>

  /** A finalized order snapshot. */
  datatype Order = Order(
    id: string, train: Option<TrainInfo>, wagon: Option<Wagon>,
    seats: seq<int>, passengers: seq<Passenger>,
    paymentMethod: string, total: int, date: string, status: string)

  datatype State = State(
    searchParams: SearchParams,
    selectedTrain: Option<TrainInfo>,
    selectedWagon: Option<Wagon>,
    selectedSeats: seq<int>,
    passengers: seq<Passenger>,
    orderDetails: Option<Order>,
    cardData: CardData)

  const InitialSearchParams: SearchParams := map[
    "from" := Text(""), "to" := Text(""), "departureDate" := Text(""),
    "passengers" := Counts(map["adults" := 1, "children" := 0, "infants" := 0])]

  const Initial := State(InitialSearchParams, None, None, [], [], None, EmptyCard)

  /** `updateSearchParams`: a shallow merge in which the new keys win. */
  function UpdateSearchParams(st: State, newParams: SearchParams): (r: State)
    ensures r.searchParams.Keys == st.searchParams.Keys + newParams.Keys
    ensures forall k :: k in newParams ==> r.searchParams[k] == newParams[k]
    ensures forall k :: k in st.searchParams && k !in newParams ==> r.searchParams[k] == st.searchParams[k]
    ensures r == st.(searchParams := r.searchParams)
  {
    st.(searchParams := st.searchParams + newParams)
  }

  /** `addPassenger`: appends at the end. */
  function AddPassenger(st: State, p: Passenger): (r: State)
    ensures |r.passengers| == |st.passengers| + 1
    ensures r.passengers[|st.passengers|] == p
    ensures r.passengers[..|st.passengers|] == st.passengers
    ensures r == st.(passengers := r.passengers)
  {
    st.(passengers := st.passengers + [p])
  }

  /** `updatePassenger(i, p)`: assigning `updated[i] = p` on a copy. An index
      inside the list replaces that entry, the index one past the end appends,
      and a negative index sets no array element. */
  function UpdatePassenger(st: State, i: int, p: Passenger): (r: State)
    requires i <= |st.passengers|
    ensures |r.passengers| >= |st.passengers|
    ensures 0 <= i < |st.passengers| ==> |r.passengers| == |st.passengers| && r.passengers[i] == p
    ensures forall j :: 0 <= j < |st.passengers| && j != i ==> r.passengers[j] == st.passengers[j]
    ensures i == |st.passengers| ==> r.passengers == st.passengers + [p]
    ensures i < 0 ==> r.passengers == st.passengers
    ensures r == st.(passengers := r.passengers)
  {
    if i < 0 then st
    else if i == |st.passengers| then st.(passengers := st.passengers + [p])
    else st.(passengers := st.passengers[i := p])
  }

  /** `removePassenger(i)`: drops entry `i`; any other index leaves the list alone. */
  function RemovePassenger(st: State, i: int): (r: State)
    ensures 0 <= i < |st.passengers| ==> r.passengers == st.passengers[..i] + st.passengers[i + 1..]
    ensures !(0 <= i < |st.passengers|) ==> r.passengers == st.passengers
    ensures r == st.(passengers := r.passengers)
  {
    st.(passengers := RemoveAt(st.passengers, i))
  }

  /** `Math.round(price * 0.6)`. 6·price is even, so 0.6·price is never a
      half-way case and the round-half-up result is `floor((6p + 5) / 10)`:
      the unique integer within 0.4 of 0.6·price. */
  function ChildFare(price: int): (r: int)
    ensures -4 <= 10 * r - 6 * price <= 4
  {
    var r := (6 * price + 5) / 10;
    var rem := (6 * price + 5) % 10;
    assert 6 * price + 5 == 10 * r + rem && 0 <= rem < 10;
    assert rem == 2 * (3 * price - 5 * r + 2) + 1;
    r
  }

  /** The child fare is the only integer nearest to 0.6·price. */
  lemma ChildFareUnique(price: int, r: int)
    requires -5 < 10 * r - 6 * price < 5
    ensures r == ChildFare(price)
  {
  }

  predicate IsAdult(p: Passenger) { p.category == "adult" }
  predicate IsChild(p: Passenger) { p.category == "child" }

  function AdultCount(ps: seq<Passenger>): nat { Count(ps, IsAdult) }
  function ChildCount(ps: seq<Passenger>): nat { Count(ps, IsChild) }

  /** The context's `total`: 0 without a wagon, otherwise adults at the wagon
      price plus children at the child fare. */
  function Total(st: State): (t: int)
    ensures st.selectedWagon.None? ==> t == 0
    ensures st.selectedWagon.Some? ==>
      t == AdultCount(st.passengers) * st.selectedWagon.value.price
           + ChildCount(st.passengers) * ChildFare(st.selectedWagon.value.price)
  {
    match st.selectedWagon
    case None => 0
    case Some(w) => AdultCount(st.passengers) * w.price + ChildCount(st.passengers) * ChildFare(w.price)
  }

  /** What one passenger pays towards the context total, given the adult and
      child fares. */
  function Fare(p: Passenger, adultFare: int, childFare: int): int {
    if IsAdult(p) then adultFare else if IsChild(p) then childFare else 0
  }

  /** The per-passenger sum, passenger by passenger. */
  function SumFares(ps: seq<Passenger>, adultFare: int, childFare: int): int {
    if |ps| == 0 then 0 else Fare(ps[0], adultFare, childFare) + SumFares(ps[1..], adultFare, childFare)
  }

  /** The count formula for the total agrees with charging every passenger
      their own fare, and passengers of any other type add nothing. */
  lemma {:induction false} TotalIsSumOfFares(ps: seq<Passenger>, adultFare: int, childFare: int)
    ensures AdultCount(ps) * adultFare + ChildCount(ps) * childFare == SumFares(ps, adultFare, childFare)
  {
    if |ps| > 0 {
      TotalIsSumOfFares(ps[1..], adultFare, childFare);
      CountCons(ps, IsAdult);
      CountCons(ps, IsChild);
      var a, c := AdultCount(ps[1..]), ChildCount(ps[1..]);
      var rest := SumFares(ps[1..], adultFare, childFare);
      assert a * adultFare + c * childFare == rest;
      assert SumFares(ps, adultFare, childFare) == Fare(ps[0], adultFare, childFare) + rest;
      if IsAdult(ps[0]) {
        assert AdultCount(ps) == a + 1 && ChildCount(ps) == c;
        MulSucc(a, adultFare);
      } else if IsChild(ps[0]) {
        assert AdultCount(ps) == a && ChildCount(ps) == c + 1;
        MulSucc(c, childFare);
      } else {
        assert AdultCount(ps) == a && ChildCount(ps) == c;
      }
    }
  }

  lemma MulSucc(n: int, x: int)
    ensures (n + 1) * x == n * x + x
  {
  }

  /** The context total charges each passenger their own fare. */
  lemma TotalByPassenger(st: State)
    requires st.selectedWagon.Some?
    ensures Total(st) == SumFares(st.passengers, st.selectedWagon.value.price, ChildFare(st.selectedWagon.value.price))
  {
    TotalIsSumOfFares(st.passengers, st.selectedWagon.value.price, ChildFare(st.selectedWagon.value.price));
  }

  /** In a list of adults and children, the non-children are the adults. */
  lemma {:induction false} AdultsAndChildren(ps: seq<Passenger>)
    requires forall i :: 0 <= i < |ps| ==> IsAdult(ps[i]) || IsChild(ps[i])
    ensures AdultCount(ps) == |ps| - ChildCount(ps)
  {
    if |ps| > 0 {
      AdultsAndChildren(ps[1..]);
      CountCons(ps, IsAdult);
      CountCons(ps, IsChild);
    }
  }

  /** `resetTicket`: clears the trip, keeps the search parameters. */
  function ResetTicket(st: State): (r: State)
    ensures r.searchParams == st.searchParams
    ensures r.selectedTrain.None? && r.selectedWagon.None? && r.orderDetails.None?
    ensures r.selectedSeats == [] && r.passengers == []
    ensures r.cardData == CardData("", "", "", "")
    ensures Total(r) == 0
  {
    Initial.(searchParams := st.searchParams)
  }

  /** After a reset the state is the initial one, apart from the search parameters. */
  lemma ResetIsInitial(st: State)
    ensures ResetTicket(st).(searchParams := Initial.searchParams) == Initial
  {
  }

  function SetSelectedTrain(st: State, t: Option<TrainInfo>): State { st.(selectedTrain := t) }
  function SetSelectedWagon(st: State, w: Option<Wagon>): State { st.(selectedWagon := w) }
  function SetSelectedSeats(st: State, seats: seq<int>): State { st.(selectedSeats := seats) }
  function SetCardData(st: State, c: CardData): State { st.(cardData := c) }
  function SetOrder(st: State, o: Option<Order>): State { st.(orderDetails := o) }
}
