/**
  The seat grid of one wagon: a layout per wagon type (seated, platzkart,
  coupe, lux), a click that emits the toggled selection to the parent, and
  the wagon-type names. Seat availability is drawn at random in the
  application; here it is a parameter.
 */
module SeatSelection {
  import opened Options
  import opened Seqs
  import opened SeatMap
  import ApiData
  import Api

  /** A seat of the grid; only platzkart and coupe seats have a berth. */
  datatype GridSeat = GridSeat(id: int, number: int, price: int, available: bool, berth: Option<Berth>)

  /** The wagon types with a layout. */
  predicate KnownType(kind: string) {
    kind == "sitting" || kind == "platzkart" || kind == "coupe" || kind == "lux"
  }

  /** Seats per wagon type; a type without a layout has none. */
  function Capacity(kind: string): (n: nat)
    ensures n > 0 <==> KnownType(kind)
  {
    if kind == "sitting" then 60
    else if kind == "platzkart" then 54
    else if kind == "coupe" then 36
    else if kind == "lux" then 18
    else 0
  }

  /** The price of every seat of a wagon type. */
  function PriceOf(kind: string): int {
    if kind == "sitting" then 1920
    else if kind == "platzkart" then 2500
    else if kind == "coupe" then 3500
    else if kind == "lux" then 7000
    else 0
  }

  /** The berth of seat `i`: platzkart seats up to 36 are lower, coupe seats
      with an even number are lower. */
  function BerthOf(kind: string, i: int): Option<Berth> {
    if kind == "platzkart" then Some(if i <= 36 then Lower else Upper)
    else if kind == "coupe" then Some(if i % 2 == 0 then Lower else Upper)
    else None
  }

  /** `generateSeats`: the layout of a wagon type, seats numbered from 1;
      `available(i)` stands for the random draw of seat `i`. */
  function GenerateSeats(kind: string, available: int -> bool): (seats: seq<GridSeat>)
    ensures |seats| == Capacity(kind)
    ensures forall k :: 0 <= k < |seats| ==> seats[k].id == k + 1 && seats[k].number == k + 1
    ensures forall k :: 0 <= k < |seats| ==> seats[k].price == PriceOf(kind) && seats[k].available == available(k + 1)
    ensures forall k :: 0 <= k < |seats| ==> seats[k].berth == BerthOf(kind, k + 1)
  {
    seq(Capacity(kind), k requires 0 <= k < Capacity(kind) =>
      GridSeat(k + 1, k + 1, PriceOf(kind), available(k + 1), BerthOf(kind, k + 1)))
  }

  /** A wagon type has a grid exactly when it is one of the four known ones,
      and then ids are distinct, so a click names one seat. */
  lemma GridExactlyForKnownTypes(kind: string, available: int -> bool)
    ensures |GenerateSeats(kind, available)| > 0 <==> KnownType(kind)
    ensures forall i, j :: 0 <= i < j < |GenerateSeats(kind, available)| ==>
      GenerateSeats(kind, available)[i].id != GenerateSeats(kind, available)[j].id
  {
  }

  /** Lower berths among `s`. */
  function Lowers(s: seq<GridSeat>): nat {
    if |s| == 0 then 0 else (if s[0].berth == Some(Lower) then 1 else 0) + Lowers(s[1..])
  }

  lemma {:induction false} LowersAppend(a: seq<GridSeat>, b: seq<GridSeat>)
    ensures Lowers(a + b) == Lowers(a) + Lowers(b)
  {
    if |a| > 0 {
      assert (a + b)[1..] == a[1..] + b;
      LowersAppend(a[1..], b);
    } else {
      assert a + b == b;
    }
  }

  /** The lower berths of a platzkart wagon are its first 36 seats. */
  lemma PlatzkartLowers(available: int -> bool)
    ensures Lowers(GenerateSeats("platzkart", available)) == 36
  {
    var seats := GenerateSeats("platzkart", available);
    assert seats == seats[..36] + seats[36..];
    LowersAppend(seats[..36], seats[36..]);
    AllOrNone(seats[..36], true);
    AllOrNone(seats[36..], false);
  }

  lemma {:induction false} AllOrNone(s: seq<GridSeat>, lower: bool)
    requires forall k :: 0 <= k < |s| ==> (s[k].berth == Some(Lower)) == lower
    ensures Lowers(s) == (if lower then |s| else 0)
  {
    if |s| > 0 {
      AllOrNone(s[1..], lower);
    }
  }

  /** Coupe berths alternate, upper first, so half of the 36 are lower. */
  lemma CoupeLowers(available: int -> bool)
    ensures Lowers(GenerateSeats("coupe", available)) == 18
  {
    var seats := GenerateSeats("coupe", available);
    CoupePairs(seats, 18);
    assert seats[..36] == seats;
  }

  lemma {:induction false} CoupePairs(seats: seq<GridSeat>, m: nat)
    requires 2 * m <= |seats|
    requires forall k :: 0 <= k < |seats| ==> seats[k].berth == BerthOf("coupe", k + 1)
    ensures Lowers(seats[..2 * m]) == m
  {
    if m > 0 {
      var base := 2 * (m - 1);
      var b := seats[base..base + 2];
      assert b[0] == seats[base] && b[1] == seats[base + 1];
      assert (base + 1) % 2 == 1 && (base + 2) % 2 == 0;
      assert b[0].berth == Some(Upper) && b[1].berth == Some(Lower);
      assert b[1..][1..] == [];
      assert Lowers(b[1..]) == 1;
      assert seats[..2 * m] == seats[..base] + b;
      LowersAppend(seats[..base], b);
      CoupePairs(seats, m - 1);
    }
  }

  /** `handleSeatClick`: a click on an occupied seat emits nothing (`None`);
      otherwise the parent receives the selection with the seat's id toggled. */
  function HandleSeatClick(selected: seq<int>, seat: GridSeat): (r: Option<seq<int>>)
    ensures r.None? <==> !seat.available
    ensures r.Some? && seat.id in selected ==> seat.id !in r.value
    ensures r.Some? && seat.id !in selected ==> r.value == selected + [seat.id]
    ensures r.Some? ==> forall x :: x != seat.id ==> (x in r.value <==> x in selected)
  {
    if !seat.available then None else Some(Toggled(selected, seat.id))
  }

  /** Emitted selections stay free of duplicates, and a second click on the
      same free seat gives back the selection the first click started from. */
  lemma ClickTwiceRestores(selected: seq<int>, seat: GridSeat)
    requires NoDup(selected) && seat.available
    ensures NoDup(HandleSeatClick(selected, seat).value)
    ensures seat.id !in selected ==>
      HandleSeatClick(HandleSeatClick(selected, seat).value, seat) == Some(selected)
  {
    ToggledNoDup(selected, seat.id);
    if seat.id !in selected {
      ToggleTwice(selected, seat.id);
    }
  }

  // ---------------------------------------------------------------------
  // The wagon a grid is drawn for
  // ---------------------------------------------------------------------

  /** The `wagon` property: its number and its type id. */
  datatype WagonProp = WagonProp(number: int, kind: string)

  /** The property name a plain object becomes when it is used as a key. */
  const ObjectKey: string := "[object Object]"

  /** The grid as written: `generateSeats(wagon)` looks the whole object up,
      under `ObjectKey`, which is no wagon type. */
  function SeatsAsWritten(w: WagonProp, available: int -> bool): (seats: seq<GridSeat>)
    ensures |seats| == 0
  {
    GenerateSeats(ObjectKey, available)
  }

  /** The grid as intended: looked up by the wagon's type. */
  function SeatsForWagon(w: WagonProp, available: int -> bool): (seats: seq<GridSeat>)
    ensures |seats| == Capacity(w.kind)
    ensures KnownType(w.kind) ==> |seats| > 0 && forall s :: s in seats ==> s.price == PriceOf(w.kind)
  {
    GenerateSeats(w.kind, available)
  }

  /** A coupe wagon: as written it shows no seat at all, as intended 36. */
  lemma CoupeWagonGrid(number: int, available: int -> bool)
    ensures |SeatsAsWritten(WagonProp(number, "coupe"), available)| == 0
    ensures |SeatsForWagon(WagonProp(number, "coupe"), available)| == 36
  {
  }

  // ---------------------------------------------------------------------
  // Names
  // ---------------------------------------------------------------------

  /** `getWagonTypeName`: the name of a known type, any other id as it is. */
  function WagonTypeName(kind: string): (name: string)
    ensures !KnownType(kind) ==> name == kind
    ensures KnownType(kind) ==> name != kind && |name| > 0
  {
    if kind == "sitting" then "Сидячий"
    else if kind == "platzkart" then "Плацкарт"
    else if kind == "coupe" then "Купе"
    else if kind == "lux" then "Люкс"
    else kind
  }

  /** The grid's type names are the labels the route formatter gives the
      API's classes: lux is first class, coupe second, platzkart third,
      seated fourth. */
  lemma NamesMatchRouteLabels()
    ensures WagonTypeName("lux") == Api.WagonLabel(ApiData.First)
    ensures WagonTypeName("coupe") == Api.WagonLabel(ApiData.Second)
    ensures WagonTypeName("platzkart") == Api.WagonLabel(ApiData.Third)
    ensures WagonTypeName("sitting") == Api.WagonLabel(ApiData.Fourth)
  {
  }
}
