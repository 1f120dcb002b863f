/**
  The seat-selection screen: the wagon choice, a toggle set of seat numbers
  capped at four, the displayed price, the fixed occupied seats and the
  "continue" step that writes train, wagon and seats into the booking state.
 */
module SeatsPage {
  import opened Options
  import opened Seqs
  import opened Booking

  /** At most this many seats go into one booking. */
  const MaxSeats: nat := 4

  /** Seat numbers shown on the map: the first 30 of the wagon. */
  const ShownSeats: nat := 30

  /** The screen's local state. */
  datatype PageState = PageState(selectedWagon: Option<Wagon>, selectedSeats: seq<int>)

  const InitialPage := PageState(None, [])

  /** The result of a seat click: the new selection and whether the
      "at most four seats" message is shown. */
  datatype Toggle = Toggle(seats: seq<int>, limitMessage: bool)

  /** The wagons the screen offers. */
  const MockWagons: seq<Wagon> := [
    Wagon("sitting-1", 1, "sitting", "Сидячий", 60, 35, 1920),
    Wagon("platzkart-2", 2, "platzkart", "Плацкарт", 54, 24, 2530),
    Wagon("coupe-3", 3, "coupe", "Купе", 36, 15, 3820),
    Wagon("lux-4", 4, "lux", "Люкс", 18, 8, 4950)]

  /** The fixed trip summary stored on "continue". */
  const TripInfo := TrainInfo(
    "123А", "Стрела", "Москва", "Санкт-Петербург",
    "Москва (Ленинградский вокзал)", "Санкт-Петербург (Московский вокзал)",
    "12 декабря 2024", "13 декабря 2024", "22:30", "08:45")

  /** The load effect: once loading ends, the first wagon is chosen if none is. */
  function AfterLoad(st: PageState, wagons: seq<Wagon>): (r: PageState)
    ensures st.selectedWagon.None? && |wagons| > 0 ==> r.selectedWagon == Some(wagons[0])
    ensures st.selectedWagon.Some? || |wagons| == 0 ==> r == st
    ensures r.selectedSeats == st.selectedSeats
  {
    if st.selectedWagon.None? && |wagons| > 0 then st.(selectedWagon := Some(wagons[0])) else st
  }

  /** `handleWagonSelect`: choosing a wagon empties the seat selection. */
  function HandleWagonSelect(st: PageState, w: Wagon): (r: PageState)
    ensures r.selectedWagon == Some(w) && r.selectedSeats == []
  {
    PageState(Some(w), [])
  }

  /** `handleSeatSelect`: a selected seat is removed; an unselected one is
      appended while fewer than four are selected, otherwise the selection
      stays and the limit message is shown. */
  function HandleSeatSelect(seats: seq<int>, n: int): (r: Toggle)
    ensures n in seats ==> r.seats == Without(seats, n) && !r.limitMessage
    ensures n !in seats && |seats| < MaxSeats ==> r.seats == seats + [n] && !r.limitMessage
    ensures n !in seats && |seats| >= MaxSeats ==> r.seats == seats && r.limitMessage
  {
    if n in seats then Toggle(Without(seats, n), false)
    else if |seats| < MaxSeats then Toggle(seats + [n], false)
    else Toggle(seats, true)
  }

  /** A duplicate-free selection of at most four seats. */
  predicate GoodSelection(seats: seq<int>) {
    NoDup(seats) && |seats| <= MaxSeats
  }

  /** One toggle keeps a good selection good; deselecting removes exactly the
      clicked seat, and selecting adds exactly it. */
  lemma ToggleKeepsGood(seats: seq<int>, n: int)
    requires GoodSelection(seats)
    ensures GoodSelection(HandleSeatSelect(seats, n).seats)
    ensures n in seats ==> multiset(HandleSeatSelect(seats, n).seats) == multiset(seats) - multiset{n}
    ensures n !in seats && |seats| < MaxSeats ==> multiset(HandleSeatSelect(seats, n).seats) == multiset(seats) + multiset{n}
  {
    if n in seats {
      NoDupWithout(seats, n);
      WithoutMultiset(seats, n);
    } else if |seats| < MaxSeats {
      var r := seats + [n];
      forall i, j | 0 <= i < j < |r| ensures r[i] != r[j] {
        if j == |seats| {
          assert r[i] == seats[i];
        }
      }
    }
  }

  /** In a duplicate-free list, dropping a present value removes one copy of it. */
  lemma {:induction false} WithoutMultiset(s: seq<int>, x: int)
    requires NoDup(s) && x in s
    ensures multiset(Without(s, x)) == multiset(s) - multiset{x}
  {
    if s[0] == x {
      WithoutFirst(s, x);
    } else {
      assert NoDup(s[1..]);
      WithoutMultiset(s[1..], x);
      WithoutLater(s, x);
    }
  }

  lemma WithoutFirst(s: seq<int>, x: int)
    requires NoDup(s) && |s| > 0 && s[0] == x
    ensures multiset(Without(s, x)) == multiset(s) - multiset{x}
  {
    WithoutCons(s, x);
    assert x !in s[1..];
    assert Without(s, x) == s[1..];
    assert s == [x] + s[1..];
  }

  lemma WithoutLater(s: seq<int>, x: int)
    requires |s| > 0 && s[0] != x
    requires multiset(Without(s[1..], x)) == multiset(s[1..]) - multiset{x}
    requires x in s[1..]
    ensures multiset(Without(s, x)) == multiset(s) - multiset{x}
  {
    var t := Without(s[1..], x);
    WithoutCons(s, x);
    assert multiset(Without(s, x)) == multiset{s[0]} + multiset(t) by {
      assert Without(s, x) == [s[0]] + t;
    }
    assert multiset(s) == multiset{s[0]} + multiset(s[1..]) by {
      assert s == [s[0]] + s[1..];
    }
    RemoveAfterAdd(multiset(Without(s, x)), multiset(t), multiset(s), multiset(s[1..]), s[0], x);
  }

  /** Adding one copy of `a` commutes with removing one copy of another
      value. */
  lemma RemoveAfterAdd(r: multiset<int>, t: multiset<int>, m: multiset<int>, rest: multiset<int>, a: int, x: int)
    requires a != x
    requires r == multiset{a} + t && t == rest - multiset{x} && m == multiset{a} + rest
    ensures r == m - multiset{x}
  {
    assert forall y :: r[y] == (m - multiset{x})[y];
  }

  /** The selection after a sequence of clicks. */
  function ApplyClicks(seats: seq<int>, clicks: seq<int>): seq<int>
    decreases |clicks|
  {
    if |clicks| == 0 then seats
    else ApplyClicks(HandleSeatSelect(seats, clicks[0]).seats, clicks[1..])
  }

  /** Starting from no seats, any click sequence keeps the selection
      duplicate-free and within the cap. */
  lemma {:induction false} ClicksKeepGood(seats: seq<int>, clicks: seq<int>)
    requires GoodSelection(seats)
    ensures GoodSelection(ApplyClicks(seats, clicks))
    decreases |clicks|
  {
    if |clicks| > 0 {
      ToggleKeepsGood(seats, clicks[0]);
      ClicksKeepGood(HandleSeatSelect(seats, clicks[0]).seats, clicks[1..]);
    }
  }

  /** Clicks on enabled buttons select only enabled seats. */
  lemma {:induction false} ClicksSelectEnabled(w: Wagon, seats: seq<int>, clicks: seq<int>)
    requires forall i :: 0 <= i < |seats| ==> Enabled(w, seats[i])
    requires forall i :: 0 <= i < |clicks| ==> Enabled(w, clicks[i])
    ensures forall n :: n in ApplyClicks(seats, clicks) ==> Enabled(w, n)
    decreases |clicks|
  {
    if |clicks| > 0 {
      var next := HandleSeatSelect(seats, clicks[0]).seats;
      assert forall n :: n in next ==> n in seats || n == clicks[0];
      ClicksSelectEnabled(w, next, clicks[1..]);
    }
  }

  /** `calculateTotalPrice`: 0 without a wagon or seats, else price per seat
      times the number of seats. */
  function CalculateTotalPrice(st: PageState): (t: int)
    ensures st.selectedWagon.None? || st.selectedSeats == [] ==> t == 0
    ensures st.selectedWagon.Some? ==> t == st.selectedWagon.value.price * |st.selectedSeats|
  {
    if st.selectedWagon.None? || |st.selectedSeats| == 0 then 0
    else st.selectedWagon.value.price * |st.selectedSeats|
  }

  /** The outcome of "continue". */
  datatype ContinueOutcome = ChooseSeatFirst | ToPassengers(booking: Booking.State)

  /** `handleContinue`: with no seats only a message is shown; otherwise the
      trip, the chosen wagon and the seats go into the booking state. */
  function HandleContinue(st: PageState, b: Booking.State): (r: ContinueOutcome)
    ensures r.ChooseSeatFirst? <==> st.selectedSeats == []
    ensures r.ToPassengers? ==>
      && r.booking.selectedTrain == Some(TripInfo)
      && r.booking.selectedWagon == st.selectedWagon
      && r.booking.selectedSeats == st.selectedSeats
      && r.booking.passengers == b.passengers
      && r.booking.searchParams == b.searchParams
      && r.booking.orderDetails == b.orderDetails
      && r.booking.cardData == b.cardData
  {
    if |st.selectedSeats| == 0 then ChooseSeatFirst
    else ToPassengers(SetSelectedSeats(SetSelectedWagon(SetSelectedTrain(b, Some(TripInfo)), st.selectedWagon), st.selectedSeats))
  }

  /** Once every seat has an adult passenger, the booking total equals the
      price this screen displayed. */
  lemma ContinueTotalAgrees(st: PageState, b: Booking.State, adults: seq<Passenger>)
    requires HandleContinue(st, b).ToPassengers?
    requires |adults| == |st.selectedSeats|
    requires forall i :: 0 <= i < |adults| ==> IsAdult(adults[i])
    ensures Total(HandleContinue(st, b).booking.(passengers := adults)) == CalculateTotalPrice(st)
  {
    var nb := HandleContinue(st, b).booking.(passengers := adults);
    AllAdults(adults);
    assert nb.selectedWagon == st.selectedWagon;
  }

  /** A list of adults has no children. */
  lemma {:induction false} AllAdults(adults: seq<Passenger>)
    requires forall i :: 0 <= i < |adults| ==> IsAdult(adults[i])
    ensures AdultCount(adults) == |adults| && ChildCount(adults) == 0
  {
    if |adults| > 0 {
      AllAdults(adults[1..]);
    }
  }

  /** `isSeatAvailable`: seats 3, 6, …, 30 are occupied. */
  function IsSeatAvailable(n: int): (ok: bool)
    ensures ok <==> !(1 <= n <= 30 && n % 3 == 0)
  {
    n !in [3, 6, 9, 12, 15, 18, 21, 24, 27, 30]
  }

  /** A seat button that is shown and not disabled. */
  predicate Enabled(w: Wagon, n: int) {
    1 <= n <= w.totalSeats && n <= ShownSeats && IsSeatAvailable(n)
  }
}
