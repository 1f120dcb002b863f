/**
  The stand-alone seat map: a fixed coupe layout of 36 seats in nine
  compartments of four, a seat toggle without a cap, the seat labels, and the
  price of the selection at a flat 2500 per seat. Which seats are free is
  drawn at random in the application; here it is a parameter.
 */
module SeatMap {
  import opened Options
  import opened Seqs
  import opened Text

  /** Seats in the layout. */
  const SeatCount: nat := 36

  /** The one price of every seat on the map. */
  const SeatPrice: int := 2500

  /** Seats per compartment. */
  const PerCompartment: nat := 4

  datatype Berth = Upper | Lower

  datatype Seat = Seat(
    id: int,
    number: int,
    compartment: int,
    position: int,
    berth: Berth,
    isAvailable: bool,
    price: int)

  /** The seat at index `k` of the layout. */
  function SeatAt(k: nat, available: bool): Seat {
    Seat(k + 1, k + 1, k / PerCompartment + 1, k % PerCompartment + 1,
         if k % 2 == 0 then Upper else Lower, available, SeatPrice)
  }

  /** The layout; `available(k)` stands for the random draw of seat `k + 1`. */
  function Layout(available: nat -> bool): (seats: seq<Seat>)
    ensures |seats| == SeatCount
    ensures forall k :: 0 <= k < |seats| ==>
      seats[k].id == k + 1 && seats[k].number == k + 1 &&
      seats[k].isAvailable == available(k) && seats[k].price == SeatPrice
  {
    var seats := seq(SeatCount, k requires 0 <= k < SeatCount => SeatAt(k, available(k)));
    assert forall k :: 0 <= k < |seats| ==> seats[k] == SeatAt(k, available(k));
    seats
  }

  // ---------------------------------------------------------------------
  // Geometry
  // ---------------------------------------------------------------------

  /** Every seat lies in one of nine compartments at one of four positions,
      and its number is recovered from the two. */
  lemma LayoutGeometry(available: nat -> bool)
    ensures forall s :: s in Layout(available) ==>
      1 <= s.compartment <= 9 && 1 <= s.position <= PerCompartment &&
      s.number == PerCompartment * (s.compartment - 1) + s.position
  {
    var seats := Layout(available);
    forall s | s in seats
      ensures 1 <= s.compartment <= 9 && 1 <= s.position <= PerCompartment
      ensures s.number == PerCompartment * (s.compartment - 1) + s.position
    {
      var k :| 0 <= k < |seats| && seats[k] == s;
      assert s == SeatAt(k, available(k));
    }
  }

  /** Every compartment has a seat at every position. */
  lemma EveryPlaceHasASeat(available: nat -> bool, c: int, p: int)
    requires 1 <= c <= 9 && 1 <= p <= PerCompartment
    ensures exists s :: s in Layout(available) && s.compartment == c && s.position == p
  {
    var k := PerCompartment * (c - 1) + (p - 1);
    var seats := Layout(available);
    assert seats[k] == SeatAt(k, available(k));
    assert seats[k] in seats;
  }

  /** Upper berths are the odd positions: the first and third of each
      compartment. */
  lemma UpperIffOddPosition(available: nat -> bool)
    ensures forall s :: s in Layout(available) ==> (s.berth == Upper <==> s.position % 2 == 1)
  {
    var seats := Layout(available);
    forall s | s in seats
      ensures s.berth == Upper <==> s.position % 2 == 1
    {
      var k :| 0 <= k < |seats| && seats[k] == s;
      assert s == SeatAt(k, available(k));
    }
  }

  /** The seats drawn on the left of the aisle. */
  predicate OnLeft(s: Seat) {
    s.position <= 2
  }

  /** The seats drawn on the right. */
  predicate OnRight(s: Seat) {
    s.position > 2
  }

  /** `seats.filter(seat => seat.position <= 2)`. */
  function LeftSide(seats: seq<Seat>): (r: seq<Seat>)
    ensures forall s :: s in r <==> s in seats && s.position <= 2
  {
    Filter(seats, OnLeft)
  }

  /** `seats.filter(seat => seat.position > 2)`. */
  function RightSide(seats: seq<Seat>): (r: seq<Seat>)
    ensures forall s :: s in r <==> s in seats && s.position > 2
  {
    Filter(seats, OnRight)
  }

  /** The position of the seat at index `k`. */
  function PositionOf(k: nat): int {
    k % PerCompartment + 1
  }

  /** Each compartment puts two seats on each side, so both sides show 18. */
  lemma SidesHalve(available: nat -> bool)
    ensures |LeftSide(Layout(available))| == 18
    ensures |RightSide(Layout(available))| == 18
  {
    var seats := Layout(available);
    assert forall k :: 0 <= k < |seats| ==> seats[k] == SeatAt(k, available(k));
    CountBlocks(seats, 9);
    assert seats[..36] == seats;
    SideCounts(seats);
  }

  /** The number of seats of `s` on the left, and on the right. */
  function Lefts(s: seq<Seat>): nat {
    if |s| == 0 then 0 else (if OnLeft(s[0]) then 1 else 0) + Lefts(s[1..])
  }

  function Rights(s: seq<Seat>): nat {
    if |s| == 0 then 0 else (if OnRight(s[0]) then 1 else 0) + Rights(s[1..])
  }

  lemma {:induction false} SideCounts(s: seq<Seat>)
    ensures |Filter(s, OnLeft)| == Lefts(s)
    ensures |Filter(s, OnRight)| == Rights(s)
  {
    if |s| > 0 {
      SideCounts(s[1..]);
    }
  }

  lemma {:induction false} CountsAppend(a: seq<Seat>, b: seq<Seat>)
    ensures Lefts(a + b) == Lefts(a) + Lefts(b)
    ensures Rights(a + b) == Rights(a) + Rights(b)
  {
    if |a| > 0 {
      assert (a + b)[1..] == a[1..] + b;
      CountsAppend(a[1..], b);
    } else {
      assert a + b == b;
    }
  }

  /** Positions cycle through 1..4 along the layout. */
  predicate Cyclic(seats: seq<Seat>) {
    forall k :: 0 <= k < |seats| ==> seats[k].position == PositionOf(k)
  }

  lemma BlockPositions(j: nat)
    ensures PositionOf(4 * j) == 1 && PositionOf(4 * j + 1) == 2
    ensures PositionOf(4 * j + 2) == 3 && PositionOf(4 * j + 3) == 4
  {
  }

  lemma {:induction false} CountBlocks(seats: seq<Seat>, m: nat)
    requires 4 * m <= |seats| && Cyclic(seats)
    ensures Lefts(seats[..4 * m]) == 2 * m
    ensures Rights(seats[..4 * m]) == 2 * m
  {
    if m > 0 {
      var base := 4 * (m - 1);
      var b := seats[base..base + 4];
      assert Compartment(b) by {
        BlockPositions(m - 1);
        assert seats[base].position == PositionOf(base);
        assert seats[base + 1].position == PositionOf(base + 1);
        assert seats[base + 2].position == PositionOf(base + 2);
        assert seats[base + 3].position == PositionOf(base + 3);
        assert b[0] == seats[base] && b[1] == seats[base + 1];
        assert b[2] == seats[base + 2] && b[3] == seats[base + 3];
      }
      CompartmentHalves(b);
      assert seats[..4 * m] == seats[..base] + b;
      CountsAppend(seats[..base], b);
      CountBlocks(seats, m - 1);
    }
  }

  /** Four seats at positions 1 to 4. */
  predicate Compartment(b: seq<Seat>) {
    |b| == 4 && b[0].position == 1 && b[1].position == 2 && b[2].position == 3 && b[3].position == 4
  }

  /** One compartment: positions 1 and 2 on the left, 3 and 4 on the right. */
  lemma CompartmentHalves(b: seq<Seat>)
    requires Compartment(b)
    ensures Lefts(b) == 2 && Rights(b) == 2
  {
    var t1 := b[1..];
    var t2 := t1[1..];
    var t3 := t2[1..];
    assert t3[1..] == [];
    assert Lefts(t3) == 0 && Rights(t3) == 1;
    assert Lefts(t2) == 0 && Rights(t2) == 2;
    assert Lefts(t1) == 1 && Rights(t1) == 2;
  }

  /** The index in the layout of the `j`-th seat shown on the left: the
      first two seats of each compartment, compartment by compartment. */
  function LeftIndex(j: nat): nat {
    4 * (j / 2) + j % 2
  }

  /** The index of the `j`-th seat shown on the right: the last two seats of
      each compartment. */
  function RightIndex(j: nat): nat {
    4 * (j / 2) + j % 2 + 2
  }

  /** The left side keeps the layout's order: seats 1, 2, 5, 6, 9, 10, .... */
  lemma LeftSideInOrder(available: nat -> bool)
    ensures LeftSide(Layout(available)) ==
      seq(18, j requires 0 <= j < 18 => Layout(available)[LeftIndex(j)])
  {
    var seats := Layout(available);
    LayoutCyclic(available);
    assert seats[..36] == seats;
    LeftBlocksInOrder(seats, 9);
  }

  /** The right side keeps the layout's order: seats 3, 4, 7, 8, 11, 12, .... */
  lemma RightSideInOrder(available: nat -> bool)
    ensures RightSide(Layout(available)) ==
      seq(18, j requires 0 <= j < 18 => Layout(available)[RightIndex(j)])
  {
    var seats := Layout(available);
    LayoutCyclic(available);
    assert seats[..36] == seats;
    RightBlocksInOrder(seats, 9);
  }

  lemma LayoutCyclic(available: nat -> bool)
    ensures Cyclic(Layout(available))
  {
    var seats := Layout(available);
    assert forall k :: 0 <= k < |seats| ==> seats[k] == SeatAt(k, available(k));
  }

  /** The `m`-th compartment of a cyclic layout, and the prefix it ends. */
  lemma BlockAt(seats: seq<Seat>, m: nat)
    requires 0 < m && 4 * m <= |seats| && Cyclic(seats)
    ensures var n := m - 1; Compartment(seats[4 * n..4 * m]) && seats[..4 * m] == seats[..4 * n] + seats[4 * n..4 * m]
  {
    var base := 4 * (m - 1);
    var b := seats[base..base + 4];
    BlockPositions(m - 1);
    assert seats[base].position == PositionOf(base);
    assert seats[base + 1].position == PositionOf(base + 1);
    assert seats[base + 2].position == PositionOf(base + 2);
    assert seats[base + 3].position == PositionOf(base + 3);
    assert b[0] == seats[base] && b[1] == seats[base + 1];
    assert b[2] == seats[base + 2] && b[3] == seats[base + 3];
  }

  lemma {:induction false} LeftBlocksInOrder(seats: seq<Seat>, m: nat)
    requires 4 * m <= |seats| && Cyclic(seats)
    ensures |Filter(seats[..4 * m], OnLeft)| == 2 * m
    ensures forall j :: 0 <= j < 2 * m ==> LeftIndex(j) < |seats| && Filter(seats[..4 * m], OnLeft)[j] == seats[LeftIndex(j)]
  {
    if m == 0 {
      assert seats[..0] == [];
    } else {
      var n := m - 1;
      var b := seats[4 * n..4 * m];
      BlockAt(seats, m);
      CompartmentLeft(b);
      FilterAppend(seats[..4 * n], b, OnLeft);
      LeftBlocksInOrder(seats, n);
      NextBlockIndices(n);
      assert b[0] == seats[4 * n + 0] && b[1] == seats[4 * n + 1];
      LeftPicksStep(Filter(seats[..4 * m], OnLeft), Filter(seats[..4 * n], OnLeft), seats, n);
    }
  }

  lemma {:induction false} RightBlocksInOrder(seats: seq<Seat>, m: nat)
    requires 4 * m <= |seats| && Cyclic(seats)
    ensures |Filter(seats[..4 * m], OnRight)| == 2 * m
    ensures forall j :: 0 <= j < 2 * m ==> RightIndex(j) < |seats| && Filter(seats[..4 * m], OnRight)[j] == seats[RightIndex(j)]
  {
    if m == 0 {
      assert seats[..0] == [];
    } else {
      var n := m - 1;
      var b := seats[4 * n..4 * m];
      BlockAt(seats, m);
      CompartmentRight(b);
      FilterAppend(seats[..4 * n], b, OnRight);
      RightBlocksInOrder(seats, n);
      NextBlockIndices(n);
      assert b[2] == seats[4 * n + 2] && b[3] == seats[4 * n + 3];
      RightPicksStep(Filter(seats[..4 * m], OnRight), Filter(seats[..4 * n], OnRight), seats, n);
    }
  }

  /** The first two seats of compartment `n + 1` appended to the first `2 * n`
      seats shown on the left give the first `2 * n + 2`. */
  lemma LeftPicksStep(f: seq<Seat>, a: seq<Seat>, seats: seq<Seat>, n: nat)
    requires 4 * n + 4 <= |seats|
    requires |a| == 2 * n && forall j :: 0 <= j < 2 * n ==> LeftIndex(j) < |seats| && a[j] == seats[LeftIndex(j)]
    requires f == a + [seats[4 * n + 0], seats[4 * n + 1]]
    ensures |f| == 2 * n + 2 && forall j :: 0 <= j < 2 * n + 2 ==> LeftIndex(j) < |seats| && f[j] == seats[LeftIndex(j)]
  {
    NextBlockIndices(n);
    forall j | 0 <= j < 2 * n + 2
      ensures LeftIndex(j) < |seats| && f[j] == seats[LeftIndex(j)]
    {
      if j < 2 * n {
        assert f[j] == a[j];
      }
    }
  }

  /** The last two seats of compartment `n + 1` appended to the first `2 * n`
      seats shown on the right give the first `2 * n + 2`. */
  lemma RightPicksStep(f: seq<Seat>, a: seq<Seat>, seats: seq<Seat>, n: nat)
    requires 4 * n + 4 <= |seats|
    requires |a| == 2 * n && forall j :: 0 <= j < 2 * n ==> RightIndex(j) < |seats| && a[j] == seats[RightIndex(j)]
    requires f == a + [seats[4 * n + 2], seats[4 * n + 3]]
    ensures |f| == 2 * n + 2 && forall j :: 0 <= j < 2 * n + 2 ==> RightIndex(j) < |seats| && f[j] == seats[RightIndex(j)]
  {
    NextBlockIndices(n);
    forall j | 0 <= j < 2 * n + 2
      ensures RightIndex(j) < |seats| && f[j] == seats[RightIndex(j)]
    {
      if j < 2 * n {
        assert f[j] == a[j];
      }
    }
  }

  /** The two seats shown on each side after `n` compartments come from
      compartment `n + 1`. */
  lemma NextBlockIndices(n: nat)
    ensures LeftIndex(2 * n) == 4 * n && LeftIndex(2 * n + 1) == 4 * n + 1
    ensures RightIndex(2 * n) == 4 * n + 2 && RightIndex(2 * n + 1) == 4 * n + 3
  {
    assert (2 * n) / 2 == n && (2 * n) % 2 == 0;
    assert (2 * n + 1) / 2 == n && (2 * n + 1) % 2 == 1;
  }

  /** One compartment shows its first two seats on the left, in order. */
  lemma CompartmentLeft(b: seq<Seat>)
    requires Compartment(b)
    ensures Filter(b, OnLeft) == [b[0], b[1]]
  {
    var t1 := b[1..];
    var t2 := t1[1..];
    var t3 := t2[1..];
    assert t3[1..] == [];
    assert Filter(t3, OnLeft) == [];
    assert Filter(t2, OnLeft) == [];
    assert Filter(t1, OnLeft) == [b[1]];
  }

  /** One compartment shows its last two seats on the right, in order. */
  lemma CompartmentRight(b: seq<Seat>)
    requires Compartment(b)
    ensures Filter(b, OnRight) == [b[2], b[3]]
  {
    var t1 := b[1..];
    var t2 := t1[1..];
    var t3 := t2[1..];
    assert t3[1..] == [];
    assert Filter(t3, OnRight) == [b[3]];
    assert Filter(t2, OnRight) == [b[2], b[3]];
    assert Filter(t1, OnRight) == [b[2], b[3]];
  }

  // ---------------------------------------------------------------------
  // Labels
  // ---------------------------------------------------------------------

  const Labels: seq<string> := ["Верхнее слева", "Нижнее слева", "Верхнее справа", "Нижнее справа"]

  /** `getSeatLabel`: the label of a position, or the first label for a
      position outside 1..4. */
  function SeatLabel(position: int): (text: string)
    ensures 1 <= position <= 4 ==> text == Labels[position - 1]
    ensures !(1 <= position <= 4) ==> text == Labels[0]
  {
    if 1 <= position <= 4 then Labels[position - 1] else Labels[0]
  }

  /** A seat's label agrees with its berth and its side of the aisle. */
  lemma LabelAgreesWithSeat(available: nat -> bool, s: Seat)
    requires s in Layout(available)
    ensures StartsWith(SeatLabel(s.position), "Верхнее") <==> s.berth == Upper
    ensures StartsWith(SeatLabel(s.position), "Нижнее") <==> s.berth == Lower
    ensures Contains(SeatLabel(s.position), "слева") <==> OnLeft(s)
  {
    UpperIffOddPosition(available);
    LayoutGeometry(available);
    var l := SeatLabel(s.position);
    if s.position == 1 {
      assert l[..7] == "Верхнее" && l[0] != 'Н';
      assert OccursAt(l, "слева", 8);
    } else if s.position == 2 {
      assert l[..6] == "Нижнее" && l[0] != 'В';
      assert OccursAt(l, "слева", 7);
    } else {
      if s.position == 3 {
        assert l[..7] == "Верхнее" && l[0] != 'Н';
      } else {
        assert l[..6] == "Нижнее" && l[0] != 'В';
      }
      RightLabelNotLeft(l);
    }
  }

  lemma RightLabelNotLeft(l: string)
    requires l == Labels[2] || l == Labels[3]
    ensures !Contains(l, "слева")
  {
    assert 'л' !in l;
    forall k | 0 <= k <= |l| - 5 ensures !OccursAt(l, "слева", k) {
      assert l[k + 1] in l;
      assert l[k..k + 5][1] == l[k + 1];
    }
  }

  // ---------------------------------------------------------------------
  // Selection
  // ---------------------------------------------------------------------

  /** `handleSeatClick`: an occupied seat does nothing; otherwise the seat's
      id is toggled in or out of the selection, with no cap. The seat is the
      one of the render the click happens in. */
  function HandleSeatClick(selected: seq<int>, seat: Seat): (r: seq<int>)
    ensures !seat.isAvailable ==> r == selected
    ensures seat.isAvailable && seat.id in selected ==> seat.id !in r
    ensures seat.isAvailable && seat.id !in selected ==> r == selected + [seat.id]
    ensures forall x :: x != seat.id ==> (x in r <==> x in selected)
  {
    if !seat.isAvailable then selected else Toggled(selected, seat.id)
  }

  /** Ids of seats of the layout, each once. */
  predicate LayoutIds(selected: seq<int>) {
    NoDup(selected) && forall x :: x in selected ==> 1 <= x <= SeatCount
  }

  /** The layout is drawn anew, with fresh availability, at every render, so
      each click sees the availability of its own render. A click keeps the
      selection a duplicate-free list of seats of the map, and a seat it adds
      is free in that render. */
  lemma ClickKeepsIds(available: nat -> bool, selected: seq<int>, k: nat)
    requires LayoutIds(selected) && k < SeatCount
    ensures LayoutIds(HandleSeatClick(selected, Layout(available)[k]))
    ensures k + 1 !in selected && k + 1 in HandleSeatClick(selected, Layout(available)[k]) ==> available(k)
  {
    var seat := Layout(available)[k];
    if seat.isAvailable {
      ToggledNoDup(selected, seat.id);
    }
  }

  /** A seat picked in one render and clicked again in a later render that
      still draws it free is deselected: the second click undoes the first. */
  lemma SecondClickUndoes(first: nat -> bool, second: nat -> bool, selected: seq<int>, k: nat)
    requires k < SeatCount && first(k) && second(k) && k + 1 !in selected
    ensures HandleSeatClick(HandleSeatClick(selected, Layout(first)[k]), Layout(second)[k]) == selected
  {
    ToggleTwice(selected, k + 1);
  }

  /** A seat picked in one render that the next render draws occupied stays
      selected: neither its button on the map nor the remove button of the
      selection panel, which finds the seat in the new layout, takes it out. */
  lemma RedrawnOccupiedStaysSelected(first: nat -> bool, second: nat -> bool, selected: seq<int>, k: nat)
    requires k < SeatCount && first(k) && !second(k) && k + 1 !in selected
    ensures var after := HandleSeatClick(selected, Layout(first)[k]);
      k + 1 in after &&
      HandleSeatClick(after, Layout(second)[k]) == after &&
      FindSeat(Layout(second), k + 1, 0) == Some(Layout(second)[k]) &&
      HandleSeatClick(after, FindSeat(Layout(second), k + 1, 0).value) == after
  {
    FindInLayout(Layout(second), k + 1, 0);
  }

  /** `getTotalPrice`: 2500 for each selected seat. */
  function TotalPrice(selected: seq<int>): (total: int)
    ensures total >= 0
  {
    |selected| * SeatPrice
  }

  /** A click on a free seat moves the total by one seat's price, up when
      the seat is picked and down when it is dropped; a click on an occupied
      seat leaves it as it was. */
  lemma ClickChangesTotal(available: nat -> bool, selected: seq<int>, k: nat)
    requires LayoutIds(selected) && k < SeatCount
    ensures TotalPrice(HandleSeatClick(selected, Layout(available)[k])) ==
      TotalPrice(selected) + (if !available(k) then 0 else if k + 1 in selected then -SeatPrice else SeatPrice)
  {
    var seat := Layout(available)[k];
    if seat.isAvailable {
      ToggledNoDup(selected, seat.id);
    }
  }

  /** `seats.find(s => s.id === id)`, searching from index `i`: the first
      seat with the id, or none when there is none. */
  function FindSeat(seats: seq<Seat>, id: int, i: nat): (r: Option<Seat>)
    requires i <= |seats|
    ensures r.None? <==> forall j :: i <= j < |seats| ==> seats[j].id != id
    ensures r.Some? ==> r.value.id == id
    ensures r.Some? ==> exists j :: i <= j < |seats| && seats[j] == r.value && (forall l :: i <= l < j ==> seats[l].id != id)
    decreases |seats| - i
  {
    if i == |seats| then None
    else if seats[i].id == id then Some(seats[i])
    else FindSeat(seats, id, i + 1)
  }

  /** In the layout, the seat found for an id is the seat at index `id - 1`. */
  lemma {:induction false} FindInLayout(seats: seq<Seat>, id: int, i: nat)
    requires forall k :: 0 <= k < |seats| ==> seats[k].id == k + 1
    requires i <= |seats|
    ensures i < id <= |seats| ==> FindSeat(seats, id, i) == Some(seats[id - 1])
    ensures !(0 < id <= |seats|) ==> FindSeat(seats, id, i) == None
    decreases |seats| - i
  {
    if i < |seats| {
      FindInLayout(seats, id, i + 1);
    }
  }

  /** The prices listed for the selected ids, as the selection panel shows them. */
  function ListedPrices(seats: seq<Seat>, ids: seq<int>): int {
    if |ids| == 0 then 0
    else
      (match FindSeat(seats, ids[0], 0) case Some(s) => s.price case None => 0)
      + ListedPrices(seats, ids[1..])
  }

  /** The total shown is the sum of the prices the panel lists for the
      selected seats. */
  lemma {:induction false} TotalMatchesListed(available: nat -> bool, selected: seq<int>)
    requires forall x :: x in selected ==> 1 <= x <= SeatCount
    ensures TotalPrice(selected) == ListedPrices(Layout(available), selected)
  {
    if |selected| > 0 {
      var seats := Layout(available);
      FindInLayout(seats, selected[0], 0);
      assert selected[0] in selected;
      assert forall x :: x in selected[1..] ==> x in selected;
      TotalMatchesListed(available, selected[1..]);
    }
  }

  /** `clearSelection`: nothing stays selected and the total drops to zero. */
  function ClearSelection(selected: seq<int>): (r: seq<int>)
    ensures |r| == 0 && TotalPrice(r) == 0
  {
    []
  }
}
