/**
  The payment screen: the card check that enables payment, the passenger
  breakdown and the "child discount" line of the order summary, and the pay
  action that either reports what is missing or stores the paid order.
 */
module PaymentPage {
  import opened Options
  import opened Text
  import opened Booking
  import PaymentMethod

  /** `validateCardData`: the same four rules as the card form's own
      validator, checked in turn. */
  function ValidateCardData(c: CardData): (ok: bool)
    ensures ok <==> PaymentMethod.ValidateCard(c) == {}
    ensures ok ==> |RemoveSpaces(c.number)| == 16 && |c.cvv| == 3 && !IsBlank(c.holder)
  {
    var missing := PaymentMethod.ValidateCard(c);
    if c.number == "" || |RemoveSpaces(c.number)| != 16 then
      assert PaymentMethod.Number in missing;
      false
    else if c.expiry == "" || !PaymentMethod.ExpiryOk(c.expiry) then
      assert PaymentMethod.Expiry in missing;
      false
    else if c.cvv == "" || |c.cvv| != 3 then
      assert PaymentMethod.Cvv in missing;
      false
    else if IsBlank(c.holder) then
      assert PaymentMethod.Holder in missing;
      false
    else
      assert forall f :: PaymentMethod.FieldOk(c, f);
      true
  }

  /** The card-validity effect: any method other than the card is valid. */
  function CardFormValid(selectedMethod: string, c: CardData): (ok: bool)
    ensures selectedMethod != "card" ==> ok
    ensures selectedMethod == "card" ==> (ok <==> PaymentMethod.ValidateCard(c) == {})
  {
    if selectedMethod == "card" then ValidateCardData(c) else true
  }

  /** `canProceed`, which enables the pay button. */
  function CanProceed(agreement: bool, selectedMethod: string, c: CardData): (ok: bool)
    ensures ok <==> agreement && (selectedMethod != "card" || PaymentMethod.ValidateCard(c) == {})
  {
    agreement && (selectedMethod != "card" || CardFormValid(selectedMethod, c))
  }

  datatype TypeCount = TypeCount(adults: nat, children: nat)

  /** `getPassengerTypeCount`: passengers whose category is exactly "adult",
      and exactly "child". */
  function GetPassengerTypeCount(ps: seq<Passenger>): (r: TypeCount)
    ensures r.adults + r.children <= |ps|
    ensures (forall i :: 0 <= i < |ps| ==> IsAdult(ps[i]) || IsChild(ps[i])) ==> r.adults + r.children == |ps|
    ensures r.adults == AdultCount(ps) && r.children == ChildCount(ps)
  {
    CountsBound(ps);
    if forall i :: 0 <= i < |ps| ==> IsAdult(ps[i]) || IsChild(ps[i]) then
      AdultsAndChildren(ps);
      TypeCount(AdultCount(ps), ChildCount(ps))
    else TypeCount(AdultCount(ps), ChildCount(ps))
  }

  /** Nobody is counted both as an adult and as a child. */
  lemma {:induction false} CountsBound(ps: seq<Passenger>)
    ensures AdultCount(ps) + ChildCount(ps) <= |ps|
  {
    if |ps| > 0 {
      CountsBound(ps[1..]);
      Seqs.CountCons(ps, IsAdult);
      Seqs.CountCons(ps, IsChild);
    }
  }

  /** `calculateDiscount` as written: every passenger is priced at the adult
      and the child fare together, less the booking total. */
  function DiscountAsWritten(b: Booking.State): int
    requires b.selectedWagon.Some?
  {
    var p := b.selectedWagon.value.price;
    (p + ChildFare(p)) * |b.passengers| - Total(b)
  }

  /** For adults and children only, the line labelled as the child-ticket
      discount shows the child fare for every adult plus the adult fare for
      every child. */
  lemma DiscountAsWrittenValue(b: Booking.State)
    requires b.selectedWagon.Some?
    requires forall i :: 0 <= i < |b.passengers| ==> IsAdult(b.passengers[i]) || IsChild(b.passengers[i])
    ensures DiscountAsWritten(b) ==
      AdultCount(b.passengers) * ChildFare(b.selectedWagon.value.price) + ChildCount(b.passengers) * b.selectedWagon.value.price
  {
    AdultsAndChildren(b.passengers);
    DiscountAsWrittenByCounts(b);
  }

  lemma DiscountAsWrittenByCounts(b: Booking.State)
    requires b.selectedWagon.Some?
    requires AdultCount(b.passengers) + ChildCount(b.passengers) == |b.passengers|
    ensures DiscountAsWritten(b) ==
      AdultCount(b.passengers) * ChildFare(b.selectedWagon.value.price) + ChildCount(b.passengers) * b.selectedWagon.value.price
  {
    var p := b.selectedWagon.value.price;
    var cf := ChildFare(p);
    var a, c, t := AdultCount(b.passengers), ChildCount(b.passengers), Total(b);
    var d := DiscountAsWritten(b);
    assert t == a * p + c * cf;
    assert d == (p + cf) * |b.passengers| - t;
    WrittenAlgebra(a, c, |b.passengers|, p, cf, t, d);
  }

  lemma WrittenAlgebra(a: int, c: int, n: int, p: int, cf: int, total: int, d: int)
    requires a + c == n && total == a * p + c * cf && d == (p + cf) * n - total
    ensures d == a * cf + c * p
  {
    DiscountAlgebra(a, c, n, p, cf, total);
  }

  /** One adult in a 1000 wagon, no children: the discount line shows 600. */
  lemma DiscountAsWrittenWithoutChildren()
    ensures var adult := Passenger("a", "adult", 1, "", "", "", "male", "", "passport", "", "", "", "", false, true, "none");
      var b := Booking.Initial.(selectedWagon := Some(Wagon("w", 1, "coupe", "Купе", 36, 36, 1000)), passengers := [adult]);
      ChildCount(b.passengers) == 0 && DiscountAsWritten(b) == 600
  {
    assert ChildFare(1000) == 600 by { ChildFareUnique(1000, 600); }
  }

  /** The child-ticket discount: the full adult price for everyone, less the
      booking total. When every passenger is counted as an adult or a child,
      it is the price difference times the number of children. */
  function Discount(b: Booking.State): (d: int)
    requires b.selectedWagon.Some?
    ensures AdultCount(b.passengers) + ChildCount(b.passengers) == |b.passengers| ==>
      d == ChildCount(b.passengers) * (b.selectedWagon.value.price - ChildFare(b.selectedWagon.value.price))
  {
    var p := b.selectedWagon.value.price;
    if AdultCount(b.passengers) + ChildCount(b.passengers) == |b.passengers| then
      DiscountAlgebra(AdultCount(b.passengers), ChildCount(b.passengers), |b.passengers|, p, ChildFare(p), Total(b));
      p * |b.passengers| - Total(b)
    else p * |b.passengers| - Total(b)
  }

  /** Without children there is nothing to discount; with a non-negative
      price the discount is never negative. */
  lemma DiscountOnlyForChildren(b: Booking.State)
    requires b.selectedWagon.Some? && b.selectedWagon.value.price >= 0
    requires forall i :: 0 <= i < |b.passengers| ==> IsAdult(b.passengers[i]) || IsChild(b.passengers[i])
    ensures ChildCount(b.passengers) == 0 ==> Discount(b) == 0
    ensures Discount(b) >= 0
  {
    AdultsAndChildren(b.passengers);
    DiscountSign(b);
  }

  lemma DiscountSign(b: Booking.State)
    requires b.selectedWagon.Some? && b.selectedWagon.value.price >= 0
    requires AdultCount(b.passengers) + ChildCount(b.passengers) == |b.passengers|
    ensures ChildCount(b.passengers) == 0 ==> Discount(b) == 0
    ensures Discount(b) >= 0
  {
    var p := b.selectedWagon.value.price;
    ChildFareAtMostPrice(p, ChildFare(p));
    NonNegMul(ChildCount(b.passengers), p - ChildFare(p));
    assert Discount(b) == ChildCount(b.passengers) * (p - ChildFare(p));
  }

  /** A non-negative price is never below its rounded 60 per cent. */
  lemma ChildFareAtMostPrice(p: int, cf: int)
    requires p >= 0 && -4 <= 10 * cf - 6 * p <= 4
    ensures p - cf >= 0
  {
  }

  lemma NonNegMul(x: int, y: int)
    requires x >= 0 && y >= 0
    ensures x * y >= 0
    ensures x == 0 ==> x * y == 0
  {
  }

  lemma DiscountAlgebra(a: int, c: int, n: int, p: int, cf: int, total: int)
    requires a + c == n && total == a * p + c * cf
    ensures (p + cf) * n - total == a * cf + c * p
    ensures p * n - total == c * (p - cf)
  {
    calc {
      (p + cf) * n;
      (p + cf) * (a + c);
      a * p + c * p + a * cf + c * cf;
    }
    calc {
      p * n;
      p * (a + c);
      a * p + c * p;
    }
  }

  /** The result of the pay button. */
  datatype PaymentOutcome =
    | NeedAgreement                 // the terms were not accepted
    | FixCard                       // card payment with an invalid card
    | Paid(booking: Booking.State)  // the order was stored

  /** The order snapshot the pay action stores. `id` and `date` stand for the
      random identifier and the clock reading. */
  function OrderSnapshot(b: Booking.State, selectedMethod: string, id: string, date: string): (o: Order)
    ensures o.train == b.selectedTrain && o.wagon == b.selectedWagon && o.seats == b.selectedSeats
    ensures o.passengers == b.passengers && o.paymentMethod == selectedMethod
    ensures o.total == Total(b) && o.status == "paid"
  {
    Order(id, b.selectedTrain, b.selectedWagon, b.selectedSeats, b.passengers, selectedMethod, Total(b), date, "paid")
  }

  /** `handlePayment`: agreement first, then the card, then the order. */
  function HandlePayment(b: Booking.State, agreement: bool, selectedMethod: string, id: string, date: string): (r: PaymentOutcome)
    ensures r.NeedAgreement? <==> !agreement
    ensures r.FixCard? <==> agreement && selectedMethod == "card" && PaymentMethod.ValidateCard(b.cardData) != {}
    ensures r.Paid? <==> CanProceed(agreement, selectedMethod, b.cardData)
    ensures r.Paid? ==> r.booking == b.(orderDetails := Some(OrderSnapshot(b, selectedMethod, id, date)))
  {
    if !agreement then NeedAgreement
    else if selectedMethod == "card" && !CardFormValid(selectedMethod, b.cardData) then FixCard
    else Paid(SetOrder(b, Some(OrderSnapshot(b, selectedMethod, id, date))))
  }

  /** The stored order charges every passenger their own fare. */
  lemma PaidOrderCharges(b: Booking.State, agreement: bool, selectedMethod: string, id: string, date: string)
    requires HandlePayment(b, agreement, selectedMethod, id, date).Paid?
    requires b.selectedWagon.Some?
    ensures var o := HandlePayment(b, agreement, selectedMethod, id, date).booking.orderDetails.value;
      o.total == SumFares(o.passengers, b.selectedWagon.value.price, ChildFare(b.selectedWagon.value.price))
  {
    TotalByPassenger(b);
  }
}
