/**
  The passenger-details screen: the per-passenger validator with its ordered
  birth-date rules, the age helper, the page's own price total and
  per-passenger price, the "next" step that either points at the first
  invalid passenger or proceeds to payment, and the add/remove buttons that
  move the passenger cursor.
 */
module PassengersPage {
  import opened Options
  import opened Text
  import opened Seqs
  import opened Dates
  import opened Formats
  import opened Booking

  /** The validated fields, the keys of the error object. */
  datatype Field = LastName | FirstName | BirthDate | DocumentSeries | DocumentNumber | Phone | Email

  /** What is wrong with a field; each constructor stands for one message. */
  datatype Problem =
    | Required        // the field is blank
    | InvalidDate     // the birth date does not parse
    | FutureDate      // the birth date is after today
    | BornTooLate     // the birth year is 1990 or later
    | ChildTooOld     // a child ticket for someone aged 10 or more
    | AdultTooYoung   // an adult ticket for someone under 10
    | BadFormat       // a document number, phone or e-mail of the wrong shape

  type Errors = map<Field, Problem>

  /** The birth-date rules once the date has parsed, in the order the page
      applies them: future date, then birth year, then the age limit of the
      ticket category; other categories have no age limit. */
  function ParsedBirthDateProblem(d: Date, category: string, today: Date): (r: Option<Problem>)
    ensures r.None? <==>
      && !After(d, today)
      && d.year < 1990
      && (category == "child" ==> Age(d, today) < 10)
      && (category == "adult" ==> Age(d, today) >= 10)
    ensures After(d, today) ==> r == Some(FutureDate)
    ensures !After(d, today) && d.year >= 1990 ==> r == Some(BornTooLate)
    ensures r.Some? && r.value == ChildTooOld ==> category == "child" && Age(d, today) >= 10
    ensures r.Some? && r.value == AdultTooYoung ==> category == "adult" && Age(d, today) < 10
    ensures !After(d, today) && d.year < 1990 && category == "child" && Age(d, today) >= 10 ==>
      r == Some(ChildTooOld)
    ensures !After(d, today) && d.year < 1990 && category == "adult" && Age(d, today) < 10 ==>
      r == Some(AdultTooYoung)
  {
    var age := Age(d, today);
    if After(d, today) then Some(FutureDate)
    else if d.year >= 1990 then Some(BornTooLate)
    else if category == "child" then (if age >= 10 then Some(ChildTooOld) else None)
    else if category == "adult" then (if age < 10 then Some(AdultTooYoung) else None)
    else None
  }

  /** The birth-date check: blank text is required, text that is not a date
      is invalid, and a date goes through the ordered rules. */
  function BirthDateProblem(text: string, category: string, today: Date): (r: Option<Problem>)
    ensures IsBlank(text) ==> r == Some(Required)
    ensures !IsBlank(text) && ParseIsoDate(text).None? ==> r == Some(InvalidDate)
    ensures ParseIsoDate(text).Some? ==> r == ParsedBirthDateProblem(ParseIsoDate(text).value, category, today)
  {
    if IsBlank(text) then Some(Required)
    else match ParseIsoDate(text)
      case None => Some(InvalidDate)
      case Some(d) => ParsedBirthDateProblem(d, category, today)
  }

  /** The case-insensitive birth-certificate number format. */
  predicate CertificateOk(s: string) {
    CertificateShape(s, RomanLetterAnyCase, CyrillicCapitalAnyCase)
  }

  const AllFields: set<Field> := {LastName, FirstName, BirthDate, DocumentSeries, DocumentNumber, Phone, Email}

  /** The check of one field of the error object. */
  function FieldProblem(p: Passenger, f: Field, today: Date): (r: Option<Problem>)
    ensures f == LastName ==> (r.Some? <==> IsBlank(p.lastName))
    ensures f == FirstName ==> (r.Some? <==> IsBlank(p.firstName))
    ensures f == BirthDate ==> r == BirthDateProblem(p.birthDate, p.category, today)
    ensures f == DocumentSeries ==> (r.Some? <==> p.documentType == "passport" && !DigitsExactly(Trim(p.documentSeries), 4))
    ensures f == DocumentNumber ==> (r.Some? <==>
      || (p.documentType == "passport" && !DigitsExactly(Trim(p.documentNumber), 6))
      || (p.documentType == "birthCertificate" && !CertificateOk(Trim(p.documentNumber))))
    ensures f == Phone ==> (r.Some? <==> !IsBlank(p.phone) && !PhoneOk(Trim(p.phone)))
    ensures f == Email ==> (r.Some? <==> !IsBlank(p.email) && !EmailOk(Trim(p.email)))
    ensures r.Some? && f != BirthDate ==> r.value == (if f == LastName || f == FirstName then Required else BadFormat)
  {
    match f
    case LastName => if IsBlank(p.lastName) then Some(Required) else None
    case FirstName => if IsBlank(p.firstName) then Some(Required) else None
    case BirthDate => BirthDateProblem(p.birthDate, p.category, today)
    case DocumentSeries =>
      if p.documentType == "passport" && !DigitsExactly(Trim(p.documentSeries), 4) then Some(BadFormat) else None
    case DocumentNumber =>
      var number := Trim(p.documentNumber);
      if (p.documentType == "passport" && !DigitsExactly(number, 6))
         || (p.documentType == "birthCertificate" && !CertificateOk(number))
      then Some(BadFormat) else None
    case Phone => if !IsBlank(p.phone) && !PhoneOk(Trim(p.phone)) then Some(BadFormat) else None
    case Email => if !IsBlank(p.email) && !EmailOk(Trim(p.email)) then Some(BadFormat) else None
  }

  /** `validatePassenger`: the error object, holding exactly the failing
      fields, each with its problem. */
  function ValidatePassenger(p: Passenger, today: Date): (r: Errors)
    ensures forall f :: f in r <==> FieldProblem(p, f, today).Some?
    ensures forall f :: f in r ==> Some(r[f]) == FieldProblem(p, f, today)
  {
    map f | f in AllFields && FieldProblem(p, f, today).Some? :: FieldProblem(p, f, today).value
  }

  /** A passenger with an empty error object. */
  predicate Valid(p: Passenger, today: Date) {
    ValidatePassenger(p, today) == map[]
  }

  /** Since 1990 is rejected as a birth year, a child (under 10) cannot be
      entered once the current year is 2001 or later: every child passenger
      gets a birth-date error. */
  lemma NoChildValidates(p: Passenger, today: Date)
    requires IsChild(p) && today.year >= 2001
    ensures BirthDate in ValidatePassenger(p, today)
  {
    var pd := ParseIsoDate(p.birthDate);
    if !IsBlank(p.birthDate) && pd.Some? {
      var d := pd.value;
      assert !After(d, today) && d.year < 1990 ==> Age(d, today) >= 10;
    }
  }

  /** A valid adult passenger was born before 1990, not after today, and has
      reached their tenth birthday. */
  lemma ValidAdultBirth(p: Passenger, today: Date)
    requires IsAdult(p) && Valid(p, today)
    ensures ParseIsoDate(p.birthDate).Some?
    ensures var d := ParseIsoDate(p.birthDate).value;
      !After(d, today) && d.year < 1990 && AnniversaryReached(d, today, 10)
  {
    assert BirthDate !in ValidatePassenger(p, today);
    var d := ParseIsoDate(p.birthDate).value;
    AnniversaryMonotone(d, today, 10, Age(d, today));
  }

  /** A valid passenger has non-blank names and, with a passport, a four-digit
      series and six-digit number. */
  lemma ValidPassport(p: Passenger, today: Date)
    requires Valid(p, today) && p.documentType == "passport"
    ensures !IsBlank(p.lastName) && !IsBlank(p.firstName)
    ensures DigitsExactly(Trim(p.documentSeries), 4) && DigitsExactly(Trim(p.documentNumber), 6)
  {
    assert LastName !in ValidatePassenger(p, today);
    assert FirstName !in ValidatePassenger(p, today);
    assert DocumentSeries !in ValidatePassenger(p, today);
    assert DocumentNumber !in ValidatePassenger(p, today);
  }

  /** `calculateAge`: no age for an empty or unparseable date, otherwise the
      number of whole years. */
  function CalculateAge(text: string, today: Date): (r: Option<int>)
    ensures r.Some? <==> ParseIsoDate(text).Some?
    ensures r.Some? ==>
      var d := ParseIsoDate(text).value;
      AnniversaryReached(d, today, r.value) && !AnniversaryReached(d, today, r.value + 1)
  {
    if text == "" then None
    else match ParseIsoDate(text)
      case None => None
      case Some(d) => Some(Age(d, today))
  }

  /** The age the page shows for a passenger whose birth date passed the
      validator is at least 0: the date is not in the future. */
  lemma ValidBirthDateHasAge(p: Passenger, today: Date)
    requires BirthDate !in ValidatePassenger(p, today)
    ensures CalculateAge(p.birthDate, today).Some? && CalculateAge(p.birthDate, today).value >= 0
  {
    var d := ParseIsoDate(p.birthDate).value;
    AnniversaryMonotone(d, today, 0, Age(d, today));
  }

  /** The page's base fare: the wagon price, or 2000 when that is 0. */
  function BaseFare(w: Wagon): (base: int)
    ensures w.price != 0 ==> base == w.price
    ensures w.price == 0 ==> base == 2000
  {
    NumberOr(Some(w.price), 2000)
  }

  /** One passenger's fare on this page: children pay the child fare, every
      other category the base. */
  function PageFare(p: Passenger, base: int, childFare: int): int {
    if IsChild(p) then childFare else base
  }

  function PageSum(ps: seq<Passenger>, base: int, childFare: int): int {
    if |ps| == 0 then 0 else PageFare(ps[0], base, childFare) + PageSum(ps[1..], base, childFare)
  }

  /** The total-price effect: 0 while wagon, train, seats or passengers are
      missing, otherwise the sum of the passengers' page fares. */
  function PageTotal(b: Booking.State): (t: int)
    ensures b.selectedWagon.None? || b.selectedTrain.None? || b.selectedSeats == [] || b.passengers == [] ==> t == 0
    ensures b.selectedWagon.Some? && b.selectedTrain.Some? && b.selectedSeats != [] && b.passengers != [] ==>
      t == (|b.passengers| - ChildCount(b.passengers)) * BaseFare(b.selectedWagon.value)
           + ChildCount(b.passengers) * ChildFare(BaseFare(b.selectedWagon.value))
  {
    if b.selectedWagon.None? || b.selectedTrain.None? || b.selectedSeats == [] || b.passengers == [] then 0
    else
      var base := BaseFare(b.selectedWagon.value);
      var childFare := ChildFare(base);
      PageSumCounts(b.passengers, base, childFare);
      PageSum(b.passengers, base, childFare)
  }

  /** Summing page fares charges the non-children the base and the children
      the child fare. */
  lemma {:induction false} PageSumCounts(ps: seq<Passenger>, base: int, childFare: int)
    ensures PageSum(ps, base, childFare) == (|ps| - ChildCount(ps)) * base + ChildCount(ps) * childFare
  {
    if |ps| > 0 {
      PageSumCounts(ps[1..], base, childFare);
      CountStep(PageSum(ps[1..], base, childFare), PageFare(ps[0], base, childFare),
                |ps| - 1, ChildCount(ps[1..]), |ps|, ChildCount(ps), base, childFare);
    }
  }

  /** Adding one passenger to a list priced by its counts. */
  lemma CountStep(rest: int, fare: int, n: int, c: int, n': int, c': int, base: int, childFare: int)
    requires rest == (n - c) * base + c * childFare
    requires n' == n + 1
    requires (fare == childFare && c' == c + 1) || (fare == base && c' == c)
    ensures fare + rest == (n' - c') * base + c' * childFare
  {
    if c' == c + 1 && fare == childFare {
      MulSucc(c, childFare);
    } else {
      MulSucc(n - c, base);
    }
  }

  /** When every passenger is an adult or a child and the wagon has a
      non-zero price, the page total and the booking total agree. */
  lemma PageTotalMatchesBooking(b: Booking.State)
    requires b.selectedWagon.Some? && b.selectedTrain.Some? && b.selectedSeats != [] && b.passengers != []
    requires b.selectedWagon.value.price != 0
    requires forall i :: 0 <= i < |b.passengers| ==> IsAdult(b.passengers[i]) || IsChild(b.passengers[i])
    ensures PageTotal(b) == Total(b)
  {
    AdultsAndChildren(b.passengers);
  }

  /** The seat-number-to-price table the total effect records: each
      passenger's page fare under their seat number, later passengers
      overwriting earlier ones on a shared seat. */
  function SeatPrices(ps: seq<Passenger>, base: int): (m: map<int, int>)
    ensures m.Keys == set i | 0 <= i < |ps| :: ps[i].seatNumber
    ensures forall i :: 0 <= i < |ps| ==> ps[i].seatNumber in m
    ensures forall i :: 0 <= i < |ps| && LastOnSeat(ps, i) ==>
      m[ps[i].seatNumber] == PageFare(ps[i], base, ChildFare(base))
  {
    if |ps| == 0 then map[]
    else
      var init := ps[..|ps| - 1];
      var last := ps[|ps| - 1];
      assert init + [last] == ps;
      var m := SeatPrices(init, base);
      SeatPricesStep(init, last, m, base);
      m[last.seatNumber := PageFare(last, base, ChildFare(base))]
  }

  /** Recording one more passenger keeps every earlier passenger who is
      still last on their seat, and records the new one. */
  lemma SeatPricesStep(init: seq<Passenger>, last: Passenger, m: map<int, int>, base: int)
    requires forall i :: 0 <= i < |init| ==> init[i].seatNumber in m
    requires forall i :: 0 <= i < |init| && LastOnSeat(init, i) ==>
      m[init[i].seatNumber] == PageFare(init[i], base, ChildFare(base))
    ensures var ps := init + [last];
      var r := m[last.seatNumber := PageFare(last, base, ChildFare(base))];
      && (forall i :: 0 <= i < |ps| ==> ps[i].seatNumber in r)
      && (forall i :: 0 <= i < |ps| && LastOnSeat(ps, i) ==> r[ps[i].seatNumber] == PageFare(ps[i], base, ChildFare(base)))
  {
    var ps := init + [last];
    var r := m[last.seatNumber := PageFare(last, base, ChildFare(base))];
    forall i | 0 <= i < |ps| && LastOnSeat(ps, i)
      ensures r[ps[i].seatNumber] == PageFare(ps[i], base, ChildFare(base))
    {
      if i < |init| {
        forall j | i < j < |init|
          ensures init[j].seatNumber != init[i].seatNumber
        {
          assert init[j] == ps[j] && init[i] == ps[i];
        }
        assert ps[|ps| - 1] == last;
      }
    }
  }

  /** No later passenger of `ps` shares the seat of passenger `i`. */
  predicate LastOnSeat(ps: seq<Passenger>, i: int)
    requires 0 <= i < |ps|
  {
    forall j :: i < j < |ps| ==> ps[j].seatNumber != ps[i].seatNumber
  }

  /** `getPassengerPrice` as written: the recorded seat price, falling back to
      the wagon price and then 2000, with the child discount applied on top
      of it. */
  function PassengerPriceAsWritten(wagon: Option<Wagon>, seatPrices: map<int, int>, p: Passenger): (price: int)
    ensures wagon.None? ==> price == 0
    ensures wagon.Some? && (p.seatNumber !in seatPrices || seatPrices[p.seatNumber] == 0) ==>
      price == PassengerPrice(wagon, p)
    ensures wagon.Some? && p.seatNumber in seatPrices && seatPrices[p.seatNumber] != 0 ==>
      var s := seatPrices[p.seatNumber]; price == PageFare(p, s, ChildFare(s))
  {
    match wagon
    case None => 0
    case Some(w) =>
      var recorded := if p.seatNumber in seatPrices then Some(seatPrices[p.seatNumber]) else None;
      var base := NumberOr(recorded, BaseFare(w));
      PageFare(p, base, ChildFare(base))
  }

  /** Once the effect has recorded the seat prices, the price shown for a
      child discounts the already discounted fare: for a 2000 wagon the page
      totals 1200 for a lone child but lists that child at 720. */
  lemma PassengerPriceDiscountsTwice()
    ensures var w := Wagon("w", 1, "coupe", "Купе", 36, 36, 2000);
      var child := Passenger("c", "child", 1, "", "", "", "male", "", "passport", "", "", "", "", false, true, "none");
      var b := Booking.Initial.(selectedWagon := Some(w), selectedTrain := Some(TrainInfo("", "", "", "", "", "", "", "", "", "")),
                                selectedSeats := [1], passengers := [child]);
      && PageTotal(b) == 1200
      && PassengerPriceAsWritten(Some(w), SeatPrices([child], 2000), child) == 720
  {
    var w := Wagon("w", 1, "coupe", "Купе", 36, 36, 2000);
    var child := Passenger("c", "child", 1, "", "", "", "male", "", "passport", "", "", "", "", false, true, "none");
    var m := SeatPrices([child], 2000);
    assert m[1] == 1200;
    assert ChildFare(1200) == 720 by { ChildFareUnique(1200, 720); }
    assert ChildFare(2000) == 1200 by { ChildFareUnique(2000, 1200); }
  }

  /** The per-passenger price the page evidently means to show: the
      passenger's share of the page total. */
  function PassengerPrice(wagon: Option<Wagon>, p: Passenger): (price: int)
    ensures wagon.None? ==> price == 0
    ensures wagon.Some? && IsChild(p) ==> -4 <= 10 * price - 6 * BaseFare(wagon.value) <= 4
    ensures wagon.Some? && !IsChild(p) ==> price == BaseFare(wagon.value)
  {
    match wagon
    case None => 0
    case Some(w) => PageFare(p, BaseFare(w), ChildFare(BaseFare(w)))
  }

  function ListedPrices(wagon: Option<Wagon>, ps: seq<Passenger>): int {
    if |ps| == 0 then 0 else PassengerPrice(wagon, ps[0]) + ListedPrices(wagon, ps[1..])
  }

  /** The listed per-passenger prices add up to the page total. */
  lemma ListedPricesSumToTotal(b: Booking.State)
    requires b.selectedWagon.Some? && b.selectedTrain.Some? && b.selectedSeats != [] && b.passengers != []
    ensures ListedPrices(b.selectedWagon, b.passengers) == PageTotal(b)
  {
    ListedIsPageSum(b.selectedWagon.value, b.passengers);
    PageSumCounts(b.passengers, BaseFare(b.selectedWagon.value), ChildFare(BaseFare(b.selectedWagon.value)));
  }

  lemma {:induction false} ListedIsPageSum(w: Wagon, ps: seq<Passenger>)
    ensures ListedPrices(Some(w), ps) == PageSum(ps, BaseFare(w), ChildFare(BaseFare(w)))
  {
    if |ps| > 0 {
      ListedIsPageSum(w, ps[1..]);
    }
  }

  /** The outcome of "next". `invalid` holds the 0-based indices of the
      invalid passengers; the message lists each plus one. */
  datatype NextOutcome =
    | CountMismatch(seats: nat)                     // not every seat has a passenger
    | FixPassengers(cursor: nat, invalid: seq<nat>) // cursor to the first invalid one
    | ToPayment

  /** The checks of "next" over any list and any validity test. */
  function CheckAll<T>(items: seq<T>, seats: nat, ok: T -> bool): (r: NextOutcome)
    ensures r.CountMismatch? <==> |items| != seats
    ensures r.CountMismatch? ==> r.seats == seats
    ensures r.ToPayment? <==> |items| == seats && forall i :: 0 <= i < |items| ==> ok(items[i])
    ensures r.FixPassengers? ==>
      && r.cursor < |items|
      && !ok(items[r.cursor])
      && (forall i :: 0 <= i < r.cursor ==> ok(items[i]))
      && (forall i :: 0 <= i < |items| && !ok(items[i]) ==> i in r.invalid)
      && (forall j :: 0 <= j < |r.invalid| ==> r.invalid[j] < |items| && !ok(items[r.invalid[j]]))
      && (forall i, j :: 0 <= i < j < |r.invalid| ==> r.invalid[i] < r.invalid[j])
  {
    if |items| != seats then CountMismatch(seats)
    else
      var invalid := IndicesFailing(items, ok, 0);
      IndicesFailingFirst(items, ok, 0);
      if |invalid| == 0 then ToPayment else FixPassengers(invalid[0], invalid)
  }

  /** `handleNext`: with as many passengers as seats, either every passenger
      is valid and the flow proceeds, or the cursor moves to the first
      invalid passenger and the message names all invalid ones in order. */
  function HandleNext(b: Booking.State, today: Date): (r: NextOutcome)
    ensures r.CountMismatch? <==> |b.passengers| != |b.selectedSeats|
    ensures r.CountMismatch? ==> r.seats == |b.selectedSeats|
    ensures r.ToPayment? <==>
      |b.passengers| == |b.selectedSeats| && forall i :: 0 <= i < |b.passengers| ==> Valid(b.passengers[i], today)
    ensures r.FixPassengers? ==>
      && r.cursor < |b.passengers|
      && !Valid(b.passengers[r.cursor], today)
      && (forall i :: 0 <= i < r.cursor ==> Valid(b.passengers[i], today))
      && (forall i :: 0 <= i < |b.passengers| && !Valid(b.passengers[i], today) ==> i in r.invalid)
      && (forall j :: 0 <= j < |r.invalid| ==> r.invalid[j] < |b.passengers| && !Valid(b.passengers[r.invalid[j]], today))
      && (forall i, j :: 0 <= i < j < |r.invalid| ==> r.invalid[i] < r.invalid[j])
  {
    CheckAll(b.passengers, |b.selectedSeats|, p => Valid(p, today))
  }

  /** `areAllPassengersValid`, which enables the "next" button: true exactly
      when "next" proceeds to payment. */
  function AllPassengersValid(b: Booking.State, today: Date): (ok: bool)
    ensures ok <==> HandleNext(b, today).ToPayment?
  {
    |b.passengers| == |b.selectedSeats| && forall i :: 0 <= i < |b.passengers| ==> Valid(b.passengers[i], today)
  }

  /** The blank passenger the page creates for a seat. */
  function NewPassenger(id: string, seat: int): (p: Passenger)
    ensures IsAdult(p) && p.seatNumber == seat && p.id == id
    ensures p.documentType == "passport" && p.includeBedding && !p.limitedMobility
  {
    Passenger(id, "adult", seat, "", "", "", "male", "", "passport", "", "", "", "", false, true, "none")
  }

  /** Appends the passengers one by one, as the initialising effect does. */
  function AddAll(b: Booking.State, ps: seq<Passenger>): (r: Booking.State)
    ensures r == b.(passengers := b.passengers + ps)
    decreases |ps|
  {
    if |ps| == 0 then b
    else
      assert b.passengers + ps == (b.passengers + [ps[0]]) + ps[1..];
      AddAll(AddPassenger(b, ps[0]), ps[1..])
  }

  /** The initialising effect: with seats chosen and no passengers yet, one
      blank adult per seat, in seat order; `stamp` stands for the clock value
      the ids embed. */
  function InitPassengers(b: Booking.State, stamp: string): (r: Booking.State)
    ensures b.selectedSeats != [] && b.passengers == [] ==> SeatsAligned(r.passengers, r.selectedSeats) && |r.passengers| == |r.selectedSeats|
    ensures b.selectedSeats != [] && b.passengers == [] ==> forall i :: 0 <= i < |r.passengers| ==> IsAdult(r.passengers[i])
    ensures !(b.selectedSeats != [] && b.passengers == []) ==> r == b
    ensures r == b.(passengers := r.passengers)
  {
    if |b.selectedSeats| > 0 && |b.passengers| == 0 then
      AddAll(b, seq(|b.selectedSeats|, i requires 0 <= i < |b.selectedSeats| =>
        NewPassenger("passenger-" + stamp + "-" + NatToString(i), b.selectedSeats[i])))
    else b
  }

  /** Passenger `i` sits on seat `i`. */
  predicate SeatsAligned(ps: seq<Passenger>, seats: seq<int>) {
    |ps| <= |seats| && forall i :: 0 <= i < |ps| ==> ps[i].seatNumber == seats[i]
  }

  /** The screen's local state next to the booking state: the index of the
      passenger being edited. */
  datatype View = View(booking: Booking.State, cursor: int)

  /** `handleAddPassenger`: while seats outnumber passengers, a blank adult
      for the next seat is appended and becomes the current passenger. */
  function HandleAddPassenger(v: View, id: string): (r: View)
    ensures |v.booking.passengers| < |v.booking.selectedSeats| ==>
      && r.booking == AddPassenger(v.booking, NewPassenger(id, v.booking.selectedSeats[|v.booking.passengers|]))
      && r.cursor == |v.booking.passengers|
    ensures |v.booking.passengers| >= |v.booking.selectedSeats| ==> r == v
  {
    var n := |v.booking.passengers|;
    if n < |v.booking.selectedSeats| then View(AddPassenger(v.booking, NewPassenger(id, v.booking.selectedSeats[n])), n)
    else v
  }

  /** `handleRemovePassenger`: only with more than one passenger; the cursor
      steps back (not below 0) when it was at or after the removed index. */
  function HandleRemovePassenger(v: View, index: int): (r: View)
    ensures |v.booking.passengers| <= 1 ==> r == v
    ensures |v.booking.passengers| > 1 ==>
      && r.booking == RemovePassenger(v.booking, index)
      && r.cursor == (if v.cursor >= index then (if v.cursor - 1 > 0 then v.cursor - 1 else 0) else v.cursor)
  {
    if |v.booking.passengers| > 1 then
      var cursor := if v.cursor >= index then (if v.cursor - 1 > 0 then v.cursor - 1 else 0) else v.cursor;
      View(RemovePassenger(v.booking, index), cursor)
    else v
  }

  /** The cursor points at a passenger. */
  predicate CursorInRange(v: View) {
    0 <= v.cursor < |v.booking.passengers|
  }

  /** Adding keeps the cursor on a passenger and keeps passengers on their seats. */
  lemma AddKeepsInvariants(v: View, id: string)
    requires SeatsAligned(v.booking.passengers, v.booking.selectedSeats)
    requires CursorInRange(v) || v.booking.passengers == []
    ensures SeatsAligned(HandleAddPassenger(v, id).booking.passengers, HandleAddPassenger(v, id).booking.selectedSeats)
    ensures v.booking.passengers != [] || v.booking.selectedSeats != [] ==> CursorInRange(HandleAddPassenger(v, id))
  {
  }

  /** Removing, at any index, keeps a cursor that pointed at a passenger
      pointing at one. */
  lemma RemoveKeepsCursor(v: View, index: int)
    requires CursorInRange(v)
    ensures CursorInRange(HandleRemovePassenger(v, index))
    ensures |HandleRemovePassenger(v, index).booking.passengers| >= 1
  {
  }
}
