/**
  The search form on the main page: its starting values, the edit handler
  with the numeric coercion of passenger counts, the clamped passenger
  counters, the ordered validator, the submit that merges the search into the
  booking state, and the swap of the two cities.
 */
module TicketSearch {
  import opened Options
  import opened Text
  import opened Dates
  import Booking

  /** The form record; the passenger counts are the nested `passengers` object. */
  datatype SearchForm = SearchForm(
    from: string,
    to: string,
    departureDate: string,
    returnDate: string,
    adults: int,
    children: int,
    childrenWithoutSeat: int,
    ticketType: string)

  const InitialForm := SearchForm("Москва", "Санкт-Петербург", "", "", 1, 0, 0, "any")

  /** The three passenger counters. */
  datatype PassengerKind = Adults | Children | ChildrenWithoutSeat

  /** The inputs `handleChange` serves; `Passengers(k)` is the input named
      `passengers.<k>`. */
  datatype InputName = From | To | DepartureDate | ReturnDate | TicketType | Passengers(kind: PassengerKind)

  /** The keys of the error object. */
  datatype ErrorKey = FromKey | ToKey | DepartureKey | ReturnKey | PassengersKey

  /** One constructor per message. */
  datatype SearchProblem =
    | FromRequired | ToRequired | SameCities
    | DepartureRequired | ReturnRequired | ReturnNotLater
    | NoPassengers | ChildrenAlone

  /** The form's state: the record, the messages on show (a message cleared
      to the empty string is absent) and the one-way switch. */
  datatype SearchState = SearchState(form: SearchForm, errors: map<ErrorKey, SearchProblem>, isOneWay: bool)

  const InitialState := SearchState(InitialForm, map[], true)

  function CountOf(f: SearchForm, k: PassengerKind): int {
    match k
    case Adults => f.adults
    case Children => f.children
    case ChildrenWithoutSeat => f.childrenWithoutSeat
  }

  function SetCount(f: SearchForm, k: PassengerKind, n: int): (r: SearchForm)
    ensures CountOf(r, k) == n
    ensures forall j :: j != k ==> CountOf(r, j) == CountOf(f, j)
    ensures r.from == f.from && r.to == f.to && r.departureDate == f.departureDate
    ensures r.returnDate == f.returnDate && r.ticketType == f.ticketType
  {
    match k
    case Adults => f.(adults := n)
    case Children => f.(children := n)
    case ChildrenWithoutSeat => f.(childrenWithoutSeat := n)
  }

  /** The longest run of digits at the start of `s`. */
  function DigitPrefix(s: string): (r: string)
    ensures AllDigits(r) && |r| <= |s| && r == s[..|r|]
    ensures |r| < |s| ==> !IsDigit(s[|r|])
  {
    if |s| > 0 && IsDigit(s[0]) then [s[0]] + DigitPrefix(s[1..]) else ""
  }

  /** `parseInt(s)` in base 10: leading white space is skipped, one sign is
      allowed, and the digits up to the first non-digit are read; without a
      digit the result is `NaN`, here `None`. */
  function ParseInt(s: string): (r: Option<int>)
    ensures r.None? <==> DigitPrefix(SignedPart(TrimStart(s))) == ""
    ensures r.Some? && r.value < 0 ==> TrimStart(s)[0] == '-'
  {
    var t := TrimStart(s);
    var d := DigitPrefix(SignedPart(t));
    if d == "" then None
    else if t[0] == '-' then Some(-(DecimalValue(d) as int))
    else Some(DecimalValue(d))
  }

  /** What follows an optional leading sign. */
  function SignedPart(t: string): (r: string)
    ensures |t| > 0 && (t[0] == '-' || t[0] == '+') ==> r == t[1..]
    ensures !(|t| > 0 && (t[0] == '-' || t[0] == '+')) ==> r == t
  {
    if |t| > 0 && (t[0] == '-' || t[0] == '+') then t[1..] else t
  }

  /** `parseInt` reads back the decimal rendering of any integer. */
  lemma ParseIntRoundTrip(n: int)
    ensures ParseInt(IntToString(n)) == Some(n)
  {
    var s := IntToString(n);
    var digits := NatToString(if n < 0 then -n else n);
    assert TrimStart(s) == s by {
      assert !IsSpace(s[0]);
    }
    assert SignedPart(s) == digits;
    DigitPrefixOfDigits(digits);
  }

  lemma {:induction false} DigitPrefixOfDigits(s: string)
    requires AllDigits(s)
    ensures DigitPrefix(s) == s
  {
    if |s| > 0 {
      DigitPrefixOfDigits(s[1..]);
    }
  }

  /** The error key an input's edit clears: a passenger input's name
      `passengers.<k>` is no key of the error object, and neither is the
      ticket type. */
  function ClearedKey(name: InputName): (k: Option<ErrorKey>)
    ensures name.Passengers? || name == TicketType ==> k.None?
  {
    match name
    case From => Some(FromKey)
    case To => Some(ToKey)
    case DepartureDate => Some(DepartureKey)
    case ReturnDate => Some(ReturnKey)
    case TicketType => None
    case Passengers(_) => None
  }

  /** `handleChange`: text inputs take the value; a passenger input takes
      `parseInt(value) || 0`; the message under the input's own name is
      cleared. */
  function HandleChange(st: SearchState, name: InputName, value: string): (r: SearchState)
    ensures name == From ==> r.form == st.form.(from := value)
    ensures name == To ==> r.form == st.form.(to := value)
    ensures name == DepartureDate ==> r.form == st.form.(departureDate := value)
    ensures name == ReturnDate ==> r.form == st.form.(returnDate := value)
    ensures name == TicketType ==> r.form == st.form.(ticketType := value)
    ensures name.Passengers? && ParseInt(value).Some? ==> CountOf(r.form, name.kind) == ParseInt(value).value
    ensures name.Passengers? && ParseInt(value).None? ==> CountOf(r.form, name.kind) == 0
    ensures name.Passengers? ==> forall j :: j != name.kind ==> CountOf(r.form, j) == CountOf(st.form, j)
    ensures name.Passengers? ==> r.errors == st.errors
    ensures name.Passengers? ==> r.form.from == st.form.from && r.form.to == st.form.to
    ensures name.Passengers? ==>
      r.form.departureDate == st.form.departureDate && r.form.returnDate == st.form.returnDate &&
      r.form.ticketType == st.form.ticketType
    ensures !name.Passengers? && name != TicketType ==> r.errors.Keys == st.errors.Keys - {ClearedKey(name).value}
    ensures forall k :: k in r.errors ==> k in st.errors && r.errors[k] == st.errors[k]
    ensures r.isOneWay == st.isOneWay
  {
    var f := st.form;
    var form := match name
      case From => f.(from := value)
      case To => f.(to := value)
      case DepartureDate => f.(departureDate := value)
      case ReturnDate => f.(returnDate := value)
      case TicketType => f.(ticketType := value)
      case Passengers(k) => SetCount(f, k, NumberOr(ParseInt(value), 0));
    var errors := match ClearedKey(name)
      case Some(key) => st.errors - {key}
      case None => st.errors;
    SearchState(form, errors, st.isOneWay)
  }

  /** `handlePassengerChange`: the counter moves by `delta` but never below 0. */
  function HandlePassengerChange(st: SearchState, k: PassengerKind, delta: int): (r: SearchState)
    ensures CountOf(r.form, k) >= 0
    ensures CountOf(st.form, k) + delta >= 0 ==> CountOf(r.form, k) == CountOf(st.form, k) + delta
    ensures CountOf(st.form, k) + delta < 0 ==> CountOf(r.form, k) == 0
    ensures forall j :: j != k ==> CountOf(r.form, j) == CountOf(st.form, j)
    ensures r.errors == st.errors && r.isOneWay == st.isOneWay
    ensures r.form.from == st.form.from && r.form.to == st.form.to
  {
    var n := CountOf(st.form, k) + delta;
    st.(form := SetCount(st.form, k, if n > 0 then n else 0))
  }

  /** The counters never go negative under the buttons. */
  lemma CountersStayNonNegative(st: SearchState, k: PassengerKind, delta: int)
    requires st.form.adults >= 0 && st.form.children >= 0 && st.form.childrenWithoutSeat >= 0
    ensures var r := HandlePassengerChange(st, k, delta);
      r.form.adults >= 0 && r.form.children >= 0 && r.form.childrenWithoutSeat >= 0
  {
    var r := HandlePassengerChange(st, k, delta);
    assert CountOf(r.form, Adults) >= 0 && CountOf(r.form, Children) >= 0 && CountOf(r.form, ChildrenWithoutSeat) >= 0;
  }

  /** The return date is not later than the departure date; a text that is
      no date compares as neither earlier nor later. */
  predicate ReturnNotAfterDeparture(returnDate: string, departureDate: string) {
    ParseIsoDate(returnDate).Some? && ParseIsoDate(departureDate).Some?
    && !After(ParseIsoDate(returnDate).value, ParseIsoDate(departureDate).value)
  }

  /** The message under one key, by the validator's rules in order: a later
      rule on the same key overrides an earlier one. */
  function KeyProblem(f: SearchForm, isOneWay: bool, k: ErrorKey): (r: Option<SearchProblem>)
    ensures k == FromKey ==> (r.Some? <==> IsBlank(f.from))
    ensures k == ToKey ==> (r == Some(SameCities) <==> f.from == f.to)
    ensures k == ToKey ==> (r == Some(ToRequired) <==> IsBlank(f.to) && f.from != f.to)
    ensures k == ToKey ==> (r.None? <==> !IsBlank(f.to) && f.from != f.to)
    ensures k == DepartureKey ==> (r.Some? <==> f.departureDate == "")
    ensures k == ReturnKey ==> (r == Some(ReturnRequired) <==> !isOneWay && f.returnDate == "")
    ensures k == ReturnKey ==> (r == Some(ReturnNotLater) <==>
      !isOneWay && f.returnDate != "" && f.departureDate != "" && ReturnNotAfterDeparture(f.returnDate, f.departureDate))
    ensures k == ReturnKey && isOneWay ==> r.None?
    ensures k == PassengersKey ==> (r == Some(ChildrenAlone) <==> f.adults == 0 && f.children > 0)
    ensures k == PassengersKey ==> (r == Some(NoPassengers) <==> f.adults + f.children == 0 && !(f.adults == 0 && f.children > 0))
    ensures k == PassengersKey ==> (r.None? <==> f.adults + f.children != 0 && !(f.adults == 0 && f.children > 0))
  {
    match k
    case FromKey => if IsBlank(f.from) then Some(FromRequired) else None
    case ToKey =>
      if f.from == f.to then Some(SameCities)
      else if IsBlank(f.to) then Some(ToRequired)
      else None
    case DepartureKey => if f.departureDate == "" then Some(DepartureRequired) else None
    case ReturnKey =>
      if !isOneWay && f.returnDate != "" && f.departureDate != "" && ReturnNotAfterDeparture(f.returnDate, f.departureDate)
      then Some(ReturnNotLater)
      else if !isOneWay && f.returnDate == "" then Some(ReturnRequired)
      else None
    case PassengersKey =>
      if f.adults == 0 && f.children > 0 then Some(ChildrenAlone)
      else if f.adults + f.children == 0 then Some(NoPassengers)
      else None
  }

  const AllKeys: set<ErrorKey> := {FromKey, ToKey, DepartureKey, ReturnKey, PassengersKey}

  /** `validate`: the error object, holding exactly the keys with a message. */
  function Validate(f: SearchForm, isOneWay: bool): (r: map<ErrorKey, SearchProblem>)
    ensures forall k :: k in r <==> KeyProblem(f, isOneWay, k).Some?
    ensures forall k :: k in r ==> Some(r[k]) == KeyProblem(f, isOneWay, k)
  {
    map k | k in AllKeys && KeyProblem(f, isOneWay, k).Some? :: KeyProblem(f, isOneWay, k).value
  }

  /** The seat-less children counter plays no part in validation. */
  lemma ValidateIgnoresSeatlessChildren(f: SearchForm, isOneWay: bool, n: int)
    ensures Validate(f.(childrenWithoutSeat := n), isOneWay) == Validate(f, isOneWay)
  {
    var g := f.(childrenWithoutSeat := n);
    assert forall k :: KeyProblem(g, isOneWay, k) == KeyProblem(f, isOneWay, k);
  }

  /** With counts the buttons can produce, the passenger rule asks for
      exactly one thing: at least one adult. */
  lemma PassengerRuleNeedsAnAdult(f: SearchForm, isOneWay: bool)
    requires f.adults >= 0 && f.children >= 0
    ensures PassengersKey !in Validate(f, isOneWay) <==> f.adults > 0
  {
  }

  /** The search parameters a successful submit merges into the booking
      state: the form's fields, the one-way flag and the passenger total. */
  function SearchData(f: SearchForm, isOneWay: bool): (p: Booking.SearchParams)
    ensures p.Keys == {"from", "to", "departureDate", "returnDate", "passengers", "ticketType", "isOneWay", "totalPassengers"}
    ensures p["totalPassengers"] == Booking.Number(f.adults + f.children)
    ensures p["from"] == Booking.ParamValue.Text(f.from) && p["to"] == Booking.ParamValue.Text(f.to)
    ensures p["isOneWay"] == Booking.Flag(isOneWay)
  {
    map[
      "from" := Booking.ParamValue.Text(f.from),
      "to" := Booking.ParamValue.Text(f.to),
      "departureDate" := Booking.ParamValue.Text(f.departureDate),
      "returnDate" := Booking.ParamValue.Text(f.returnDate),
      "passengers" := Booking.Counts(map["adults" := f.adults, "children" := f.children, "childrenWithoutSeat" := f.childrenWithoutSeat]),
      "ticketType" := Booking.ParamValue.Text(f.ticketType),
      "isOneWay" := Booking.Flag(isOneWay),
      "totalPassengers" := Booking.Number(f.adults + f.children)]
  }

  /** The result of a submit: the form state and the booking state after it. */
  datatype Submitted = Submitted(state: SearchState, booking: Booking.State, toResults: bool)

  /** `handleSubmit`: without errors the search is merged into the booking
      state and the results page opens; otherwise the errors are shown and
      the booking state is untouched. */
  function HandleSubmit(st: SearchState, b: Booking.State): (r: Submitted)
    ensures r.toResults <==> forall k :: KeyProblem(st.form, st.isOneWay, k).None?
    ensures r.toResults ==> r.booking == Booking.UpdateSearchParams(b, SearchData(st.form, st.isOneWay)) && r.state == st
    ensures r.toResults ==> r.booking.searchParams["totalPassengers"] == Booking.Number(st.form.adults + st.form.children)
    ensures !r.toResults ==> r.booking == b && r.state == st.(errors := Validate(st.form, st.isOneWay))
    ensures !r.toResults ==> r.state.errors.Keys != {}
  {
    var errors := Validate(st.form, st.isOneWay);
    if errors.Keys == {} then
      assert forall k :: k !in errors;
      Submitted(st, Booking.UpdateSearchParams(b, SearchData(st.form, st.isOneWay)), true)
    else Submitted(st.(errors := errors), b, false)
  }

  /** `swapCities`: exchanges the two cities and nothing else. */
  function SwapCities(f: SearchForm): (r: SearchForm)
    ensures r.from == f.to && r.to == f.from
    ensures r.(from := f.from, to := f.to) == f
  {
    f.(from := f.to, to := f.from)
  }

  /** Swapping twice restores the form, and a swap never changes whether the
      two cities clash. */
  lemma SwapInvolution(f: SearchForm, isOneWay: bool)
    ensures SwapCities(SwapCities(f)) == f
    ensures (ToKey in Validate(SwapCities(f), isOneWay) && Validate(SwapCities(f), isOneWay)[ToKey] == SameCities)
        <==> (ToKey in Validate(f, isOneWay) && Validate(f, isOneWay)[ToKey] == SameCities)
  {
  }
}
