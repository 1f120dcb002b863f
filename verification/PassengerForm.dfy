/**
  The stand-alone passenger form: its defaults for missing initial data, the
  edit handler that touches one field and clears that field's message, the
  validator (names, birth date, and the birth-certificate format for a child)
  and the submit gate that saves only an error-free form.
 */
module PassengerForm {
  import opened Options
  import opened Text
  import opened Dates
  import opened Formats
  import PassengersPage
  import Booking

  /** The form's record. `category` is the ticket type ("adult" or "child"). */
  datatype FormData = FormData(
    category: string,
    lastName: string,
    firstName: string,
    middleName: string,
    gender: string,
    birthDate: string,
    documentType: string,
    documentSeries: string,
    documentNumber: string,
    limitedMobility: bool)

  /** The initial data the caller may pass; any entry may be missing. */
  datatype InitialData = InitialData(
    category: Option<string>,
    lastName: Option<string>,
    firstName: Option<string>,
    middleName: Option<string>,
    gender: Option<string>,
    birthDate: Option<string>,
    documentType: Option<string>,
    documentSeries: Option<string>,
    documentNumber: Option<string>,
    limitedMobility: Option<bool>)

  const NoInitialData := InitialData(None, None, None, None, None, None, None, None, None, None)

  /** The inputs of the form, named as the error keys. */
  datatype FormField =
    | Category | LastName | FirstName | MiddleName | Gender | BirthDate
    | DocumentType | DocumentSeries | DocumentNumber | LimitedMobility

  /** What an input holds: text, or the state of the one checkbox. */
  datatype FieldValue = Str(s: string) | Checked(b: bool)

  /** What is wrong with a field; each constructor stands for one message. */
  datatype FormProblem = Required | FutureDate | BadFormat

  /** The form state: the record and the messages on show. A message that
      was cleared to the empty string is not on show, so it is absent here. */
  datatype FormState = FormState(data: FormData, errors: map<FormField, FormProblem>)

  /** The starting record: every text entry falls back, when missing or
      empty, to "" except the ticket type ("adult"), the gender ("male") and
      the document ("passport"); the checkbox is set only by a given `true`. */
  function Defaults(init: InitialData): (f: FormData)
    ensures init.category.Some? && init.category.value != "" ==> f.category == init.category.value
    ensures init.category.None? || init.category.value == "" ==> f.category == "adult"
    ensures init.gender.Some? && init.gender.value != "" ==> f.gender == init.gender.value
    ensures init.gender.None? || init.gender.value == "" ==> f.gender == "male"
    ensures init.documentType.Some? && init.documentType.value != "" ==> f.documentType == init.documentType.value
    ensures init.documentType.None? || init.documentType.value == "" ==> f.documentType == "passport"
    ensures init.lastName.None? ==> f.lastName == ""
    ensures init.lastName.Some? ==> f.lastName == init.lastName.value
    ensures init.firstName.None? ==> f.firstName == ""
    ensures init.firstName.Some? ==> f.firstName == init.firstName.value
    ensures init.middleName.None? ==> f.middleName == ""
    ensures init.middleName.Some? ==> f.middleName == init.middleName.value
    ensures init.birthDate.None? ==> f.birthDate == ""
    ensures init.birthDate.Some? ==> f.birthDate == init.birthDate.value
    ensures init.documentSeries.None? ==> f.documentSeries == ""
    ensures init.documentSeries.Some? ==> f.documentSeries == init.documentSeries.value
    ensures init.documentNumber.None? ==> f.documentNumber == ""
    ensures init.documentNumber.Some? ==> f.documentNumber == init.documentNumber.value
    ensures f.limitedMobility <==> init.limitedMobility == Some(true)
  {
    FormData(
      TextOr(init.category, "adult"),
      TextOr(init.lastName, ""),
      TextOr(init.firstName, ""),
      TextOr(init.middleName, ""),
      TextOr(init.gender, "male"),
      TextOr(init.birthDate, ""),
      TextOr(init.documentType, "passport"),
      TextOr(init.documentSeries, ""),
      TextOr(init.documentNumber, ""),
      init.limitedMobility == Some(true))
  }

  /** Without initial data the form starts as a blank adult with a passport. */
  lemma DefaultsWithoutData()
    ensures Defaults(NoInitialData) == FormData("adult", "", "", "", "male", "", "passport", "", "", false)
  {
  }

  /** Reads one input of the record. */
  function Get(d: FormData, f: FormField): FieldValue {
    match f
    case Category => Str(d.category)
    case LastName => Str(d.lastName)
    case FirstName => Str(d.firstName)
    case MiddleName => Str(d.middleName)
    case Gender => Str(d.gender)
    case BirthDate => Str(d.birthDate)
    case DocumentType => Str(d.documentType)
    case DocumentSeries => Str(d.documentSeries)
    case DocumentNumber => Str(d.documentNumber)
    case LimitedMobility => Checked(d.limitedMobility)
  }

  /** A change event: the input's name, its text and its checked state. Only
      the limited-mobility input is a checkbox. */
  datatype ChangeEvent = ChangeEvent(name: FormField, value: string, checked: bool)

  /** `handleChange`: the named input takes the event's value (the checked
      state for the checkbox), every other input keeps its own, and only that
      input's message goes away. */
  function HandleChange(st: FormState, e: ChangeEvent): (r: FormState)
    ensures Get(r.data, e.name) == (if e.name == LimitedMobility then Checked(e.checked) else Str(e.value))
    ensures forall g :: g != e.name ==> Get(r.data, g) == Get(st.data, g)
    ensures r.errors.Keys == st.errors.Keys - {e.name}
    ensures forall g :: g in r.errors ==> r.errors[g] == st.errors[g]
  {
    var d := st.data;
    var v := e.value;
    var data := match e.name
      case Category => d.(category := v)
      case LastName => d.(lastName := v)
      case FirstName => d.(firstName := v)
      case MiddleName => d.(middleName := v)
      case Gender => d.(gender := v)
      case BirthDate => d.(birthDate := v)
      case DocumentType => d.(documentType := v)
      case DocumentSeries => d.(documentSeries := v)
      case DocumentNumber => d.(documentNumber := v)
      case LimitedMobility => d.(limitedMobility := e.checked);
    FormState(data, st.errors - {e.name})
  }

  /** The case-sensitive birth-certificate format of this form. */
  predicate StrictCertificate(s: string) {
    CertificateShape(s, RomanLetterIVX, CyrillicCapital)
  }

  /** The check of one input. An empty birth date is required; one that
      parses to a day after today is in the future; text that is no date
      passes, as an invalid date compares as not later. The number is
      checked, untrimmed, only for a child with a birth certificate. */
  function FieldProblem(d: FormData, f: FormField, today: Date): (r: Option<FormProblem>)
    ensures f == LastName ==> (r == Some(Required) <==> IsBlank(d.lastName)) && (r.None? <==> !IsBlank(d.lastName))
    ensures f == FirstName ==> (r == Some(Required) <==> IsBlank(d.firstName)) && (r.None? <==> !IsBlank(d.firstName))
    ensures f == BirthDate ==> (r == Some(Required) <==> d.birthDate == "")
    ensures f == BirthDate ==>
      (r == Some(FutureDate) <==> d.birthDate != "" && ParseIsoDate(d.birthDate).Some? && After(ParseIsoDate(d.birthDate).value, today))
    ensures f == BirthDate ==>
      (r.None? <==> d.birthDate != "" && !(ParseIsoDate(d.birthDate).Some? && After(ParseIsoDate(d.birthDate).value, today)))
    ensures f == DocumentNumber ==>
      (r.Some? <==> d.category == "child" && d.documentType == "birthCertificate" && !StrictCertificate(d.documentNumber))
    ensures r.Some? ==> f in {LastName, FirstName, BirthDate, DocumentNumber}
    ensures r.Some? && f == DocumentNumber ==> r.value == BadFormat
  {
    match f
    case LastName => if IsBlank(d.lastName) then Some(Required) else None
    case FirstName => if IsBlank(d.firstName) then Some(Required) else None
    case BirthDate =>
      if d.birthDate == "" then Some(Required)
      else (match ParseIsoDate(d.birthDate)
        case Some(b) => if After(b, today) then Some(FutureDate) else None
        case None => None)
    case DocumentNumber =>
      if d.category == "child" && d.documentType == "birthCertificate" && !StrictCertificate(d.documentNumber)
      then Some(BadFormat) else None
    case _ => None
  }

  const CheckedFields: set<FormField> := {LastName, FirstName, BirthDate, DocumentNumber}

  /** `validate`: the error object, holding exactly the failing inputs with
      their problems. */
  function Validate(d: FormData, today: Date): (r: map<FormField, FormProblem>)
    ensures forall f :: f in r <==> FieldProblem(d, f, today).Some?
    ensures forall f :: f in r ==> Some(r[f]) == FieldProblem(d, f, today)
  {
    map f | f in CheckedFields && FieldProblem(d, f, today).Some? :: FieldProblem(d, f, today).value
  }

  /** The result of submitting the form. */
  datatype SubmitOutcome =
    | Saved(data: FormData)       // the record handed to the caller
    | Rejected(state: FormState)  // the messages shown instead

  /** `handleSubmit`: the record is saved exactly when the validator finds
      nothing; otherwise the validator's messages replace the shown ones. */
  function HandleSubmit(st: FormState, today: Date): (r: SubmitOutcome)
    ensures r.Saved? <==> forall f :: FieldProblem(st.data, f, today).None?
    ensures r.Saved? ==> r.data == st.data
    ensures r.Rejected? ==> r.state.data == st.data && r.state.errors.Keys != {}
    ensures r.Rejected? ==> forall f :: f in r.state.errors <==> FieldProblem(st.data, f, today).Some?
  {
    var errors := Validate(st.data, today);
    if errors.Keys == {} then
      assert forall f :: f !in errors;
      Saved(st.data)
    else Rejected(st.(errors := errors))
  }

  /** A saved adult with a non-empty, parseable birth date was born no later
      than today, and has non-blank names. */
  lemma SavedFormIsComplete(st: FormState, today: Date)
    requires HandleSubmit(st, today).Saved?
    ensures !IsBlank(st.data.lastName) && !IsBlank(st.data.firstName) && st.data.birthDate != ""
    ensures ParseIsoDate(st.data.birthDate).Some? ==> !After(ParseIsoDate(st.data.birthDate).value, today)
  {
    assert FieldProblem(st.data, LastName, today).None?;
    assert FieldProblem(st.data, FirstName, today).None?;
    assert FieldProblem(st.data, BirthDate, today).None?;
  }

  /** Every certificate number this form accepts is accepted by the
      passenger page's case-insensitive format, with or without trimming. */
  lemma StrictCertificateIsAcceptedByPage(s: string)
    requires StrictCertificate(s)
    ensures PassengersPage.CertificateOk(s) && PassengersPage.CertificateOk(Trim(s))
  {
    CertificateStrictImpliesLoose(s);
    assert s[0] in "IVX" && IsDigit(s[|s| - 1]);
    TrimUntouched(s);
  }

  /** The converse fails: lower-case letters pass the page but not this form. */
  lemma LowerCaseCertificateOnlyOnPage()
    ensures PassengersPage.CertificateOk("iv-аб-123456") && !StrictCertificate("iv-аб-123456")
  {
    var s := "iv-аб-123456";
    assert !RomanLetterIVX(s[0]);
    assert AllDigits(s[|s| - 6..]);
  }

  /** A birth date that is no ISO date passes this form but not the page. */
  lemma UnparseableDateOnlyOnForm(d: FormData, p: Booking.Passenger, today: Date)
    requires d.birthDate == "31.12.1980" && p.birthDate == d.birthDate
    ensures FieldProblem(d, BirthDate, today).None?
    ensures PassengersPage.FieldProblem(p, PassengersPage.BirthDate, today) == Some(PassengersPage.InvalidDate)
  {
    assert ParseIsoDate(d.birthDate).None? by {
      assert d.birthDate[4] != '-';
    }
    assert !IsBlank(d.birthDate) by {
      assert !IsSpace(d.birthDate[0]);
    }
  }
}
