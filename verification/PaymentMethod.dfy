/**
  The payment-method form: the live normalisation of the card number,
  expiry and CVV inputs, the card draft update that touches one field, the
  per-field error set with its clearing on edit, and the card validator.
 */
module PaymentMethod {
  import opened Text
  import opened Seqs
  import Booking

  /** The card inputs, named as in the form. */
  datatype CardField = Number | Expiry | Cvv | Holder

  /** `d.match(/.{1,4}/g).join(' ')` for a non-empty string without line
      breaks: blocks of four, the last one possibly shorter, joined by one
      space. */
  function Group4(d: string): (r: string)
    ensures |d| > 0 ==> |r| == |d| + (|d| - 1) / 4
    ensures |d| == 0 ==> r == ""
    decreases |d|
  {
    if |d| <= 4 then d else d[..4] + " " + Group4(d[4..])
  }

  /** The card-number formatter: the first 16 digits of the input in blocks
      of four. */
  function FormatCardNumber(value: string): (r: string)
    ensures |r| <= 19
    ensures RemoveSpaces(r) == Take(DigitsOf(value), 16)
    ensures DigitsOf(r) == Take(DigitsOf(value), 16)
  {
    var d := Take(DigitsOf(value), 16);
    Group4Content(d);
    if |d| > 0 then Group4(d) else d
  }

  /** Grouping only inserts spaces: removing them, or keeping only the
      digits, gives the digits back. */
  lemma {:induction false} Group4Content(d: string)
    requires AllDigits(d)
    ensures RemoveSpaces(Group4(d)) == d
    ensures DigitsOf(Group4(d)) == d
    decreases |d|
  {
    if |d| > 4 {
      Group4Content(d[4..]);
      assert AllDigits(d[..4]);
      JoinContent(d[..4], Group4(d[4..]));
      assert d[..4] + d[4..] == d;
    }
  }

  /** A block of digits, a space and the rest: the space is the only thing
      the two readings drop. */
  lemma JoinContent(head: string, rest: string)
    requires AllDigits(head)
    ensures RemoveSpaces(head + " " + rest) == head + RemoveSpaces(rest)
    ensures DigitsOf(head + " " + rest) == head + DigitsOf(rest)
  {
    JoinSpaces(head, rest);
    JoinDigits(head, rest);
  }

  lemma JoinSpaces(head: string, rest: string)
    requires AllDigits(head)
    ensures RemoveSpaces(head + " " + rest) == head + RemoveSpaces(rest)
  {
    var h := head + " ";
    assert RemoveSpaces(" ") == [];
    RemoveSpacesDigits(head);
    RemoveSpacesAppend(head, " ");
    assert RemoveSpaces(h) == head;
    RemoveSpacesAppend(h, rest);
  }

  lemma JoinDigits(head: string, rest: string)
    requires AllDigits(head)
    ensures DigitsOf(head + " " + rest) == head + DigitsOf(rest)
  {
    var h := head + " ";
    assert DigitsOf(" ") == [];
    DigitsOfAppend(head, " ");
    assert DigitsOf(h) == head;
    DigitsOfAppend(h, rest);
  }

  /** In a grouped number exactly every fifth character is a space. */
  lemma {:induction false} Group4Spaces(d: string)
    requires AllDigits(d)
    ensures forall i :: 0 <= i < |Group4(d)| ==> (Group4(d)[i] == ' ' <==> i % 5 == 4)
    decreases |d|
  {
    if |d| > 4 {
      var rest := Group4(d[4..]);
      Group4Spaces(d[4..]);
      var r := Group4(d);
      forall i | 0 <= i < |r| ensures r[i] == ' ' <==> i % 5 == 4 {
        if i >= 5 {
          assert r[i] == rest[i - 5];
        }
      }
    }
  }

  /** Formatting a formatted number changes nothing. */
  lemma FormatCardNumberIdempotent(value: string)
    ensures FormatCardNumber(FormatCardNumber(value)) == FormatCardNumber(value)
  {
    var d := Take(DigitsOf(value), 16);
    assert DigitsOf(FormatCardNumber(value)) == d;
    assert Take(d, 16) == d;
  }

  /** The expiry formatter: the first four digits, with `/` after the first
      two as soon as there are two. */
  function FormatExpiry(value: string): (r: string)
    ensures |r| <= 5
    ensures DigitsOf(r) == Take(DigitsOf(value), 4)
    ensures |Take(DigitsOf(value), 4)| >= 2 <==> |r| >= 3 && r[2] == '/'
    ensures |Take(DigitsOf(value), 4)| == 4 ==> ExpiryOk(r)
  {
    var d := Take(DigitsOf(value), 4);
    if |d| >= 2 then
      DigitsOfAppend(d[..2] + "/", d[2..]);
      DigitsOfAppend(d[..2], "/");
      assert DigitsOf("/") == [];
      assert d[..2] + d[2..] == d;
      d[..2] + "/" + d[2..]
    else d
  }

  /** Formatting a formatted expiry changes nothing. */
  lemma FormatExpiryIdempotent(value: string)
    ensures FormatExpiry(FormatExpiry(value)) == FormatExpiry(value)
  {
    var d := Take(DigitsOf(value), 4);
    assert DigitsOf(FormatExpiry(value)) == d;
    assert Take(d, 4) == d;
  }

  /** The CVV formatter: at most the first three digits. */
  function FormatCvv(value: string): (r: string)
    ensures |r| <= 3 && |r| <= |DigitsOf(value)| && AllDigits(r)
    ensures r == DigitsOf(value)[..|r|]
    ensures |DigitsOf(value)| >= 3 ==> |r| == 3
  {
    Take(DigitsOf(value), 3)
  }

  lemma FormatCvvIdempotent(value: string)
    ensures FormatCvv(FormatCvv(value)) == FormatCvv(value)
  {
  }

  /** The value an edit of `field` stores; the holder name is kept as typed. */
  function Formatted(field: CardField, value: string): string {
    match field
    case Number => FormatCardNumber(value)
    case Expiry => FormatExpiry(value)
    case Cvv => FormatCvv(value)
    case Holder => value
  }

  function FieldOf(c: Booking.CardData, field: CardField): string {
    match field
    case Number => c.number
    case Expiry => c.expiry
    case Cvv => c.cvv
    case Holder => c.holder
  }

  /** The form's state: the card draft and the fields whose error message
      is shown (a message cleared to the empty string is not shown). */
  datatype CardForm = CardForm(data: Booking.CardData, shownErrors: set<CardField>)

  /** `handleCardChange`: the edited field gets the formatted value, the other
      fields keep theirs, and only that field's error disappears. */
  function HandleCardChange(st: CardForm, field: CardField, value: string): (r: CardForm)
    ensures FieldOf(r.data, field) == Formatted(field, value)
    ensures forall g :: g != field ==> FieldOf(r.data, g) == FieldOf(st.data, g)
    ensures r.shownErrors == st.shownErrors - {field}
  {
    var c := st.data;
    var f := Formatted(field, value);
    var data := match field
      case Number => c.(number := f)
      case Expiry => c.(expiry := f)
      case Cvv => c.(cvv := f)
      case Holder => c.(holder := f);
    CardForm(data, st.shownErrors - {field})
  }

  /** `/^\d{2}\/\d{2}$/`. */
  predicate ExpiryOk(s: string) {
    |s| == 5 && IsDigit(s[0]) && IsDigit(s[1]) && s[2] == '/' && IsDigit(s[3]) && IsDigit(s[4])
  }

  /** The four card rules. The number counts characters once white space is
      removed; the CVV counts characters of any kind. */
  predicate FieldOk(c: Booking.CardData, field: CardField) {
    match field
    case Number => |RemoveSpaces(c.number)| == 16
    case Expiry => ExpiryOk(c.expiry)
    case Cvv => |c.cvv| == 3
    case Holder => !IsBlank(c.holder)
  }

  /** `validateCard`: the fields that fail their rule. */
  function ValidateCard(c: Booking.CardData): (r: set<CardField>)
    ensures forall f :: f in r <==> !FieldOk(c, f)
  {
    set f | f in {Number, Expiry, Cvv, Holder} && !FieldOk(c, f)
  }

  /** A draft whose fields came from the formatters passes the number, expiry
      and CVV rules once enough digits were typed. */
  lemma FormattedInputsValidate(number: string, expiry: string, cvv: string, holder: string)
    requires |DigitsOf(number)| >= 16 && |DigitsOf(expiry)| >= 4 && |DigitsOf(cvv)| >= 3
    ensures var c := Booking.CardData(FormatCardNumber(number), FormatExpiry(expiry), FormatCvv(cvv), holder);
      ValidateCard(c) <= {Holder} && (Holder in ValidateCard(c) <==> IsBlank(holder))
  {
  }

  /** `handleSubmit`: for the card method, a failed validation shows the
      errors; a passing one, or another method, leaves the shown errors. */
  function HandleSubmit(st: CardForm, selectedMethod: string): (r: CardForm)
    ensures r.data == st.data
    ensures selectedMethod == "card" && ValidateCard(st.data) != {} ==> r.shownErrors == ValidateCard(st.data)
    ensures selectedMethod != "card" || ValidateCard(st.data) == {} ==> r == st
  {
    if selectedMethod == "card" && ValidateCard(st.data) != {} then st.(shownErrors := ValidateCard(st.data)) else st
  }
}
