/** The card-payment form of PaymentForm.tsx: the four field checks, the
    validation that runs all of them, the submit guard, the field edits and the
    total to pay. */
module Payment {
  import opened Types
  import opened Text

  /** The service fee added to every consultation, in RWF. */
  const ProcessingFee := 5000

  const NumberError := "Nimero y'ikarita igomba kuba imibare 16."
  const NameError := "Izina rigomba kuba rifite byibuze inyuguti 3."
  const ExpiryError := "Itariki igomba kuba MM / YY (Urugero: 08 / 25)."
  const CvvError := "CVV igomba kuba imibare 3 cyangwa 4."

  datatype CardData = CardData(number: string, name: string, expiry: string, cvv: string)

  /** One message per field; "" where the field passed. */
  datatype Errors = Errors(number: string, name: string, expiry: string, cvv: string)

  /** The `id` of an input of the form. */
  datatype Field = Number | Name | Expiry | Cvv

  const EmptyCard := CardData("", "", "", "")
  const NoErrors := Errors("", "", "", "")

  predicate AllDigits(s: string) {
    forall i :: 0 <= i < |s| ==> IsDigit(s[i])
  }

  /** `/^\d{16}$/` on the number with every white-space character removed. */
  predicate ValidNumber(number: string) {
    var digits := RemoveSpaces(number);
    |digits| == 16 && AllDigits(digits)
  }

  /** At least three UTF-16 code units once trimmed. */
  predicate ValidName(name: string) {
    Utf16Length(Trim(name)) >= 3
  }

  /** `0[1-9]|1[0-2]`. */
  predicate ValidMonth(mm: string) {
    |mm| == 2 && ((mm[0] == '0' && '1' <= mm[1] <= '9') || (mm[0] == '1' && '0' <= mm[1] <= '2'))
  }

  /** `[2-9][0-9]`. */
  predicate ValidYear(yy: string) {
    |yy| == 2 && '2' <= yy[0] <= '9' && IsDigit(yy[1])
  }

  /** `\s*\/\s*`. */
  predicate SlashGap(m: string) {
    exists k :: 0 <= k < |m| && m[k] == '/' && IsBlank(m[..k]) && IsBlank(m[k + 1..])
  }

  /** `/^(0[1-9]|1[0-2])\s*\/\s*([2-9][0-9])$/` on the whole, untrimmed string. */
  predicate ValidExpiry(expiry: string) {
    |expiry| >= 5
    && ValidMonth(expiry[..2])
    && SlashGap(expiry[2..|expiry| - 2])
    && ValidYear(expiry[|expiry| - 2..])
  }

  /** `/^\d{3,4}$/`, with no white space removed. */
  predicate ValidCvv(cvv: string) {
    (|cvv| == 3 || |cvv| == 4) && AllDigits(cvv)
  }

  predicate ValidCard(card: CardData) {
    ValidNumber(card.number) && ValidName(card.name) && ValidExpiry(card.expiry) && ValidCvv(card.cvv)
  }

  /** The messages `validate` stores: each check sets its own message. */
  function ErrorsFor(card: CardData): Errors {
    Errors(
      if ValidNumber(card.number) then "" else NumberError,
      if ValidName(card.name) then "" else NameError,
      if ValidExpiry(card.expiry) then "" else ExpiryError,
      if ValidCvv(card.cvv) then "" else CvvError)
  }

  /** No message is shown exactly when the card passes all four checks, and each
      message is shown exactly when its own check fails. */
  lemma NoErrorsIffValid(card: CardData)
    ensures ErrorsFor(card) == NoErrors <==> ValidCard(card)
    ensures ErrorsFor(card).number != "" <==> !ValidNumber(card.number)
    ensures ErrorsFor(card).name != "" <==> !ValidName(card.name)
    ensures ErrorsFor(card).expiry != "" <==> !ValidExpiry(card.expiry)
    ensures ErrorsFor(card).cvv != "" <==> !ValidCvv(card.cvv)
  {
  }

  /** `RemoveSpaces` works piece by piece. */
  lemma {:induction false} RemoveSpacesAppend(a: string, b: string)
    ensures RemoveSpaces(a + b) == RemoveSpaces(a) + RemoveSpaces(b)
    decreases |a|
  {
    if a == [] {
      assert a + b == b;
    } else {
      assert (a + b)[0] == a[0];
      assert (a + b)[1..] == a[1..] + b;
      RemoveSpacesAppend(a[1..], b);
    }
  }

  lemma {:induction false} RemoveSpacesOfDigits(s: string)
    requires AllDigits(s)
    ensures RemoveSpaces(s) == s
    decreases |s|
  {
    if s != [] {
      RemoveSpacesOfDigits(s[1..]);
      assert s == [s[0]] + s[1..];
    }
  }

  lemma AllDigitsAppend(a: string, b: string)
    requires AllDigits(a) && AllDigits(b)
    ensures AllDigits(a + b)
  {
    assert forall i :: |a| <= i < |a + b| ==> (a + b)[i] == b[i - |a|];
  }

  /** Appending a group of digits after white space appends just the digits. */
  lemma AppendGroup(prefix: string, gap: string, group: string)
    requires IsBlank(gap) && AllDigits(group)
    ensures RemoveSpaces(prefix + gap + group) == RemoveSpaces(prefix) + group
  {
    BlankRemoved(gap);
    RemoveSpacesOfDigits(group);
    RemoveSpacesAppend(prefix, gap);
    RemoveSpacesAppend(prefix + gap, group);
  }

  /** A number typed in four groups of four digits separated by white space, as
      the placeholder suggests, is accepted. */
  lemma GroupedNumberIsValid(a: string, b: string, c: string, d: string, gap: string)
    requires |a| == 4 && |b| == 4 && |c| == 4 && |d| == 4
    requires AllDigits(a) && AllDigits(b) && AllDigits(c) && AllDigits(d) && IsBlank(gap)
    ensures ValidNumber(a + gap + b + gap + c + gap + d)
  {
    var s1 := a + gap + b;
    var s2 := s1 + gap + c;
    var s3 := s2 + gap + d;
    RemoveSpacesOfDigits(a);
    AppendGroup(a, gap, b);
    AppendGroup(s1, gap, c);
    AppendGroup(s2, gap, d);
    AllDigitsAppend(a, b);
    AllDigitsAppend(a + b, c);
    AllDigitsAppend(a + b + c, d);
    assert RemoveSpaces(s3) == a + b + c + d;
  }

  lemma BlankRemoved(gap: string)
    requires IsBlank(gap)
    ensures RemoveSpaces(gap) == ""
  {
    if gap != "" {
      assert !(gap[0] in RemoveSpaces(gap));
    }
  }

  /** A letter anywhere in the number rejects it. */
  lemma NonDigitRejectsNumber(number: string, i: int)
    requires 0 <= i < |number| && !IsDigit(number[i]) && !IsSpace(number[i])
    ensures !ValidNumber(number)
  {
    assert number[i] in number;
    assert number[i] in RemoveSpaces(number);
  }

  /** Every accepted expiry is a month, a '/' surrounded by optional white space,
      and a year from 20 to 99; so it neither starts nor ends with white space. */
  lemma ExpiryParts(expiry: string)
    requires ValidExpiry(expiry)
    ensures exists k ::
      2 <= k < |expiry| - 2 && expiry[k] == '/' && IsBlank(expiry[2..k]) && IsBlank(expiry[k + 1..|expiry| - 2])
    ensures 1 <= MonthOf(expiry) <= 12 && 20 <= YearOf(expiry) <= 99
    ensures !IsSpace(expiry[0]) && !IsSpace(expiry[|expiry| - 1])
  {
    var m := expiry[2..|expiry| - 2];
    var k :| 0 <= k < |m| && m[k] == '/' && IsBlank(m[..k]) && IsBlank(m[k + 1..]);
    assert expiry[2 + k] == '/';
    assert expiry[2..2 + k] == m[..k];
    assert expiry[2 + k + 1..|expiry| - 2] == m[k + 1..];
  }

  function DigitValue(c: char): int {
    c as int - '0' as int
  }

  function MonthOf(expiry: string): int
    requires |expiry| >= 2
  {
    10 * DigitValue(expiry[0]) + DigitValue(expiry[1])
  }

  function YearOf(expiry: string): int
    requires |expiry| >= 2
  {
    10 * DigitValue(expiry[|expiry| - 2]) + DigitValue(expiry[|expiry| - 1])
  }

  /** Two decimal digits, with a leading zero. */
  function TwoDigits(n: int): (s: string)
    requires 0 <= n < 100
    ensures |s| == 2 && AllDigits(s) && 10 * DigitValue(s[0]) + DigitValue(s[1]) == n
  {
    [('0' as int + n / 10) as char, ('0' as int + n % 10) as char]
  }

  /** Conversely, every month and year in range, written with any white space
      around the '/', is accepted. */
  lemma ExpiryOfParts(month: int, year: int, before: string, after: string)
    requires 1 <= month <= 12 && 20 <= year <= 99
    requires IsBlank(before) && IsBlank(after)
    ensures ValidExpiry(TwoDigits(month) + before + "/" + after + TwoDigits(year))
  {
    var mm, yy := TwoDigits(month), TwoDigits(year);
    var s := mm + before + "/" + after + yy;
    var m := s[2..|s| - 2];
    assert s[..2] == mm;
    assert s[|s| - 2..] == yy;
    assert m == before + "/" + after;
    assert m[|before|] == '/' && m[..|before|] == before && m[|before| + 1..] == after;
  }

  /** The example the error text gives is accepted. */
  lemma ExampleExpiry()
    ensures ValidExpiry("08 / 25")
  {
    ExpiryOfParts(8, 25, " ", " ");
    assert TwoDigits(8) + " " + "/" + " " + TwoDigits(25) == "08 / 25";
  }

  /** White space typed before a name does not count towards its three
      characters. */
  lemma NameIgnoresLeadingSpace(c: char, name: string)
    requires IsSpace(c)
    ensures ValidName([c] + name) <==> ValidName(name)
  {
    TrimDropsLeadingSpace(c, name);
  }

  /** Two emoji are four code units, so they make a long enough name, while two
      letters do not. */
  lemma NameCountsCodeUnits()
    ensures ValidName("\U{1F600}\U{1F600}")
    ensures !ValidName("ab")
  {
    var e := "\U{1F600}\U{1F600}";
    assert !IsSpace(e[0]) && !IsSpace(e[1]);
    assert Trim(e) == e;
    assert Utf16Length(e) == 2 + Utf16Length(e[1..]);
  }

  /** The amount charged: the doctor's fee plus the service fee; nothing is shown
      without a doctor. */
  function TotalAmount(doctor: Option<Doctor>): (total: Option<int>)
    ensures total.Some? <==> doctor.Some?
    ensures total.Some? ==> total.value - doctor.value.consultationFee == ProcessingFee
  {
    match doctor
    case None => None
    case Some(d) => Some(d.consultationFee + ProcessingFee)
  }

  /** `cardData[id]`. */
  function Get(card: CardData, field: Field): string {
    match field
    case Number => card.number
    case Name => card.name
    case Expiry => card.expiry
    case Cvv => card.cvv
  }

  /** `{ ...prev, [id]: value }`. */
  function Update(card: CardData, field: Field, value: string): (r: CardData)
    ensures Get(r, field) == value
  {
    match field
    case Number => card.(number := value)
    case Name => card.(name := value)
    case Expiry => card.(expiry := value)
    case Cvv => card.(cvv := value)
  }

  /** An edit changes the field it names and no other. */
  lemma UpdateOnlyNamedField(card: CardData, field: Field, value: string, other: Field)
    requires other != field
    ensures Get(Update(card, field, value), other) == Get(card, other)
  {
  }

  /** The form's state. */
  class PaymentForm {
    var cardData: CardData
    var errors: Errors
    var isProcessing: bool

    constructor()
      ensures cardData == EmptyCard && errors == NoErrors && !isProcessing
    {
      cardData, errors, isProcessing := EmptyCard, NoErrors, false;
    }

    /** `validate`: every check runs, each failure sets its own message and clears
        the result. */
    method Validate() returns (isValid: bool)
      modifies this`errors
      ensures errors == ErrorsFor(cardData)
      ensures isValid <==> ValidCard(cardData)
      ensures isValid <==> errors == NoErrors
    {
      var newErrors := NoErrors;
      isValid := true;
      if !ValidNumber(cardData.number) {
        newErrors := newErrors.(number := NumberError);
        isValid := false;
      }
      if !ValidName(cardData.name) {
        newErrors := newErrors.(name := NameError);
        isValid := false;
      }
      if !ValidExpiry(cardData.expiry) {
        newErrors := newErrors.(expiry := ExpiryError);
        isValid := false;
      }
      if !ValidCvv(cardData.cvv) {
        newErrors := newErrors.(cvv := CvvError);
        isValid := false;
      }
      errors := newErrors;
      NoErrorsIffValid(cardData);
    }

    /** `handleSubmit`: processing starts only when validation passes. */
    method HandleSubmit()
      modifies this`errors, this`isProcessing
      ensures errors == ErrorsFor(cardData)
      ensures isProcessing == (old(isProcessing) || ValidCard(cardData))
    {
      var ok := Validate();
      if !ok {
        return;
      }
      isProcessing := true;
    }

    /** The timer's callback, before it reports the payment to the app. */
    method ProcessingFinished()
      modifies this`isProcessing
      ensures !isProcessing
    {
      isProcessing := false;
    }

    /** `handleChange` for the input with id `field`. */
    method HandleChange(field: Field, value: string)
      modifies this`cardData
      ensures cardData == Update(old(cardData), field, value)
    {
      cardData := Update(cardData, field, value);
    }
  }
}
