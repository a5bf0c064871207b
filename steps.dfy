/** The wizard's three step validators (`validateDates`, `validatePersonalInfo`,
    `validatePayment` in reservas.js), with every page read turned into a parameter. */
module StepChecks {
  import opened Wrappers
  import opened Text
  import opened Rules
  import opened Masks

  /** Why a dates or payment step fails; the message each one shows is given beside it. */
  datatype StepError =
    | EmptyField          // no specific message
    | DateOrderViolation  // check-out must be after check-in
    | InvalidCardNumber
    | InvalidExpiryMonth
    | ExpiredCard
    | InvalidCvv

  // ----- step 1: dates -----

  /** `validateDates`. A date input is its day number, `None` when it is empty; `guests` is the select's value. */
  function DatesCheck(checkIn: Option<int>, checkOut: Option<int>, guests: string): (r: Option<StepError>)
    ensures r.None? <==> checkIn.Some? && checkOut.Some? && guests != [] && checkIn.value < checkOut.value
    ensures r == Some(DateOrderViolation) <==>
      checkIn.Some? && checkOut.Some? && guests != [] && checkOut.value <= checkIn.value
  {
    if checkIn.None? || checkOut.None? || guests == [] then Some(EmptyField)
    else if checkOut.value <= checkIn.value then Some(DateOrderViolation)
    else None
  }

  // ----- step 2: personal information -----

  datatype PersonalField = Nombre | Apellido | Email | Telefono

  /** The required fields, in the order the validator visits them. */
  const PersonalFields: seq<PersonalField> := [Nombre, Apellido, Email, Telefono]

  datatype PersonalInfo = PersonalInfo(nombre: string, apellido: string, email: string, telefono: string)

  function FieldValue(p: PersonalInfo, f: PersonalField): string {
    match f
    case Nombre => p.nombre
    case Apellido => p.apellido
    case Email => p.email
    case Telefono => p.telefono
  }

  /** One field: blank after trimming fails; a non-blank email must match the (untrimmed) email rule and a
      non-blank phone must hold at least ten digits. */
  function PersonalFieldCheck(f: PersonalField, v: string): Option<FieldError> {
    if Trim(v) == [] then Some(MissingValue)
    else if f == Email && !IsEmail(v) then Some(InvalidEmail)
    else if f == Telefono && |Digits(v)| < 10 then Some(InvalidPhone)
    else None
  }

  predicate PersonalInfoValid(p: PersonalInfo) {
    forall i | 0 <= i < |PersonalFields| :: PersonalFieldCheck(PersonalFields[i], FieldValue(p, PersonalFields[i])).None?
  }

  /** The step passes iff all four fields are non-blank, the email has the `a@b.c` shape and the phone has ten digits or more. */
  lemma PersonalInfoValidIff(p: PersonalInfo)
    ensures PersonalInfoValid(p) <==>
      && !IsBlank(p.nombre) && !IsBlank(p.apellido) && !IsBlank(p.email) && !IsBlank(p.telefono)
      && EmailShape(p.email)
      && |Digits(p.telefono)| >= 10
  {
    PersonalInfoValidFields(p);
    TrimBlank(p.nombre);
    TrimBlank(p.apellido);
    TrimBlank(p.email);
    TrimBlank(p.telefono);
    EmailRuleMatchesRegex(p.email);
  }

  lemma PersonalInfoValidFields(p: PersonalInfo)
    ensures PersonalInfoValid(p) <==>
      && PersonalFieldCheck(Nombre, p.nombre).None? && PersonalFieldCheck(Apellido, p.apellido).None?
      && PersonalFieldCheck(Email, p.email).None? && PersonalFieldCheck(Telefono, p.telefono).None?
  {
    assert PersonalFields[0] == Nombre && PersonalFields[1] == Apellido;
    assert PersonalFields[2] == Email && PersonalFields[3] == Telefono;
  }

  /** `validatePersonalInfo`: visits every field (no early exit), records the
      annotation each receives, and passes iff none received one. */
  method ValidatePersonalInfo(p: PersonalInfo) returns (valid: bool, marks: seq<Option<FieldError>>)
    ensures |marks| == |PersonalFields|
    ensures forall i | 0 <= i < |marks| :: marks[i] == PersonalFieldCheck(PersonalFields[i], FieldValue(p, PersonalFields[i]))
    ensures valid == PersonalInfoValid(p)
  {
    valid, marks := true, [];
    var i := 0;
    while i < |PersonalFields|
      invariant 0 <= i <= |PersonalFields|
      invariant |marks| == i
      invariant forall j | 0 <= j < i :: marks[j] == PersonalFieldCheck(PersonalFields[j], FieldValue(p, PersonalFields[j]))
      invariant valid <==> forall j | 0 <= j < i :: marks[j].None?
    {
      var f := PersonalFields[i];
      var mark := PersonalFieldCheck(f, FieldValue(p, f));
      if mark.Some? {
        valid := false;
      }
      marks := marks + [mark];
      i := i + 1;
    }
  }

  // ----- step 3: payment -----

  /** The clock's reading: `getFullYear() % 100` and `getMonth() + 1`. */
  datatype Today = Today(year: int, month: int)

  /** `const [month, year] = e.split('/')`: the text before the first `/`, and the text between it and the
      next `/` (`None`, that is `undefined`, when there is no `/`). */
  function SplitExpiry(e: string): (parts: (string, Option<string>))
    ensures parts.1.None? <==> '/' !in e
  {
    var k := IndexOf(e, '/');
    if k == |e| then (e, None)
    else
      var rest := e[k + 1..];
      (e[..k], Some(rest[..IndexOf(rest, '/')]))
  }

  /** Comparisons with a `parseInt` result: every comparison with NaN is false. */
  predicate NumLess(a: Option<int>, b: int) { a.Some? && a.value < b }
  predicate NumGreater(a: Option<int>, b: int) { a.Some? && a.value > b }
  predicate NumEquals(a: Option<int>, b: int) { a.Some? && a.value == b }

  /** The expiry part of `validatePayment`: the month must not be below 1 or above 12, then (year, month)
      must not be before today. A month or year that is NaN passes both comparisons. */
  function ExpiryCheck(expiry: string, now: Today): (r: Option<StepError>)
    ensures r.None? || r == Some(InvalidExpiryMonth) || r == Some(ExpiredCard)
  {
    var (m, y) := SplitExpiry(expiry);
    var month := ParseInt(m);
    var year := if y.Some? then ParseInt(y.value) else None;
    if NumLess(month, 1) || NumGreater(month, 12) then Some(InvalidExpiryMonth)
    else if NumLess(year, now.year) || (NumEquals(year, now.year) && NumLess(month, now.month)) then Some(ExpiredCard)
    else None
  }

  /** `validatePayment`: the checks run in this order and the first that fails decides the result. */
  function PaymentCheck(cardNumber: string, expiry: string, cvv: string, now: Today): (r: Option<StepError>)
    ensures r == Some(EmptyField) <==> RemoveSpace(cardNumber) == [] || expiry == [] || cvv == []
    ensures r.None? <==>
      && RemoveSpace(cardNumber) != [] && expiry != [] && cvv != []
      && 15 <= Utf16Length(RemoveSpace(cardNumber)) <= 19
      && ExpiryCheck(expiry, now).None?
      && 3 <= Utf16Length(cvv) <= 4
    ensures r == Some(InvalidCardNumber) <==>
      && RemoveSpace(cardNumber) != [] && expiry != [] && cvv != []
      && !(15 <= Utf16Length(RemoveSpace(cardNumber)) <= 19)
    ensures r == Some(InvalidCvv) <==>
      && RemoveSpace(cardNumber) != [] && expiry != [] && cvv != []
      && 15 <= Utf16Length(RemoveSpace(cardNumber)) <= 19
      && ExpiryCheck(expiry, now).None?
      && !(3 <= Utf16Length(cvv) <= 4)
    ensures r.Some? && r.value in {InvalidExpiryMonth, ExpiredCard} ==> r == ExpiryCheck(expiry, now)
  {
    var card := RemoveSpace(cardNumber);
    if card == [] || expiry == [] || cvv == [] then Some(EmptyField)
    else if Utf16Length(card) < 15 || Utf16Length(card) > 19 then Some(InvalidCardNumber)
    else if ExpiryCheck(expiry, now).Some? then ExpiryCheck(expiry, now)
    else if Utf16Length(cvv) < 3 || Utf16Length(cvv) > 4 then Some(InvalidCvv)
    else None
  }

  lemma {:induction false} FilterAgree(k1: char -> bool, k2: char -> bool, s: string)
    requires forall i | 0 <= i < |s| :: k1(s[i]) == k2(s[i])
    ensures Filter(k1, s) == Filter(k2, s)
  {
    if s != [] {
      FilterAgree(k1, k2, s[1..]);
    }
  }

  /** Removing whitespace from a masked card number gives back the digits the mask kept. */
  lemma MaskedCardDigits(c: string)
    ensures RemoveSpace(CardMask(c)) == Take(Digits(c), 16)
  {
    var r := CardMask(c);
    CardMaskLayout(c);
    CardMaskDigits(c);
    forall i | 0 <= i < |r| ensures NotSpace(r[i]) == IsDigit(r[i]) {
    }
    FilterAgree(NotSpace, IsDigit, r);
  }

  /** A complete masked expiry `MM/YY` splits into its two digit pairs. */
  lemma MaskedExpirySplit(e: string)
    requires |Digits(e)| >= 4
    ensures var v := Digits(e); SplitExpiry(ExpiryMask(e)) == (v[..2], Some(v[2..4]))
  {
    var v := Digits(e);
    var x := ExpiryMask(e);
    assert Take(v[2..], 2) == v[2..4];
    assert x == v[..2] + "/" + v[2..4];
    assert x[..2] == v[..2];
    IndexOfAt(x, '/', 2);
    assert x[3..] == v[2..4];
    IndexOfAt(v[2..4], '/', 2);
    assert v[2..4][..2] == v[2..4];
  }

  /** A complete masked expiry is judged on its two digit pairs as numbers. */
  lemma MaskedExpiryCheck(e: string, now: Today)
    requires |Digits(e)| >= 4
    ensures var mm := ValueOf(Digits(e)[..2], 10) as int; var yy := ValueOf(Digits(e)[2..4], 10) as int;
      ExpiryCheck(ExpiryMask(e), now).None? <==>
        1 <= mm <= 12 && !(yy < now.year || (yy == now.year && mm < now.month))
  {
    var d := Digits(e);
    MaskedExpirySplit(e);
    ParseIntDecimal(d[..2]);
    ParseIntDecimal(d[2..4]);
    ExpiryCheckOfNumbers(ExpiryMask(e), now, ValueOf(d[..2], 10), ValueOf(d[2..4], 10));
  }

  /** When both parts of the expiry parse to numbers, the check is a plain comparison of (year, month) with today. */
  lemma ExpiryCheckOfNumbers(e: string, now: Today, mm: int, yy: int)
    requires SplitExpiry(e).1.Some?
    requires ParseInt(SplitExpiry(e).0) == Some(mm) && ParseInt(SplitExpiry(e).1.value) == Some(yy)
    ensures ExpiryCheck(e, now).None? <==> 1 <= mm <= 12 && !(yy < now.year || (yy == now.year && mm < now.month))
  {
  }

  /** With every field filled through its mask and a complete expiry, the payment step passes iff the card has
      15 or more digits, the month is 1 to 12, (year, month) is not before today, and the CVV has 3 or 4 digits. */
  lemma MaskedPaymentCheck(c: string, e: string, v: string, now: Today)
    requires |Digits(e)| >= 4
    ensures var mm := ValueOf(Digits(e)[..2], 10) as int; var yy := ValueOf(Digits(e)[2..4], 10) as int;
      PaymentCheck(CardMask(c), ExpiryMask(e), CvvMask(v), now).None? <==>
        && 15 <= |Digits(c)|
        && 1 <= mm <= 12
        && !(yy < now.year || (yy == now.year && mm < now.month))
        && 3 <= |Digits(v)|
  {
    var card := Take(Digits(c), 16);
    MaskedCardDigits(c);
    Utf16LengthOfDigits(card);
    assert Utf16Length(RemoveSpace(CardMask(c))) == |card|;
    MaskedExpiryCheck(e, now);
    var cvv := CvvMask(v);
    Utf16LengthOfDigits(cvv);
    assert ExpiryMask(e) != [];
  }

  /** A masked card of 15 or 16 digits and a masked CVV of 3 or 4 digits leave the expiry to decide. */
  lemma MaskedCardAndCvvPass(c: string, e: string, v: string, now: Today)
    requires 15 <= |Digits(c)| && 3 <= |Digits(v)|
    requires e != [] && ExpiryCheck(e, now).None?
    ensures PaymentCheck(CardMask(c), e, CvvMask(v), now).None?
  {
    MaskedCardDigits(c);
    Utf16LengthOfDigits(Take(Digits(c), 16));
    Utf16LengthOfDigits(CvvMask(v));
  }

  /** An expiry of month digits only, as the mask shows before the second digit, has no year: the year is NaN
      (`undefined`), compares false, and the check passes for any month from 1 to 12 whatever today is. */
  lemma MonthOnlyExpiryPasses(d: string, now: Today)
    requires d != [] && AllDigits(d) && 1 <= ValueOf(d, 10) <= 12
    ensures ExpiryCheck(d, now).None?
  {
    ParseIntDecimal(d);
    IndexOfAt(d, '/', |d|);
  }

  /** An expiry `MM/` with nothing after the slash, as the mask shows after two digits, has an empty year,
      which is NaN too. */
  lemma EmptyYearExpiryPasses(d: string, now: Today)
    requires d != [] && AllDigits(d) && 1 <= ValueOf(d, 10) <= 12
    ensures ExpiryCheck(d + "/", now).None?
  {
    var x := d + "/";
    IndexOfAt(x, '/', |d|);
    assert x[..|d|] == d;
    assert x[|d| + 1..] == [];
    ParseIntDecimal(d);
    assert SplitExpiry(x) == (d, Some([]));
  }

  /** The mask's first keystroke `1` passes the expiry check. */
  lemma OneDigitExpiryPasses(now: Today)
    ensures ExpiryCheck("1", now).None?
  {
    MonthOnlyExpiryPasses("1", now);
  }

  /** The mask's `12/` passes the expiry check. */
  lemma TwoDigitExpiryPasses(now: Today)
    ensures ExpiryCheck("12/", now).None?
  {
    assert ValueOf("12", 10) == 12 by {
      assert "12"[..1] == "1";
    }
    EmptyYearExpiryPasses("12", now);
    assert "12" + "/" == "12/";
  }

  /** So an incomplete expiry slips through: with a valid card and CVV the payment step passes. */
  lemma IncompleteExpiryAccepted(c: string, v: string, now: Today)
    requires 15 <= |Digits(c)| && 3 <= |Digits(v)|
    ensures PaymentCheck(CardMask(c), "1", CvvMask(v), now).None?
    ensures PaymentCheck(CardMask(c), "12/", CvvMask(v), now).None?
  {
    OneDigitExpiryPasses(now);
    TwoDigitExpiryPasses(now);
    MaskedCardAndCvvPass(c, "1", v, now);
    MaskedCardAndCvvPass(c, "12/", v, now);
  }

  /** A masked card number of fewer than 15 digits, such as `4111 1111 1111`, is rejected for its length
      before the expiry and the CVV are looked at. */
  lemma ShortCardRejected(c: string, expiry: string, cvv: string, now: Today)
    requires 0 < |Digits(c)| < 15 && expiry != [] && cvv != []
    ensures PaymentCheck(CardMask(c), expiry, cvv, now) == Some(InvalidCardNumber)
  {
    MaskedCardDigits(c);
    Utf16LengthOfDigits(Take(Digits(c), 16));
  }
}
