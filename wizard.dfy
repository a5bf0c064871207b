/** The reservation wizard of reservas.js (`ReservationForm`): three steps
    (dates, personal information, payment) gated by validation, the data
    record it accumulates and mirrors into session storage, its price
    calculation, the step indicator, and the date pickers' check-in listener. */
module Wizard {
  import opened Wrappers
  import opened Text
  import opened Rules
  import opened StepChecks
  import opened Pricing

  const TotalSteps: int := 3

  // ----- step indicator and sections -----

  /** The classes `updateStepDisplay` leaves on one step indicator. */
  datatype StepMark = Pending | Active | Completed

  function StepMarkFor(stepNumber: int, current: int): StepMark {
    if stepNumber == current then Active else if stepNumber < current then Completed else Pending
  }

  /** The marks of the first `n` indicators (indicator `i` is step `i + 1`). */
  function StepIndicators(n: nat, current: int): (r: seq<StepMark>)
    ensures |r| == n
  {
    if n == 0 then [] else StepIndicators(n - 1, current) + [StepMarkFor(n, current)]
  }

  /** Whether each of the first `n` sections is displayed. */
  function SectionsShown(n: nat, current: int): (r: seq<bool>)
    ensures |r| == n
  {
    if n == 0 then [] else SectionsShown(n - 1, current) + [n == current]
  }

  /** Indicator `i` is active iff it is the current step, completed iff it comes before it; its section is shown iff it is the current step. */
  lemma {:induction false} StepDisplayAt(n: nat, current: int, i: nat)
    requires i < n
    ensures StepIndicators(n, current)[i] == Active <==> i + 1 == current
    ensures StepIndicators(n, current)[i] == Completed <==> i + 1 < current
    ensures SectionsShown(n, current)[i] <==> i + 1 == current
  {
    if i < n - 1 {
      StepDisplayAt(n - 1, current, i);
    }
  }

  lemma {:induction false} ActiveCount(n: nat, current: int)
    ensures multiset(StepIndicators(n, current))[Active] == (if 1 <= current <= n then 1 else 0)
  {
    if n > 0 {
      ActiveCount(n - 1, current);
      assert multiset(StepIndicators(n, current)) == multiset(StepIndicators(n - 1, current)) + multiset{StepMarkFor(n, current)};
    }
  }

  lemma {:induction false} CompletedCount(n: nat, current: int)
    requires current >= 1
    ensures multiset(StepIndicators(n, current))[Completed] == (if current - 1 <= n then current - 1 else n)
  {
    if n > 0 {
      CompletedCount(n - 1, current);
      assert multiset(StepIndicators(n, current)) == multiset(StepIndicators(n - 1, current)) + multiset{StepMarkFor(n, current)};
    }
  }

  lemma {:induction false} ShownCount(n: nat, current: int)
    ensures multiset(SectionsShown(n, current))[true] == (if 1 <= current <= n then 1 else 0)
  {
    if n > 0 {
      ShownCount(n - 1, current);
      assert multiset(SectionsShown(n, current)) == multiset(SectionsShown(n - 1, current)) + multiset{n == current};
    }
  }

  /** On `n` indicators with the current step within them, one is active and one section is shown; `min(n, current - 1)` are completed. */
  lemma StepDisplayCounts(n: nat, current: int)
    requires current >= 1
    ensures multiset(StepIndicators(n, current))[Active] == (if current <= n then 1 else 0)
    ensures multiset(StepIndicators(n, current))[Completed] == (if current - 1 <= n then current - 1 else n)
    ensures multiset(SectionsShown(n, current))[true] == (if current <= n then 1 else 0)
  {
    ActiveCount(n, current);
    CompletedCount(n, current);
    ShownCount(n, current);
  }

  /** On a page with the three indicators and sections, there is exactly one active step and one visible
      section, and `current - 1` completed steps. */
  lemma StepDisplayWellFormed(current: int)
    requires 1 <= current <= TotalSteps
    ensures multiset(StepIndicators(TotalSteps, current))[Active] == 1
    ensures multiset(StepIndicators(TotalSteps, current))[Completed] == current - 1
    ensures multiset(SectionsShown(TotalSteps, current))[true] == 1
  {
    StepDisplayCounts(TotalSteps, current);
  }

  // ----- the page and the record the wizard keeps -----

  /** The values of the wizard's inputs when a handler runs; a date input is its day number, `None` when empty. */
  datatype Page = Page(
    checkIn: Option<int>, checkOut: Option<int>, guests: string,
    nombre: string, apellido: string, email: string, telefono: string, notas: string,
    cardNumber: string, cardExpiry: string, cardCvv: string)

  /** A value of `formData`. */
  datatype Value = TextValue(text: string) | DateValue(day: Option<int>) | NumberValue(number: real)

  function PersonalInfoOf(p: Page): PersonalInfo {
    PersonalInfo(p.nombre, p.apellido, p.email, p.telefono)
  }

  /** `validateCurrentStep`: the validator of the given step; any other step number passes. */
  predicate StepValid(step: int, p: Page, now: Today) {
    if step == 1 then DatesCheck(p.checkIn, p.checkOut, p.guests).None?
    else if step == 2 then PersonalInfoValid(PersonalInfoOf(p))
    else if step == 3 then PaymentCheck(p.cardNumber, p.cardExpiry, p.cardCvv, now).None?
    else true
  }

  /** The keys `saveStepData` writes at each step. */
  function StepKeys(step: int): set<string> {
    if step == 1 then {"checkIn", "checkOut", "guests"}
    else if step == 2 then {"nombre", "apellido", "email", "telefono", "notas"}
    else if step == 3 then {"cardNumber", "cardExpiry", "cardCvv"}
    else {}
  }

  /** What `saveStepData` writes at each step: exactly that step's keys, read from the page. The card number is stored as typed, spaces included. */
  function StepValues(step: int, p: Page): (m: map<string, Value>)
    ensures m.Keys == StepKeys(step)
  {
    if step == 1 then
      map["checkIn" := DateValue(p.checkIn), "checkOut" := DateValue(p.checkOut), "guests" := TextValue(p.guests)]
    else if step == 2 then
      map["nombre" := TextValue(p.nombre), "apellido" := TextValue(p.apellido), "email" := TextValue(p.email),
          "telefono" := TextValue(p.telefono), "notas" := TextValue(p.notas)]
    else if step == 3 then
      map["cardNumber" := TextValue(p.cardNumber), "cardExpiry" := TextValue(p.cardExpiry), "cardCvv" := TextValue(p.cardCvv)]
    else map[]
  }

  /** The four entries `calculatePrice` writes. */
  function PriceValues(q: Quote): (m: map<string, Value>)
    ensures m.Keys == {"nights", "subtotal", "taxes", "total"}
  {
    map["nights" := NumberValue(q.nights as real), "subtotal" := NumberValue(q.subtotal),
        "taxes" := NumberValue(q.taxes), "total" := NumberValue(q.total)]
  }

  /** The step keys and the price keys never overlap, so a price calculation never overwrites entered data. */
  lemma PriceKeysAreNotStepKeys(step: int)
    ensures StepKeys(step) !! {"nights", "subtotal", "taxes", "total"}
  {
  }

  class ReservationForm {
    var currentStep: int
    var formData: map<string, Value>
    /** The session store's `reservationData` entry. */
    var session: Option<map<string, Value>>
    /** Set once the last step has been submitted. */
    var submitted: bool

    ghost predicate Valid()
      reads this
    {
      1 <= currentStep <= TotalSteps
    }

    /** The constructor: step 1, nothing recorded; the session store is whatever an earlier page left. */
    constructor (saved: Option<map<string, Value>>)
      ensures Valid()
      ensures currentStep == 1 && formData == map[] && session == saved && !submitted
    {
      currentStep := 1;
      formData := map[];
      session := saved;
      submitted := false;
    }

    /** The page-load restore: a saved record replaces `formData`. */
    method RestoreSaved()
      requires Valid()
      modifies this`formData
      ensures Valid()
      ensures formData == old(session).GetOr(old(formData))
    {
      if session.Some? {
        formData := session.value;
      }
    }

    method ValidateCurrentStep(p: Page, now: Today) returns (valid: bool)
      ensures valid == StepValid(currentStep, p, now)
    {
      valid := true;
      if currentStep == 1 {
        valid := DatesCheck(p.checkIn, p.checkOut, p.guests).None?;
      } else if currentStep == 2 {
        var marks;
        valid, marks := ValidatePersonalInfo(PersonalInfoOf(p));
      } else if currentStep == 3 {
        valid := PaymentCheck(p.cardNumber, p.cardExpiry, p.cardCvv, now).None?;
      }
    }

    /** `saveStepData`: writes the current step's keys and nothing else, then mirrors the record into the session store. */
    method SaveStepData(p: Page)
      modifies this`formData, this`session
      ensures formData == old(formData) + StepValues(currentStep, p)
      ensures old(formData).Keys <= formData.Keys
      ensures forall k | k in old(formData) && k !in StepKeys(currentStep) :: formData[k] == old(formData)[k]
      ensures session == Some(formData)
    {
      formData := formData + StepValues(currentStep, p);
      session := Some(formData);
    }

    /** `nextStep`: on a failed validation nothing changes; otherwise the step's data is saved and the wizard
        moves one step forward, or, at the last step, stays there and submits. */
    method NextStep(p: Page, now: Today) returns (advanced: bool)
      requires Valid()
      modifies this
      ensures Valid()
      ensures advanced == StepValid(old(currentStep), p, now)
      ensures !advanced ==> currentStep == old(currentStep) && formData == old(formData) &&
                            session == old(session) && submitted == old(submitted)
      ensures advanced ==> formData == old(formData) + StepValues(old(currentStep), p) && session == Some(formData)
      ensures advanced ==> currentStep == (if old(currentStep) < TotalSteps then old(currentStep) + 1 else TotalSteps)
      ensures advanced ==> submitted == (old(submitted) || old(currentStep) == TotalSteps)
    {
      advanced := ValidateCurrentStep(p, now);
      if advanced {
        SaveStepData(p);
        if currentStep < TotalSteps {
          currentStep := currentStep + 1;
        } else {
          submitted := true;
        }
      }
    }

    /** `prevStep`: one step back, except at the first step; no validation, nothing saved. */
    method PrevStep()
      requires Valid()
      modifies this`currentStep
      ensures Valid()
      ensures currentStep == if old(currentStep) > 1 then old(currentStep) - 1 else 1
    {
      if currentStep > 1 {
        currentStep := currentStep - 1;
      }
    }

    /** `calculatePrice`: with a quote, records its four amounts; with a missing date or no night, leaves `formData` as it was. */
    method CalculatePrice(checkIn: Option<int>, checkOut: Option<int>, parsedPrice: Option<real>)
      modifies this`formData
      ensures var q := StayQuote(WizardUnitPrice(parsedPrice), checkIn, checkOut);
        formData == if q.Some? then old(formData) + PriceValues(q.value) else old(formData)
    {
      var price := WizardUnitPrice(parsedPrice);
      var q := StayQuote(price, checkIn, checkOut);
      if q.Some? {
        formData := formData + PriceValues(q.value);
      }
    }
  }

  // ----- the date pickers -----

  /** The check-out date the check-in listener leaves: an empty check-out stays empty (an invalid date compares
      false), one not after check-in moves to the day after it, and a later one is kept. */
  function CorrectedCheckOut(checkIn: int, checkOut: Option<int>): (r: Option<int>)
    ensures r.Some? <==> checkOut.Some?
    ensures r.Some? ==> r.value > checkIn && r.value >= checkOut.value
    ensures checkOut.Some? && checkOut.value > checkIn ==> r == checkOut
    ensures r.Some? && r != checkOut ==> r.value == checkIn + 1
  {
    if checkOut.Some? && checkOut.value <= checkIn then Some(checkIn + 1) else checkOut
  }

  /** After the listener has run, a set check-out date always leaves at least one night to price. */
  lemma CorrectedStayIsPriced(price: real, checkIn: int, checkOut: int)
    ensures StayQuote(price, Some(checkIn), CorrectedCheckOut(checkIn, Some(checkOut))).Some?
    ensures StayQuote(price, Some(checkIn), CorrectedCheckOut(checkIn, Some(checkOut))).value.nights >= 1
  {
  }

  /** The two date inputs, with their `min` attributes. */
  class DateInputs {
    var checkIn: Option<int>
    var checkOut: Option<int>
    var checkInMin: Option<int>
    var checkOutMin: Option<int>

    /** `setupDatePickers`: check-in defaults to today and check-out to tomorrow, each also its minimum. */
    constructor (today: int)
      ensures checkIn == Some(today) && checkInMin == Some(today)
      ensures checkOut == Some(today + 1) && checkOutMin == Some(today + 1)
    {
      checkIn, checkInMin := Some(today), Some(today);
      checkOut, checkOutMin := Some(today + 1), Some(today + 1);
    }

    /** The check-in `change` listener. An empty check-in is an invalid date whose `toISOString` throws, so
        nothing changes; otherwise check-out's minimum becomes the next day and check-out is corrected. */
    method OnCheckInChange()
      modifies this`checkOut, this`checkOutMin
      ensures old(checkIn).None? ==> checkOut == old(checkOut) && checkOutMin == old(checkOutMin)
      ensures old(checkIn).Some? ==> checkOutMin == Some(checkIn.value + 1)
      ensures old(checkIn).Some? ==> checkOut == CorrectedCheckOut(checkIn.value, old(checkOut))
    {
      if checkIn.Some? {
        checkOutMin := Some(checkIn.value + 1);
        checkOut := CorrectedCheckOut(checkIn.value, checkOut);
      }
    }
  }

  // ----- the guests selector -----

  /** What `updateGuestsUI` shows: the count text (`None` renders as NaN) and whether the additional-guests block is displayed. */
  datatype GuestsView = GuestsView(count: Option<int>, additionalShown: bool)

  function GuestsUI(guestCount: Option<int>): (v: GuestsView)
    ensures v.count == guestCount
    ensures v.additionalShown <==> NumGreater(guestCount, 1)
  {
    GuestsView(guestCount, guestCount.Some? && guestCount.value > 1)
  }

  /** The guests `change` listener as written: it is bound to the form, so `this.value` is the form's own
      (absent) `value` property and the selection is never read. */
  function GuestsChangedAsWritten(selected: string): GuestsView {
    GuestsUI(ParseInt("undefined"))
  }

  /** Whatever is selected, the listener as written shows NaN and hides the additional-guests block. */
  lemma GuestsChangedAsWrittenIgnoresSelection(selected: string)
    ensures GuestsChangedAsWritten(selected) == GuestsView(None, false)
  {
    ParseIntNoDigits("undefined");
  }

  /** The listener as intended: parse the selected value. */
  function GuestsChanged(selected: string): GuestsView {
    GuestsUI(ParseInt(selected))
  }

  /** As intended, a selection of more than one guest shows the additional-guests block and the count. */
  lemma GuestsChangedShowsSelection(selected: string)
    requires selected != [] && AllDigits(selected)
    ensures GuestsChanged(selected).count == Some(ValueOf(selected, 10) as int)
    ensures GuestsChanged(selected).additionalShown <==> ValueOf(selected, 10) > 1
  {
    ParseIntDecimal(selected);
  }

  /** Selecting two guests: the intended listener shows the block, the written one does not. */
  lemma GuestsListenerDiscrepancy()
    ensures GuestsChanged("2").additionalShown
    ensures !GuestsChangedAsWritten("2").additionalShown
  {
    GuestsChangedShowsSelection("2");
    GuestsChangedAsWrittenIgnoresSelection("2");
  }
}
