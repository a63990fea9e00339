/** The site part of the form: the address and history fields, written to
    the store when they lose focus, and the consignment-count stepper, whose
    buttons and text box all go through the form's `updateConsignments`. */
module MaterialDescription {
  import opened Common
  import opened Strings
  import opened FormTypes
  import FormUtils
  import opened MaterialDescriptionForm

  // ----- the stepper -----

  /** `parseInt(text) || 1`: `NaN` and `0` are falsy and become 1; any other
      parsed number is taken as it is. */
  function TypedCount(text: string): (r: int)
    ensures r != 0
    ensures ParseInt(text) == None ==> r == 1
    ensures ParseInt(text) == Some(0) ==> r == 1
    ensures ParseInt(text).Some? && ParseInt(text).value != 0 ==> r == ParseInt(text).value
  {
    match ParseInt(text)
    case None => 1
    case Some(n) => if n == 0 then 1 else n
  }

  /** What the user does to the count: press minus, press plus, or type. */
  datatype StepperEvent = Decrement | Increment | TypeCount(text: string)

  /** The value handed to `updateConsignments`. */
  function Requested(count: int, e: StepperEvent): int {
    match e
    case Decrement => count - 1
    case Increment => count + 1
    case TypeCount(text) => TypedCount(text)
  }

  /** The count after one event, once `updateConsignments` has clamped it. */
  function Step(count: int, e: StepperEvent): (r: int)
    ensures r >= 1
  {
    ClampCount(Requested(count, e))
  }

  /** The count after a sequence of events. */
  function Run(count: int, es: seq<StepperEvent>): int
    decreases |es|
  {
    if |es| == 0 then count else Run(Step(count, es[0]), es[1..])
  }

  /** Whatever the user does, the count never drops below one. */
  lemma {:induction false} StepperNeverBelowOne(count: int, es: seq<StepperEvent>)
    requires count >= 1
    ensures Run(count, es) >= 1
    decreases |es|
  {
    if |es| > 0 {
      StepperNeverBelowOne(Step(count, es[0]), es[1..]);
    }
  }

  /** Minus at one stays at one; plus then minus returns to where it was. */
  lemma StepperButtons(count: int)
    requires count >= 1
    ensures Step(1, Decrement) == 1
    ensures Step(count, Increment) == count + 1
    ensures Step(Step(count, Increment), Decrement) == count
  {
  }

  /** Typing a positive number, possibly followed by text that does not
      continue it, sets the count to that number: "12x" gives 12, as
      `TypedLeadingNumber(12, "x")` states. */
  lemma TypedLeadingNumber(n: nat, rest: string)
    requires n >= 1
    requires rest == "" || !IsDecimalDigit(rest[0])
    ensures TypedCount(NatText(n) + rest) == n
  {
    ParseLeadingNumber(n, rest);
  }

  /** Re-typing the displayed count leaves it as it is. */
  lemma RetypedCountUnchanged(count: nat)
    requires count >= 1
    ensures Step(count, TypeCount(NatText(count))) == count
  {
    TypedLeadingNumber(count, "");
    assert NatText(count) + "" == NatText(count);
  }

  /** A text that parses to 0 ("0", "-0", "00") is falsy: the count
      becomes 1. */
  lemma TypedZero(text: string)
    requires ParseInt(text) == Some(0)
    ensures TypedCount(text) == 1
  {
  }

  /** "0" is such a text. */
  lemma ZeroParsesToZero()
    ensures ParseInt("0") == Some(0)
  {
    ParseNatText(0);
    assert NatText(0) == "0";
  }

  /** A text that starts with a letter is not a number: the count becomes 1. */
  lemma TypedLetters(text: string)
    requires |text| > 0 && 'a' <= text[0] <= 'z'
    ensures TypedCount(text) == 1
  {
    ParseNonNumeric(text);
  }

  /** An emptied box sets the count to 1. */
  lemma TypedEmpty()
    ensures TypedCount("") == 1
  {
    assert DigitPrefix("", false) == "";
  }

  // ----- the handlers -----

  /** The minus button: `updateConsignments(consignments - 1)`. */
  method OnDecrement(form: FormController)
    requires form.Valid()
    modifies form, form.formDataRef
    ensures form.State() == old(form.State()).(consignments := Step(old(form.consignments), Decrement))
    ensures form.formDataRef.current == old(form.formDataRef.current).(expectedConsignments := form.consignments)
    ensures form.Valid()
  {
    form.UpdateConsignments(form.consignments - 1);
  }

  /** The plus button: `updateConsignments(consignments + 1)`. */
  method OnIncrement(form: FormController)
    requires form.Valid()
    modifies form, form.formDataRef
    ensures form.State() == old(form.State()).(consignments := Step(old(form.consignments), Increment))
    ensures form.formDataRef.current == old(form.formDataRef.current).(expectedConsignments := form.consignments)
    ensures form.Valid()
  {
    form.UpdateConsignments(form.consignments + 1);
  }

  /** Typing into the count box: `updateConsignments(parseInt(value) || 1)`. */
  method OnCountTyped(form: FormController, text: string)
    requires form.Valid()
    modifies form, form.formDataRef
    ensures form.State() == old(form.State()).(consignments := Step(old(form.consignments), TypeCount(text)))
    ensures form.formDataRef.current == old(form.formDataRef.current).(expectedConsignments := form.consignments)
    ensures form.Valid()
  {
    var n := ParseInt(text);
    var requested := if n == None || n == Some(0) then 1 else n.value;
    form.UpdateConsignments(requested);
  }

  /** The address field losing focus writes its text to the store. */
  method CommitSiteAddress(form: FormController, text: string)
    requires form.Valid()
    modifies form.formDataRef
    ensures form.formDataRef.current == old(form.formDataRef.current).(siteAddress := text)
    ensures form.Valid()
  {
    form.UpdateFormData(FormUtils.SetSiteAddress(text));
  }

  /** The history field losing focus writes its text to the store. */
  method CommitSiteHistory(form: FormController, text: string)
    requires form.Valid()
    modifies form.formDataRef
    ensures form.formDataRef.current == old(form.formDataRef.current).(siteHistory := text)
    ensures form.Valid()
  {
    form.UpdateFormData(FormUtils.SetSiteHistory(text));
  }
}
