/** The order form (`order/OrderForm.tsx`): the order record, the field
    validation and its messages, the two input handlers, the price summary
    in integer cents, and the guards of the submit handler. Payment itself,
    the timers and the notifications are outside the model. */
module OrderForm {
  import opened Common
  import JsString

  datatype OrderDetails = OrderDetails(
    venueName: string,
    email: string,
    phone: string,
    address: string,
    city: string,
    zipCode: string,
    tableNumbers: string,
    quantity: int)

  const InitialDetails := OrderDetails("", "", "", "", "", "", "", 1)

  /** The keys of the order record, named as in the source. */
  datatype Field = venueName | email | phone | address | city | zipCode | tableNumbers | quantity

  /** `Partial<OrderDetails>` as used for errors: a message per field. */
  type Errors = map<Field, string>

  predicate IsTextField(f: Field) {
    f != quantity
  }

  /** The text held by a text field. */
  function TextOf(d: OrderDetails, f: Field): string
    requires IsTextField(f)
  {
    match f
    case venueName => d.venueName
    case email => d.email
    case phone => d.phone
    case address => d.address
    case city => d.city
    case zipCode => d.zipCode
    case tableNumbers => d.tableNumbers
  }

  /** `{ ...prev, [name]: value }` for a text field. */
  function WithText(d: OrderDetails, f: Field, value: string): (r: OrderDetails)
    requires IsTextField(f)
    ensures TextOf(r, f) == value && r.quantity == d.quantity
    ensures forall g | IsTextField(g) && g != f :: TextOf(r, g) == TextOf(d, g)
  {
    match f
    case venueName => d.(venueName := value)
    case email => d.(email := value)
    case phone => d.(phone := value)
    case address => d.(address := value)
    case city => d.(city := value)
    case zipCode => d.(zipCode := value)
    case tableNumbers => d.(tableNumbers := value)
  }

  // ---------------------------------------------------------------------------
  // The e-mail pattern /\S+@\S+\.\S+/
  // ---------------------------------------------------------------------------

  /** The pattern matches with '@' at `at` and the escaped '.' at `dot`: a
      non-space before the '@', only non-spaces between the two (at least
      one), and a non-space after the '.'. Longer `\S+` runs contain these
      shortest ones, so this is all the unanchored test needs. */
  predicate EmailMatchAt(s: string, at: int, dot: int) {
    1 <= at && at + 2 <= dot && dot + 1 < |s|
    && s[at] == '@' && s[dot] == '.'
    && !JsString.IsWhitespace(s[at - 1])
    && JsString.NoWhitespace(s[at + 1..dot])
    && !JsString.IsWhitespace(s[dot + 1])
  }

  /** `/\S+@\S+\.\S+/.test(s)`; the shortest text it accepts has five
      characters. */
  predicate EmailMatches(s: string)
    ensures EmailMatches(s) ==> 5 <= |s|
  {
    exists at, dot | 0 <= at < |s| && 0 <= dot < |s| :: EmailMatchAt(s, at, dot)
  }

  /** Without an '@' the pattern cannot match. */
  lemma EmailNeedsAt(s: string)
    requires forall i :: 0 <= i < |s| ==> s[i] != '@'
    ensures !EmailMatches(s)
  {
  }

  /** The test is unanchored: text around a matching address keeps it
      matching. */
  lemma EmailMatchInContext(pre: string, s: string, post: string)
    requires EmailMatches(s)
    ensures EmailMatches(pre + s + post)
  {
    var at, dot :| 0 <= at < |s| && 0 <= dot < |s| && EmailMatchAt(s, at, dot);
    var t := pre + s + post;
    var k := |pre|;
    assert t[k + at] == s[at] && t[k + dot] == s[dot];
    assert t[k + at - 1] == s[at - 1] && t[k + dot + 1] == s[dot + 1];
    assert t[k + at + 1..k + dot] == s[at + 1..dot];
    assert EmailMatchAt(t, k + at, k + dot);
  }

  /** "a@b.c" passes; "a@b" and "a@.c" do not. */
  lemma EmailExamples()
    ensures EmailMatches("a@b.c")
    ensures !EmailMatches("a@b")
    ensures !EmailMatches("a@.c")
  {
    assert "a@b.c"[2..3] == "b";
    assert EmailMatchAt("a@b.c", 1, 3);
  }

  // ---------------------------------------------------------------------------
  // validateForm
  // ---------------------------------------------------------------------------

  /** The message `validateForm` records for a field, if any. */
  function Message(d: OrderDetails, f: Field): Option<string> {
    match f
    case venueName => if d.venueName == "" then Some("Venue name is required") else None
    case email =>
      if d.email == "" then Some("Email is required")
      else if !EmailMatches(d.email) then Some("Email is invalid")
      else None
    case phone => if d.phone == "" then Some("Phone number is required") else None
    case address => if d.address == "" then Some("Address is required") else None
    case city => if d.city == "" then Some("City is required") else None
    case zipCode => if d.zipCode == "" then Some("ZIP code is required") else None
    case tableNumbers => if d.tableNumbers == "" then Some("Table numbers are required") else None
    case quantity => if d.quantity < 1 then Some("At least 1 collateral is required") else None
  }

  /** What a field must satisfy for the order to go through. */
  predicate FieldAccepted(d: OrderDetails, f: Field) {
    if f == quantity then d.quantity >= 1
    else TextOf(d, f) != [] && (f == email ==> EmailMatches(d.email))
  }

  /** The error record `validateForm` stores: exactly the fields that are not
      accepted, each with a non-empty message. */
  function ValidationErrors(d: OrderDetails): (r: Errors)
    ensures forall f :: f in r <==> !FieldAccepted(d, f)
    ensures forall f | f in r :: r[f] != ""
  {
    map f | Message(d, f).Some? :: Message(d, f).value
  }

  /** All seven text fields are filled, the e-mail matches, and at least one
      collateral is ordered. */
  predicate OrderComplete(d: OrderDetails) {
    d.venueName != "" && d.email != "" && d.phone != "" && d.address != ""
    && d.city != "" && d.zipCode != "" && d.tableNumbers != ""
    && EmailMatches(d.email) && d.quantity >= 1
  }

  /** `validateForm()`: true iff no field has an error. */
  function IsValid(d: OrderDetails): (ok: bool)
    ensures ok <==> OrderComplete(d)
  {
    var errs := ValidationErrors(d);
    assert !OrderComplete(d) ==> exists f :: f in errs by {
      if !OrderComplete(d) {
        if d.venueName == "" { assert venueName in errs; }
        else if d.email == "" || !EmailMatches(d.email) { assert email in errs; }
        else if d.phone == "" { assert phone in errs; }
        else if d.address == "" { assert address in errs; }
        else if d.city == "" { assert city in errs; }
        else if d.zipCode == "" { assert zipCode in errs; }
        else if d.tableNumbers == "" { assert tableNumbers in errs; }
        else { assert quantity in errs; }
      }
    }
    |errs| == 0
  }

  /** An empty e-mail is reported as missing and never as invalid; a
      non-empty one that fails the pattern is reported as invalid. */
  lemma EmailErrorsExclusive(d: OrderDetails)
    ensures d.email == "" ==> ValidationErrors(d)[email] == "Email is required"
    ensures d.email != "" && !EmailMatches(d.email) ==> ValidationErrors(d)[email] == "Email is invalid"
    ensures d.email != "" && EmailMatches(d.email) ==> email !in ValidationErrors(d)
  {
  }

  // ---------------------------------------------------------------------------
  // Form state and the input handlers
  // ---------------------------------------------------------------------------

  datatype FormState = FormState(
    details: OrderDetails,
    errors: Errors,
    isProcessing: bool,
    paymentError: Option<string>)

  const InitialForm := FormState(InitialDetails, map[], false, None)

  /** `if (errors[name]) setErrors({ ...prev, [name]: undefined })`: a shown
      error is dropped; an absent or empty one is left as it is. */
  function ClearError(errors: Errors, f: Field): (r: Errors)
    ensures f !in r || r[f] == ""
    ensures r - {f} == errors - {f}
    ensures f in errors && errors[f] == "" ==> r == errors
  {
    if f in errors && errors[f] != "" then errors - {f} else errors
  }

  /** `handleTextChange`: the edited field takes the typed text and loses its
      error; no other field or error changes. */
  function TextChange(st: FormState, f: Field, value: string): (r: FormState)
    requires IsTextField(f)
    ensures TextOf(r.details, f) == value
    ensures forall g | IsTextField(g) && g != f :: TextOf(r.details, g) == TextOf(st.details, g)
    ensures r.details.quantity == st.details.quantity
    ensures f !in r.errors || r.errors[f] == ""
    ensures r.errors - {f} == st.errors - {f}
    ensures r.isProcessing == st.isProcessing && r.paymentError == st.paymentError
  {
    st.(details := WithText(st.details, f, value), errors := ClearError(st.errors, f))
  }

  /** The quantity a typed value leads to: 1 for an empty box, the integer
      `parseInt(value, 10)` reads, or the current quantity when that is
      NaN. */
  function NextQuantity(current: int, value: string): int {
    if value == "" then 1
    else
      match JsString.ParseInt(value, JsString.Decimal)
      case Some(n) => n
      case None => current
  }

  /** `handleQuantityChange`: only the quantity and its error change. */
  function QuantityChange(st: FormState, value: string): (r: FormState)
    ensures r.details == st.details.(quantity := NextQuantity(st.details.quantity, value))
    ensures quantity !in r.errors || r.errors[quantity] == ""
    ensures r.errors - {quantity} == st.errors - {quantity}
    ensures r.isProcessing == st.isProcessing && r.paymentError == st.paymentError
  {
    st.(details := st.details.(quantity := NextQuantity(st.details.quantity, value)),
        errors := ClearError(st.errors, quantity))
  }

  /** Typing the decimal form of any integer stores that integer, zero and
      negative ones included. */
  lemma QuantityReadsNumber(st: FormState, n: int)
    ensures QuantityChange(st, JsString.IntToDecimal(n)).details.quantity == n
  {
    JsString.ParseIntRoundTrip(n, JsString.Decimal);
  }

  /** Clearing the box sets the quantity to 1, and a value without any digit
      leaves the quantity as it was. */
  lemma QuantityFallbacks(st: FormState, value: string)
    ensures QuantityChange(st, "").details.quantity == 1
    ensures value != "" && !JsString.HasDecimalDigit(value) ==>
              QuantityChange(st, value).details.quantity == st.details.quantity
  {
    JsString.ParsedNumberHasDigit(value, JsString.Decimal);
  }

  /** A typed zero or negative quantity is stored and then fails validation
      with the quantity message. */
  lemma NonPositiveQuantityRejected(st: FormState, n: int)
    requires n < 1
    ensures var d := QuantityChange(st, JsString.IntToDecimal(n)).details;
            !IsValid(d) && quantity in ValidationErrors(d)
            && ValidationErrors(d)[quantity] == "At least 1 collateral is required"
  {
    QuantityReadsNumber(st, n);
  }

  // ---------------------------------------------------------------------------
  // Price summary, in cents
  // ---------------------------------------------------------------------------

  /** $5.50 per collateral. */
  const PricePerCollateral: int := 550

  /** VAT at 10%. */
  const VatPercent: int := 10

  datatype Price = Price(subtotal: int, vat: int, total: int)

  /** The summary for `q` collaterals: the VAT is exactly a tenth of the
      subtotal, with no rounding, and the total is eleven tenths of it. */
  function Pricing(q: int): (p: Price)
    ensures p.subtotal == 550 * q
    ensures p.vat * 10 == p.subtotal && p.vat == 55 * q
    ensures p.total == p.subtotal + p.vat && p.total == 605 * q
  {
    var subtotal := PricePerCollateral * q;
    var vat := subtotal * VatPercent / 100;
    Price(subtotal, vat, subtotal + vat)
  }

  /** One more collateral always costs $6.05 more. */
  lemma PriceStep(q: int)
    ensures Pricing(q + 1).total == Pricing(q).total + 605
  {
  }

  // ---------------------------------------------------------------------------
  // handleSubmit
  // ---------------------------------------------------------------------------

  datatype SubmitOutcome =
    | PaymentSystemNotReady  // the "still initializing" notice; nothing else happens
    | ValidationFailed       // the "check the form" notice
    | PaymentStarted         // processing begins

  /** `handleSubmit` up to the start of payment. `ready` is whether the
      payment library and its elements have loaded. */
  function Submit(st: FormState, ready: bool): (r: (FormState, SubmitOutcome))
    ensures !ready ==> r.0 == st && r.1 == PaymentSystemNotReady
    ensures ready ==> r.0.errors == ValidationErrors(st.details) && r.0.paymentError == None
    ensures ready ==> r.0.details == st.details
    ensures ready ==> (r.1 == PaymentStarted <==> OrderComplete(st.details))
    ensures ready ==> (r.1 == ValidationFailed <==> !OrderComplete(st.details))
    ensures r.0.isProcessing == (st.isProcessing || r.1 == PaymentStarted)
  {
    if !ready then (st, PaymentSystemNotReady)
    else
      var checked := st.(paymentError := None, errors := ValidationErrors(st.details));
      if !IsValid(st.details) then (checked, ValidationFailed)
      else (checked.(isProcessing := true), PaymentStarted)
  }

  /** An incomplete order never starts processing, whether or not the
      payment library is ready. */
  lemma IncompleteNeverProcesses(st: FormState, ready: bool)
    requires !st.isProcessing && !OrderComplete(st.details)
    ensures !Submit(st, ready).0.isProcessing
    ensures Submit(st, ready).1 != PaymentStarted
  {
  }

  /** The pay button is enabled only when nothing is processing and the
      payment library has loaded. */
  function PayEnabled(st: FormState, ready: bool): (b: bool)
    ensures b <==> ready && !st.isProcessing
    ensures b ==> Submit(st, ready).1 != PaymentSystemNotReady
  {
    !st.isProcessing && ready
  }
}
