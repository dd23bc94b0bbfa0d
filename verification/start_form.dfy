/** The start form (`StartForm.tsx`): a venue name, a table count typed into a
    number box, and a duplicates checkbox; submitting checks the name and the
    count and hands the details on. */
module StartForm {
  import opened Common
  import JsString

  /** The two messages the form can show; absent means no message. */
  datatype StartErrors = StartErrors(venueName: Option<string>, tableCount: Option<string>)

  datatype StartState = StartState(venueName: string, tableCount: int, duplicates: bool, errors: StartErrors)

  /** What `onSubmit` receives. */
  datatype VenueDetails = VenueDetails(venueName: string, tableCount: int, duplicates: bool)

  const MaxTables: int := 500

  const InitialStart := StartState("", 1, false, StartErrors(None, None))

  /** `parseInt(value) || 0`: no radix is given, so a "0x" prefix reads
      hexadecimal; NaN becomes 0. */
  function TableCountInput(value: string): (n: int)
    ensures JsString.ParseInt(value, JsString.Unspecified).None? ==> n == 0
    ensures JsString.ParseInt(value, JsString.Unspecified).Some? ==> n == JsString.ParseInt(value, JsString.Unspecified).value
  {
    match JsString.ParseInt(value, JsString.Unspecified)
    case Some(v) => v
    case None => 0
  }

  /** Typing any integer's decimal form stores that integer. */
  lemma TableCountReadsNumber(n: int)
    ensures TableCountInput(JsString.IntToDecimal(n)) == n
  {
    JsString.ParseIntRoundTrip(n, JsString.Unspecified);
  }

  /** Text without a decimal digit stores 0. */
  lemma NonNumericCountIsZero(value: string)
    requires !JsString.HasDecimalDigit(value)
    ensures TableCountInput(value) == 0
  {
    JsString.ParsedNumberHasDigit(value, JsString.Unspecified);
  }

  /** Because no radix is passed, "0x1F" is read as 31 tables. */
  lemma HexCountAccepted()
    ensures TableCountInput("0x1F") == 31
  {
    var s := "0x1F";
    JsString.StartsClean(s);
    assert JsString.WithoutSign(s) == s;
    assert JsString.HasHexPrefix(s, JsString.Unspecified);
    assert s[2..] == "1F";
    HexDigits();
    assert JsString.ParseUnsigned(s, JsString.Unspecified) == Some(31);
    assert JsString.ParseSigned(s, JsString.Unspecified) == Some(31);
  }

  lemma HexDigits()
    ensures JsString.DigitRun("1F", true) == "1F"
    ensures JsString.DigitsValue("1F", true) == 31
  {
    assert "1F"[1..] == "F";
    assert JsString.DigitRun("F", true) == "F" by {
      assert "F"[1..] == [];
    }
    assert "1F"[..1] == "1";
    assert JsString.DigitsValue("1", true) == 1 by {
      assert "1"[..0] == [];
    }
  }

  function SetVenueName(st: StartState, value: string): (r: StartState)
    ensures r.venueName == value
    ensures r.tableCount == st.tableCount && r.duplicates == st.duplicates && r.errors == st.errors
  {
    st.(venueName := value)
  }

  function SetTableCount(st: StartState, value: string): (r: StartState)
    ensures r.tableCount == TableCountInput(value)
    ensures r.venueName == st.venueName && r.duplicates == st.duplicates && r.errors == st.errors
  {
    st.(tableCount := TableCountInput(value))
  }

  /** The checkbox reports true, false or "indeterminate". */
  datatype CheckedState = Checked | Unchecked | Indeterminate

  /** `setDuplicates(checked === true)`. */
  function SetDuplicates(st: StartState, c: CheckedState): (r: StartState)
    ensures r.duplicates <==> c == Checked
    ensures r.venueName == st.venueName && r.tableCount == st.tableCount && r.errors == st.errors
  {
    st.(duplicates := c == Checked)
  }

  /** The messages `handleSubmit` computes. The count gets at most one of its
      two messages. */
  function StartValidation(st: StartState): (e: StartErrors)
    ensures e.venueName.Some? <==> JsString.AllWhitespace(st.venueName)
    ensures e.venueName.Some? ==> e.venueName.value == "Venue name is required"
    ensures e.tableCount == if st.tableCount < 1 then Some("You need at least 1 table")
                            else if st.tableCount > MaxTables then Some("Maximum 500 tables allowed")
                            else None
  {
    StartErrors(
      if JsString.Trim(st.venueName) == [] then Some("Venue name is required") else None,
      if st.tableCount < 1 then Some("You need at least 1 table")
      else if st.tableCount > 500 then Some("Maximum 500 tables allowed")
      else None)
  }

  /** `handleSubmit`: the messages are stored, and the details go out exactly
      when the name has a non-space character and the count is 1 to 500; the
      name goes out trimmed, the count and the checkbox as they are. */
  function HandleSubmit(st: StartState): (r: (StartState, Option<VenueDetails>))
    ensures r.0 == st.(errors := StartValidation(st))
    ensures r.1.Some? <==> !JsString.AllWhitespace(st.venueName) && 1 <= st.tableCount <= MaxTables
    ensures r.1.Some? ==> r.1.value == VenueDetails(JsString.Trim(st.venueName), st.tableCount, st.duplicates)
  {
    var errors := StartValidation(st);
    var next := st.(errors := errors);
    if errors.venueName.None? && errors.tableCount.None? then
      (next, Some(VenueDetails(JsString.Trim(st.venueName), st.tableCount, st.duplicates)))
    else (next, None)
  }

  /** A typed count without a digit never gets past the form. */
  lemma NonNumericCountRejected(st: StartState, value: string)
    requires !JsString.HasDecimalDigit(value)
    ensures HandleSubmit(SetTableCount(st, value)).1.None?
    ensures HandleSubmit(SetTableCount(st, value)).0.errors.tableCount == Some("You need at least 1 table")
  {
    NonNumericCountIsZero(value);
  }

  /** A typed count goes through exactly when it is 1 to 500, both ends
      included, given a real venue name. */
  lemma TypedCountAccepted(st: StartState, n: int)
    requires !JsString.AllWhitespace(st.venueName)
    ensures HandleSubmit(SetTableCount(st, JsString.IntToDecimal(n))).1.Some? <==> 1 <= n <= 500
  {
    TableCountReadsNumber(n);
  }

  /** The submitted name has no surrounding white space. */
  lemma SubmittedNameTrimmed(st: StartState)
    requires HandleSubmit(st).1.Some?
    ensures var name := HandleSubmit(st).1.value.venueName;
            name != [] && !JsString.IsWhitespace(name[0]) && !JsString.IsWhitespace(name[|name| - 1])
            && JsString.Trim(name) == name
  {
    JsString.TrimIdempotent(st.venueName);
  }
}
