/** `validate_expense_data` (controller.py): required fields in a fixed
    order, then the amount's conversion and sign. */
module Validation {
  import opened Outcomes
  import opened Text
  import opened Json

  const RequiredFields: seq<string> := ["description", "amount", "category_id"]

  const MissingPrefix: string := "Missing required field: "
  const NotPositiveMessage: string := "Amount must be positive"
  const BadFormatMessage: string := "Invalid amount format"

  /** The outcome of validation: `(True, None)`, `(False, message)`, or an
      exception that escapes the validator. */
  datatype Verdict = Accepted | Rejected(message: string) | Raised(error: PyError)

  /** `field not in data or not data[field]`. */
  predicate Blank(data: Object, field: string) {
    field !in data || !Truthy(data[field])
  }

  /** The position of the first blank field, scanning `fields` in order. */
  function FirstBlank(data: Object, fields: seq<string>): (r: Option<nat>)
    ensures r.Some? ==> r.value < |fields| && Blank(data, fields[r.value])
    ensures r.Some? ==> forall j :: 0 <= j < r.value ==> !Blank(data, fields[j])
    ensures r.None? ==> forall j :: 0 <= j < |fields| ==> !Blank(data, fields[j])
  {
    if |fields| == 0 then None
    else if Blank(data, fields[0]) then Some(0)
    else match FirstBlank(data, fields[1..])
      case None => None
      case Some(i) => Some(i + 1)
  }

  /** `amount <= 0` on a Python float: false for NaN. */
  predicate NotPositive(f: PyFloat) {
    match f
    case Finite(r) => r <= 0.0
    case NegInf => true
    case PosInf => false
    case NaN => false
  }

  /** The checks in source order. `finiteOnly` selects the corrected
      amount check, which also turns away NaN and the infinities. */
  function Validate(data: Option<Object>, finiteOnly: bool): Verdict {
    match data
    case None => Raised(TypeError("argument of type 'NoneType' is not iterable"))
    case Some(obj) =>
      match FirstBlank(obj, RequiredFields)
      case Some(i) => Rejected(MissingPrefix + RequiredFields[i])
      case None =>
        assert RequiredFields[1] == "amount";
        match ToFloat(obj["amount"])
        case Ok(f) =>
          if finiteOnly && !f.Finite? then Rejected(BadFormatMessage)
          else if NotPositive(f) then Rejected(NotPositiveMessage)
          else Accepted
        case Err(e) => if e.ValueError? then Rejected(BadFormatMessage) else Raised(e)
  }

  /** `validate_expense_data(data)` as written. */
  function ValidateExpenseData(data: Option<Object>): (v: Verdict)
    ensures data.None? ==> v.Raised? && v.error.TypeError?
    ensures data.Some? && !Complete(data.value) ==>
              exists i :: 0 <= i < |RequiredFields| && v == Rejected(MissingPrefix + RequiredFields[i])
    ensures v == Accepted <==>
              data.Some? && Complete(data.value) && ToFloat(data.value["amount"]).Ok?
              && !NotPositive(ToFloat(data.value["amount"]).value)
  {
    ValidateOutcomes(data, false);
    Validate(data, false)
  }

  /** `validate_expense_data` with the amount required to be a finite
      positive number. */
  function ValidateExpenseDataFinite(data: Option<Object>): (v: Verdict)
    ensures data.None? ==> v.Raised? && v.error.TypeError?
    ensures data.Some? && !Complete(data.value) ==>
              exists i :: 0 <= i < |RequiredFields| && v == Rejected(MissingPrefix + RequiredFields[i])
    ensures v == Accepted <==>
              data.Some? && Complete(data.value) && ToFloat(data.value["amount"]).Ok?
              && ToFloat(data.value["amount"]).value.Finite? && ToFloat(data.value["amount"]).value.value > 0.0
  {
    ValidateOutcomes(data, true);
    Validate(data, true)
  }

  /** What each branch of the checks yields. */
  lemma ValidateOutcomes(data: Option<Object>, finiteOnly: bool)
    ensures data.None? ==> Validate(data, finiteOnly).Raised? && Validate(data, finiteOnly).error.TypeError?
    ensures data.Some? && !Complete(data.value) ==>
              exists i :: 0 <= i < |RequiredFields|
                          && Validate(data, finiteOnly) == Rejected(MissingPrefix + RequiredFields[i])
    ensures Validate(data, finiteOnly) == Accepted <==>
              data.Some? && Complete(data.value) && ToFloat(data.value["amount"]).Ok?
              && (if finiteOnly then ToFloat(data.value["amount"]).value.Finite?
                                     && ToFloat(data.value["amount"]).value.value > 0.0
                  else !NotPositive(ToFloat(data.value["amount"]).value))
  {
    if data.Some? {
      CompleteIffNoBlank(data.value);
      var r := FirstBlank(data.value, RequiredFields);
      if r.Some? {
        MessagesDiffer(r.value, 0);
      }
    }
  }

  /** Every field is present and truthy. */
  predicate Complete(obj: Object) {
    && "amount" in obj
    && forall j :: 0 <= j < |RequiredFields| ==> !Blank(obj, RequiredFields[j])
  }

  lemma MessagesDiffer(i: nat, j: nat)
    requires i < |RequiredFields| && j < |RequiredFields|
    ensures MissingPrefix + RequiredFields[i] != NotPositiveMessage
    ensures MissingPrefix + RequiredFields[i] != BadFormatMessage
    ensures i != j ==> MissingPrefix + RequiredFields[i] != MissingPrefix + RequiredFields[j]
  {
    assert (MissingPrefix + RequiredFields[i])[0] == 'M';
    if i != j {
      assert RequiredFields[i][0] != RequiredFields[j][0];
      assert (MissingPrefix + RequiredFields[i])[|MissingPrefix|] == RequiredFields[i][0];
      assert (MissingPrefix + RequiredFields[j])[|MissingPrefix|] == RequiredFields[j][0];
    }
  }

  lemma CompleteIffNoBlank(obj: Object)
    ensures Complete(obj) <==> FirstBlank(obj, RequiredFields).None?
  {
    assert RequiredFields[1] == "amount";
  }

  /** The required fields are checked in the order description, amount,
      category_id: field `i` is reported exactly when it is the first one
      missing or falsy. */
  lemma MissingFieldsInOrder(data: Option<Object>, i: nat)
    requires i < |RequiredFields|
    ensures ValidateExpenseData(data) == Rejected(MissingPrefix + RequiredFields[i])
        <==> data.Some? && Blank(data.value, RequiredFields[i])
             && forall j :: 0 <= j < i ==> !Blank(data.value, RequiredFields[j])
  {
    MessagesDiffer(i, 0);
    MessagesDiffer(i, 1);
    MessagesDiffer(i, 2);
    if data.Some? {
      var r := FirstBlank(data.value, RequiredFields);
      if r.Some? && r.value != i {
        MessagesDiffer(i, r.value);
      }
    }
  }

  /** Acceptance as written: every field present and truthy and the amount
      converting to a float that is not `<= 0`, which includes NaN and
      positive infinity. */
  lemma AcceptedAmounts(data: Option<Object>)
    ensures ValidateExpenseData(data) == Accepted
        <==> data.Some? && Complete(data.value)
             && ToFloat(data.value["amount"]).Ok?
             && (match ToFloat(data.value["amount"]).value
                 case Finite(r) => r > 0.0
                 case PosInf => true
                 case NaN => true
                 case NegInf => false)
  {
    if data.Some? {
      CompleteIffNoBlank(data.value);
    }
  }

  /** `"Amount must be positive"` is reported exactly for complete data
      whose amount converts to a float that is `<= 0`; the finite-only
      check reports it exactly for a finite amount `<= 0`. */
  lemma NotPositiveAmounts(data: Option<Object>)
    ensures ValidateExpenseData(data) == Rejected(NotPositiveMessage)
        <==> data.Some? && Complete(data.value)
             && ToFloat(data.value["amount"]).Ok? && NotPositive(ToFloat(data.value["amount"]).value)
    ensures ValidateExpenseDataFinite(data) == Rejected(NotPositiveMessage)
        <==> data.Some? && Complete(data.value)
             && ToFloat(data.value["amount"]).Ok? && ToFloat(data.value["amount"]).value.Finite?
             && ToFloat(data.value["amount"]).value.value <= 0.0
  {
    assert NotPositiveMessage != BadFormatMessage;
    if data.Some? {
      CompleteIffNoBlank(data.value);
      var r := FirstBlank(data.value, RequiredFields);
      if r.Some? {
        MessagesDiffer(r.value, 0);
      }
    }
  }

  /** `"Invalid amount format"` is reported exactly for complete data
      whose amount is a string `float()` cannot parse; other values that
      `float()` refuses (lists, objects) escape as `TypeError`. */
  lemma UnparseableAmount(data: Option<Object>)
    ensures ValidateExpenseData(data) == Rejected(BadFormatMessage)
        <==> data.Some? && Complete(data.value)
             && data.value["amount"].JString? && ParseFloat(data.value["amount"].s).None?
    ensures ValidateExpenseData(data).Raised? <==>
              data.None? || (Complete(data.value) && ToFloat(data.value["amount"]).Err?
                               && ToFloat(data.value["amount"]).error.TypeError?)
  {
    if data.Some? {
      CompleteIffNoBlank(data.value);
      var r := FirstBlank(data.value, RequiredFields);
      if r.Some? {
        MessagesDiffer(r.value, 0);
      }
    }
  }

  /** A numeric zero amount is falsy, so it is reported as a missing field
      before the sign check is reached. */
  lemma ZeroNumberReportedMissing(obj: Object)
    requires "description" in obj && Truthy(obj["description"])
    requires "amount" in obj
    requires obj["amount"] == JInt(0) || obj["amount"] == JFloat(Finite(0.0)) || obj["amount"] == JBool(false)
    ensures ValidateExpenseData(Some(obj)) == Rejected("Missing required field: amount")
  {
    assert !Blank(obj, RequiredFields[0]) && Blank(obj, RequiredFields[1]);
    MissingFieldsInOrder(Some(obj), 1);
  }

  /** The string `"0"` is truthy, so it passes the presence check and is
      turned away by the sign check. */
  lemma ZeroStringNotPositive(obj: Object)
    requires "description" in obj && Truthy(obj["description"])
    requires "category_id" in obj && Truthy(obj["category_id"])
    requires "amount" in obj && obj["amount"] == JString("0")
    ensures ValidateExpenseData(Some(obj)) == Rejected(NotPositiveMessage)
  {
    assert RequiredFields[0] == "description" && RequiredFields[2] == "category_id";
    assert Complete(obj);
    CompleteIffNoBlank(obj);
    ZeroParses();
    assert ToFloat(obj["amount"]) == Ok(Finite(0.0));
  }

  lemma ZeroParses()
    ensures ParseFloat("0") == Some(Finite(0.0))
  {
    ParseDigitString("0");
    assert DigitsValue("0") == 0;
  }

  lemma LowerNan()
    ensures Lower("nan") == "nan"
  {
    var l := Lower("nan");
    assert l[0] == 'n' && l[1] == 'a' && l[2] == 'n';
  }

  lemma ParseNan()
    ensures ParseFloat("nan") == Some(NaN)
  {
    AsciiKept("nan");
    NumeralNan();
  }

  lemma NumeralNan()
    ensures ParseNumeral("nan") == Some(NaN)
  {
    assert "nan"[0] == 'n' && "nan"[2] == 'n';
    assert StripAscii("nan") == "nan";
    LowerNan();
    assert ParseUnsigned("nan") == Some(NaN);
    assert "nan"[0] == 'n';
  }

  /** As written, a NaN amount (the string `"nan"` or a JSON `NaN`) is
      accepted, because `nan <= 0` is false. */
  lemma NanAmountAccepted(obj: Object)
    requires "description" in obj && Truthy(obj["description"])
    requires "category_id" in obj && Truthy(obj["category_id"])
    requires "amount" in obj && (obj["amount"] == JString("nan") || obj["amount"] == JFloat(NaN))
    ensures ValidateExpenseData(Some(obj)) == Accepted
    ensures ValidateExpenseDataFinite(Some(obj)) == Rejected(BadFormatMessage)
  {
    assert Complete(obj);
    CompleteIffNoBlank(obj);
    ParseNan();
  }

  /** With the corrected check an accepted amount is a finite number
      strictly greater than zero. */
  lemma FiniteValidationAcceptsPositiveNumbers(data: Option<Object>)
    ensures ValidateExpenseDataFinite(data) == Accepted
        <==> data.Some? && Complete(data.value)
             && ToFloat(data.value["amount"]).Ok?
             && ToFloat(data.value["amount"]).value.Finite?
             && ToFloat(data.value["amount"]).value.value > 0.0
  {
    if data.Some? {
      CompleteIffNoBlank(data.value);
    }
  }

  /** The corrected check differs from the original only on NaN and infinite amounts. */
  lemma FiniteValidationAgrees(data: Option<Object>)
    requires data.Some? && "amount" in data.value
    requires !(ToFloat(data.value["amount"]).Ok? && !ToFloat(data.value["amount"]).value.Finite?)
    ensures ValidateExpenseDataFinite(data) == ValidateExpenseData(data)
  {
  }
}
