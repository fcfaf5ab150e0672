/**
 * The sanity check the app runs on user text before it reaches the model
 * (app/validation.py): the text must not be blank once stripped, must fit the
 * maximum length and must hold no null character.
 */
module Validation {
  import opened Strings

  /** `(is_valid, normalized_text, error_messages)`. */
  datatype Checked = Checked(isValid: bool, normalized: string, errors: seq<string>)

  const EmptyError := "Input text cannot be empty."
  const BlankError := "Input text cannot be empty or whitespace only."
  const NullError := "Input text contains null bytes."

  function LengthError(maxLength: int): string
  {
    "Input text exceeds maximum length of " + IntToString(maxLength) + " characters."
  }

  /** The errors of a non-blank stripped text: length first, then the null character. */
  function Errors(normalized: string, maxLength: int): (errors: seq<string>)
    ensures |errors| <= 2
    ensures errors == [] <==> |normalized| <= maxLength && '\0' !in normalized
    ensures |normalized| > maxLength ==> errors[0] == LengthError(maxLength)
    ensures '\0' in normalized ==> errors[|errors| - 1] == NullError
  {
    (if |normalized| > maxLength then [LengthError(maxLength)] else []) +
    (if '\0' in normalized then [NullError] else [])
  }

  /** What `validate_user_text` returns. */
  function Validate(text: string, maxLength: int): (r: Checked)
    ensures text == "" ==> r == Checked(false, "", [EmptyError])
    ensures text != "" && Trim(text, PyWhitespace) == "" ==> r == Checked(false, "", [BlankError])
    ensures Trim(text, PyWhitespace) != "" ==>
      r.normalized == Trim(text, PyWhitespace) && r.errors == Errors(r.normalized, maxLength)
    ensures r.isValid <==> r.errors == []
    ensures r.isValid ==>
      r.normalized == Trim(text, PyWhitespace) && 0 < |r.normalized| <= maxLength && '\0' !in r.normalized
  {
    if text == "" then Checked(false, "", [EmptyError])
    else
      var normalized := Trim(text, PyWhitespace);
      if normalized == "" then Checked(false, "", [BlankError])
      else
        var errors := Errors(normalized, maxLength);
        Checked(errors == [], normalized, errors)
  }

  /** `validate_user_text`, collecting the errors one check at a time. */
  method ValidateUserText(text: string, maxLength: int) returns (r: Checked)
    ensures r == Validate(text, maxLength)
  {
    var errors: seq<string> := [];
    if text == "" {
      return Checked(false, "", [EmptyError]);
    }
    var normalized := Trim(text, PyWhitespace);
    if normalized == "" {
      return Checked(false, "", [BlankError]);
    }
    if |normalized| > maxLength {
      errors := errors + [LengthError(maxLength)];
    }
    if '\0' in normalized {
      errors := errors + [NullError];
    }
    if |errors| > 0 {
      return Checked(false, normalized, errors);
    }
    return Checked(true, normalized, []);
  }

  /** Validating the normalized text of a valid input gives the same verdict and text. */
  lemma ValidateIdempotent(text: string, maxLength: int)
    requires Validate(text, maxLength).isValid
    ensures Validate(Validate(text, maxLength).normalized, maxLength) == Validate(text, maxLength)
  {
    TrimNoop(Validate(text, maxLength).normalized, PyWhitespace);
  }

  /** A too long text with a null character reports both errors, length first. */
  lemma BothErrors(text: string, maxLength: int)
    requires |Trim(text, PyWhitespace)| > maxLength >= 0 && '\0' in Trim(text, PyWhitespace)
    ensures Validate(text, maxLength).errors == [LengthError(maxLength), NullError]
  {
  }

  // The four cases of the validation script (verify_validation.py), with the default maximum of 20000.

  lemma BlankCase()
    ensures !Validate("   ", 20000).isValid
  {
    var t := "   ";
    assert forall i :: 0 <= i < |t| ==> t[i] in PyWhitespace;
  }

  lemma PlainCase()
    ensures Validate("Hello world", 20000).isValid
  {
    TrimNoop("Hello world", PyWhitespace);
  }

  lemma LongCase()
    ensures !Validate(Repeat('A', 25000), 20000).isValid
  {
    var t := Repeat('A', 25000);
    TrimNoop(t, PyWhitespace);
  }

  lemma NullCase()
    ensures !Validate("Hello\0World", 20000).isValid
  {
    var t := "Hello\0World";
    TrimNoop(t, PyWhitespace);
    assert t[5] == '\0';
  }
}
