/**
 * The form's validation: the length schema (a required number between 4 and
 * 16) and the condition under which the Generate button is disabled.
 */
module Validation {
  import opened Wrappers
  import opened Generator

  const MinLength: int := 4
  const MaxLength: int := 16
  const MinLengthMessage: string := "Minimum 4 characters required"
  const MaxLengthMessage: string := "Maximum characters can be 16"

  /**
   * The length rule in the schema's order: a missing value fails `required`,
   * a value below 4 fails `min`, a value above 16 fails `max`. The `required`
   * and `min` rules carry the same message.
   */
  function ValidateLength(input: Option<int>): (r: Result<int>)
    ensures r.Ok? <==> input.Some? && MinLength <= input.value <= MaxLength
    ensures r.Ok? ==> r.value == input.value
    ensures r.Err? ==> r.message == (if input.Some? && input.value > MaxLength then MaxLengthMessage else MinLengthMessage)
  {
    match input
    case None => Err(MinLengthMessage)
    case Some(n) =>
      if n < MinLength then Err(MinLengthMessage)
      else if n > MaxLength then Err(MaxLengthMessage)
      else Ok(n)
  }

  /** The boundary values: 4 and 16 are accepted, 3 and 17 are rejected with their own messages. */
  lemma LengthBoundaries()
    ensures ValidateLength(Some(4)) == Ok(4) && ValidateLength(Some(16)) == Ok(16)
    ensures ValidateLength(Some(3)) == Err(MinLengthMessage)
    ensures ValidateLength(Some(17)) == Err(MaxLengthMessage)
    ensures ValidateLength(Some(0)) == Err(MinLengthMessage) && ValidateLength(None) == Err(MinLengthMessage)
  {
  }

  /** The Generate button is disabled when no class is selected or the form is not valid. */
  function GenerateDisabled(f: Flags, formValid: bool): bool {
    f.NoneSelected() || !formValid
  }

  /** The button is enabled exactly when the form is valid and the pool is non-empty; it then has at least 10 characters. */
  lemma GenerateEnabledIff(f: Flags, formValid: bool)
    ensures !GenerateDisabled(f, formValid) <==> formValid && Pool(f) != ""
    ensures !GenerateDisabled(f, formValid) ==> |Pool(f)| >= 10
  {
    PoolEmptyIff(f);
    PoolLength(f);
  }
}
