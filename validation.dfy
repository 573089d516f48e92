/**
 * The shared name validator of utils/validation.py, together with the two
 * vocabularies the whole domain uses: the dynamically typed argument values a
 * Python caller may pass, and the errors an operation may raise.
 */
module Validation {
  import opened Wrappers

  /**
   * A Python argument value, reduced to the kinds the domain's `isinstance`
   * checks distinguish. An `Int` is never a float (`isinstance(5, float)` is
   * false) and nothing but a `Str` is a string.
   */
  datatype Value = Str(s: string) | Float(x: real) | Int(n: int) | NoneValue

  /** Every `ValueError` the domain raises, by the condition that raised it. */
  datatype Error =
    | InvalidName(minLength: int, maxLength: int)    // a name of the wrong type or length
    | NameImmutable                                   // a second assignment to a coffee's name
    | NotACustomer                                    // an order for something that is not a Customer
    | NotACoffee                                      // an order of something that is not a Coffee
    | InvalidPrice(minPrice: real, maxPrice: real)    // a price that is not a float within bounds

  /** Both bounds are inclusive. */
  predicate LengthWithin(s: string, minLength: int, maxLength: int) {
    minLength <= |s| <= maxLength
  }

  /** The condition `validate_name` accepts: a string whose length lies within the bounds. */
  predicate IsValidName(name: Value, minLength: int, maxLength: int) {
    name.Str? && LengthWithin(name.s, minLength, maxLength)
  }

  /**
   * `validate_name(name, min_length, max_length)`: returns (True) when the name
   * is acceptable and raises a `ValueError` naming the allowed range otherwise.
   * It reads nothing but its arguments.
   */
  function ValidateName(name: Value, minLength: int, maxLength: int): (r: Outcome<Error>)
    ensures r.Pass? <==> name.Str? && minLength <= |name.s| <= maxLength
    ensures r.Fail? ==> r.error == InvalidName(minLength, maxLength)
  {
    if IsValidName(name, minLength, maxLength) then Pass else Fail(InvalidName(minLength, maxLength))
  }

  /** A string whose length equals either bound is accepted: both bounds are inclusive. */
  lemma ValidateNameAcceptsBounds(s: string, minLength: int, maxLength: int)
    requires minLength <= maxLength
    requires |s| == minLength || |s| == maxLength
    ensures ValidateName(Str(s), minLength, maxLength) == Pass
  {
  }

  /** A string shorter than the minimum is rejected, with an error naming the range. */
  lemma ValidateNameRejectsShort(s: string, minLength: int, maxLength: int)
    requires |s| < minLength
    ensures ValidateName(Str(s), minLength, maxLength) == Fail(InvalidName(minLength, maxLength))
  {
  }

  /** A string longer than the maximum is rejected, with an error naming the range. */
  lemma ValidateNameRejectsLong(s: string, minLength: int, maxLength: int)
    requires maxLength < |s|
    ensures ValidateName(Str(s), minLength, maxLength) == Fail(InvalidName(minLength, maxLength))
  {
  }

  /** A value that is not a string is rejected, whatever the bounds. */
  lemma ValidateNameRejectsNonString(name: Value, minLength: int, maxLength: int)
    requires !name.Str?
    ensures ValidateName(name, minLength, maxLength) == Fail(InvalidName(minLength, maxLength))
  {
  }
}
