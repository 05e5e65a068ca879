/**
 * The form checks run before a car or a customer is created. Parsing the text
 * of a number is not modelled: the caller passes what `Double.parseDouble` or
 * `Integer.parseInt` gives for the text, `None` when it throws. The two
 * regular-expression checks on the e-mail and phone texts are passed in as
 * their boolean outcomes.
 */
module Validation {
  import opened Wrappers

  /** Accepted, or rejected with the message of the `IllegalArgumentException` thrown. */
  datatype Check = Accepted | Rejected(message: string)

  const FieldsRequired: string := "All fields are required!"
  const PriceNotNumber: string := "Price must be a valid number!"
  const PriceNotPositive: string := "Price must be greater than zero!"
  const AgeNotNumber: string := "Age must be a valid number!"
  const AgeOutOfRange: string := "Age must be between 18 and 120!"
  const EmailInvalid: string := "Invalid email format!"
  const PhoneInvalid: string := "Invalid phone number format!"

  /** The age rule of customer registration: 18 to 120, both ends included. */
  predicate AgeInRange(age: int)
  {
    18 <= age <= 120
  }

  /**
   * `validateCarInput`: all three texts present, the price a number, and the
   * price strictly positive, checked in that order.
   */
  function ValidateCarInput(brand: string, model: string, price: string, parsedPrice: Option<real>): (r: Check)
    ensures r == Accepted <==> brand != [] && model != [] && price != [] && parsedPrice.Some? && parsedPrice.value > 0.0
    ensures brand == [] || model == [] || price == [] ==> r == Rejected(FieldsRequired)
    ensures r == Rejected(PriceNotPositive) <==> brand != [] && model != [] && price != [] && parsedPrice.Some? && parsedPrice.value <= 0.0
  {
    if brand == [] || model == [] || price == [] then Rejected(FieldsRequired)
    else if parsedPrice.None? then Rejected(PriceNotNumber)
    else if parsedPrice.value <= 0.0 then Rejected(PriceNotPositive)
    else Accepted
  }

  /**
   * `validateCustomerInput`: all five texts present, the age a number within
   * 18..120, then the e-mail pattern, then the phone pattern.
   */
  function ValidateCustomerInput(name: string, age: string, address: string, phone: string, email: string,
                                 parsedAge: Option<int>, emailMatches: bool, phoneMatches: bool): (r: Check)
    ensures r == Accepted <==>
      && name != [] && age != [] && address != [] && phone != [] && email != []
      && parsedAge.Some? && AgeInRange(parsedAge.value) && emailMatches && phoneMatches
    ensures r == Rejected(AgeOutOfRange) <==>
      && name != [] && age != [] && address != [] && phone != [] && email != []
      && parsedAge.Some? && !AgeInRange(parsedAge.value)
  {
    if name == [] || age == [] || address == [] || phone == [] || email == [] then Rejected(FieldsRequired)
    else if parsedAge.None? then Rejected(AgeNotNumber)
    else if parsedAge.value < 18 || parsedAge.value > 120 then Rejected(AgeOutOfRange)
    else if !emailMatches then Rejected(EmailInvalid)
    else if !phoneMatches then Rejected(PhoneInvalid)
    else Accepted
  }

  /** The age bounds are inclusive: 18 and 120 pass, 17 and 121 do not. */
  lemma AgeBoundsInclusive()
    ensures AgeInRange(18) && AgeInRange(120) && !AgeInRange(17) && !AgeInRange(121)
  {
  }
}
