/** An immutable postal address. The constructor runs five checks in a fixed
    order and throws at the first that fails; afterwards the five getters
    return the supplied values and nothing changes them. */
module Addresses {
  import opened Common
  import opened Text

  const MIN_UNIT_NUMBER_LENGTH := 1
  const MAX_UNIT_NUMBER_LENGTH := 4
  // The street number must be strictly above this bound.
  const MIN_STREET_NUMBER := 0
  const MAX_STREET_NUMBER := 999999
  const MIN_STREET_NAME_LENGTH := 1
  const MAX_STREET_NAME_LENGTH := 20
  const MIN_POSTAL_CODE_LENGTH := 5
  const MAX_POSTAL_CODE_LENGTH := 6
  const MIN_CITY_NAME_LENGTH := 1
  const MAX_CITY_NAME_LENGTH := 30

  /** The fields of a constructed Address; the datatype's destructors are the
      getters getUnitNumber, getStreetNumber, getStreetName, getPostalCode and
      getCity. The unit number is the only field that may be null. */
  datatype Address = Address(
    unitNumber: Option<string>,
    streetNumber: int,
    streetName: string,
    postalCode: string,
    cityName: string)

  predicate LengthWithin(s: string, lo: int, hi: int)
  {
    lo <= JavaLength(s) <= hi
  }

  /** A missing unit number is accepted; a present one needs 1 to 4 characters. */
  predicate UnitNumberOk(unitNumber: Option<string>)
  {
    unitNumber.None? || LengthWithin(unitNumber.value, MIN_UNIT_NUMBER_LENGTH, MAX_UNIT_NUMBER_LENGTH)
  }

  predicate StreetNumberOk(streetNumber: int)
  {
    MIN_STREET_NUMBER < streetNumber <= MAX_STREET_NUMBER
  }

  predicate StreetNameOk(streetName: string)
  {
    LengthWithin(streetName, MIN_STREET_NAME_LENGTH, MAX_STREET_NAME_LENGTH)
  }

  predicate PostalCodeOk(postalCode: string)
  {
    LengthWithin(postalCode, MIN_POSTAL_CODE_LENGTH, MAX_POSTAL_CODE_LENGTH)
  }

  predicate CityNameOk(cityName: string)
  {
    LengthWithin(cityName, MIN_CITY_NAME_LENGTH, MAX_CITY_NAME_LENGTH)
  }

  /** Every field within its bound: what holds of every Address that exists. */
  predicate WellFormed(a: Address)
  {
    UnitNumberOk(a.unitNumber) && StreetNumberOk(a.streetNumber) && StreetNameOk(a.streetName)
    && PostalCodeOk(a.postalCode) && CityNameOk(a.cityName)
  }

  /** The Address constructor. Java's null is None; a thrown exception is a
      Failure naming the kind and the argument. */
  function NewAddress(
    unitNumber: Option<string>,
    streetNumber: int,
    streetName: Option<string>,
    postalCode: Option<string>,
    cityName: Option<string>): (r: Result<Address, Failure>)
    // Construction succeeds exactly when every argument is within its bound.
    ensures r.Success? <==>
      UnitNumberOk(unitNumber) && StreetNumberOk(streetNumber)
      && streetName.Some? && StreetNameOk(streetName.value)
      && postalCode.Some? && PostalCodeOk(postalCode.value)
      && cityName.Some? && CityNameOk(cityName.value)
    // On success the getters return exactly the supplied values.
    ensures r.Success? ==>
      WellFormed(r.value)
      && r.value.unitNumber == unitNumber && r.value.streetNumber == streetNumber
      && r.value.streetName == streetName.value && r.value.postalCode == postalCode.value
      && r.value.cityName == cityName.value
    // The checks run in order; the first one that fails decides the error.
    ensures r == Failure(IllegalArgument(UnitNumber)) <==> !UnitNumberOk(unitNumber)
    ensures r == Failure(IllegalArgument(StreetNumber)) <==>
      UnitNumberOk(unitNumber) && !StreetNumberOk(streetNumber)
    ensures r == Failure(NullPointer(StreetName)) <==>
      UnitNumberOk(unitNumber) && StreetNumberOk(streetNumber) && streetName.None?
    ensures r == Failure(IllegalArgument(StreetName)) <==>
      UnitNumberOk(unitNumber) && StreetNumberOk(streetNumber)
      && streetName.Some? && !StreetNameOk(streetName.value)
    ensures r == Failure(NullPointer(PostalCode)) <==>
      UnitNumberOk(unitNumber) && StreetNumberOk(streetNumber)
      && streetName.Some? && StreetNameOk(streetName.value) && postalCode.None?
    ensures r == Failure(IllegalArgument(PostalCode)) <==>
      UnitNumberOk(unitNumber) && StreetNumberOk(streetNumber)
      && streetName.Some? && StreetNameOk(streetName.value)
      && postalCode.Some? && !PostalCodeOk(postalCode.value)
    ensures r == Failure(NullPointer(CityName)) <==>
      UnitNumberOk(unitNumber) && StreetNumberOk(streetNumber)
      && streetName.Some? && StreetNameOk(streetName.value)
      && postalCode.Some? && PostalCodeOk(postalCode.value) && cityName.None?
    ensures r == Failure(IllegalArgument(CityName)) <==>
      UnitNumberOk(unitNumber) && StreetNumberOk(streetNumber)
      && streetName.Some? && StreetNameOk(streetName.value)
      && postalCode.Some? && PostalCodeOk(postalCode.value)
      && cityName.Some? && !CityNameOk(cityName.value)
    // Only a required string that is null is a NullPointer failure.
    ensures r.Failure? && r.error.NullPointer? ==>
      streetName.None? || postalCode.None? || cityName.None?
  {
    if unitNumber.Some? && (JavaLength(unitNumber.value) < MIN_UNIT_NUMBER_LENGTH || JavaLength(unitNumber.value) > MAX_UNIT_NUMBER_LENGTH) then
      Failure(IllegalArgument(UnitNumber))
    else if streetNumber <= MIN_STREET_NUMBER || streetNumber > MAX_STREET_NUMBER then
      Failure(IllegalArgument(StreetNumber))
    else if streetName.None? then
      Failure(NullPointer(StreetName))
    else if JavaLength(streetName.value) > MAX_STREET_NAME_LENGTH || JavaLength(streetName.value) < MIN_STREET_NAME_LENGTH then
      Failure(IllegalArgument(StreetName))
    else if postalCode.None? then
      Failure(NullPointer(PostalCode))
    else if JavaLength(postalCode.value) > MAX_POSTAL_CODE_LENGTH || JavaLength(postalCode.value) < MIN_POSTAL_CODE_LENGTH then
      Failure(IllegalArgument(PostalCode))
    else if cityName.None? then
      Failure(NullPointer(CityName))
    else if JavaLength(cityName.value) > MAX_CITY_NAME_LENGTH || JavaLength(cityName.value) < MIN_CITY_NAME_LENGTH then
      Failure(IllegalArgument(CityName))
    else
      Success(Address(unitNumber, streetNumber, streetName.value, postalCode.value, cityName.value))
  }

  /** Every well-formed address can be built by the constructor from its own
      fields, so WellFormed is exactly the set of constructible addresses. */
  lemma NewAddressComplete(a: Address)
    requires WellFormed(a)
    ensures NewAddress(a.unitNumber, a.streetNumber, Some(a.streetName), Some(a.postalCode), Some(a.cityName))
            == Success(a)
  {
  }

  /** The edges of the unit-number and street-number checks: a null unit is
      accepted and an empty one rejected, as is one of five characters or of
      three supplementary characters (six UTF-16 code units); 0 and 1000000 are rejected, 1 and
      999999 accepted. */
  lemma NewAddressBoundaries(streetName: string, postalCode: string, cityName: string)
    requires StreetNameOk(streetName) && PostalCodeOk(postalCode) && CityNameOk(cityName)
    ensures NewAddress(None, 1, Some(streetName), Some(postalCode), Some(cityName)).Success?
    ensures NewAddress(Some(""), 1, Some(streetName), Some(postalCode), Some(cityName))
            == Failure(IllegalArgument(UnitNumber))
    ensures NewAddress(Some("12345"), 1, Some(streetName), Some(postalCode), Some(cityName))
            == Failure(IllegalArgument(UnitNumber))
    // Lengths count UTF-16 code units: two characters outside the Basic
    // Multilingual Plane fill a unit number, four overflow it.
    ensures NewAddress(Some("\U{1F600}\U{1F600}"), 1, Some(streetName), Some(postalCode), Some(cityName)).Success?
    ensures NewAddress(Some("\U{1F600}\U{1F600}\U{1F600}"), 1, Some(streetName), Some(postalCode), Some(cityName))
            == Failure(IllegalArgument(UnitNumber))
    ensures NewAddress(None, 0, Some(streetName), Some(postalCode), Some(cityName))
            == Failure(IllegalArgument(StreetNumber))
    ensures NewAddress(None, 999999, Some(streetName), Some(postalCode), Some(cityName)).Success?
    ensures NewAddress(None, 1000000, Some(streetName), Some(postalCode), Some(cityName))
            == Failure(IllegalArgument(StreetNumber))
  {
  }
}
