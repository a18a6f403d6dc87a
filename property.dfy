/** A property listing. Every field is fixed at construction except the price,
    which a setter may change; the constructor and the setter both check it. */
module Properties {
  import opened Common
  import opened Text
  import opened Addresses

  // The price must be strictly above this bound.
  const MIN_PRICE_USD: real := 0.0
  const MIN_NUMBERS_OF_BEDROOM := 1
  const MAX_NUMBERS_OF_BEDROOM := 20
  const MIN_PROPERTYID_LENGTH := 1
  const MAX_PROPERTYID_LENGTH := 6

  predicate PriceOk(priceUsd: real)
  {
    priceUsd > MIN_PRICE_USD
  }

  predicate BedroomsOk(numOfBedrooms: int)
  {
    MIN_NUMBERS_OF_BEDROOM <= numOfBedrooms <= MAX_NUMBERS_OF_BEDROOM
  }

  /** One of the three residence types, in any letter case. */
  predicate KnownType(residenceType: string)
  {
    EqualsIgnoreCase(residenceType, "residence")
    || EqualsIgnoreCase(residenceType, "commercial")
    || EqualsIgnoreCase(residenceType, "retail")
  }

  predicate PropertyIdOk(propertyId: string)
  {
    MIN_PROPERTYID_LENGTH <= JavaLength(propertyId) <= MAX_PROPERTYID_LENGTH
  }

  /** The checks of the Property constructor, in the order it makes them.
      Pass means the constructor goes on to assign its fields. */
  function CheckProperty(
    priceUsd: real,
    address: Option<Address>,
    numOfBedrooms: int,
    residenceType: Option<string>,
    propertyId: Option<string>): (r: Outcome<Failure>)
    // Construction succeeds exactly when every argument is acceptable.
    ensures r.Pass? <==>
      PriceOk(priceUsd) && address.Some? && BedroomsOk(numOfBedrooms)
      && residenceType.Some? && KnownType(residenceType.value)
      && propertyId.Some? && PropertyIdOk(propertyId.value)
    // The first failing check, in the order price, address, bedrooms, type, id, decides the error.
    ensures r == Fail(IllegalArgument(Price)) <==> !PriceOk(priceUsd)
    ensures r == Fail(NullPointer(PropertyAddress)) <==> PriceOk(priceUsd) && address.None?
    ensures r == Fail(IllegalArgument(Bedrooms)) <==>
      PriceOk(priceUsd) && address.Some? && !BedroomsOk(numOfBedrooms)
    ensures r == Fail(NullPointer(ResidenceType)) <==>
      PriceOk(priceUsd) && address.Some? && BedroomsOk(numOfBedrooms) && residenceType.None?
    ensures r == Fail(IllegalArgument(ResidenceType)) <==>
      PriceOk(priceUsd) && address.Some? && BedroomsOk(numOfBedrooms)
      && residenceType.Some? && !KnownType(residenceType.value)
    ensures r == Fail(NullPointer(PropertyId)) <==>
      PriceOk(priceUsd) && address.Some? && BedroomsOk(numOfBedrooms)
      && residenceType.Some? && KnownType(residenceType.value) && propertyId.None?
    ensures r == Fail(IllegalArgument(PropertyId)) <==>
      PriceOk(priceUsd) && address.Some? && BedroomsOk(numOfBedrooms)
      && residenceType.Some? && KnownType(residenceType.value)
      && propertyId.Some? && !PropertyIdOk(propertyId.value)
    // Only a null reference argument is a NullPointer failure.
    ensures r.Fail? && r.error.NullPointer? ==>
      address.None? || residenceType.None? || propertyId.None?
  {
    if priceUsd <= MIN_PRICE_USD then
      Fail(IllegalArgument(Price))
    else if address.None? then
      Fail(NullPointer(PropertyAddress))
    else if numOfBedrooms < MIN_NUMBERS_OF_BEDROOM || numOfBedrooms > MAX_NUMBERS_OF_BEDROOM then
      Fail(IllegalArgument(Bedrooms))
    else if residenceType.None? then
      Fail(NullPointer(ResidenceType))
    else if !EqualsIgnoreCase(residenceType.value, "residence")
         && !EqualsIgnoreCase(residenceType.value, "commercial")
         && !EqualsIgnoreCase(residenceType.value, "retail") then
      Fail(IllegalArgument(ResidenceType))
    else if propertyId.None? then
      Fail(NullPointer(PropertyId))
    else if JavaLength(propertyId.value) < MIN_PROPERTYID_LENGTH || JavaLength(propertyId.value) > MAX_PROPERTYID_LENGTH then
      Fail(IllegalArgument(PropertyId))
    else
      Pass
  }

  /** The type check ignores letter case, so "Retail" and "RETAIL" are
      accepted while "house" and "" are not. */
  lemma KnownTypeExamples()
    ensures KnownType("Retail") && KnownType("RETAIL") && KnownType("Commercial")
    ensures !KnownType("house") && !KnownType("")
  {
    assert ToUpperChar('h') != ToUpperChar('r');
  }

  class Property {
    var priceUsd: real
    const address: Address
    const numOfBedrooms: int
    const hasSwimmingPool: bool
    const residenceType: string
    const propertyId: string

    /** What holds of every Property for its whole lifetime. */
    ghost predicate Valid()
      reads this
    {
      PriceOk(priceUsd) && BedroomsOk(numOfBedrooms) && KnownType(residenceType)
      && PropertyIdOk(propertyId)
    }

    /** The assignments the constructor makes once its checks passed. */
    constructor (priceUsd: real, address: Address, numOfBedrooms: int, hasSwimmingPool: bool,
                 residenceType: string, propertyId: string)
      requires CheckProperty(priceUsd, Some(address), numOfBedrooms, Some(residenceType), Some(propertyId)).Pass?
      ensures Valid()
      ensures this.priceUsd == priceUsd && this.address == address
      ensures this.numOfBedrooms == numOfBedrooms && this.hasSwimmingPool == hasSwimmingPool
      ensures this.residenceType == residenceType && this.propertyId == propertyId
    {
      this.priceUsd := priceUsd;
      this.address := address;
      this.numOfBedrooms := numOfBedrooms;
      this.hasSwimmingPool := hasSwimmingPool;
      this.residenceType := residenceType;
      this.propertyId := propertyId;
    }

    /** setPriceUsd: a non-positive price throws before the assignment, so the
        price is left as it was; a positive one replaces it. The other fields
        are constants. */
    method SetPriceUsd(priceUsd: int) returns (r: Outcome<Failure>)
      requires Valid()
      modifies this
      ensures Valid()
      ensures r.Fail? <==> priceUsd as real <= MIN_PRICE_USD
      ensures r.Fail? ==> r.error == IllegalArgument(Price) && this.priceUsd == old(this.priceUsd)
      ensures r.Pass? ==> this.priceUsd == priceUsd as real
    {
      if priceUsd as real <= MIN_PRICE_USD {
        return Fail(IllegalArgument(Price));
      }
      this.priceUsd := priceUsd as real;
      r := Pass;
    }
  }

  /** The Property constructor as a whole: throws what CheckProperty reports,
      otherwise returns a new object whose getters return exactly the
      arguments, the residence type in the caller's own letter case. */
  method NewProperty(
    priceUsd: real,
    address: Option<Address>,
    numOfBedrooms: int,
    hasSwimmingPool: bool,
    residenceType: Option<string>,
    propertyId: Option<string>) returns (r: Result<Property, Failure>)
    ensures r.Failure? <==> CheckProperty(priceUsd, address, numOfBedrooms, residenceType, propertyId).Fail?
    ensures r.Failure? ==>
      Fail(r.error) == CheckProperty(priceUsd, address, numOfBedrooms, residenceType, propertyId)
    ensures r.Success? ==>
      fresh(r.value) && r.value.Valid()
      && r.value.priceUsd == priceUsd && r.value.address == address.value
      && r.value.numOfBedrooms == numOfBedrooms && r.value.hasSwimmingPool == hasSwimmingPool
      && r.value.residenceType == residenceType.value && r.value.propertyId == propertyId.value
  {
    var check := CheckProperty(priceUsd, address, numOfBedrooms, residenceType, propertyId);
    if check.Fail? {
      return Failure(check.error);
    }
    var p := new Property(priceUsd, address.value, numOfBedrooms, hasSwimmingPool,
                          residenceType.value, propertyId.value);
    r := Success(p);
  }
}
