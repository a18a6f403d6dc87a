/** Values shared by the three record classes: Java's null as Option, the two
    exception kinds the constructors and the price setter throw, and the
    argument each check is about. */
module Common {

  /** A Java reference that may be null. */
  datatype Option<+T> = None | Some(value: T)

  /** A constructor call that either returns an object or throws. */
  datatype Result<+T, +E> = Success(value: T) | Failure(error: E)

  /** A void call that either returns normally or throws. */
  datatype Outcome<+E> = Pass | Fail(error: E)

  /** The constructor or setter argument a failed check is about. */
  datatype Field =
    | UnitNumber | StreetNumber | StreetName | PostalCode | CityName
    | Price | PropertyAddress | Bedrooms | ResidenceType | PropertyId
    | AgencyName

  /** NullPointer: a required reference was null (NullPointerException).
      IllegalArgument: a value was present but out of range (IllegalArgumentException). */
  datatype Failure = NullPointer(field: Field) | IllegalArgument(field: Field)

  /** No element occurs twice. */
  predicate NoDuplicates<T(==)>(s: seq<T>)
  {
    forall i, j :: 0 <= i < j < |s| ==> s[i] != s[j]
  }
}
