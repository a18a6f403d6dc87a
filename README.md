# Real-estate catalogue, modelled in Dafny

The catalogue has three classes. An `Address` is an immutable postal address whose constructor
checks its five fields. A `Property` is a listing: price, address, bedroom count, pool flag,
residence type and id. All of its fields are fixed except the price, which a setter may change.
An `Agency` keeps properties in a map from property id to property. It offers add, remove and
lookup, the total of all prices, four filtering scans, and a text report of the properties of
one residence type.

The model has five modules, one file each:

- `common.dfy` (`Common`): Java's `null` as `Option`, a thrown constructor exception as
  `Result.Failure`, a void call that may throw as `Outcome`. `Failure` is
  `NullPointer(field)` for `NullPointerException` and `IllegalArgument(field)` for
  `IllegalArgumentException`. The field says which check fired.
- `text.dfy` (`Text`): the Java library calls the catalogue makes. These are
  `String.length()`, `Character.isWhitespace`, `toUpperCase`, `toLowerCase`,
  `String.equalsIgnoreCase` and `isBlank`, all but the first over ASCII, and the decimal
  text that `StringBuilder.append(int)` writes. `JavaLength` counts UTF-16 code units as
  `length()` does, so a character outside the Basic Multilingual Plane counts twice. Every
  length bound of the constructors is checked with it. That decimal
  text has a parse-back partner, `ParseInt`.
- `address.dfy` (`Addresses`): `Address` is a datatype (a value). Its constructor is the
  total function `NewAddress`. The datatype's destructors are the getters.
- `property.dfy` (`Properties`): `Property` is a class. Its five fixed fields are `const`
  and `priceUsd` is a `var`. `CheckProperty` holds the constructor's checks in their order.
  `NewProperty` is the whole constructor: it checks, then allocates. `SetPriceUsd` is the
  setter.
- `agency.dfy` (`Agencies`): `Agency` is a class with a `map<string, Property>` field that
  `AddProperty` and `RemoveProperty` reassign. The queries are methods with loops over the
  keys. `FormatProperty`, `CapitalizeWords` and `NoTypeFoundMessage` are the report builders.

A Java `HashMap` iterates in an unspecified order. Each scan therefore takes the keys in an
arbitrary order, using Dafny's `:|`. Each scan that returns a list also returns that order as a
ghost sequence `order`. The contract says `order` lists every matching key exactly once, and
that the result follows `order`, one entry per key: the property itself for
`PropertiesWithPools` and `PropertiesBetween`, its address for `PropertiesOn`, and its
numbered report line for `ListingsOfType`, and for `PropertiesOfType` after its header line. The report numbers its lines
along this same order.

The registry invariant `Agency.Valid()` says every property is stored under its own id.
`Property.Valid()` says the field bounds hold, including price > 0. The constructor
establishes both invariants and every method keeps them.

Behaviours of the code worth noting, all modelled as written:

- The agency-name guard at `src/codes/Agency.java:26` joins `== null` and the length
  bounds with `&&`, although the constants at lines 16-17 set a 1 to 31 bound. So it never rejects a non-null name, and a null name throws
  `NullPointerException` when the guard reads its length. `Agency.Create` models exactly
  this. The 1 to 31 bound is not enforced.
- `capitalizeWords` turns each whitespace character into one space. It does not collapse
  runs of whitespace.
- The unit clause of a report line needs a unit that is present and not blank.
- The singular "bedroom" is used for every count that is not greater than 1.

## Model

| member | source | states |
|---|---|---|
| `Addresses.NewAddress` | src/codes/Address.java:38-95 | Construction succeeds iff: lengths counted in UTF-16 code units, the unit is null or has length 1 to 4, 0 < street number ≤ 999999, the street name is non-null with 1 to 20 characters, the postal code is non-null with 5 to 6, and the city is non-null with 1 to 30. On success every getter returns the supplied value. Otherwise the error is decided by the first failing check, in the order unit, street number, street name, postal code, city. A null required string gives NullPointer; an out-of-range value gives IllegalArgument. |
| `Addresses.NewAddressComplete` | src/codes/Address.java:44-94 | Every address whose fields are within bounds is built by the constructor from its own fields. So the well-formed addresses are exactly the constructible ones. |
| `Addresses.NewAddressBoundaries` | src/codes/Address.java:44-53 | A null unit is accepted. An empty or 5-character unit is rejected. Lengths are UTF-16 lengths: two emoji, at 4 code units, are accepted, and three emoji, at 6 code units, are rejected. Street numbers 0 and 1000000 are rejected and 1 and 999999 accepted. |
| `Properties.CheckProperty` | src/codes/Property.java:44-72 | The checks pass iff: price > 0, the address is non-null, 1 ≤ bedrooms ≤ 20, the type is non-null and equal, ignoring case, to "residence", "commercial" or "retail", and the id is non-null with a UTF-16 length of 1 to 6. The first failing check decides the error, in the order price, address, bedrooms, type, id. A null address, type or id gives NullPointer; a bad value gives IllegalArgument. |
| `Properties.KnownTypeExamples` | src/codes/Property.java:58-64 | The type check ignores case: "Retail", "RETAIL" and "Commercial" pass, while "house" and "" fail. |
| `Properties.Property.constructor` | src/codes/Property.java:74-79 | After the checks pass, every field holds exactly its argument. The type keeps the caller's casing. The object invariant `Valid()` holds. |
| `Properties.NewProperty` | src/codes/Property.java:37-80 | The constructor throws exactly what `CheckProperty` reports. Otherwise it returns a fresh `Valid()` object whose getters return the arguments. |
| `Properties.Property.SetPriceUsd` | src/codes/Property.java:140-147 | A price ≤ 0 gives IllegalArgument and leaves the price unchanged. A positive price replaces the old one. The other fields are constants, so `Valid()`, and with it price > 0, holds for the object's whole lifetime. |
| `Agencies.Agency.constructor` | src/codes/Agency.java:23-34 | A new agency has the given name and an empty registry, whose total is 0. |
| `Agencies.Agency.Create` | src/codes/Agency.java:23-34 | The constructor fails, with NullPointer, iff the name is null. Every non-null name is accepted, whatever its length. |
| `Agencies.Agency.GetProperty` | src/codes/Agency.java:62-65 | Returns non-null iff the id is a key. A non-null result is the stored property, and its id is the one asked for. |
| `Agencies.Agency.AddProperty` | src/codes/Agency.java:40-46 | A null argument leaves the map unchanged. Otherwise the property is stored under its id, overwriting any earlier entry, and every other key keeps its entry. `GetProperty` of the id then returns the property. The registry invariant is preserved. The total grows by the new price, less the price of any entry it replaced. |
| `Agencies.Agency.RemoveProperty` | src/codes/Agency.java:52-55 | After the call the id is absent and every other entry is unchanged. If the id was absent, nothing changes, so a second removal is a no-op. The total falls by the removed price. |
| `Agencies.Agency.TotalPropertyValues` | src/codes/Agency.java:71-79 | The result is the sum of all stored prices, and 0 for an empty registry. |
| `Agencies.SumPricesRemove` | src/codes/Agency.java:74-77 | Any stored entry can be taken out of the sum first. So the total does not depend on the order the loop visits the values. |
| `Agencies.SumPricesAgree` | src/codes/Agency.java:74-77 | Two maps that hold the same objects under a set of keys have the same sum over those keys. |
| `Agencies.SumPricesPut` | src/codes/Agency.java:44 | Storing p under an id changes the sum by p's price minus the price it replaces. |
| `Agencies.SumPricesRemoveKey` | src/codes/Agency.java:54 | Removing an id lowers the sum by the price stored under it, if any. |
| `Agencies.Agency.PropertiesWithPools` | src/codes/Agency.java:85-108 | The result is null iff no stored property has a pool. Otherwise it holds exactly the properties with a pool, each once, in scan order. |
| `Agencies.Agency.PropertiesBetween` | src/codes/Agency.java:116-142 | The result is null iff no price lies in [min, max], both ends included. Otherwise it holds exactly the properties priced in that range, each once, in scan order. min > max always gives null. |
| `Agencies.Agency.PropertiesOn` | src/codes/Agency.java:150-173 | The result is null iff no street name equals the given one ignoring case. A null street name matches nothing. Otherwise it holds the address of each matching property, in scan order. |
| `Agencies.Agency.PropertiesWithBedrooms` | src/codes/Agency.java:182-209 | The result is null iff no bedroom count lies in [min, max], both ends included. Otherwise it is exactly the registry restricted to the matching entries, keyed by property id. min > max always gives null. |
| `Agencies.Agency.ListingsOfType` | src/codes/Agency.java:219-232 | The scan yields one line per property whose type equals the given one ignoring case. Each such property appears once, and the line for the i-th match in scan order is its formatted line numbered i. The scan yields no line iff no property has the type. |
| `Agencies.Agency.PropertiesOfType` | src/codes/Agency.java:217-250 | With no match the result is exactly `["Type: " + upper(t), "<none found>"]`, and the header has no trailing newline. Otherwise the result is `"Type: " + upper(t) + "\n"` followed by one line per match, numbered 1..k along the scan order. The result is the "<none found>" message iff no property has the type, and it always starts with the header. |
| `Agencies.ReportLinesAt` | src/codes/Agency.java:223-231 | In the list of report lines, line i belongs to the i-th key of the scan order and carries the number i + 1. |
| `Agencies.NoTypeFoundMessage` | src/codes/Agency.java:345-355 | Exactly two lines: the header without a newline, then "<none found>". |
| `Agencies.FormatProperty` | src/codes/Agency.java:258-303 | Builds one report line: the number, ") Property ", the upper-cased id and ": "; then "unit #X at " when the unit is non-null and non-blank; then the street number, the capitalized street name, the upper-cased postal code, " in " and the capitalized city; then " (", the bedroom count, " bedrooms" or " bedroom", the pool clause, "): $", the truncated price and ".\n". Its properties are stated by `FormatPropertyLayout` and `FormatPropertyExample`. |
| `Agencies.TitleCase` | src/codes/Agency.java:282-286 | The text `capitalizeWords` yields for a street or city name. It has the input's length, has a space exactly where the input has whitespace, and each other character equals the input character up to case. |
| `Agencies.TitleCaseIdempotent` | src/codes/Agency.java:311-338 | Capitalizing words twice gives the same text as capitalizing them once. |
| `Agencies.FormatPropertyLayout` | src/codes/Agency.java:258-303 | A report line starts with its number, ") Property " and the upper-cased id. Right after that comes "unit #" exactly when the unit is non-null and non-blank, and then the segment is "unit #X at "; otherwise the street number comes next. The line ends with the bedroom count, then "bedrooms" iff the count is greater than 1 (else "bedroom"), then " plus pool" iff there is a pool, then "): $", the truncated price and ".\n". |
| `Agencies.LineAfterHead` | src/codes/Agency.java:273-280 | After the head of a line comes the unit clause when there is a unit to show. Otherwise the street number comes next, and its text cannot begin with "unit #". |
| `Agencies.FormatPropertyExample` | src/codes/Agency.java:258-303 | A residence P1 at 12 Elm St, A1A1A1, Springfield, with 3 bedrooms, no pool and price 250000, formats as "1) Property P1: 12 Elm St A1A1A1 in Springfield (3 bedrooms): $250000.\n" when numbered 1. |
| `Agencies.TruncateToInt` | src/codes/Agency.java:265 | The `(int)` cast truncates toward zero inside the range of int: for x ≥ 0, r ≤ x < r + 1. It saturates at the int bounds. |
| `Agencies.CapitalizeWords` | src/codes/Agency.java:311-338 | The output has the input's length. Every whitespace character becomes ' '. A character that starts the string or follows whitespace is upper-cased, and every other character is lower-cased. |
| `Text.NatToStringRoundTrip` | src/codes/Agency.java:300 | A number is appended as a non-empty string of digits without a leading zero, and those digits read back as the number. |
| `Text.JavaLength` | src/codes/Address.java:44 | `length()` counts UTF-16 code units: at least one per character and at most two. It is exactly the character count for text inside the Basic Multilingual Plane, and twice that for text made only of supplementary characters. |
| `Text.IntToStringRoundTrip` | src/codes/Agency.java:267 | An int is appended as an optional minus sign (present iff negative) followed by digits. `ParseInt` reads it back as the same int. |
| `Agencies.Agency.ScanFacts` | src/codes/Agency.java:14 | Because every property is stored under its own id, different keys hold different properties. So a scan over distinct keys lists each stored property at most once. |

## Left out

- Floating point: prices are `real`, not `double`. Sums are exact, with no rounding, and a NaN price, which the source's `priceUSD <= 0` check lets through, cannot be expressed.
- `HashMap` iteration order: scans take the keys in an arbitrary order and report that order as a ghost sequence. No particular order is fixed.
- Unicode: case mapping, `Character.isWhitespace`, `equalsIgnoreCase` and `isBlank` are modelled over ASCII only. String lengths, by contrast, are UTF-16 lengths, as in Java.
- Agency name: the source never enforces the 1 to 31 bound (see above), so the model does not either. The agency has no getter for its name in the source, and none here.
- Null arguments where the source passes them on to the `HashMap`: `removeProperty(null)` and `getProperty(null)` take non-null ids here. In the source they are a no-op and a null result, because no key is null.
- `getPropertiesOfType(null)` is not modelled. It throws `NullPointerException` at `toUpperCase`, and the model's argument is a non-null string.
- Java `int` width: street number, bedroom count, the report counter and the `setPriceUsd` argument are unbounded integers. Their checked ranges lie well inside 32 bits. The counter here does not wrap after 2^31 matches.
- Exception message text is not modelled. Only the exception kind and the argument it concerns are.
- Return types: `ArrayList`, `Property[]` and `HashMap` results are all `seq` or `map` values. A `null` return is `None`.
- Object identity: `Address` is a value. `Property` is an object, so a registered property whose price is changed through `SetPriceUsd` changes the agency's total. Nothing else is aliased.
- Properties.Property.Valid: does not include the well-formedness of the address. The source's `Property` never checks it, and every `Address` in the source is well-formed because its constructor checks it.
