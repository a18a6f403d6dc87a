/** The agency: a registry of properties keyed by property id, with add,
    remove and lookup, the total of all prices, four filtering scans that
    answer null instead of an empty collection, and a text report of the
    properties of one type. */
module Agencies {
  import opened Common
  import opened Text
  import opened Addresses
  import opened Properties

  const INT_MIN := -0x8000_0000
  const INT_MAX := 0x7fff_ffff

  // ---------------------------------------------------------------------
  // Sum of prices over a set of keys (the value of getTotalPropertyValues)

  /** The sum of the prices stored under the given keys, in any order. */
  ghost function SumPrices(m: map<string, Property>, keys: set<string>): real
    requires keys <= m.Keys
    reads m.Values
    decreases keys
  {
    if keys == {} then 0.0
    else
      var k :| k in keys;
      m[k].priceUsd + SumPrices(m, keys - {k})
  }

  /** Any key can be taken out first: the sum does not depend on the order. */
  lemma {:induction false} SumPricesRemove(m: map<string, Property>, keys: set<string>, k: string)
    requires keys <= m.Keys && k in keys
    ensures SumPrices(m, keys) == m[k].priceUsd + SumPrices(m, keys - {k})
    decreases keys
  {
    var j :| j in keys && SumPrices(m, keys) == m[j].priceUsd + SumPrices(m, keys - {j});
    if j != k {
      SumPricesRemove(m, keys - {j}, k);
      SumPricesRemove(m, keys - {k}, j);
      assert keys - {j} - {k} == keys - {k} - {j};
    }
  }

  /** Two maps that hold the same objects under the given keys have the same sum there. */
  lemma {:induction false} SumPricesAgree(m1: map<string, Property>, m2: map<string, Property>, keys: set<string>)
    requires keys <= m1.Keys && keys <= m2.Keys
    requires forall k :: k in keys ==> m1[k] == m2[k]
    ensures SumPrices(m1, keys) == SumPrices(m2, keys)
    decreases keys
  {
    if keys != {} {
      var k :| k in keys;
      SumPricesRemove(m1, keys, k);
      SumPricesRemove(m2, keys, k);
      SumPricesAgree(m1, m2, keys - {k});
    }
  }

  /** Putting p under id adds p's price and takes away the price it replaces. */
  lemma SumPricesPut(m: map<string, Property>, id: string, p: Property)
    ensures SumPrices(m[id := p], m[id := p].Keys)
            == SumPrices(m, m.Keys) + p.priceUsd - (if id in m then m[id].priceUsd else 0.0)
  {
    var m' := m[id := p];
    SumPricesRemove(m', m'.Keys, id);
    SumPricesAgree(m', m, m'.Keys - {id});
    if id in m {
      SumPricesRemove(m, m.Keys, id);
      assert m'.Keys - {id} == m.Keys - {id};
    } else {
      assert m'.Keys - {id} == m.Keys;
    }
  }

  /** Removing id takes away the price stored under it, if any. */
  lemma SumPricesRemoveKey(m: map<string, Property>, id: string)
    ensures SumPrices(m - {id}, (m - {id}).Keys)
            == SumPrices(m, m.Keys) - (if id in m then m[id].priceUsd else 0.0)
  {
    var m' := m - {id};
    if id in m {
      SumPricesRemove(m, m.Keys, id);
      assert m'.Keys == m.Keys - {id};
      SumPricesAgree(m', m, m'.Keys);
    } else {
      assert m' == m;
    }
  }

  // ---------------------------------------------------------------------
  // The match conditions of the four scans and of the type report

  predicate HasPool(p: Property)
  {
    p.hasSwimmingPool
  }

  /** Inclusive at both ends. */
  predicate PriceBetween(p: Property, minUsd: real, maxUsd: real)
    reads p
  {
    p.priceUsd >= minUsd && p.priceUsd <= maxUsd
  }

  /** equalsIgnoreCase against a street name that may be null; null matches nothing. */
  predicate OnStreet(p: Property, streetName: Option<string>)
  {
    streetName.Some? && EqualsIgnoreCase(p.address.streetName, streetName.value)
  }

  /** Inclusive at both ends. */
  predicate BedroomsBetween(p: Property, minBedrooms: int, maxBedrooms: int)
  {
    p.numOfBedrooms >= minBedrooms && p.numOfBedrooms <= maxBedrooms
  }

  predicate OfType(p: Property, propertyType: string)
  {
    EqualsIgnoreCase(p.residenceType, propertyType)
  }

  // ---------------------------------------------------------------------
  // Text of the type report

  /** Java's (int) cast of a double: truncation toward zero, saturating at
      the bounds of int. */
  function TruncateToInt(x: real): (r: int)
    ensures INT_MIN <= r <= INT_MAX
    ensures INT_MIN as real < x < INT_MAX as real && x >= 0.0 ==> r as real <= x < r as real + 1.0
    ensures INT_MIN as real < x < INT_MAX as real && x < 0.0 ==> r as real - 1.0 < x <= r as real
    ensures x >= INT_MAX as real ==> r == INT_MAX
    ensures x <= INT_MIN as real ==> r == INT_MIN
  {
    if x >= INT_MAX as real then INT_MAX
    else if x <= INT_MIN as real then INT_MIN
    else if x >= 0.0 then x.Floor
    else -((-x).Floor)
  }

  /** A character begins a word when it is first or follows whitespace. */
  predicate StartsWord(s: string, i: int)
    requires 0 <= i < |s|
  {
    i == 0 || IsWhitespace(s[i - 1])
  }

  /** What capitalizeWords writes for the character at position i. */
  function TitleChar(s: string, i: int): char
    requires 0 <= i < |s|
  {
    if IsWhitespace(s[i]) then ' '
    else if StartsWord(s, i) then ToUpperChar(s[i])
    else ToLowerChar(s[i])
  }

  /** The result of capitalizeWords, character by character. */
  function TitleCase(s: string): (r: string)
    ensures |r| == |s|
    ensures forall i :: 0 <= i < |s| ==> (IsWhitespace(s[i]) <==> r[i] == ' ')
    ensures forall i :: 0 <= i < |s| ==> EqualsIgnoreCase([r[i]], [s[i]]) || IsWhitespace(s[i])
  {
    seq(|s|, i requires 0 <= i < |s| => TitleChar(s, i))
  }

  /** Capitalizing words twice gives what capitalizing them once gives: the
      whitespace positions, and so the word starts, are kept, and upper- and
      lower-casing are idempotent. */
  lemma TitleCaseIdempotent(s: string)
    ensures TitleCase(TitleCase(s)) == TitleCase(s)
  {
    var t := TitleCase(s);
    forall i | 0 <= i < |s|
      ensures TitleChar(t, i) == t[i]
    {
      if i > 0 {
        assert IsWhitespace(t[i - 1]) <==> IsWhitespace(s[i - 1]);
      }
    }
  }

  /** capitalizeWords: one output character per input character (runs of
      whitespace are not collapsed); whitespace becomes a space, the first
      character of each word is upper-cased and every other one lower-cased. */
  method CapitalizeWords(input: string) returns (r: string)
    ensures |r| == |input|
    ensures forall i :: 0 <= i < |input| && IsWhitespace(input[i]) ==> r[i] == ' '
    ensures forall i :: 0 <= i < |input| && !IsWhitespace(input[i]) && StartsWord(input, i) ==>
      r[i] == ToUpperChar(input[i])
    ensures forall i :: 0 <= i < |input| && !IsWhitespace(input[i]) && !StartsWord(input, i) ==>
      r[i] == ToLowerChar(input[i])
    ensures r == TitleCase(input)
  {
    var sb: string := [];
    var capitalizeNext := true;
    var i := 0;
    while i < |input|
      invariant 0 <= i <= |input|
      invariant |sb| == i
      invariant forall j :: 0 <= j < i ==> sb[j] == TitleChar(input, j)
      invariant capitalizeNext == (i == 0 || IsWhitespace(input[i - 1]))
    {
      var ch := input[i];
      if IsWhitespace(ch) {
        sb := sb + [' '];
        capitalizeNext := true;
      } else if capitalizeNext {
        sb := sb + [ToUpperChar(ch)];
        capitalizeNext := false;
      } else {
        sb := sb + [ToLowerChar(ch)];
      }
      i := i + 1;
    }
    r := sb;
  }

  /** A unit number is printed when it is present and not blank. */
  predicate HasUnit(unitNumber: Option<string>)
  {
    unitNumber.Some? && !IsBlank(unitNumber.value)
  }

  /** The start of a report line: its number, and the property id in upper case. */
  function LineHead(propertyCount: int, propertyId: string): string
  {
    IntToString(propertyCount) + ") " + "Property " + ToUpper(propertyId) + ": "
  }

  /** The end of a report line: bedrooms, pool, and the truncated price. */
  function LineTail(numOfBedrooms: int, hasSwimmingPool: bool, priceUsd: real): string
  {
    " (" + IntToString(numOfBedrooms) + (if numOfBedrooms > 1 then " bedrooms" else " bedroom")
    + (if hasSwimmingPool then " plus pool): $" else "): $")
    + IntToString(TruncateToInt(priceUsd)) + ".\n"
  }

  /** The unit clause, printed only when there is a unit to show. */
  function UnitPart(unitNumber: Option<string>): string
  {
    if HasUnit(unitNumber) then "unit #" + unitNumber.value + " at " else ""
  }

  /** Street number, street, postal code and city. */
  function AddressPart(address: Address): string
  {
    IntToString(address.streetNumber) + " " + TitleCase(address.streetName) + " "
    + ToUpper(address.postalCode) + " in " + TitleCase(address.cityName)
  }

  /** formatProperty: one numbered line of the type report. */
  function FormatProperty(property: Property, propertyCount: int): string
    reads property
  {
    LineHead(propertyCount, property.propertyId) + UnitPart(property.address.unitNumber)
    + AddressPart(property.address)
    + LineTail(property.numOfBedrooms, property.hasSwimmingPool, property.priceUsd)
  }

  /** The shape of a report line: it starts with its number and the upper-cased
      id; right after that comes "unit #" exactly when the unit number is
      present and not blank, otherwise the street number; it ends with the
      bedroom count ("bedroom" for at most one), " plus pool" when there is a
      pool, and the truncated price followed by ".\n". */
  lemma FormatPropertyLayout(property: Property, propertyCount: int)
    ensures StartsWith(FormatProperty(property, propertyCount), LineHead(propertyCount, property.propertyId))
    ensures var rest := FormatProperty(property, propertyCount)[|LineHead(propertyCount, property.propertyId)|..];
      (HasUnit(property.address.unitNumber) <==> StartsWith(rest, "unit #"))
      && (HasUnit(property.address.unitNumber) ==>
            StartsWith(rest, "unit #" + property.address.unitNumber.value + " at "))
      && (!HasUnit(property.address.unitNumber) ==>
            StartsWith(rest, IntToString(property.address.streetNumber) + " "))
    ensures EndsWith(FormatProperty(property, propertyCount),
                     LineTail(property.numOfBedrooms, property.hasSwimmingPool, property.priceUsd))
  {
    var tail := LineTail(property.numOfBedrooms, property.hasSwimmingPool, property.priceUsd);
    LineEnds(LineHead(propertyCount, property.propertyId), UnitPart(property.address.unitNumber),
             AddressPart(property.address), tail);
    LineAfterHead(property.address, AddressPart(property.address), tail);
  }

  /** How the head and the tail of a report line sit in the line. */
  lemma LineEnds(head: string, unit: string, street: string, tail: string)
    ensures StartsWith(head + unit + street + tail, head)
    ensures (head + unit + street + tail)[|head|..] == unit + street + tail
    ensures EndsWith(head + unit + street + tail, tail)
  {
    var line := head + unit + street + tail;
    assert line[..|head|] == head;
    assert line[|head|..] == unit + street + tail;
    assert line[|line| - |tail|..] == tail;
  }

  /** The street part of a line begins with the street number and a space. */
  lemma AddressPartStart(address: Address)
    ensures StartsWith(AddressPart(address), IntToString(address.streetNumber) + " ")
  {
    var number := IntToString(address.streetNumber) + " ";
    assert AddressPart(address)[..|number|] == number;
  }

  /** What follows the head of a report line: the unit clause when there is one,
      and otherwise the street number, which cannot begin with "unit #". */
  lemma LineAfterHead(address: Address, street: string, tail: string)
    requires street == AddressPart(address)
    ensures var rest := UnitPart(address.unitNumber) + street + tail;
      (HasUnit(address.unitNumber) <==> StartsWith(rest, "unit #"))
      && (HasUnit(address.unitNumber) ==> StartsWith(rest, UnitPart(address.unitNumber)))
      && (!HasUnit(address.unitNumber) ==> StartsWith(rest, IntToString(address.streetNumber) + " "))
  {
    AddressPartStart(address);
    IntToStringRoundTrip(address.streetNumber);
    UnitFirst(UnitPart(address.unitNumber), IntToString(address.streetNumber) + " ", street, tail,
              HasUnit(address.unitNumber));
  }

  /** The string fact behind LineAfterHead, with the parts left abstract. */
  lemma UnitFirst(unit: string, number: string, street: string, tail: string, hasUnit: bool)
    requires hasUnit ==> StartsWith(unit, "unit #")
    requires !hasUnit ==> unit == []
    requires StartsWith(street, number) && number != [] && number[0] != 'u'
    ensures var rest := unit + street + tail;
      (hasUnit <==> StartsWith(rest, "unit #"))
      && (hasUnit ==> StartsWith(rest, unit))
      && (!hasUnit ==> StartsWith(rest, number))
  {
    var rest := unit + street + tail;
    if hasUnit {
      assert rest[..|unit|] == unit;
      assert rest[..6] == unit[..6];
    } else {
      assert rest == street + tail;
      assert rest[..|number|] == street[..|number|];
      assert rest[0] == number[0];
    }
  }

  /** The report header, without the newline that follows it when there are matches. */
  function TypeHeader(propertyType: string): string
  {
    "Type: " + ToUpper(propertyType)
  }

  /** getNoTypeFoundMessage: the header, with no trailing newline, and the marker line. */
  function NoTypeFoundMessage(propertyType: string): (r: seq<string>)
    ensures |r| == 2 && r[0] == TypeHeader(propertyType) && r[1] == "<none found>"
  {
    ["Type: " + ToUpper(propertyType), "<none found>"]
  }

  /** The numbered report lines for the properties stored under `order`, in that order. */
  ghost function ReportLines(m: map<string, Property>, order: seq<string>): seq<string>
    requires forall id :: id in order ==> id in m
    reads m.Values
    decreases |order|
  {
    if order == [] then []
    else ReportLines(m, order[..|order| - 1]) + [FormatProperty(m[order[|order| - 1]], |order|)]
  }

  /** Line i of the report is the property under order[i], numbered i + 1. */
  lemma {:induction false} ReportLinesAt(m: map<string, Property>, order: seq<string>, i: int)
    requires forall id :: id in order ==> id in m
    requires 0 <= i < |order|
    ensures |ReportLines(m, order)| == |order|
    ensures ReportLines(m, order)[i] == FormatProperty(m[order[i]], i + 1)
    decreases |order|
  {
    var prefix := order[..|order| - 1];
    ReportLinesLength(m, prefix);
    if i < |order| - 1 {
      ReportLinesAt(m, prefix, i);
    }
  }

  lemma {:induction false} ReportLinesLength(m: map<string, Property>, order: seq<string>)
    requires forall id :: id in order ==> id in m
    ensures |ReportLines(m, order)| == |order|
    decreases |order|
  {
    if order != [] {
      ReportLinesLength(m, order[..|order| - 1]);
    }
  }

  /** The example listing: "1) Property P1: 12 Elm St A1A1A1 in Springfield
      (3 bedrooms): $250000.\n" for a residence without pool or unit. */
  lemma FormatPropertyExample(p: Property)
    requires p.priceUsd == 250000.0 && p.numOfBedrooms == 3 && !p.hasSwimmingPool
    requires p.propertyId == "P1"
    requires p.address == Address(None, 12, "Elm St", "A1A1A1", "Springfield")
    ensures FormatProperty(p, 1)
            == "1) Property P1: " + "12 Elm St A1A1A1 in Springfield" + " (3 bedrooms): $250000.\n"
  {
    ExampleHead();
    ExampleAddress(p.address);
    ExampleTail();
  }

  lemma ExampleHead()
    ensures LineHead(1, "P1") == "1) Property P1: "
  {
    assert ToUpper("P1") == "P1";
  }

  lemma ExampleAddress(a: Address)
    requires a == Address(None, 12, "Elm St", "A1A1A1", "Springfield")
    ensures UnitPart(a.unitNumber) == ""
    ensures AddressPart(a) == "12 Elm St A1A1A1 in Springfield"
  {
    ExampleWords();
    assert AddressPart(a) == "12" + " " + "Elm St" + " " + "A1A1A1" + " in " + "Springfield";
  }

  lemma ExampleWords()
    ensures TitleCase("Elm St") == "Elm St"
    ensures TitleCase("Springfield") == "Springfield"
    ensures ToUpper("A1A1A1") == "A1A1A1"
    ensures IntToString(12) == "12"
  {
  }

  lemma ExampleTail()
    ensures LineTail(3, false, 250000.0) == " (3 bedrooms): $250000.\n"
  {
    assert IntToString(3) == "3";
    assert TruncateToInt(250000.0) == 250000;
    ExamplePrice();
  }

  lemma ExamplePrice()
    ensures IntToString(250000) == "250000"
  {
  }

  // ---------------------------------------------------------------------
  // The agency

  class Agency {
    const agencyName: string
    var properties: map<string, Property>

    /** Every property is stored under its own id. */
    ghost predicate Valid()
      reads this
    {
      forall id :: id in properties ==> properties[id].propertyId == id
    }

    /** The sum of the stored prices. */
    ghost function Total(): real
      reads this, properties.Values
    {
      SumPrices(properties, properties.Keys)
    }

    /** A new agency with no properties. */
    constructor (agencyName: string)
      ensures Valid() && this.agencyName == agencyName && properties == map[]
      ensures Total() == 0.0
    {
      this.agencyName := agencyName;
      properties := map[];
    }

    /** The Agency constructor: its guard joins a null test and the length
        bounds with "and", so every non-null name is accepted, and a null name
        throws NullPointerException when the guard asks for its length. */
    static method Create(agencyName: Option<string>) returns (r: Result<Agency, Failure>)
      ensures r.Failure? <==> agencyName.None?
      ensures r.Failure? ==> r.error == NullPointer(AgencyName)
      ensures r.Success? ==>
        fresh(r.value) && r.value.Valid() && r.value.agencyName == agencyName.value
        && r.value.properties == map[]
    {
      if agencyName.None? {
        return Failure(NullPointer(AgencyName));
      }
      var a := new Agency(agencyName.value);
      r := Success(a);
    }

    /** getProperty: the property stored under the id, or null. */
    function GetProperty(propertyId: string): (r: Property?)
      requires Valid()
      reads this
      ensures r != null <==> propertyId in properties
      ensures r != null ==> r == properties[propertyId] && r.propertyId == propertyId
    {
      if propertyId in properties then properties[propertyId] else null
    }

    /** addProperty: a null argument changes nothing; otherwise the property is
        stored under its id, replacing any property stored there before, and
        no other entry changes. */
    method AddProperty(property: Property?)
      requires Valid()
      modifies this
      ensures Valid()
      ensures property == null ==> properties == old(properties)
      ensures property != null ==> properties == old(properties)[property.propertyId := property]
      ensures property != null ==> GetProperty(property.propertyId) == property
      ensures forall id :: property != null && id != property.propertyId ==>
        GetProperty(id) == old(GetProperty(id))
      ensures property != null ==>
        Total() == old(Total()) + property.priceUsd
                   - (if property.propertyId in old(properties)
                      then old(properties)[property.propertyId].priceUsd else 0.0)
    {
      if property != null {
        SumPricesPut(properties, property.propertyId, property);
        properties := properties[property.propertyId := property];
      }
    }

    /** removeProperty: the id is absent afterwards and every other entry is
        unchanged; removing an absent id changes nothing, so a second removal
        of the same id is a no-op. */
    method RemoveProperty(propertyId: string)
      requires Valid()
      modifies this
      ensures Valid()
      ensures properties == old(properties) - {propertyId}
      ensures GetProperty(propertyId) == null
      ensures propertyId !in old(properties) ==> properties == old(properties)
      ensures Total() == old(Total()) - (if propertyId in old(properties)
                                         then old(properties)[propertyId].priceUsd else 0.0)
    {
      SumPricesRemoveKey(properties, propertyId);
      properties := properties - {propertyId};
    }

    /** getTotalPropertyValues: the sum of the stored prices, 0 when there are none. */
    method TotalPropertyValues() returns (total: real)
      ensures total == Total()
      ensures properties == map[] ==> total == 0.0
    {
      total := 0.0;
      var remaining := properties.Keys;
      while remaining != {}
        invariant remaining <= properties.Keys
        invariant total + SumPrices(properties, remaining) == Total()
        decreases remaining
      {
        var id :| id in remaining;
        SumPricesRemove(properties, remaining, id);
        total := total + properties[id].priceUsd;
        remaining := remaining - {id};
      }
    }

    /** getPropertiesWithPools: null when no property has a pool, otherwise
        every property with a pool, once each, in the scan order `order`. */
    method PropertiesWithPools() returns (r: Option<seq<Property>>, ghost order: seq<string>)
      requires Valid()
      ensures NoDuplicates(order)
      ensures forall id :: id in order <==> id in properties && HasPool(properties[id])
      ensures r.None? <==> forall id :: id in properties ==> !HasPool(properties[id])
      ensures r.Some? ==>
        |r.value| == |order| && forall i :: 0 <= i < |order| ==> r.value[i] == properties[order[i]]
      ensures r.Some? ==> NoDuplicates(r.value)
      ensures r.Some? ==> forall p :: p in r.value <==> p in properties.Values && HasPool(p)
    {
      var matches: seq<Property> := [];
      order := [];
      var remaining := properties.Keys;
      while remaining != {}
        invariant remaining <= properties.Keys
        invariant NoDuplicates(order)
        invariant forall id :: id in order <==> id in properties && id !in remaining && HasPool(properties[id])
        invariant |matches| == |order|
        invariant forall i :: 0 <= i < |order| ==> matches[i] == properties[order[i]]
        decreases remaining
      {
        var id :| id in remaining;
        var property := properties[id];
        if HasPool(property) {
          matches := matches + [property];
          order := order + [id];
        }
        remaining := remaining - {id};
      }
      if matches == [] {
        r := None;
      } else {
        r := Some(matches);
        assert HasPool(properties[order[0]]);
        ScanFacts(matches, order);
      }
    }

    /** getPropertiesBetween: null when no price lies in [minUsd, maxUsd],
        otherwise every property priced within it, once each, in the scan
        order `order`; an empty range (minUsd > maxUsd) always gives null. */
    method PropertiesBetween(minUsd: real, maxUsd: real) returns (r: Option<seq<Property>>, ghost order: seq<string>)
      requires Valid()
      ensures NoDuplicates(order)
      ensures forall id :: id in order <==> id in properties && PriceBetween(properties[id], minUsd, maxUsd)
      ensures r.None? <==> forall id :: id in properties ==> !PriceBetween(properties[id], minUsd, maxUsd)
      ensures r.Some? ==>
        |r.value| == |order| && forall i :: 0 <= i < |order| ==> r.value[i] == properties[order[i]]
      ensures r.Some? ==> NoDuplicates(r.value)
      ensures r.Some? ==> forall p :: p in r.value <==> p in properties.Values && PriceBetween(p, minUsd, maxUsd)
      ensures minUsd > maxUsd ==> r.None?
    {
      var matches: seq<Property> := [];
      order := [];
      var remaining := properties.Keys;
      while remaining != {}
        invariant remaining <= properties.Keys
        invariant NoDuplicates(order)
        invariant forall id :: id in order <==>
          id in properties && id !in remaining && PriceBetween(properties[id], minUsd, maxUsd)
        invariant |matches| == |order|
        invariant forall i :: 0 <= i < |order| ==> matches[i] == properties[order[i]]
        decreases remaining
      {
        var id :| id in remaining;
        var property := properties[id];
        var price := property.priceUsd;
        if price >= minUsd && price <= maxUsd {
          matches := matches + [property];
          order := order + [id];
        }
        remaining := remaining - {id};
      }
      if matches == [] {
        r := None;
      } else {
        r := Some(matches);
        assert PriceBetween(properties[order[0]], minUsd, maxUsd);
        ScanFacts(matches, order);
      }
    }

    /** getPropertiesOn: null when no property's street name equals the given
        one ignoring case, otherwise the address of each such property, in the
        scan order `order`. */
    method PropertiesOn(streetName: Option<string>) returns (r: Option<seq<Address>>, ghost order: seq<string>)
      requires Valid()
      ensures NoDuplicates(order)
      ensures forall id :: id in order <==> id in properties && OnStreet(properties[id], streetName)
      ensures r.None? <==> forall id :: id in properties ==> !OnStreet(properties[id], streetName)
      ensures r.Some? ==>
        |r.value| == |order| && forall i :: 0 <= i < |order| ==> r.value[i] == properties[order[i]].address
      ensures r.Some? ==> forall a :: a in r.value ==>
        EqualsIgnoreCase(a.streetName, streetName.value)
      ensures streetName.None? ==> r.None?
    {
      var matches: seq<Address> := [];
      order := [];
      var remaining := properties.Keys;
      while remaining != {}
        invariant remaining <= properties.Keys
        invariant NoDuplicates(order)
        invariant forall id :: id in order <==>
          id in properties && id !in remaining && OnStreet(properties[id], streetName)
        invariant |matches| == |order|
        invariant forall i :: 0 <= i < |order| ==> matches[i] == properties[order[i]].address
        decreases remaining
      {
        var id :| id in remaining;
        var property := properties[id];
        if OnStreet(property, streetName) {
          matches := matches + [property.address];
          order := order + [id];
        }
        remaining := remaining - {id};
      }
      if matches == [] {
        r := None;
      } else {
        r := Some(matches);
        assert OnStreet(properties[order[0]], streetName);
        forall a | a in matches ensures EqualsIgnoreCase(a.streetName, streetName.value)
        {
          var i :| 0 <= i < |matches| && matches[i] == a;
          assert order[i] in order;
        }
      }
    }

    /** getPropertiesWithBedrooms: null when no bedroom count lies in
        [minBedrooms, maxBedrooms], otherwise exactly the stored entries whose
        count does, keyed by property id. */
    method PropertiesWithBedrooms(minBedrooms: int, maxBedrooms: int) returns (r: Option<map<string, Property>>)
      requires Valid()
      ensures r.None? <==> forall id :: id in properties ==> !BedroomsBetween(properties[id], minBedrooms, maxBedrooms)
      ensures r.Some? ==>
        r.value == map id | id in properties && BedroomsBetween(properties[id], minBedrooms, maxBedrooms)
                          :: properties[id]
      ensures r.Some? ==> forall id :: id in r.value ==> r.value[id].propertyId == id
      ensures minBedrooms > maxBedrooms ==> r.None?
    {
      var matches: map<string, Property> := map[];
      var remaining := properties.Keys;
      while remaining != {}
        invariant remaining <= properties.Keys
        invariant matches == map id | id in properties && id !in remaining
                                      && BedroomsBetween(properties[id], minBedrooms, maxBedrooms)
                                    :: properties[id]
        decreases remaining
      {
        var id :| id in remaining;
        var property := properties[id];
        var numOfBedrooms := property.numOfBedrooms;
        if numOfBedrooms >= minBedrooms && numOfBedrooms <= maxBedrooms {
          matches := matches[property.propertyId := property];
        }
        remaining := remaining - {id};
      }
      if matches == map[] {
        r := None;
        forall id | id in properties
          ensures !BedroomsBetween(properties[id], minBedrooms, maxBedrooms)
        {
          assert id !in matches;
        }
      } else {
        r := Some(matches);
      }
    }

    /** The scan of getPropertiesOfType: one numbered line per property of
        the type (ignoring case), numbered 1, 2, ... along the scan order `order`. */
    method ListingsOfType(propertyType: string) returns (matches: seq<string>, ghost order: seq<string>)
      requires Valid()
      ensures NoDuplicates(order)
      ensures forall id :: id in order <==> id in properties && OfType(properties[id], propertyType)
      ensures matches == ReportLines(properties, order)
      ensures matches == [] <==> forall id :: id in properties ==> !OfType(properties[id], propertyType)
    {
      matches := [];
      var propertyCount := 1;
      order := [];
      var remaining := properties.Keys;
      while remaining != {}
        invariant remaining <= properties.Keys
        invariant NoDuplicates(order)
        invariant forall id :: id in order <==>
          id in properties && id !in remaining && OfType(properties[id], propertyType)
        invariant propertyCount == |order| + 1
        invariant matches == ReportLines(properties, order)
        decreases remaining
      {
        var id :| id in remaining;
        var property := properties[id];
        if EqualsIgnoreCase(property.residenceType, propertyType) {
          ghost var before := order;
          matches := matches + [FormatProperty(property, propertyCount)];
          propertyCount := propertyCount + 1;
          order := order + [id];
          assert order[..|order| - 1] == before;
        }
        remaining := remaining - {id};
      }
      ReportLinesLength(properties, order);
      if order != [] {
        assert OfType(properties[order[0]], propertyType);
      }
    }

    /** getPropertiesOfType: with no property of the type (ignoring case), the
        two lines of NoTypeFoundMessage; otherwise the header followed by a
        newline, then one line per property of the type, numbered 1, 2, ...
        along the scan order `order`. */
    method PropertiesOfType(propertyType: string) returns (r: seq<string>, ghost order: seq<string>)
      requires Valid()
      ensures NoDuplicates(order)
      ensures forall id :: id in order <==> id in properties && OfType(properties[id], propertyType)
      ensures order == [] <==> forall id :: id in properties ==> !OfType(properties[id], propertyType)
      ensures order == [] ==> r == NoTypeFoundMessage(propertyType)
      ensures order != [] ==> |r| == |order| + 1 && r[0] == TypeHeader(propertyType) + "\n"
      ensures order != [] ==>
        forall i :: 0 <= i < |order| ==> r[i + 1] == FormatProperty(properties[order[i]], i + 1)
      ensures |r| >= 2 && StartsWith(r[0], TypeHeader(propertyType))
      ensures r == NoTypeFoundMessage(propertyType) <==>
        forall id :: id in properties ==> !OfType(properties[id], propertyType)
    {
      var matches;
      matches, order := ListingsOfType(propertyType);
      ReportLinesLength(properties, order);
      if matches == [] {
        r := NoTypeFoundMessage(propertyType);
      } else {
        assert OfType(properties[order[0]], propertyType);
        r := [TypeHeader(propertyType) + "\n"] + matches;
        forall i | 0 <= i < |order|
          ensures r[i + 1] == FormatProperty(properties[order[i]], i + 1)
        {
          ReportLinesAt(properties, order, i);
        }
      }
    }

    /** What the scans need to pass from keys to the properties stored under
        them: the properties of distinct keys are distinct, and a stored
        property is in the list when its key is in the order. */
    lemma ScanFacts(matches: seq<Property>, order: seq<string>)
      requires Valid()
      requires NoDuplicates(order)
      requires forall id :: id in order ==> id in properties
      requires |matches| == |order| && forall i :: 0 <= i < |order| ==> matches[i] == properties[order[i]]
      ensures NoDuplicates(matches)
      ensures forall p :: p in matches ==> p in properties.Values
      ensures forall id :: id in order ==> properties[id] in matches
    {
      forall id | id in order
        ensures properties[id] in matches
      {
        var i :| 0 <= i < |order| && order[i] == id;
        assert matches[i] == properties[id];
      }
    }
  }
}
