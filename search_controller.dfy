/** Search-result filtering (src/controller/SearchController.java): the default
    filter map, the filter predicate and the order-preserving filter over the
    stored results. The parsed price-range texts are inputs: None stands for a
    text `Double.parseDouble` rejects. */
module SearchController {
  import opened Common
  import opened RoomRecord

  const PropertyTypes: seq<string> := ["Hotel", "Apartment", "Vacation Home", "Hostel", "Resort"]
  const Amenities: seq<string> := ["WiFi", "Swimming Pool", "Free Parking", "Air Conditioning", "Breakfast"]

  /** `getAccommodationTypeName` */
  function TypeName(typeId: int): (r: string)
    ensures 1 <= typeId <= 5 ==> r == PropertyTypes[typeId - 1]
    ensures !(1 <= typeId <= 5) ==> r == "Other"
  {
    match typeId
    case 1 => "Hotel"
    case 2 => "Apartment"
    case 3 => "Vacation Home"
    case 4 => "Hostel"
    case 5 => "Resort"
    case _ => "Other"
  }

  /** `BigDecimal.intValue()`: the integer part, truncated toward zero. */
  function TruncateToInt(x: real): (r: int)
    ensures x >= 0.0 ==> r as real <= x < r as real + 1.0
    ensures x < 0.0 ==> r as real - 1.0 < x <= r as real
  {
    if x >= 0.0 then x.Floor else -((-x).Floor)
  }

  function StarKey(stars: int): string {
    "star" + IntToString(stars)
  }

  function TypeKey(typeId: int): string {
    "type_" + TypeName(typeId)
  }

  /** `Map.getOrDefault(key, true)`: a missing key counts as enabled. */
  function Enabled(filters: map<string, bool>, key: string): (r: bool)
    ensures r <==> key !in filters || filters[key]
  {
    if key in filters then filters[key] else true
  }

  /** The lambda given to `filter`: the price lies in [min, max], and neither
      the filter of the truncated star rating nor that of the mapped type is
      switched off. */
  predicate Keep(filters: map<string, bool>, minPrice: real, maxPrice: real, acc: Accommodation) {
    && minPrice <= acc.basePrice <= maxPrice
    && Enabled(filters, StarKey(TruncateToInt(acc.starRating)))
    && Enabled(filters, TypeKey(acc.typeId))
  }

  /** `stream().filter(...).collect(toList())` */
  function Filter(filters: map<string, bool>, minPrice: real, maxPrice: real, xs: seq<Accommodation>)
    : (r: seq<Accommodation>)
    ensures |r| <= |xs|
    ensures forall a :: a in r ==> a in xs && Keep(filters, minPrice, maxPrice, a)
  {
    if xs == [] then []
    else
      var rest := Filter(filters, minPrice, maxPrice, xs[..|xs| - 1]);
      if Keep(filters, minPrice, maxPrice, xs[|xs| - 1]) then rest + [xs[|xs| - 1]] else rest
  }

  /** `r` is `xs` with some elements left out and the others in their order:
      `idx` says where each element of `r` sits in `xs`. */
  ghost predicate SubsequenceAt(r: seq<Accommodation>, xs: seq<Accommodation>, idx: seq<nat>) {
    && |idx| == |r|
    && (forall k :: 0 <= k < |idx| ==> idx[k] < |xs| && xs[idx[k]] == r[k])
    && (forall k, l :: 0 <= k < l < |idx| ==> idx[k] < idx[l])
  }

  /** The filtered list keeps the original order: each displayed element sits
      at a strictly later position of the stored results than the one before. */
  lemma {:induction false} FilterKeepsOrder(filters: map<string, bool>, minPrice: real, maxPrice: real,
                                            xs: seq<Accommodation>)
    ensures exists idx :: SubsequenceAt(Filter(filters, minPrice, maxPrice, xs), xs, idx)
  {
    if xs == [] {
      var empty: seq<nat> := [];
      assert Filter(filters, minPrice, maxPrice, xs) == [];
      assert SubsequenceAt(Filter(filters, minPrice, maxPrice, xs), xs, empty);
    } else {
      var init := xs[..|xs| - 1];
      FilterKeepsOrder(filters, minPrice, maxPrice, init);
      var rest := Filter(filters, minPrice, maxPrice, init);
      var idx: seq<nat> :| SubsequenceAt(rest, init, idx);
      SubsequenceExtends(rest, xs, idx);
      if Keep(filters, minPrice, maxPrice, xs[|xs| - 1]) {
        assert SubsequenceAt(Filter(filters, minPrice, maxPrice, xs), xs, idx + [|xs| - 1]);
      } else {
        assert SubsequenceAt(Filter(filters, minPrice, maxPrice, xs), xs, idx);
      }
    }
  }

  /** A selection from all but the last element is a selection from the whole
      sequence, with or without the last element appended. */
  lemma SubsequenceExtends(r: seq<Accommodation>, xs: seq<Accommodation>, idx: seq<nat>)
    requires xs != [] && SubsequenceAt(r, xs[..|xs| - 1], idx)
    ensures SubsequenceAt(r, xs, idx)
    ensures SubsequenceAt(r + [xs[|xs| - 1]], xs, idx + [|xs| - 1])
  {
    var idx' := idx + [|xs| - 1];
    forall k | 0 <= k < |idx'| ensures idx'[k] < |xs| && xs[idx'[k]] == (r + [xs[|xs| - 1]])[k] {
      if k < |idx| { assert xs[..|xs| - 1][idx[k]] == xs[idx[k]]; }
    }
  }

  /** An element is missing from the filtered list only when the predicate
      rejects it. */
  lemma {:induction false} FilterKeepsEveryMatch(filters: map<string, bool>, minPrice: real, maxPrice: real,
                                                 xs: seq<Accommodation>, a: Accommodation)
    requires a in xs && Keep(filters, minPrice, maxPrice, a)
    ensures a in Filter(filters, minPrice, maxPrice, xs)
  {
    FilterKeepsMultiplicity(filters, minPrice, maxPrice, xs, a);
  }

  /** Every element is displayed as often as it occurs in the stored results
      when the predicate keeps it, and never otherwise: duplicates survive. */
  lemma {:induction false} FilterKeepsMultiplicity(filters: map<string, bool>, minPrice: real, maxPrice: real,
                                                   xs: seq<Accommodation>, a: Accommodation)
    ensures multiset(Filter(filters, minPrice, maxPrice, xs))[a] ==
              if Keep(filters, minPrice, maxPrice, a) then multiset(xs)[a] else 0
  {
    if xs != [] {
      var init := xs[..|xs| - 1];
      FilterKeepsMultiplicity(filters, minPrice, maxPrice, init, a);
      assert xs == init + [xs[|xs| - 1]];
    }
  }

  /** An element whose price lies outside [min, max] is never displayed. */
  lemma PriceOutsideRangeExcluded(filters: map<string, bool>, minPrice: real, maxPrice: real,
                                  xs: seq<Accommodation>, a: Accommodation)
    requires a.basePrice < minPrice || a.basePrice > maxPrice
    ensures a !in Filter(filters, minPrice, maxPrice, xs)
  {
  }

  /** With the default filters every star rating and every type passes, so
      only the price range decides. */
  lemma DefaultFiltersKeepByPriceOnly(minPrice: real, maxPrice: real, acc: Accommodation)
    ensures Keep(DefaultFilters(), minPrice, maxPrice, acc) <==> minPrice <= acc.basePrice <= maxPrice
  {
    assert StarKey(TruncateToInt(acc.starRating))[0] == 's';
    assert TypeKey(acc.typeId)[0] == 't';
  }

  /** The map `initializeFilters` builds: both price flags, the five star
      keys and the five type keys on, the five amenity keys off. */
  function DefaultFilters(): map<string, bool> {
    map["priceMin" := true, "priceMax" := true,
        "star1" := true, "star2" := true, "star3" := true, "star4" := true, "star5" := true,
        "type_Hotel" := true, "type_Apartment" := true, "type_Vacation Home" := true,
        "type_Hostel" := true, "type_Resort" := true,
        "amenity_WiFi" := false, "amenity_Swimming Pool" := false, "amenity_Free Parking" := false,
        "amenity_Air Conditioning" := false, "amenity_Breakfast" := false]
  }

  /** The price bounds `applyFilters` uses. The minimum is parsed first; when it
      fails the maximum is never parsed, so a bad minimum resets both bounds to
      0 and 1000, while a bad maximum alone keeps the parsed minimum. */
  function PriceBounds(parsedMin: Option<real>, parsedMax: Option<real>): (r: (real, real))
    ensures parsedMin.None? ==> r == (0.0, 1000.0)
    ensures parsedMin.Some? && parsedMax.None? ==> r == (parsedMin.value, 1000.0)
    ensures parsedMin.Some? && parsedMax.Some? ==> r == (parsedMin.value, parsedMax.value)
  {
    if parsedMin.None? then (0.0, 1000.0)
    else if parsedMax.None? then (parsedMin.value, 1000.0)
    else (parsedMin.value, parsedMax.value)
  }

  class SearchController {
    var filters: map<string, bool>
    var searchResults: Option<seq<Accommodation>>

    /** The constructor fills an empty map through `initializeFilters`. */
    constructor ()
      ensures filters == DefaultFilters() && searchResults == None
    {
      filters := map[];
      searchResults := None;
      new;
      InitializeFilters();
    }

    /** `initializeFilters`: puts the default entries into the current map. */
    method InitializeFilters()
      modifies this`filters
      ensures filters == old(filters) + DefaultFilters()
    {
      filters := filters["priceMin" := true];
      filters := filters["priceMax" := true];
      ghost var base := filters;
      var i := 1;
      while i <= 5
        invariant 1 <= i <= 6
        invariant filters == PutAll(base, StarKeys[..i - 1], true)
      {
        StarKeySpelled(i);
        assert StarKeys[..i][..i - 1] == StarKeys[..i - 1];
        filters := filters[StarKey(i) := true];
        i := i + 1;
      }
      assert StarKeys[..5] == StarKeys;
      ghost var afterStars := filters;
      var t := 0;
      while t < |PropertyTypes|
        invariant 0 <= t <= |PropertyTypes|
        invariant filters == PutAll(afterStars, TypeKeys[..t], true)
      {
        TypeKeySpelled(t);
        assert TypeKeys[..t + 1][..t] == TypeKeys[..t];
        filters := filters["type_" + PropertyTypes[t] := true];
        t := t + 1;
      }
      assert TypeKeys[..|PropertyTypes|] == TypeKeys;
      ghost var afterTypes := filters;
      var m := 0;
      while m < |Amenities|
        invariant 0 <= m <= |Amenities|
        invariant filters == PutAll(afterTypes, AmenityKeys[..m], false)
      {
        AmenityKeySpelled(m);
        assert AmenityKeys[..m + 1][..m] == AmenityKeys[..m];
        filters := filters["amenity_" + Amenities[m] := false];
        m := m + 1;
      }
      assert AmenityKeys[..|Amenities|] == AmenityKeys;
      DefaultFiltersAreThePuts(old(filters));
    }

    /** `showSearchResults` stores the results it displays. */
    method ShowSearchResults(results: Option<seq<Accommodation>>)
      modifies this`searchResults
      ensures searchResults == results
    {
      searchResults := results;
    }

    /** `applyFilters`: nothing is displayed when there are no stored results;
        otherwise the stored results the predicate keeps, in their order. */
    method ApplyFilters(parsedMin: Option<real>, parsedMax: Option<real>) returns (displayed: Option<seq<Accommodation>>)
      ensures searchResults.None? || searchResults.value == [] <==> displayed.None?
      ensures displayed.Some? ==>
                var (lo, hi) := PriceBounds(parsedMin, parsedMax);
                displayed.value == Filter(filters, lo, hi, searchResults.value)
    {
      if searchResults.None? || |searchResults.value| == 0 {
        return None;
      }
      var (lo, hi) := PriceBounds(parsedMin, parsedMax);
      displayed := Some(Filter(filters, lo, hi, searchResults.value));
    }

    /** The filter panel replaces the whole map, then the results are filtered. */
    method OnFilterApplied(newFilters: map<string, bool>, parsedMin: Option<real>, parsedMax: Option<real>)
      returns (displayed: Option<seq<Accommodation>>)
      modifies this`filters
      ensures filters == newFilters
      ensures searchResults.None? || searchResults.value == [] <==> displayed.None?
      ensures displayed.Some? ==>
                var (lo, hi) := PriceBounds(parsedMin, parsedMax);
                displayed.value == Filter(newFilters, lo, hi, searchResults.value)
    {
      filters := newFilters;
      displayed := ApplyFilters(parsedMin, parsedMax);
    }
  }

  /** The keys `initializeFilters` writes, in the order it writes them. */
  const StarKeys: seq<string> := ["star1", "star2", "star3", "star4", "star5"]
  const TypeKeys: seq<string> := ["type_Hotel", "type_Apartment", "type_Vacation Home", "type_Hostel", "type_Resort"]
  const AmenityKeys: seq<string> := ["amenity_WiFi", "amenity_Swimming Pool", "amenity_Free Parking",
                                     "amenity_Air Conditioning", "amenity_Breakfast"]

  lemma StarKeySpelled(i: int)
    requires 1 <= i <= 5
    ensures StarKey(i) == StarKeys[i - 1]
  {
    assert NatToString(i) == [DigitChar(i)];
  }

  lemma TypeKeySpelled(t: int)
    requires 0 <= t < 5
    ensures "type_" + PropertyTypes[t] == TypeKeys[t]
  {
  }

  lemma AmenityKeySpelled(m: int)
    requires 0 <= m < 5
    ensures "amenity_" + Amenities[m] == AmenityKeys[m]
  {
  }

  /** `put(k, v)` for each key in turn. */
  function PutAll(m: map<string, bool>, keys: seq<string>, v: bool): map<string, bool> {
    if keys == [] then m
    else PutAll(m, keys[..|keys| - 1], v)[keys[|keys| - 1] := v]
  }

  /** Putting one value under each key in turn adds exactly those keys, all
      mapped to that value, and keeps every other entry. */
  lemma {:induction false} PutAllMeaning(m: map<string, bool>, keys: seq<string>, v: bool)
    ensures PutAll(m, keys, v) == m + map k | k in keys :: v
  {
    if keys != [] {
      var init := keys[..|keys| - 1];
      PutAllMeaning(m, init, v);
      forall k ensures k in keys <==> k in init || k == keys[|keys| - 1] {
        if k in keys {
          var j :| 0 <= j < |keys| && keys[j] == k;
          if j < |keys| - 1 { assert init[j] == k; }
        }
      }
    }
  }

  lemma PutFive(m: map<string, bool>, keys: seq<string>, v: bool)
    requires |keys| == 5
    ensures PutAll(m, keys, v) == m[keys[0] := v][keys[1] := v][keys[2] := v][keys[3] := v][keys[4] := v]
  {
    assert keys[..4][..3] == keys[..3] && keys[..3][..2] == keys[..2];
    assert keys[..2][..1] == keys[..1] && keys[..1][..0] == [];
    assert PutAll(m, keys[..1], v) == m[keys[0] := v];
    assert PutAll(m, keys[..2], v) == PutAll(m, keys[..1], v)[keys[1] := v];
    assert PutAll(m, keys[..3], v) == PutAll(m, keys[..2], v)[keys[2] := v];
    assert PutAll(m, keys[..4], v) == PutAll(m, keys[..3], v)[keys[3] := v];
  }

  /** The three loops of `initializeFilters`, after the two price flags, add
      exactly the default entries to the map. */
  lemma DefaultFiltersAreThePuts(m: map<string, bool>)
    ensures PutAll(PutAll(PutAll(m["priceMin" := true]["priceMax" := true], StarKeys, true), TypeKeys, true),
                   AmenityKeys, false)
            == m + DefaultFilters()
  {
    var m0 := m["priceMin" := true]["priceMax" := true];
    PutFive(m0, StarKeys, true);
    var m1 := PutAll(m0, StarKeys, true);
    PutFive(m1, TypeKeys, true);
    var m2 := PutAll(m1, TypeKeys, true);
    PutFive(m2, AmenityKeys, false);
  }
}
