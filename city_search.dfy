/**
 * The city search box: `loadOptions`, which turns typed text and the city
 * lookup's answer into select options, and `handleOnChange`, which records and
 * forwards a selection.
 */
module CitySearch {
  import opened Wrappers
  import opened JsValues
  import opened Strings

  /** The message shown when options could not be loaded. */
  const LoadFailed: string := "Failed to load city data. Please try again."

  /** A select option: `value` "<lat> <lon>" and `label` "<name>, <countryCode>" (`label` is a Dafny keyword). */
  datatype CityOption = CityOption(value: string, labelText: string)

  /** How the city lookup settled: with the parsed result, or by throwing. */
  datatype CityLookup = Resolved(result: Json) | Rejected

  /** What `loadOptions` yields: the options, and whether it went through the `catch`. */
  datatype Loaded = Loaded(options: seq<CityOption>, failed: bool)

  /**
   * `!inputValue || inputValue.trim() === ""`: blank input is exactly missing
   * input or input made only of whitespace.
   */
  predicate IsBlank(input: Option<string>): (r: bool)
    ensures r <==> input.None? || AllWhitespace(input.value)
  {
    match input
    case None => true
    case Some(text) =>
      TrimEmptyIffAllWhitespace(text);
      text == "" || Trim(text) == ""
  }

  /** `${v || fallback}` for a property read off a city. */
  function TextOr(v: Option<Json>, fallback: string): (r: string)
    ensures Truthy(v) ==> r == ToText(v.value)
    ensures !Truthy(v) ==> r == fallback
  {
    if Truthy(v) then ToText(v.value) else fallback
  }

  /** The option for one city; reading a property of `null` throws, so a null city has none. */
  function CityToOption(city: Json): (r: Option<CityOption>)
    ensures r.None? <==> city == JNull
    ensures r.Some? ==>
      r.value.value == TextOr(Get(Some(city), "latitude"), "0") + " " + TextOr(Get(Some(city), "longitude"), "0")
    ensures r.Some? ==>
      r.value.labelText == TextOr(Get(Some(city), "name"), "Unknown") + ", " + TextOr(Get(Some(city), "countryCode"), "")
  {
    if city == JNull then None
    else
      var c := Some(city);
      Some(CityOption(
        TextOr(Get(c, "latitude"), "0") + " " + TextOr(Get(c, "longitude"), "0"),
        TextOr(Get(c, "name"), "Unknown") + ", " + TextOr(Get(c, "countryCode"), "")))
  }

  /** `result.data.map(...)`: the options of all cities, or `None` when one of them throws. */
  function MapCities(cities: seq<Json>): (r: Option<seq<CityOption>>)
    ensures r.Some? <==> JNull !in cities
    ensures r.Some? ==> |r.value| == |cities|
    ensures r.Some? ==> forall i :: 0 <= i < |cities| ==> Some(r.value[i]) == CityToOption(cities[i])
  {
    if cities == [] then Some([])
    else
      match (CityToOption(cities[0]), MapCities(cities[1..]))
      case (Some(o), Some(rest)) => Some([o] + rest)
      case _ => None
  }

  /**
   * `loadOptions`. Blank input gives no options without a lookup, so its
   * answer plays no part. Otherwise a `data` that is not an array, a lookup that
   * throws, or a city that is `null` gives no options and the failure message;
   * a valid answer gives one option per city, in order.
   */
  function OptionsFor(input: Option<string>, lookup: CityLookup): (r: Loaded)
    ensures IsBlank(input) ==> r == Loaded([], false)
    ensures !IsBlank(input) && lookup.Rejected? ==> r == Loaded([], true)
    ensures !IsBlank(input) && lookup.Resolved? && !IsArray(Get(Some(lookup.result), "data")) ==> r == Loaded([], true)
    ensures !IsBlank(input) && lookup.Resolved? && IsArray(Get(Some(lookup.result), "data")) ==>
      var cities := Get(Some(lookup.result), "data").value.items;
      && r.failed == (JNull in cities)
      && (!r.failed ==> |r.options| == |cities|
                        && forall i :: 0 <= i < |cities| ==> Some(r.options[i]) == CityToOption(cities[i]))
      && (r.failed ==> r.options == [])
  {
    if IsBlank(input) then Loaded([], false)
    else
      match lookup
      case Rejected => Loaded([], true)
      case Resolved(result) =>
        var data := Get(Some(result), "data");
        if !Truthy(data) || !IsArray(data) then Loaded([], true)
        else
          match MapCities(data.value.items)
          case Some(options) => Loaded(options, false)
          case None => Loaded([], true)
  }

  /** The first field of an option value: the text before its first space, and the rest. */
  function SplitAtSpace(s: string): (string, string) {
    if s == [] then ("", "")
    else if s[0] == ' ' then ("", s[1..])
    else
      var (a, b) := SplitAtSpace(s[1..]);
      ([s[0]] + a, b)
  }

  /** An option value splits back into its latitude and longitude texts when the latitude text has no space. */
  lemma {:induction false} SplitJoin(lat: string, lon: string)
    requires ' ' !in lat
    ensures SplitAtSpace(lat + " " + lon) == (lat, lon)
  {
    var s := lat + " " + lon;
    if lat != [] {
      assert s[0] == lat[0] && lat[0] != ' ';
      assert s[1..] == lat[1..] + " " + lon;
      SplitJoin(lat[1..], lon);
      assert lat == [lat[0]] + lat[1..];
    } else {
      assert s[0] == ' ' && s[1..] == lon;
    }
  }

  /**
   * The value of a city's option splits at its first space back into the
   * latitude and longitude texts, when the latitude text has no space.
   */
  lemma OptionValueSplits(city: Json)
    requires city != JNull
    requires ' ' !in TextOr(Get(Some(city), "latitude"), "0")
    ensures CityToOption(city).Some?
    ensures SplitAtSpace(CityToOption(city).value.value)
            == (TextOr(Get(Some(city), "latitude"), "0"), TextOr(Get(Some(city), "longitude"), "0"))
  {
    SplitJoin(TextOr(Get(Some(city), "latitude"), "0"), TextOr(Get(Some(city), "longitude"), "0"));
  }

  /** The component's state: the current selection and the error message shown under the box. */
  class SearchBox {
    var search: Option<CityOption>
    var error: Option<string>

    constructor ()
      ensures search == None && error == None
    {
      search := None;
      error := None;
    }

    /** `loadOptions`: the options it resolves with; the `catch` also sets the error. */
    method LoadOptions(input: Option<string>, lookup: CityLookup) returns (options: seq<CityOption>)
      modifies this
      ensures options == OptionsFor(input, lookup).options
      ensures error == if OptionsFor(input, lookup).failed then Some(LoadFailed) else old(error)
      ensures search == old(search)
    {
      var loaded := OptionsFor(input, lookup);
      if loaded.failed {
        error := Some(LoadFailed);
      }
      options := loaded.options;
    }

    /** `handleOnChange`: stores the selection, clears the error and forwards the same selection. */
    method HandleOnChange(searchData: Option<CityOption>) returns (forwarded: Option<CityOption>)
      modifies this
      ensures search == searchData && error == None
      ensures forwarded == searchData
    {
      search := searchData;
      error := None;
      forwarded := searchData;
    }
  }
}
