/**
 * `address-search.js`: the address box's suggestion list (its entries and
 * whether it is hidden), the geocoder requests it issues, the filter that keeps
 * only Philadelphia results, and the single search pin on the shared map.
 */
module AddressSearch {
  import opened Wrappers
  import opened Seqs
  import opened Text
  import opened LayerMap

  const CitySuffix: string := ", Philadelphia, PA"
  const CityName: string := "philadelphia"
  /** The zoom `centerMapOnAddress` moves the map to. */
  const AddressZoom: int := 18

  /** A Nominatim search (`format=json`): the free-text query before URL encoding, the country filter and the result limit. */
  datatype GeocodeRequest = GeocodeRequest(query: string, countryCodes: string, limit: nat)

  /** The request for a non-blank, already trimmed partial address. */
  function RequestFor(partialAddress: string): (request: GeocodeRequest)
    ensures |request.query| == |partialAddress| + |CitySuffix|
    ensures request.query[..|partialAddress|] == partialAddress
    ensures request.query[|partialAddress|..] == CitySuffix
    ensures request.countryCodes == "us" && request.limit == 5
  {
    GeocodeRequest(partialAddress + CitySuffix, "us", 5)
  }

  /** One geocoder result: `display_name` (possibly missing) and its coordinates. */
  datatype GeoResult = GeoResult(displayName: Option<string>, lat: real, lon: real)

  /**
   * `result.display_name && result.display_name.toLowerCase().includes('philadelphia')`:
   * a name shorter than "philadelphia" is never accepted.
   */
  predicate IsPhiladelphiaResult(result: GeoResult)
    ensures IsPhiladelphiaResult(result) ==> result.displayName.Some? && |result.displayName.value| >= |CityName|
  {
    result.displayName.Some? && result.displayName.value != "" &&
    Contains(ToLower(result.displayName.value), CityName)
  }

  function PhiladelphiaResults(results: seq<GeoResult>): (offered: seq<GeoResult>)
    ensures |offered| <= |results|
    ensures forall i | 0 <= i < |offered| :: IsPhiladelphiaResult(offered[i])
  {
    Filter(results, IsPhiladelphiaResult)
  }

  /** The list offers exactly the Philadelphia results, in the geocoder's order. */
  lemma PhiladelphiaResultsExactly(results: seq<GeoResult>, result: GeoResult)
    ensures result in PhiladelphiaResults(results) <==> result in results && IsPhiladelphiaResult(result)
    ensures IsSubsequence(PhiladelphiaResults(results), results)
  {
    FilterMembership(results, IsPhiladelphiaResult, result);
    FilterIsSubsequence(results, IsPhiladelphiaResult);
  }

  /** The match ignores case: a name holding "Philadelphia" in any ASCII capitalisation passes. */
  lemma AnyCaseAccepted(result: GeoResult, word: string)
    requires result.displayName.Some? && Contains(result.displayName.value, word)
    requires IsCapitalisationOf(word, CityName)
    ensures IsPhiladelphiaResult(result)
  {
    LowerOfCapitalisation(word, CityName);
    ContainsLowered(result.displayName.value, word);
  }

  /** A geocoder name in capitals, such as "PHILADELPHIA, PA, USA", is offered. */
  lemma CapitalsAccepted(result: GeoResult)
    requires result.displayName == Some("PHILADELPHIA, PA, USA")
    ensures IsPhiladelphiaResult(result)
  {
    var name := result.displayName.value;
    assert name[..12] == "PHILADELPHIA";
    assert IsCapitalisationOf("PHILADELPHIA", CityName);
    assert Contains(name, "PHILADELPHIA");
    AnyCaseAccepted(result, "PHILADELPHIA");
  }

  /** What the awaited `fetch(...).json()` produced: a failure (network or parse) or a result list. */
  datatype LookupResponse = LookupFailed | Results(results: seq<GeoResult>)

  class AddressSearch {
    /** The shared `propertyMap`. */
    const view: LeafletMap
    /** The entries of `#address-choices` and whether it carries the `hidden` class. */
    var choices: seq<GeoResult>
    var hidden: bool
    /** Every geocoder request issued so far. */
    var requests: seq<GeocodeRequest>
    /** `currentMarker`, and how many search pins have been created. */
    var currentMarker: Option<Layer>
    var pins: nat

    /** A shown list is never empty, and the only search pin on the map is the current one. */
    ghost predicate Valid()
      reads this, view
    {
      ListValid() && PinValid()
    }

    ghost predicate ListValid()
      reads this`hidden, this`choices
    {
      !hidden ==> choices != []
    }

    ghost predicate PinValid()
      reads this`currentMarker, this`pins, view
    {
      (currentMarker.Some? ==> currentMarker.value.SearchPin? && currentMarker.value.serial < pins) &&
      (forall l | l in view.layers && l.SearchPin? :: currentMarker == Some(l))
    }

    constructor (view: LeafletMap)
      requires forall l | l in view.layers :: !l.SearchPin?
      ensures Valid() && this.view == view
      ensures choices == [] && hidden && requests == [] && currentMarker == None
    {
      this.view := view;
      choices := [];
      hidden := true;
      requests := [];
      currentMarker := None;
      pins := 0;
    }

    /** `renderAddressSuggestions(results)`: shows the Philadelphia results, or hides the list when there are none. */
    method RenderAddressSuggestions(results: seq<GeoResult>)
      requires Valid()
      modifies this`choices, this`hidden
      ensures Valid()
      ensures choices == PhiladelphiaResults(results)
      ensures hidden <==> choices == []
    {
      var phillyResults := PhiladelphiaResults(results);
      choices := [];
      if phillyResults == [] {
        hidden := true;
        return;
      }
      choices := phillyResults;
      hidden := false;
    }

    /**
     * `handleAddressInput` for the box's text `input`, the lookup's `response`
     * and the box's text `inputLater` when the response arrives. The list is
     * cleared and hidden first; a blank input issues no request; otherwise the
     * request for the trimmed text is issued and the results are rendered, and
     * a failed lookup leaves the list empty and hidden.
     */
    method HandleAddressInput(input: string, response: LookupResponse, inputLater: string)
      requires Valid()
      modifies this`choices, this`hidden, this`requests
      ensures Valid()
      ensures requests == old(requests) + (if JsTrim(input) == "" then [] else [RequestFor(JsTrim(input))])
      ensures choices == (if JsTrim(input) != "" && response.Results? then PhiladelphiaResults(response.results) else [])
      ensures hidden <==> choices == []
    {
      var partialAddress := JsTrim(input);
      choices := [];
      hidden := true;
      if partialAddress != "" {
        requests := requests + [RequestFor(partialAddress)];
        match response {
          case Results(results) =>
            RenderAddressSuggestions(results);
          case LookupFailed =>
            var stillTyped := JsTrim(inputLater);
            if stillTyped != "" {
              RenderAddressSuggestions([]);
            }
        }
      }
    }

    /** `handleAddressSubmit`: a blank box changes nothing; otherwise it is an input event. */
    method HandleAddressSubmit(input: string, response: LookupResponse, inputLater: string)
      requires Valid()
      modifies this`choices, this`hidden, this`requests
      ensures Valid()
      ensures JsTrim(input) == "" ==>
                choices == old(choices) && hidden == old(hidden) && requests == old(requests)
      ensures JsTrim(input) != "" ==> requests == old(requests) + [RequestFor(JsTrim(input))]
      ensures JsTrim(input) != "" && response.Results? ==>
                choices == PhiladelphiaResults(response.results) && (hidden <==> choices == [])
      ensures JsTrim(input) != "" && response.LookupFailed? ==> choices == [] && hidden
    {
      if JsTrim(input) != "" {
        HandleAddressInput(input, response, inputLater);
      }
    }

    /** The box gains focus: a list with entries is shown again. */
    method Focus()
      requires Valid()
      modifies this`hidden
      ensures Valid()
      ensures hidden == (old(hidden) && choices == [])
    {
      if choices != [] {
        hidden := false;
      }
    }

    /**
     * `centerMapOnAddress(lat, lon)`: the map moves to the address at zoom 18,
     * the previous search pin is removed and a new one added, so exactly one
     * search pin is on the map.
     */
    method CenterMapOnAddress(lat: real, lon: real)
      requires Valid()
      modifies this`currentMarker, this`pins, view
      ensures Valid()
      ensures view.center == LatLng(lat, lon) && view.zoom == AddressZoom
      ensures currentMarker == Some(SearchPin(old(pins)))
      ensures view.layers == Without(old(view.layers), old(currentMarker)) + {SearchPin(old(pins))}
      ensures forall l | l in view.layers && l.SearchPin? :: l == SearchPin(old(pins))
    {
      view.SetView(LatLng(lat, lon), AddressZoom);
      if currentMarker.Some? {
        view.RemoveLayer(currentMarker.value);
      }
      var pin := SearchPin(pins);
      pins := pins + 1;
      view.AddLayer(pin);
      currentMarker := Some(pin);
    }

    /** `handleAddressSelection` on the `index`-th entry: the list is hidden and the map centred on that result. */
    method SelectSuggestion(index: nat)
      requires Valid() && index < |choices|
      modifies this`hidden, this`currentMarker, this`pins, view
      ensures Valid() && hidden
      ensures view.center == LatLng(old(choices)[index].lat, old(choices)[index].lon) && view.zoom == AddressZoom
      ensures currentMarker == Some(SearchPin(old(pins)))
      ensures view.layers == Without(old(view.layers), old(currentMarker)) + {SearchPin(old(pins))}
    {
      var chosen := choices[index];
      hidden := true;
      CenterMapOnAddress(chosen.lat, chosen.lon);
    }
  }
}
