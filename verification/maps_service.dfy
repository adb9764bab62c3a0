/**
 * The server's nearby-recycler lookup: after the Places search has answered,
 * the first five results are turned into recycler records with defaults for
 * every missing field. The HTTP request and the great-circle distance are
 * outside the model: the search response and the distance function are
 * parameters.
 */
module MapsService {
  import opened Wrappers
  import opened Text

  /** How many search results become records. */
  const MaxRecyclers: nat := 5

  const PhotoEndpoint: string := "https://maps.googleapis.com/maps/api/place/photo?maxwidth=200&photoreference="
  const KeyParam: string := "&key="
  const MapsSearchEndpoint: string := "https://www.google.com/maps/search/?api=1&query="
  const PlaceIdParam: string := "&query_place_id="

  datatype Photo = Photo(photoReference: Option<string>)

  /**
   * One Places search result. `lat` and `lng` are the coordinates under
   * `geometry.location`; a missing `geometry` or `location` makes both absent.
   */
  datatype Place = Place(
    name: Option<string>,
    vicinity: Option<string>,
    rating: Option<int>,
    placeId: Option<string>,
    lat: Option<int>,
    lng: Option<int>,
    photos: Option<seq<Photo>>)

  datatype PlacesResponse = PlacesResponse(errorMessage: Option<string>, results: Option<seq<Place>>)

  datatype Rating = Rated(stars: int) | NotAvailable

  datatype RecyclerRecord = RecyclerRecord(
    name: Option<string>,
    address: Option<string>,
    rating: Rating,
    distance: string,
    thumbnail: string,
    mapsUrl: string)

  datatype MapsError =
    | MissingApiKey
    | PlacesApiError(message: string)
    | NameMissing  // a result with a place id but no name: `None.replace` fails

  /** Python truthiness of an optional number: absent and 0 are both false. */
  predicate Truthy(x: Option<int>) {
    x.Some? && x.value != 0
  }

  /** Python truthiness of an optional string: absent and "" are both false. */
  predicate Present(s: Option<string>) {
    s.Some? && s.value != ""
  }

  predicate HasPhotos(photos: Option<seq<Photo>>) {
    photos.Some? && |photos.value| > 0
  }

  /** How an f-string renders an optional string: an absent value prints as None. */
  function Show(s: Option<string>): string {
    s.GetOr("None")
  }

  function Min(a: nat, b: nat): (m: nat)
    ensures m <= a && m <= b && (m == a || m == b)
  {
    if a <= b then a else b
  }

  /** The search results, empty when the response has none. */
  function Results(response: PlacesResponse): seq<Place> {
    response.results.GetOr([])
  }

  /** `f"{d:.1f} km"` for a distance given in tenths of a kilometre. */
  function FormatKm(tenths: nat): (s: string)
    ensures |s| >= 6
    ensures s[|s| - 3..] == " km"
  {
    NatToString(tenths / 10) + "." + [DigitChar(tenths % 10)] + " km"
  }

  /**
   * The Google Maps link for a named place: the name, spaces turned into `+`,
   * as the query, then the place id.
   */
  function MapsUrl(name: string, placeId: string): (url: string)
    ensures |url| == |MapsSearchEndpoint| + |name| + |PlaceIdParam| + |placeId|
    ensures StartsWith(url, MapsSearchEndpoint)
    ensures url[|MapsSearchEndpoint|..|MapsSearchEndpoint| + |name|] == ReplaceChar(name, ' ', '+')
    ensures ' ' !in url[|MapsSearchEndpoint|..|MapsSearchEndpoint| + |name|]
    ensures '+' !in name ==> ReplaceChar(url[|MapsSearchEndpoint|..|MapsSearchEndpoint| + |name|], '+', ' ') == name
    ensures url[|MapsSearchEndpoint| + |name|..] == PlaceIdParam + placeId
  {
    var query := ReplaceChar(name, ' ', '+');
    ReplaceCharRemoves(name, ' ', '+');
    assert '+' !in name ==> ReplaceChar(query, '+', ' ') == name by {
      if '+' !in name {
        ReplaceCharRoundTrip(name, ' ', '+');
      }
    }
    var url := MapsSearchEndpoint + query + PlaceIdParam + placeId;
    assert url[|MapsSearchEndpoint|..|MapsSearchEndpoint| + |name|] == query;
    assert url[|MapsSearchEndpoint| + |name|..] == PlaceIdParam + placeId;
    url
  }

  /** The link to the first photo's thumbnail. */
  function ThumbnailUrl(photos: seq<Photo>, apiKey: string): (url: string)
    requires |photos| > 0
    ensures StartsWith(url, PhotoEndpoint + Show(photos[0].photoReference))
    ensures url[|PhotoEndpoint + Show(photos[0].photoReference)|..] == KeyParam + apiKey
  {
    var prefix := PhotoEndpoint + Show(photos[0].photoReference);
    var url := prefix + KeyParam + apiKey;
    assert url[..|prefix|] == prefix;
    url
  }

  /**
   * The record one search result becomes, or the failure its missing name
   * causes. `distanceTo` gives the distance from the user to a coordinate,
   * in tenths of a kilometre.
   */
  function BuildRecord(place: Place, apiKey: string, distanceTo: (int, int) -> nat): (r: Result<RecyclerRecord, MapsError>)
    ensures r.Failure? <==> Present(place.placeId) && place.name.None?
    ensures r.Failure? ==> r.error == NameMissing
    ensures r.Success? ==> r.value.name == place.name && r.value.address == place.vicinity
    ensures r.Success? ==> (r.value.rating == NotAvailable <==> place.rating.None?)
    ensures r.Success? && place.rating.Some? ==> r.value.rating == Rated(place.rating.value)
    ensures r.Success? ==> (r.value.distance == "" <==> !(Truthy(place.lat) && Truthy(place.lng)))
    ensures r.Success? && Truthy(place.lat) && Truthy(place.lng) ==>
      r.value.distance == FormatKm(distanceTo(place.lat.value, place.lng.value))
    ensures r.Success? ==> (r.value.thumbnail == "" <==> !HasPhotos(place.photos))
    ensures r.Success? && HasPhotos(place.photos) ==> r.value.thumbnail == ThumbnailUrl(place.photos.value, apiKey)
    ensures r.Success? ==> (r.value.mapsUrl == "" <==> !Present(place.placeId))
    ensures r.Success? && Present(place.placeId) ==>
      r.value.mapsUrl == MapsUrl(place.name.value, place.placeId.value)
  {
    if Present(place.placeId) && place.name.None? then
      Failure(NameMissing)
    else
      var rating := if place.rating.Some? then Rated(place.rating.value) else NotAvailable;
      var distance :=
        if Truthy(place.lat) && Truthy(place.lng) then FormatKm(distanceTo(place.lat.value, place.lng.value)) else "";
      var thumbnail := if HasPhotos(place.photos) then ThumbnailUrl(place.photos.value, apiKey) else "";
      var mapsUrl := if Present(place.placeId) then MapsUrl(place.name.value, place.placeId.value) else "";
      Success(RecyclerRecord(place.name, place.vicinity, rating, distance, thumbnail, mapsUrl))
  }

  /**
   * `find_nearby_recyclers` from the point where the API key is checked,
   * with the search response given.
   */
  method FindNearbyRecyclers(apiKey: Option<string>, response: PlacesResponse, distanceTo: (int, int) -> nat)
    returns (r: Result<seq<RecyclerRecord>, MapsError>)
    ensures !Present(apiKey) ==> r == Failure(MissingApiKey)
    ensures Present(apiKey) && response.errorMessage.Some? ==>
      r == Failure(PlacesApiError(response.errorMessage.value))
    ensures r.Success? <==>
      Present(apiKey) && response.errorMessage.None? &&
      forall k :: 0 <= k < Min(MaxRecyclers, |Results(response)|) ==>
        BuildRecord(Results(response)[k], apiKey.value, distanceTo).Success?
    ensures Present(apiKey) && response.errorMessage.None? && r.Failure? ==> r.error == NameMissing
    ensures r.Success? ==> |r.value| == Min(MaxRecyclers, |Results(response)|)
    ensures r.Success? ==> forall k :: 0 <= k < |r.value| ==>
      BuildRecord(Results(response)[k], apiKey.value, distanceTo) == Success(r.value[k])
  {
    if !Present(apiKey) {
      return Failure(MissingApiKey);
    }
    var key := apiKey.value;
    if response.errorMessage.Some? {
      return Failure(PlacesApiError(response.errorMessage.value));
    }
    var results := Results(response);
    var top := results[..Min(MaxRecyclers, |results|)];
    var recyclers: seq<RecyclerRecord> := [];
    var i := 0;
    while i < |top|
      invariant 0 <= i <= |top|
      invariant |recyclers| == i
      invariant forall k :: 0 <= k < i ==> BuildRecord(top[k], key, distanceTo) == Success(recyclers[k])
    {
      var place := top[i];
      var rating := if place.rating.Some? then Rated(place.rating.value) else NotAvailable;
      var distance := "";
      if Truthy(place.lat) && Truthy(place.lng) {
        distance := FormatKm(distanceTo(place.lat.value, place.lng.value));
      }
      var thumbnail := "";
      if HasPhotos(place.photos) {
        thumbnail := ThumbnailUrl(place.photos.value, key);
      }
      var mapsUrl := "";
      if Present(place.placeId) {
        if place.name.None? {
          assert top[i] == results[i];
          assert BuildRecord(results[i], key, distanceTo).Failure?;
          return Failure(NameMissing);
        }
        mapsUrl := MapsUrl(place.name.value, place.placeId.value);
      }
      var record := RecyclerRecord(place.name, place.vicinity, rating, distance, thumbnail, mapsUrl);
      assert BuildRecord(place, key, distanceTo) == Success(record);
      recyclers := recyclers + [record];
      i := i + 1;
    }
    return Success(recyclers);
  }
}
