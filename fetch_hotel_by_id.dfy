/**
 * `fetchHotelById`: one property-content request for a single id. A missing
 * body or entry returns `null`; so does every exception, including the
 * TypeError of a missing `catalog`, because the catch block returns `null`.
 * Unlike the batch action it always sets `swimmingPool` and `gym`.
 */
module FetchHotelById {
  import opened Wrappers
  import opened Text
  import opened HotelRecords
  import Batch = FetchHotelsByIds

  const UrlPrefix: string := "https://project-technical-test-api.up.railway.app/property/content?id="
  const UrlSuffix: string := "&language=en-us"

  /** The request URL: the fixed prefix, the id as given, then the language parameter. */
  function RequestUrl(id: string): (url: string)
    ensures |url| == |UrlPrefix| + |id| + |UrlSuffix|
    ensures url[..|UrlPrefix|] == UrlPrefix
    ensures url[|UrlPrefix|..|UrlPrefix| + |id|] == id
    ensures url[|UrlPrefix| + |id|..] == UrlSuffix
  {
    UrlPrefix + id + UrlSuffix
  }

  /** The id a request URL was built from. */
  function UrlId(url: string): string
    requires |url| >= |UrlPrefix| + |UrlSuffix|
  {
    url[|UrlPrefix|..|url| - |UrlSuffix|]
  }

  /** The id can be read back from the URL, so distinct ids give distinct URLs. */
  lemma UrlIdRoundTrip(id: string)
    ensures UrlId(RequestUrl(id)) == id
  {
  }

  /** The record with `swimmingPool: data.swimmingPool || false` and `gym: data.gym || false` added. */
  function WithAmenities(h: Hotel, raw: RawHotel): (r: Hotel)
    ensures r.(swimmingPool := h.swimmingPool, gym := h.gym) == h
    ensures r.swimmingPool.Some? && r.gym.Some?
    ensures r.swimmingPool.value <==> raw.swimmingPool == Some(true)
    ensures r.gym.value <==> raw.gym == Some(true)
  {
    h.(swimmingPool := Some(TruthyBool(raw.swimmingPool)), gym := Some(TruthyBool(raw.gym)))
  }

  /** The whole action against the (abstract) response to its one request; `None` is `null`. */
  function FetchHotelById(id: string, response: ContentResponse): (r: Option<Hotel>)
    ensures r.Some? <==>
      response.Received? && response.data.Some? && id in response.data.value
      && response.data.value[id].catalog.Some?
    ensures r.Some? ==> r.value.swimmingPool.Some? && r.value.gym.Some?
    ensures r.Some? ==> r.value.swimmingPool.value == (response.data.value[id].swimmingPool == Some(true))
    ensures r.Some? ==> r.value.gym.value == (response.data.value[id].gym == Some(true))
  {
    match response
    case TransportError => None
    case Received(body) =>
      if body.None? || id !in body.value then None
      else
        var raw := body.value[id];
        match Normalize(raw)
        case None => None
        case Some(h) => Some(WithAmenities(h, raw))
  }

  /** Both actions apply the same defaults: the single record is the batch record plus amenity flags. */
  lemma {:induction false} AgreesWithBatch(ids: seq<string>, response: ContentResponse, i: nat)
    requires i < |ids|
    requires Batch.FetchHotelsByIds(ids, response).Success?
    ensures response.Received? && response.data.Some? && ids[i] in response.data.value
    ensures FetchHotelById(ids[i], response)
         == Some(WithAmenities(Batch.FetchHotelsByIds(ids, response).value[i], response.data.value[ids[i]]))
  {
    if response.data.None? {
      assert false;
    }
    var data := response.data.value;
    Batch.BatchOrderAndCompleteness(ids, data);
  }

  /** Where the single action answers `null` for a requested id, the batch over the same response fails. */
  lemma {:induction false} NullMeansBatchFails(ids: seq<string>, response: ContentResponse, i: nat)
    requires i < |ids|
    requires FetchHotelById(ids[i], response).None?
    ensures Batch.FetchHotelsByIds(ids, response).Failure?
  {
    if Batch.FetchHotelsByIds(ids, response).Success? {
      AgreesWithBatch(ids, response, i);
    }
  }
}
