/**
 * `fetchHotelsByIds`: one property-content request for a list of ids, then
 * `ids.map` over the caller's list, normalising the entry stored under each
 * id. Reading a missing entry or a missing `catalog` throws, and the catch
 * block rethrows, so the batch either yields one record per id or fails.
 */
module FetchHotelsByIds {
  import opened Wrappers
  import opened HotelRecords

  /** What the action throws. */
  datatype Thrown =
    | Transport              // the request itself failed
    | BodyUndefined          // `response.data[id]` with no `data`
    | EntryUndefined(id: string)    // `data.id` on the undefined entry of `id`
    | CatalogUndefined(id: string)  // `data.catalog.city` with no `catalog`

  /** The callback of `ids.map` for one id against the response body. */
  function Entry(id: string, data: map<string, RawHotel>): (r: Result<Hotel, Thrown>)
    ensures r.Success? <==> id in data && data[id].catalog.Some?
    ensures r.Success? ==> Normalize(data[id]) == Some(r.value)
    ensures r.Failure? ==> r.error == (if id in data then CatalogUndefined(id) else EntryUndefined(id))
  {
    if id !in data then Failure(EntryUndefined(id))
    else match Normalize(data[id])
      case None => Failure(CatalogUndefined(id))
      case Some(h) => Success(h)
  }

  /** `ids.map(...)`, in the caller's order, stopping at the first throw. */
  function MapIds(ids: seq<string>, data: map<string, RawHotel>): (r: Result<seq<Hotel>, Thrown>)
    ensures r.Success? <==> forall i :: 0 <= i < |ids| ==> Entry(ids[i], data).Success?
    ensures r.Success? ==> |r.value| == |ids|
    ensures r.Success? ==> forall i :: 0 <= i < |ids| ==> Success(r.value[i]) == Entry(ids[i], data)
    decreases |ids|
  {
    if ids == [] then Success([])
    else match Entry(ids[0], data)
      case Failure(e) => Failure(e)
      case Success(h) =>
        match MapIds(ids[1..], data)
        case Failure(e) => Failure(e)
        case Success(hs) =>
          assert forall i :: 1 <= i < |ids| ==> ids[i] == ids[1..][i - 1];
          Success([h] + hs)
  }

  /** The whole action against the (abstract) response to its one request. */
  function FetchHotelsByIds(ids: seq<string>, response: ContentResponse): (r: Result<seq<Hotel>, Thrown>)
    ensures response.TransportError? ==> r == Failure(Transport)
    ensures response.Received? && response.data.None? ==> r == if ids == [] then Success([]) else Failure(BodyUndefined)
    ensures response.Received? && response.data.Some? ==> r == MapIds(ids, response.data.value)
  {
    match response
    case TransportError => Failure(Transport)
    case Received(None) => if ids == [] then Success([]) else Failure(BodyUndefined)
    case Received(Some(data)) => MapIds(ids, data)
  }

  /**
   * The batch succeeds exactly when every requested id has an entry with a
   * catalog; then the i-th record is the normalised entry of `ids[i]`.
   */
  lemma {:induction false} BatchOrderAndCompleteness(ids: seq<string>, data: map<string, RawHotel>)
    ensures var r := FetchHotelsByIds(ids, Received(Some(data)));
      && (r.Success? <==> forall i :: 0 <= i < |ids| ==> ids[i] in data && data[ids[i]].catalog.Some?)
      && (r.Success? ==> |r.value| == |ids|)
      && (r.Success? ==> forall i :: 0 <= i < |ids| ==>
            Some(r.value[i]) == Normalize(data[ids[i]]) && r.value[i].id == data[ids[i]].id)
  {
    var r := FetchHotelsByIds(ids, Received(Some(data)));
    assert r == MapIds(ids, data);
    if r.Success? {
      forall i | 0 <= i < |ids|
        ensures Some(r.value[i]) == Normalize(data[ids[i]]) && r.value[i].id == data[ids[i]].id
      {
        assert Success(r.value[i]) == Entry(ids[i], data);
      }
    }
  }

  /**
   * When the id at position k is the first that fails, the whole batch fails
   * with that id's error and no partial list is returned.
   */
  lemma {:induction false} FirstFailureWins(ids: seq<string>, data: map<string, RawHotel>, k: nat)
    requires k < |ids|
    requires Entry(ids[k], data).Failure?
    requires forall j :: 0 <= j < k ==> Entry(ids[j], data).Success?
    ensures MapIds(ids, data) == Failure(Entry(ids[k], data).error)
    decreases k
  {
    if k > 0 {
      assert forall j :: 0 <= j < k - 1 ==> ids[1..][j] == ids[j + 1];
      FirstFailureWins(ids[1..], data, k - 1);
    }
  }

  /** A missing id anywhere in the list fails the batch. */
  lemma MissingIdFailsBatch(ids: seq<string>, response: ContentResponse, i: nat)
    requires i < |ids|
    requires response.Received? && (response.data.None? || ids[i] !in response.data.value)
    ensures FetchHotelsByIds(ids, response).Failure?
  {
    if response.data.Some? {
      assert !Entry(ids[i], response.data.value).Success?;
    }
  }

  /** Which keys the response holds beyond the requested ids, and in what order, does not matter. */
  lemma {:induction false} ExtraEntriesIgnored(ids: seq<string>, data: map<string, RawHotel>, extra: map<string, RawHotel>)
    requires forall i :: 0 <= i < |ids| ==> ids[i] !in extra
    ensures MapIds(ids, data + extra) == MapIds(ids, data)
    decreases |ids|
  {
    if ids != [] {
      assert Entry(ids[0], data + extra) == Entry(ids[0], data);
      assert forall i :: 0 <= i < |ids| - 1 ==> ids[1..][i] == ids[i + 1];
      ExtraEntriesIgnored(ids[1..], data, extra);
    }
  }
}
