/**
 * The search box of the hotel list: a case-insensitive substring filter over
 * name or category, and the component state (`searchQuery`,
 * `filteredHotels`) that the effect keeps equal to the filter's result.
 */
module HotelList {
  import opened Text
  import opened HotelRecords

  /** The predicate passed to `hotels.filter`, given the already lower-cased query. */
  predicate Matches(h: Hotel, loweredQuery: string)
  {
    Contains(Lower(h.name), loweredQuery) || Contains(Lower(h.catalog.category), loweredQuery)
  }

  /** `hotels.filter(...)`: the matching hotels, in their original order. */
  function FilterMatching(hotels: seq<Hotel>, loweredQuery: string): (r: seq<Hotel>)
    ensures |r| <= |hotels|
    ensures forall i :: 0 <= i < |r| ==> Matches(r[i], loweredQuery)
    ensures forall i :: 0 <= i < |r| ==> r[i] in hotels
  {
    if hotels == [] then []
    else
      var rest := FilterMatching(hotels[1..], loweredQuery);
      if Matches(hotels[0], loweredQuery) then [hotels[0]] + rest else rest
  }

  /** What the effect stores in `filteredHotels`: everything for an empty query, else the filter. */
  function VisibleHotels(hotels: seq<Hotel>, searchQuery: string): (r: seq<Hotel>)
    ensures searchQuery == "" ==> r == hotels
    ensures |r| <= |hotels|
    ensures forall i :: 0 <= i < |r| ==> Shown(r[i], searchQuery) && r[i] in hotels
  {
    if searchQuery == "" then hotels else FilterMatching(hotels, Lower(searchQuery))
  }

  /** Whether the list shows `h` under the query typed in the search box. */
  predicate Shown(h: Hotel, searchQuery: string)
  {
    searchQuery == "" || Matches(h, Lower(searchQuery))
  }

  /** `a` can be obtained from `b` by deleting elements: order is kept. */
  predicate IsSubsequence<T(==)>(a: seq<T>, b: seq<T>)
    decreases |b|
  {
    if a == [] then true
    else if b == [] then false
    else if a[0] == b[0] then IsSubsequence(a[1..], b[1..])
    else IsSubsequence(a, b[1..])
  }

  /** The filtered list is a subsequence of the input. */
  lemma {:induction false} FilterIsSubsequence(hotels: seq<Hotel>, q: string)
    ensures IsSubsequence(FilterMatching(hotels, q), hotels)
  {
    if hotels != [] {
      FilterIsSubsequence(hotels[1..], q);
      var rest := FilterMatching(hotels[1..], q);
      if Matches(hotels[0], q) {
        assert ([hotels[0]] + rest)[1..] == rest;
      } else if rest != [] {
        // rest[0] matches and hotels[0] does not, so they differ
        assert rest[0] != hotels[0];
      }
    }
  }

  /**
   * Every occurrence of a matching hotel is kept and every non-matching one
   * dropped: with the subsequence lemma this determines the result.
   */
  lemma {:induction false} FilterCounts(hotels: seq<Hotel>, q: string, h: Hotel)
    ensures multiset(FilterMatching(hotels, q))[h] == if Matches(h, q) then multiset(hotels)[h] else 0
  {
    if hotels != [] {
      FilterCounts(hotels[1..], q, h);
      assert hotels == [hotels[0]] + hotels[1..];
    }
  }

  /** Completeness: every matching hotel of the input is in the result. */
  lemma FilterComplete(hotels: seq<Hotel>, q: string, h: Hotel)
    requires h in hotels && Matches(h, q)
    ensures h in FilterMatching(hotels, q)
  {
    FilterCounts(hotels, q, h);
  }

  /** A list whose every element matches passes through the filter unchanged. */
  lemma {:induction false} FilterKeepsAllMatching(hotels: seq<Hotel>, q: string)
    requires forall i :: 0 <= i < |hotels| ==> Matches(hotels[i], q)
    ensures FilterMatching(hotels, q) == hotels
  {
    if hotels != [] {
      FilterKeepsAllMatching(hotels[1..], q);
      assert [hotels[0]] + hotels[1..] == hotels;
    }
  }

  /** An empty query shows the whole list; filtering by it would too, so the early return agrees with the filter. */
  lemma EmptyQueryShowsAll(hotels: seq<Hotel>)
    ensures VisibleHotels(hotels, "") == hotels
    ensures FilterMatching(hotels, "") == hotels
  {
    forall i | 0 <= i < |hotels| ensures Matches(hotels[i], "") {
      ContainsEmpty(Lower(hotels[i].name));
    }
    FilterKeepsAllMatching(hotels, "");
  }

  /** Soundness of the visible list: each hotel has the query in its name or category, ignoring case. */
  lemma VisibleSound(hotels: seq<Hotel>, searchQuery: string, i: nat)
    requires searchQuery != "" && i < |VisibleHotels(hotels, searchQuery)|
    ensures
      var h := VisibleHotels(hotels, searchQuery)[i];
      Contains(Lower(h.name), Lower(searchQuery)) || Contains(Lower(h.catalog.category), Lower(searchQuery))
  {
  }

  /** Queries that differ only in letter case show the same hotels. */
  lemma CaseInsensitive(hotels: seq<Hotel>, q1: string, q2: string)
    requires Lower(q1) == Lower(q2)
    ensures VisibleHotels(hotels, q1) == VisibleHotels(hotels, q2)
  {
    assert |q1| == |Lower(q1)| == |Lower(q2)| == |q2|;
  }

  /** Typing the query already in lower case shows the same hotels: the effect lower-cases it anyway. */
  lemma LoweredQueryShowsSame(hotels: seq<Hotel>, searchQuery: string)
    ensures VisibleHotels(hotels, Lower(searchQuery)) == VisibleHotels(hotels, searchQuery)
  {
    LowerIdempotent(searchQuery);
    CaseInsensitive(hotels, Lower(searchQuery), searchQuery);
  }

  /** Filtering the visible list again by the same query changes nothing. */
  lemma VisibleIdempotent(hotels: seq<Hotel>, searchQuery: string)
    ensures VisibleHotels(VisibleHotels(hotels, searchQuery), searchQuery) == VisibleHotels(hotels, searchQuery)
  {
    if searchQuery != "" {
      FilterKeepsAllMatching(FilterMatching(hotels, Lower(searchQuery)), Lower(searchQuery));
    }
  }

  /** The component's state cells. */
  class HotelListView {
    var hotels: seq<Hotel>          // the `hotels` prop
    var searchQuery: string
    var filteredHotels: seq<Hotel>

    /** The effect has run for the current query and props. */
    ghost predicate Synced()
      reads this
    {
      filteredHotels == VisibleHotels(hotels, searchQuery)
    }

    /** First render: empty query, every hotel shown. */
    constructor (hotels: seq<Hotel>)
      ensures this.hotels == hotels && searchQuery == "" && filteredHotels == hotels
      ensures Synced()
    {
      this.hotels := hotels;
      searchQuery := "";
      filteredHotels := hotels;
    }

    /** The effect body, run when `searchQuery` or `hotels` changed. */
    method RunFilterEffect()
      modifies this`filteredHotels
      ensures Synced()
    {
      if searchQuery == "" {
        filteredHotels := hotels;
        return;
      }
      var lowercasedQuery := Lower(searchQuery);
      filteredHotels := FilterMatching(hotels, lowercasedQuery);
    }

    /** `onSearch`: the search box sets the query, then the effect re-runs. */
    method Search(query: string)
      modifies this`searchQuery, this`filteredHotels
      ensures searchQuery == query && hotels == old(hotels)
      ensures filteredHotels == VisibleHotels(hotels, query)
      ensures Synced()
    {
      searchQuery := query;
      RunFilterEffect();
    }

    /** New `hotels` props, then the effect re-runs with the current query. */
    method ReceiveHotels(hotels: seq<Hotel>)
      modifies this`hotels, this`filteredHotels
      ensures this.hotels == hotels && searchQuery == old(searchQuery)
      ensures Synced()
    {
      this.hotels := hotels;
      RunFilterEffect();
    }

    /** The list renders "No hotels found..." exactly when nothing is visible. */
    function ShowsNoHotelsMessage(): (b: bool)
      reads this
      requires Synced()
      ensures b <==> forall i :: 0 <= i < |hotels| ==> !Shown(hotels[i], searchQuery)
    {
      ShowsNothingIff(hotels, searchQuery);
      |filteredHotels| == 0
    }
  }

  lemma ShowsNothingIff(hotels: seq<Hotel>, searchQuery: string)
    ensures |VisibleHotels(hotels, searchQuery)| == 0
        <==> forall i :: 0 <= i < |hotels| ==> !Shown(hotels[i], searchQuery)
  {
    if searchQuery == "" {
      if hotels != [] {
        assert Shown(hotels[0], searchQuery);
      }
    } else {
      var q := Lower(searchQuery);
      if exists i :: 0 <= i < |hotels| && Matches(hotels[i], q) {
        var i :| 0 <= i < |hotels| && Matches(hotels[i], q);
        FilterComplete(hotels, q, hotels[i]);
      } else {
        var r := FilterMatching(hotels, q);
        forall x ensures multiset(r)[x] == 0 {
          FilterCounts(hotels, q, x);
        }
        assert multiset(r) == multiset{};
      }
    }
  }
}
