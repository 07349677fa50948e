/** The state of the map page component (src/components/MapContainer.js)
    and its three event handlers. Each React state hook is a field; each
    handler is a method that runs from its start to its last setter, with
    the backend's answer passed in. */
module MapContainer {
  import opened Wrappers
  import opened Display

  /** The search discriminator for which the result count is shown. */
  const OutletsInLocation: string := "outlets_in_location"

  /** What the outlet-listing request produced. `LoadFailed` is any
      exception before the new list is stored: a transport error, or a
      body without an array to map over. */
  datatype LoadResponse = Loaded(data: seq<RawOutlet>) | LoadFailed

  /** What the search request produced.
      - `SearchOk`: a body with a `data` array and a `type`; `kind` is
        `None` when `type` is not a string.
      - `DataMissing`: a body whose `data` is null or undefined, so that
        `searchData.find` or `searchData.length` throws.
      - `SearchFailed`: an exception while the request is made or its
        body is read, before `searchData` is bound. */
  datatype SearchResponse =
    | SearchOk(data: seq<SearchEntry>, kind: Option<string>)
    | DataMissing
    | SearchFailed

  class Component {
    var outlets: seq<Outlet>
    var searched: bool
    var outletsCount: nat
    /** The `type` hook. It starts as the number 0, which no string equals:
        `None` stands for any value that is not a string. */
    var kind: Option<string>
    var loading: bool

    /** Whether the page shows "Found N outlets matching your search.":
        the message sits inside the branch drawn only when not loading. */
    predicate ShowsCount()
      reads this
    {
      !loading && searched && kind == Some(OutletsInLocation)
    }

    /** The initial values of the state hooks. */
    constructor ()
      ensures outlets == [] && !searched && outletsCount == 0
      ensures kind == None && !loading
      ensures !ShowsCount()
    {
      outlets := [];
      searched := false;
      outletsCount := 0;
      kind := None;
      loading := false;
    }

    /** fetchOutlets: on success the list becomes the formatted response; on
        failure it stays as it was. Either way loading ends false and the
        search summary is untouched. */
    method FetchOutlets(response: LoadResponse, parse: Parser)
      modifies this
      ensures !loading
      ensures response.Loaded? ==> outlets == Format(response.data, parse)
      ensures response.LoadFailed? ==> outlets == old(outlets)
      ensures searched == old(searched) && outletsCount == old(outletsCount) && kind == old(kind)
    {
      loading := true;
      match response {
        case Loaded(data) =>
          outlets := Format(data, parse);
        case LoadFailed =>
      }
      loading := false;
    }

    /** handleMarkerClick: every outlet is recoloured by its distance to the
        clicked one; nothing else in the state changes. */
    method HandleMarkerClick(clicked: Outlet, dist: Distance)
      modifies this
      ensures outlets == Highlight(old(outlets), clicked, dist)
      ensures searched == old(searched) && outletsCount == old(outletsCount)
      ensures kind == old(kind) && loading == old(loading)
    {
      outlets := Highlight(outlets, clicked, dist);
    }

    /** handleSearch. The list is reset to default icons before the request.
        On success it is reconciled with the results and the summary is
        replaced; the count is the number of entries, not of matched
        outlets. On failure the list is exactly the reset list and the
        count and kind stay. `searched` is cleared first and set again only
        by a success, or when the data is missing but there is no outlet
        whose lookup could throw before `setSearched(true)` runs. */
    method HandleSearch(response: SearchResponse)
      modifies this
      ensures loading == old(loading)
      ensures response.SearchOk? ==>
        outlets == Reconcile(ResetIcons(old(outlets)), response.data) &&
        searched && outletsCount == |response.data| && kind == response.kind
      ensures !response.SearchOk? ==>
        outlets == ResetIcons(old(outlets)) &&
        outletsCount == old(outletsCount) && kind == old(kind)
      ensures response.SearchFailed? ==> !searched && !ShowsCount()
      ensures response.DataMissing? ==> searched == (old(outlets) == [])
      ensures response.SearchOk? ==>
        (ShowsCount() <==> !loading && response.kind == Some(OutletsInLocation))
    {
      searched := false;
      var resetMarkers := ResetIcons(outlets);
      match response {
        case SearchOk(data, responseType) =>
          outlets := Reconcile(resetMarkers, data);
          searched := true;
          outletsCount := |data|;
          kind := responseType;
        case DataMissing =>
          // With no outlet, `find` is never called: the list is stored and
          // `searched` set before `searchData.length` throws.
          if resetMarkers == [] {
            outlets := resetMarkers;
            searched := true;
          }
          outlets := ClearMarkers(resetMarkers);
          FailedSearchIsReset(old(outlets));
        case SearchFailed =>
          outlets := ClearMarkers(resetMarkers);
          FailedSearchIsReset(old(outlets));
      }
    }
  }

  /** Two outlets A and B, 150 m apart: clicking A lights up both;
      searching for A afterwards makes A red and B default, and shows a
      count of 1. */
  method ClickThenSearchScenario()
  {
    var rawA := RawOutlet("A", "Jalan A", "8am-10pm", "waze/a", "3.0", "101.0", None);
    var rawB := RawOutlet("B", "Jalan B", "8am-10pm", "waze/b", "3.001", "101.001", None);
    var parse: Parser := s => if s == "3.0" then Number(3.0)
                              else if s == "101.0" then Number(101.0)
                              else if s == "3.001" then Number(3.001)
                              else if s == "101.001" then Number(101.001)
                              else NaN;
    var dist: Distance := (p, q) => if p == q then 0 else 150;
    var page := new Component();
    page.FetchOutlets(Loaded([rawA, rawB]), parse);
    FormatAt([rawA, rawB], parse, 0);
    FormatAt([rawA, rawB], parse, 1);
    var a := page.outlets[0];
    assert a.name == "A" && page.outlets[1].name == "B";

    ghost var loaded := page.outlets;
    page.HandleMarkerClick(a, dist);
    HighlightAt(loaded, a, dist, 0);
    HighlightAt(loaded, a, dist, 1);
    assert page.outlets[0].icon == Yellow && page.outlets[1].icon == Yellow;
    ghost var beforeSearch := page.outlets;

    var entry := SearchEntry("A", None);
    page.HandleSearch(SearchOk([entry], Some(OutletsInLocation)));
    assert IsFirstMatch([entry], "A", 0);
    SearchMatchedAt(beforeSearch, [entry], 0, 0);
    SearchUnmatchedAt(beforeSearch, [entry], 1);
    assert page.outlets[0].icon == Red && page.outlets[1].icon == Default;
    assert page.outletsCount == 1 && page.ShowsCount();
  }

  /** A search whose body has no data array, on a page with no outlets,
      leaves `searched` true, so the count of the previous search is still
      shown. */
  method StaleCountScenario()
  {
    var page := new Component();
    page.HandleSearch(SearchOk([SearchEntry("A", None), SearchEntry("B", None)], Some(OutletsInLocation)));
    assert page.outlets == [] && page.ShowsCount() && page.outletsCount == 2;
    page.HandleSearch(DataMissing);
    assert page.ShowsCount() && page.outletsCount == 2;
  }
}
