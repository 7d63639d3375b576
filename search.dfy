/**
 * The search page (client/src/pages/Search.tsx): a filter of three fields
 * kept in step with the page's query string, and a window of posts that a
 * new query replaces and "Show More" extends by one page.
 */
module Search {
  import opened Common
  import opened SearchParams

  datatype SearchFilter = SearchFilter(searchTerm: string, sort: string, category: string)

  datatype Post = Post(id: string, updatedAt: string, image: string, title: string, slug: string, category: string)

  const DefaultSort := "desc"
  const DefaultCategory := "uncategorized"
  const InitialFilter := SearchFilter("", DefaultSort, DefaultCategory)

  /** The number of posts the server returns per request. */
  const PageSize := 9

  /** A filter the page can hold: the two selects are never empty. */
  predicate WellFormed(f: SearchFilter) {
    f.sort != "" && f.category != ""
  }

  /** The filter fields as the query string names them. */
  predicate IsFilterKey(name: string) {
    name == "searchTerm" || name == "sort" || name == "category"
  }

  /** At least one of the three filter parameters is present with a non-empty value. */
  predicate NamesFilter(q: Query) {
    Truthy(Get(q, "searchTerm")) || Truthy(Get(q, "sort")) || Truthy(Get(q, "category"))
  }

  /**
   * Reading the filter out of the query: when none of the three parameters
   * is present with a non-empty value, the current filter stays; otherwise
   * all three are taken, each missing or empty one getting its default.
   */
  function ParseFilter(q: Query, current: SearchFilter): (f: SearchFilter)
    ensures !NamesFilter(q) ==> f == current
    ensures NamesFilter(q) ==> WellFormed(f)
    ensures WellFormed(current) ==> WellFormed(f)
    ensures NamesFilter(q) && Truthy(Get(q, "searchTerm")) ==> f.searchTerm == Get(q, "searchTerm").value
    ensures NamesFilter(q) && !Truthy(Get(q, "searchTerm")) ==> f.searchTerm == ""
    ensures NamesFilter(q) && Truthy(Get(q, "sort")) ==> f.sort == Get(q, "sort").value
    ensures NamesFilter(q) && !Truthy(Get(q, "sort")) ==> f.sort == DefaultSort
    ensures NamesFilter(q) && Truthy(Get(q, "category")) ==> f.category == Get(q, "category").value
    ensures NamesFilter(q) && !Truthy(Get(q, "category")) ==> f.category == DefaultCategory
  {
    var term, sort, category := Get(q, "searchTerm"), Get(q, "sort"), Get(q, "category");
    if Truthy(term) || Truthy(sort) || Truthy(category) then
      SearchFilter(OrElse(term, ""), OrElse(sort, DefaultSort), OrElse(category, DefaultCategory))
    else
      current
  }

  /** A query that names the filter decides it alone: the filter the page held plays no part. */
  lemma ParseIgnoresCurrent(q: Query, current: SearchFilter, other: SearchFilter)
    requires NamesFilter(q)
    ensures ParseFilter(q, current) == ParseFilter(q, other)
  {
  }

  /** `?category=leadership` gives the default search term and sort with that category, whatever came before. */
  lemma CategoryOnlyQuery(current: SearchFilter)
    ensures ParseFilter([Param("category", "leadership")], current) == SearchFilter("", DefaultSort, "leadership")
  {
    assert Get([Param("category", "leadership")][1..], "searchTerm") == None;
  }

  /**
   * Writing the filter into the query: `set` each of the three parameters.
   * The pairs afterwards are the filter's three and those of `q` with any
   * other name.
   */
  function ApplyFilter(q: Query, f: SearchFilter): (r: Query)
    ensures forall p :: p in r <==>
      p == Param("searchTerm", f.searchTerm) || p == Param("sort", f.sort) || p == Param("category", f.category) ||
      (p in q && !IsFilterKey(p.name))
  {
    Set(Set(Set(q, "searchTerm", f.searchTerm), "sort", f.sort), "category", f.category)
  }

  /** The written query carries the filter's three values and every other parameter unchanged. */
  lemma ApplyFilterContents(q: Query, f: SearchFilter)
    ensures Get(ApplyFilter(q, f), "searchTerm") == Some(f.searchTerm)
    ensures Get(ApplyFilter(q, f), "sort") == Some(f.sort)
    ensures Get(ApplyFilter(q, f), "category") == Some(f.category)
    ensures forall name {:trigger Get(q, name)} :: !IsFilterKey(name) ==> Get(ApplyFilter(q, f), name) == Get(q, name)
  {
    var q1 := Set(q, "searchTerm", f.searchTerm);
    var q2 := Set(q1, "sort", f.sort);
    SetThenGet(q, "searchTerm", f.searchTerm);
    SetKeepsOthers(q1, "sort", f.sort, "searchTerm");
    SetKeepsOthers(q2, "category", f.category, "searchTerm");
    SetThenGet(q1, "sort", f.sort);
    SetKeepsOthers(q2, "category", f.category, "sort");
    SetThenGet(q2, "category", f.category);
    forall name | !IsFilterKey(name)
      ensures Get(ApplyFilter(q, f), name) == Get(q, name)
    {
      SetKeepsOthers(q, "searchTerm", f.searchTerm, name);
      SetKeepsOthers(q1, "sort", f.sort, name);
      SetKeepsOthers(q2, "category", f.category, name);
    }
  }

  /**
   * Round trip: reading back a query written from a well-formed filter gives
   * that filter, whatever filter the page held before.
   */
  lemma RoundTrip(q: Query, f: SearchFilter, current: SearchFilter)
    requires WellFormed(f)
    ensures ParseFilter(ApplyFilter(q, f), current) == f
  {
    ApplyFilterContents(q, f);
  }

  /** Without the well-formedness the round trip fails: an empty sort comes back as the default. */
  lemma EmptySortDoesNotRoundTrip(q: Query)
    ensures ParseFilter(ApplyFilter(q, SearchFilter("", "", "x")), InitialFilter).sort == DefaultSort
  {
    ApplyFilterContents(q, SearchFilter("", "", "x"));
  }

  /** The query "Show More" sends: the current query with `startIndex` set to the number of posts shown. */
  function ShowMoreQuery(q: Query, shown: nat): (r: Query)
    ensures Get(r, "startIndex") == Some(Decimal(shown))
    ensures forall name {:trigger Get(q, name)} :: name != "startIndex" ==> Get(r, name) == Get(q, name)
  {
    SetThenGet(q, "startIndex", Decimal(shown));
    forall name | name != "startIndex" ensures Get(Set(q, "startIndex", Decimal(shown)), name) == Get(q, name) {
      SetKeepsOthers(q, "startIndex", Decimal(shown), name);
    }
    Set(q, "startIndex", Decimal(shown))
  }

  /** The server reads back exactly the number of posts already shown. */
  lemma ShowMoreStartsAfterShown(q: Query, shown: nat)
    ensures var v := Get(ShowMoreQuery(q, shown), "startIndex");
            v.Some? && (forall i :: 0 <= i < |v.value| ==> IsDigit(v.value[i])) && DecimalValue(v.value) == shown
  {
    DecimalRoundTrip(shown);
  }

  class SearchPage {
    var sidebarData: SearchFilter
    var posts: seq<Post>
    var loading: bool
    var showMore: bool

    predicate Valid()
      reads this
    {
      WellFormed(sidebarData)
    }

    constructor ()
      ensures Valid()
      ensures sidebarData == InitialFilter && posts == [] && !loading && !showMore
    {
      sidebarData := InitialFilter;
      posts := [];
      loading := false;
      showMore := false;
    }

    /**
     * The effect run for each new `location.search`: reads the filter out of
     * the query, then `fetchPosts` with the query unchanged. An ok reply
     * replaces the posts; a reply that is not ok only ends loading; the
     * request has no `catch`, so a thrown one leaves `loading` on. Returns
     * the query sent.
     */
    method LocationChanged(location: Query, response: Response<seq<Post>>) returns (request: Query)
      requires Valid()
      modifies this
      ensures Valid()
      ensures request == location
      ensures sidebarData == ParseFilter(location, old(sidebarData))
      ensures response.Replied? && response.ok ==>
        posts == response.data && showMore == (|response.data| == PageSize) && !loading
      ensures response.Replied? && !response.ok ==>
        posts == old(posts) && showMore == old(showMore) && !loading
      ensures response.Threw? ==> posts == old(posts) && showMore == old(showMore) && loading
    {
      sidebarData := ParseFilter(location, sidebarData);
      loading := true;
      request := location;
      match response {
        case Threw(_) =>
        case Replied(ok, page) =>
          if !ok {
            loading := false;
            return;
          }
          posts := page;
          loading := false;
          showMore := |page| == PageSize;
      }
    }

    /**
     * `handleChange`: the field whose input id matches takes the value, an
     * empty sort becoming "desc" and an empty category "uncategorized";
     * any other id changes nothing.
     */
    method HandleChange(id: string, value: string)
      requires Valid()
      modifies this`sidebarData
      ensures Valid()
      ensures id == "searchTerm" ==> sidebarData == old(sidebarData).(searchTerm := value)
      ensures id == "sort" ==> sidebarData == old(sidebarData).(sort := if value == "" then DefaultSort else value)
      ensures id == "category" ==>
        sidebarData == old(sidebarData).(category := if value == "" then DefaultCategory else value)
      ensures !IsFilterKey(id) ==> sidebarData == old(sidebarData)
    {
      if id == "searchTerm" {
        sidebarData := sidebarData.(searchTerm := value);
      }
      if id == "sort" {
        var order := if value == "" then DefaultSort else value;
        sidebarData := sidebarData.(sort := order);
      }
      if id == "category" {
        var category := if value == "" then DefaultCategory else value;
        sidebarData := sidebarData.(category := category);
      }
    }

    /**
     * `handleSubmit`: the query it navigates to holds the three filter
     * fields, keeps every other parameter of the current location, and
     * reads back as the very filter on the page.
     */
    method HandleSubmit(location: Query) returns (target: Query)
      requires Valid()
      ensures Get(target, "searchTerm") == Some(sidebarData.searchTerm)
      ensures Get(target, "sort") == Some(sidebarData.sort)
      ensures Get(target, "category") == Some(sidebarData.category)
      ensures forall name {:trigger Get(location, name)} :: !IsFilterKey(name) ==> Get(target, name) == Get(location, name)
      ensures forall current {:trigger ParseFilter(target, current)} :: ParseFilter(target, current) == sidebarData
    {
      target := Set(location, "searchTerm", sidebarData.searchTerm);
      target := Set(target, "sort", sidebarData.sort);
      target := Set(target, "category", sidebarData.category);
      assert target == ApplyFilter(location, sidebarData);
      ApplyFilterContents(location, sidebarData);
      forall current ensures ParseFilter(target, current) == sidebarData {
        RoundTrip(location, sidebarData, current);
      }
    }

    /**
     * `handleShowMore`: asks for the page starting after the posts shown; an
     * ok reply is appended and decides `showMore`; any other reply changes
     * nothing. Returns the query sent.
     */
    method HandleShowMore(location: Query, response: Response<seq<Post>>) returns (request: Query)
      modifies this`posts, this`showMore
      ensures request == ShowMoreQuery(location, |old(posts)|)
      ensures response.Replied? && response.ok ==>
        posts == old(posts) + response.data && showMore == (|response.data| == PageSize)
      ensures !(response.Replied? && response.ok) ==> posts == old(posts) && showMore == old(showMore)
      ensures old(posts) <= posts
    {
      var startIndex := |posts|;
      request := ShowMoreQuery(location, startIndex);
      if response.Replied? && response.ok {
        posts := posts + response.data;
        showMore := |response.data| == PageSize;
      }
    }
  }

  /**
   * The filter "tank" / "asc" / "military-aid" followed by two "Show More"
   * clicks, with pages of 9, 9 and 4 posts: 22 posts shown and no more offered.
   * The page starts from its initial state, so the fetch of the mount effect
   * for the first location is not part of the run. The effect is assumed to
   * run again after the submit navigates. React re-runs it only when
   * `location.search` changes, so this does not hold when the target equals
   * the current location.
   */
  method ShowMoreScenario(location: Query, first: seq<Post>, second: seq<Post>, third: seq<Post>)
    returns (page: SearchPage)
    requires |first| == 9 && |second| == 9 && |third| == 4
    ensures |page.posts| == 22 && page.posts == first + second + third && !page.showMore
    ensures page.sidebarData == SearchFilter("tank", "asc", "military-aid")
  {
    page := new SearchPage();
    page.HandleChange("searchTerm", "tank");
    page.HandleChange("sort", "asc");
    page.HandleChange("category", "military-aid");
    var target := page.HandleSubmit(location);
    var _ := page.LocationChanged(target, Replied(true, first));
    ShowTwoMore(page, target, second, third);
  }

  /** Two "Show More" clicks after a full first page: both replies are appended and the filter stays. */
  method ShowTwoMore(page: SearchPage, location: Query, second: seq<Post>, third: seq<Post>)
    requires page.showMore && |second| == PageSize && |third| < PageSize
    modifies page
    ensures page.posts == old(page.posts) + second + third && !page.showMore
    ensures page.sidebarData == old(page.sidebarData)
  {
    var _ := page.HandleShowMore(location, Replied(true, second));
    var _ := page.HandleShowMore(location, Replied(true, third));
  }
}
