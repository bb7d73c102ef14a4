/**
 * The older course list component, mounted at route /. It keeps no language or
 * start-date filter, navigates to /?page=n, and computes its pagination range
 * in a closure over its own state.
 */
module LegacyCourseList {
  import opened Wrappers
  import opened Types
  import Routing
  import Pagination

  datatype LegacyState = LegacyState(
    search: string,
    page: int,
    totalPages: int,
    category: string,
    location: string,
    delivery: string)

  const InitialState := LegacyState("", 1, 1, "", "", "")

  class View {
    var courses: seq<Course>
    var searchQuery: string
    var page: int
    var totalPages: int
    var category: string
    var deliveryMethod: string
    var courseLocation: string
    var location: Routing.Location

    function State(): LegacyState
      reads this
    {
      LegacyState(searchQuery, page, totalPages, category, courseLocation, deliveryMethod)
    }

    constructor (url: Routing.Location)
      ensures State() == InitialState
      ensures courses == [] && location == url
    {
      courses := [];
      searchQuery := "";
      page := 1;
      totalPages := 1;
      category := "";
      deliveryMethod := "";
      courseLocation := "";
      location := url;
    }

    /** The effect on `location.search`: the `page` parameter, 1 when missing or empty. */
    method SyncPageFromUrl()
      requires Routing.PageFromUrl(location.pageParam).Some?
      modifies this
      ensures courses == old(courses) && location == old(location)
      ensures Routing.PageFromUrl(location.pageParam) == Some(page)
      ensures location.pageParam == None ==> page == 1
      ensures State() == old(State()).(page := page)
    {
      page := Routing.PageFromUrl(location.pageParam).value;
    }

    /** `handlePageChange`: navigate to /?page=n and set the page to n, without clamping. */
    method HandlePageChange(pageNumber: int)
      modifies this
      ensures State() == old(State()).(page := pageNumber)
      ensures location == Routing.PageLocation(Routing.RootPath, pageNumber)
      ensures Routing.PageFromUrl(location.pageParam) == Some(page)
      ensures courses == old(courses)
    {
      location := Routing.PageLocation(Routing.RootPath, pageNumber);
      page := pageNumber;
    }

    /** `handleSearchChange`: the new search text, back to page 1; the other filters stay. */
    method HandleSearchChange(value: string)
      modifies this
      ensures State() == old(State()).(search := value, page := 1)
      ensures courses == old(courses) && location == old(location)
    {
      searchQuery := value;
      page := 1;
    }

    /** A successful fetch stores the courses and the page count it returned. */
    method ApplyFetchResult(fetched: seq<Course>, fetchedTotalPages: int)
      modifies this
      ensures courses == fetched
      ensures State() == old(State()).(totalPages := fetchedTotalPages)
      ensures location == old(location)
    {
      courses := fetched;
      totalPages := fetchedTotalPages;
    }

    /** The `getPaginationRange` closure: at most three consecutive pages from the block start, none past the last. */
    method PaginationRange() returns (range: seq<int>)
      ensures range == Pagination.PaginationWindow(page, totalPages)
      ensures |range| <= 3
      ensures forall k :: 0 <= k < |range| ==> range[k] == Pagination.BlockStart(page) + k && range[k] <= totalPages
    {
      range := Pagination.GetPaginationRange(page, totalPages);
      Pagination.WindowShape(page, totalPages);
    }

    /** The pagination control this component renders. */
    method RenderPagination() returns (bar: Pagination.Bar)
      ensures bar == Pagination.BarOf(page, totalPages)
      ensures Pagination.ActiveCount(bar.links) == if page <= totalPages then 1 else 0
    {
      var range := PaginationRange();
      bar := Pagination.Bar(
        Pagination.PreviousDisabled(page),
        Pagination.Links(range, page),
        Pagination.ShowPaginationEllipsis(page, totalPages),
        Pagination.NextDisabled(page, totalPages));
      Pagination.ExactlyOneActiveLink(page, totalPages);
    }
  }
}
