/**
 * The course list page (route /courses): the list view's state, its handlers
 * and the pagination it renders. The fetch itself, its debounce and the
 * loading flag are not part of this model; only the result it stores is.
 */
module CourseListPage {
  import opened Wrappers
  import opened Types
  import Routing
  import Pagination

  /** The filter, search and page state the list is fetched with; a start date is a day number. */
  datatype ListState = ListState(
    search: string,
    page: int,
    totalPages: int,
    category: string,
    location: string,
    delivery: string,
    language: Option<string>,
    startDate: Option<int>)

  /** The state the page mounts with, before the URL effect and the first fetch. */
  const InitialState := ListState("", 1, 1, "", "", "", None, None)

  /**
   * What `highlightText` renders. Unchanged is the text as it is; Marked stands
   * for the fragments the regular-expression split produces, which are not modelled.
   */
  datatype Highlighted = Unchanged(text: string) | Marked(text: string, query: string)

  /** `highlightText(text, query)`: an empty query leaves the text as it is. */
  function HighlightText(text: string, query: string): (r: Highlighted)
    ensures r.Unchanged? <==> query == ""
    ensures r.text == text
  {
    if query == "" then Unchanged(text) else Marked(text, query)
  }

  class View {
    var courses: seq<Course>
    var searchQuery: string
    var page: int
    var totalPages: int
    var category: string
    var deliveryMethod: string
    var courseLocation: string
    var language: Option<string>
    var startDate: Option<int>
    /** The router's current location. */
    var location: Routing.Location

    function State(): ListState
      reads this
    {
      ListState(searchQuery, page, totalPages, category, courseLocation, deliveryMethod, language, startDate)
    }

    /** The `useState` initial values, at the location the page was opened with. */
    constructor (url: Routing.Location)
      ensures State() == InitialState
      ensures courses == [] && location == url
    {
      courses := [];
      searchQuery := "";
      page := 1;
      totalPages := 1;
      category := "";
      deliveryMethod := "";
      courseLocation := "";
      language := None;
      startDate := None;
      location := url;
    }

    /**
     * The effect on `location.search`: the page becomes the URL's `page`
     * parameter, 1 when it is missing or empty. Only decimal integers are modelled.
     */
    method SyncPageFromUrl()
      requires Routing.PageFromUrl(location.pageParam).Some?
      modifies this
      ensures courses == old(courses) && location == old(location)
      ensures Routing.PageFromUrl(location.pageParam) == Some(page)
      ensures location.pageParam == None ==> page == 1
      ensures State() == old(State()).(page := page)
    {
      page := Routing.PageFromUrl(location.pageParam).value;
    }

    /** `handlePageChange`: navigate to /courses/?page=n and set the page to n, without clamping. */
    method HandlePageChange(pageNumber: int)
      modifies this
      ensures State() == old(State()).(page := pageNumber)
      ensures location == Routing.PageLocation(Routing.CoursesPath, pageNumber)
      ensures Routing.PageFromUrl(location.pageParam) == Some(page)
      ensures courses == old(courses)
    {
      location := Routing.PageLocation(Routing.CoursesPath, pageNumber);
      page := pageNumber;
    }

    /** `handleSearchChange`: the new search text, back to page 1; the URL is left as it was. */
    method HandleSearchChange(value: string)
      modifies this
      ensures State() == old(State()).(search := value, page := 1)
      ensures courses == old(courses) && location == old(location)
    {
      searchQuery := value;
      page := 1;
    }

    /** `setCategory`, handed to the filter bar; the page is not reset. */
    method SetCategory(value: string)
      modifies this
      ensures State() == old(State()).(category := value)
      ensures courses == old(courses) && location == old(location)
    {
      category := value;
    }

    /** `setCourseLocation`, handed to the filter bar; the page is not reset. */
    method SetCourseLocation(value: string)
      modifies this
      ensures State() == old(State()).(location := value)
      ensures courses == old(courses) && location == old(location)
    {
      courseLocation := value;
    }

    /** `setDeliveryMethod`, handed to the filter bar; the page is not reset. */
    method SetDeliveryMethod(value: string)
      modifies this
      ensures State() == old(State()).(delivery := value)
      ensures courses == old(courses) && location == old(location)
    {
      deliveryMethod := value;
    }

    /** `setLanguage`, handed to the filter bar; None is the call without an argument. */
    method SetLanguage(value: Option<string>)
      modifies this
      ensures State() == old(State()).(language := value)
      ensures courses == old(courses) && location == old(location)
    {
      language := value;
    }

    /** `setStartDate`, handed to the filter bar; None is the call without an argument. */
    method SetStartDate(value: Option<int>)
      modifies this
      ensures State() == old(State()).(startDate := value)
      ensures courses == old(courses) && location == old(location)
    {
      startDate := value;
    }

    /** A successful fetch stores the courses and the page count it returned; the filters stay. */
    method ApplyFetchResult(fetched: seq<Course>, fetchedTotalPages: int)
      modifies this
      ensures courses == fetched
      ensures State() == old(State()).(totalPages := fetchedTotalPages)
      ensures location == old(location)
    {
      courses := fetched;
      totalPages := fetchedTotalPages;
    }

    /** The pagination control this render shows, from the range `getPaginationRange` builds. */
    method RenderPagination() returns (bar: Pagination.Bar)
      ensures bar == Pagination.BarOf(page, totalPages)
      ensures |bar.links| <= 3
      ensures Pagination.ActiveCount(bar.links) == if page <= totalPages then 1 else 0
    {
      var range := Pagination.GetPaginationRange(page, totalPages);
      bar := Pagination.Bar(
        Pagination.PreviousDisabled(page),
        Pagination.Links(range, page),
        Pagination.ShowPaginationEllipsis(page, totalPages),
        Pagination.NextDisabled(page, totalPages));
      Pagination.WindowShape(page, totalPages);
      Pagination.ExactlyOneActiveLink(page, totalPages);
    }
  }
}
