/**
 * The browser location as the list views see it: the path and the value of the
 * `page` query parameter (what `new URLSearchParams(location.search).get("page")`
 * returns). Other query parameters play no part in the views.
 */
module Routing {
  import opened Wrappers
  import Decimal

  datatype Location = Location(pathname: string, pageParam: Option<string>)

  /** The path the current list page navigates to on a page change. */
  const CoursesPath := "/courses/"

  /** The path the older list component navigates to on a page change. */
  const RootPath := "/"

  /**
   * `params.get("page") || "1"`: a missing parameter and an empty one (both
   * falsy in JavaScript) fall back to "1".
   */
  function PageText(pageParam: Option<string>): (s: string)
    ensures pageParam == None ==> s == "1"
    ensures s != ""
  {
    match pageParam
    case None => "1"
    case Some(v) => if v == "" then "1" else v
  }

  /** The page the URL effect sets: `parseInt(params.get("page") || "1", 10)`. */
  function PageFromUrl(pageParam: Option<string>): (r: Option<int>)
    ensures pageParam == None ==> r == Some(1)
    ensures pageParam == Some("") ==> r == Some(1)
    ensures r.Some? <==> Decimal.IsDecimalInteger(PageText(pageParam))
  {
    Decimal.ParseIntOfIntToString(1);
    Decimal.ParseInt(PageText(pageParam))
  }

  /** Where `navigate(`${path}?page=${n}`)` leads: the URL then carries the page number's text. */
  function PageLocation(path: string, pageNumber: int): (l: Location)
    ensures l.pathname == path
    ensures PageFromUrl(l.pageParam) == Some(pageNumber)
  {
    Decimal.ParseIntOfIntToString(pageNumber);
    Location(path, Some(Decimal.IntToString(pageNumber)))
  }
}
