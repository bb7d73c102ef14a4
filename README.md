# Course catalogue front-end: list view, filter bar and registration form

This project models, in Dafny, the deterministic logic of a course-discovery web
front-end written in TypeScript and React:

- **Pagination of the course list.** The list shows a window of at most three
  page links. The window is the block of three that holds the current page,
  starting at `floor((page - 1) / 3) * 3 + 1` and cut off at the last page. An
  ellipsis, a Previous button and a Next button go around it. The range is built
  with a loop (`Pagination.GetPaginationRange`). It is proved equal to a
  declarative window (`Pagination.PaginationWindow`). The lemmas then prove the
  shape of that window, when a page is in it, when it is empty, that exactly one
  link is active, and that the enabled controls keep the page in range.
- **The list view's state.** The current page (`/courses`) and the older
  component (route `/`) are each a class. Their fields are the React state
  variables, and their methods are the handlers and setters. Each method states
  the new state in full: what changed, and that nothing else changed.
  - A search change sets the search text and goes back to page 1.
  - A page change sets the page exactly, with no clamping. It also navigates to a
    URL whose `page` parameter reads back as that page.
  - The URL effect reads the page back, and a missing or empty `page` parameter
    gives 1. Page numbers are written with `${n}` and read with `parseInt`. Both
    are modelled on decimal text (`Decimal`), and a round trip is proved.
  - Both views render the same pagination expressions. These are defined once in
    `Pagination`, and each view's render method is proved to produce
    `Pagination.BarOf(page, totalPages)`.
- **The filter bar.** "Clear filters" makes six setter calls on the page. The
  result is `Filters.Cleared` of the old state: empty search, page 1, no filter,
  and the page count of the last fetch kept. Clearing is idempotent. It gives the
  page's initial state back, and it leaves the bar's option lists and the URL
  alone. The language radio shows `"all"` for an undefined or empty language.
  Selecting `"all"` clears the language filter. Round trips in both directions
  are proved, with the exact condition under which each holds.
- **The registration form schema.** First and last name need 1 to 35
  characters, the phone number 1 to 15, and the email must be non-empty and
  pass the schema library's address check. Each failed check has its own message.
  As in the schema library, every check of a field runs and reports its issue,
  and the form shows each field's first issue. The form is accepted exactly when
  all four fields are valid, and submit passes on only accepted values.
  Submitting the untouched form (every field empty) shows the "required"
  message under each field.

The code does the following, and the model follows it:

- Choosing a category, location or delivery method in the filter bar calls the
  page's setter directly and does not go back to page 1. Only a search change
  and "Clear filters" do.
- A page change is never clamped to `1..totalPages`. At the ends, Previous and Next
  only ignore pointer events (`pointer-events-none`); their click handlers stay.
- The list state keeps `""`, not "no value", for an unset category, location or
  delivery method.

A search change or "Clear filters" goes back to page 1 without navigating. The
URL therefore keeps the `page` parameter of the last page change, which can
differ from the page shown. `HandleSearchChange` states this: the location is
unchanged, while only `HandlePageChange` promises that the URL reads back as
the current page.

The window's ellipsis depends on the page, not on the block. On page 5 of 7 the
window is `[4, 5, 6]`, page 7 is not linked, and no ellipsis shows
(`Pagination.HiddenPagesWithoutEllipsis`). The reverse always holds: when the
ellipsis shows, pages exist past the window (`Pagination.EllipsisMeansHiddenPages`).

Files: `wrappers.dfy` (Option, Result), `types.dfy` (the course record),
`decimal.dfy`, `routing.dfy`, `pagination.dfy`, `course_list_page.dfy`,
`legacy_course_list.dfy`, `filters.dfy`, `course_form.dfy`.

## Model

| member | source | states |
|---|---|---|
| `Decimal.NatToString` | src/pages/CourseList.tsx:110 | The text of a non-negative page number is a non-empty digit string, with no leading zero except for 0 itself |
| `Decimal.IntToString` | src/pages/CourseList.tsx:110 | `${n}` is non-empty, starts with '-' exactly for a negative n, and is a decimal integer that `parseInt` accepts |
| `Decimal.ParseInt` | src/pages/CourseList.tsx:73 | `parseInt(s, 10)` on an optionally signed digit string: the number is non-positive after '-' and non-negative otherwise; None stands for every input that is not modelled (NaN, leading whitespace, a digit prefix) |
| `Decimal.ParseIntOfIntToString` | src/pages/CourseList.tsx:73 | Reading back the text of any integer page number gives that number |
| `Routing.PageText` | src/pages/CourseList.tsx:73 | `params.get("page") \|\| "1"` is never empty, and is "1" when the parameter is missing |
| `Routing.PageFromUrl` | src/pages/CourseList.tsx:72-74 | A missing or empty `page` parameter gives page 1; a decimal-integer parameter gives its page; None stands for every other parameter, which is not modelled |
| `Routing.PageLocation` | src/pages/CourseList.tsx:110 | Navigating to `path?page=n` keeps the path, and the URL's page parameter reads back as n |
| `Pagination.ShowPaginationEllipsis` | src/pages/CourseList.tsx:121 | `totalPages > 3 && page + 2 < totalPages` (also src/components/CourseList.tsx:93); when it holds, the window is full and its last link is before the last page |
| `Pagination.PreviousDisabled` | src/pages/CourseList.tsx:224 | `page <= 1` (also src/components/CourseList.tsx:162): Previous is disabled exactly when the page it leads to, page - 1, is before page 1 |
| `Pagination.NextDisabled` | src/pages/CourseList.tsx:247 | `page >= totalPages` (also src/components/CourseList.tsx:185): Next is disabled exactly when the page it leads to, page + 1, is past the last page |
| `Pagination.BlockStart` | src/pages/CourseList.tsx:42 | The block start is at most the page and at least the page minus 2, and is 1 more than a multiple of 3 |
| `Pagination.GetPaginationRange` | src/pages/CourseList.tsx:41-51 | The loop that pushes start..min(start + 2, totalPages) returns exactly the declarative window |
| `Pagination.WindowShape` | src/pages/CourseList.tsx:42-48 | The window has at most 3 entries, entry k is the block start plus k, and no entry is past totalPages |
| `Pagination.WindowMembership` | src/pages/CourseList.tsx:42-48 | A page number is in the window exactly when it lies in the page's block of three and is not past totalPages |
| `Pagination.WindowEmpty` | src/pages/CourseList.tsx:43-48 | The window is empty exactly when the block start is past totalPages, as on page 4 of 3 |
| `Pagination.WindowContainsPage` | src/pages/CourseList.tsx:42-43 | The current page is in the window exactly when it is not past totalPages |
| `Pagination.WindowExamples` | src/pages/CourseList.tsx:119-121 | Page 4 of 10 shows [4, 5, 6] with an ellipsis; page 1 of 2 shows [1, 2] without one; page 4 of 3 shows no links |
| `Pagination.EllipsisMeansHiddenPages` | src/pages/CourseList.tsx:121 | Whenever the ellipsis shows, the window is full and its last link is before the last page |
| `Pagination.HiddenPagesWithoutEllipsis` | src/pages/CourseList.tsx:119-121 | On page 5 of 7 the window is [4, 5, 6] and no ellipsis shows, although page 7 is not linked |
| `Pagination.Links` | src/pages/CourseList.tsx:228-237 | One link per range entry, in order, with the entry's number, active exactly when the number is the current page |
| `Pagination.ActiveCountOfIncreasing` | src/pages/CourseList.tsx:232 | Over ascending distinct page numbers, one link is active if the page is listed, and none otherwise |
| `Pagination.ExactlyOneActiveLink` | src/pages/CourseList.tsx:228-237 | The rendered bar has exactly one active link when the page is not past totalPages, and none otherwise |
| `Pagination.EnabledControlsStayInRange` | src/pages/CourseList.tsx:220-250 | From a page in 1..totalPages, an enabled Previous or Next and every page link lead to a page in 1..totalPages |
| `CourseListPage.HighlightText` | src/pages/CourseList.tsx:30-31 | Returns the text itself when the query is empty; any other query goes through the regular-expression split, which is not modelled |
| `CourseListPage.View.constructor` | src/pages/CourseList.tsx:54-62 | The page mounts with empty search and filters, page 1, one page, no courses, at the opening URL |
| `CourseListPage.View.SyncPageFromUrl` | src/pages/CourseList.tsx:71-75 | The page becomes the URL's page parameter, 1 when missing; nothing else changes |
| `CourseListPage.View.HandlePageChange` | src/pages/CourseList.tsx:109-112 | The page becomes exactly n and the URL is /courses/?page=n, which reads back as n; nothing else changes |
| `CourseListPage.View.HandleSearchChange` | src/pages/CourseList.tsx:114-117 | The search becomes v and the page 1; category, location, delivery, language, start date and URL are unchanged |
| `CourseListPage.View.SetCategory` | src/pages/CourseList.tsx:58 | Only the category changes; the page is not reset |
| `CourseListPage.View.SetDeliveryMethod` | src/pages/CourseList.tsx:59 | Only the delivery method changes; the page is not reset |
| `CourseListPage.View.SetCourseLocation` | src/pages/CourseList.tsx:60 | Only the location filter changes; the page is not reset |
| `CourseListPage.View.SetLanguage` | src/pages/CourseList.tsx:61 | Only the language filter changes |
| `CourseListPage.View.SetStartDate` | src/pages/CourseList.tsx:62 | Only the start-date filter changes |
| `CourseListPage.View.ApplyFetchResult` | src/pages/CourseList.tsx:89-90 | A successful fetch replaces the courses and the page count, and leaves the filters, page and URL alone |
| `CourseListPage.View.RenderPagination` | src/pages/CourseList.tsx:218-252 | The rendered control is the bar of the current page and page count, with at most 3 links and exactly one active when the page is not past the last |
| `LegacyCourseList.View.constructor` | src/components/CourseList.tsx:28-34 | The component mounts with empty search and filters, page 1, one page, no courses |
| `LegacyCourseList.View.SyncPageFromUrl` | src/components/CourseList.tsx:41-45 | The page becomes the URL's page parameter, 1 when missing; nothing else changes |
| `LegacyCourseList.View.HandlePageChange` | src/components/CourseList.tsx:69-72 | The page becomes exactly n and the URL is /?page=n, which reads back as n; nothing else changes |
| `LegacyCourseList.View.HandleSearchChange` | src/components/CourseList.tsx:74-77 | The search becomes v and the page 1; category, location and delivery method are unchanged |
| `LegacyCourseList.View.ApplyFetchResult` | src/components/CourseList.tsx:57-58 | A successful fetch replaces the courses and the page count only |
| `LegacyCourseList.View.PaginationRange` | src/components/CourseList.tsx:79-89 | The closure's range is the window of the component's page: consecutive from the block start, at most 3 entries, none past the last page |
| `LegacyCourseList.View.RenderPagination` | src/components/CourseList.tsx:156-190 | The rendered control is the same bar as the current page's, with exactly one active link when the page is not past the last |
| `Filters.RadioValue` | src/components/Filters.tsx:176 | The radio shows "all" exactly for an undefined, empty or "all" language, and otherwise the language itself; never "" |
| `Filters.LanguageFromRadio` | src/components/Filters.tsx:177-183 | Selecting "all" makes the language undefined; selecting anything else makes it that value |
| `Filters.RadioRoundTrip` | src/components/Filters.tsx:176-183 | After selecting any non-empty option, the radio shows that option |
| `Filters.LanguageRoundTrip` | src/components/Filters.tsx:176-183 | Reading the shown radio value back gives the language unchanged exactly when it is undefined or neither "" nor "all" |
| `Filters.ClearedIsInitial` | src/components/Filters.tsx:97-104 | Clearing gives the list page's initial state, except for the page count of the last fetch |
| `Filters.ClearIdempotent` | src/components/Filters.tsx:97-104 | Clearing twice gives the same state as clearing once |
| `Filters.ClearForgetsFilters` | src/components/Filters.tsx:97-104 | Two states clear alike exactly when their page counts agree: no user choice survives a clear |
| `Filters.FilterBar.constructor` | src/components/Filters.tsx:56-58 | The bar holds the option lists its fetches delivered |
| `Filters.FilterBar.HandleSearchChange` | src/components/Filters.tsx:93-95 | The typed text reaches the page unchanged, which goes back to page 1 |
| `Filters.FilterBar.HandleClearFilter` | src/components/Filters.tsx:97-104 | The page's state becomes the cleared state, including page 1 through the search handler; the option lists, courses and URL are unchanged |
| `Filters.FilterBar.OnLanguageChange` | src/components/Filters.tsx:177-183 | Only the language changes, to the mapped value, and the radio then shows the selected non-empty option |
| `CourseForm.LengthIssues` | src/pages/CourseForm.tsx:26-33 | A min/max string check passes exactly within the bounds, reports the min message first when too short and only the max message when too long |
| `CourseForm.FirstNameIssues` | src/pages/CourseForm.tsx:26-33 | The first name passes exactly for 1 to 35 characters, and every issue is about the first name |
| `CourseForm.LastNameIssues` | src/pages/CourseForm.tsx:34-41 | The last name passes exactly for 1 to 35 characters, and every issue is about the last name |
| `CourseForm.EmailIssues` | src/pages/CourseForm.tsx:42-45 | The email passes exactly when non-empty and an address; empty gives "Email is required" first; non-empty fails only with "Email is invalid" |
| `CourseForm.PhoneIssues` | src/pages/CourseForm.tsx:46-49 | The phone number passes exactly for 1 to 15 characters, and every issue is about the phone |
| `CourseForm.SafeParse` | src/pages/CourseForm.tsx:25-50 | The schema accepts exactly when all four fields are valid, returns the values unchanged, and otherwise at least one issue |
| `CourseForm.FieldMessage` | src/pages/CourseForm.tsx:97 | The message under a field is one of that field's issues, and there is none exactly when the field has no issue |
| `CourseForm.HandleSubmit` | src/pages/CourseForm.tsx:80-82 | Submit passes values on exactly when all four fields are valid, and then unchanged |
| `CourseForm.FieldMessageOfSchema` | src/pages/CourseForm.tsx:25-50 | The message under each field depends only on that field's own checks |
| `CourseForm.DefaultValuesFailRequired` | src/pages/CourseForm.tsx:55-60 | Submitting the all-empty defaults shows the "required" message under all four fields and passes nothing on |
| `CourseForm.FirstNameMessages` | src/pages/CourseForm.tsx:26-33 | No first-name message exactly for 1 to 35 characters; empty shows the required message, over 35 the too-long message |
| `CourseForm.LastNameMessages` | src/pages/CourseForm.tsx:34-41 | No last-name message exactly for 1 to 35 characters; empty shows the required message, over 35 the too-long message |
| `CourseForm.EmailMessages` | src/pages/CourseForm.tsx:42-45 | Empty email shows "Email is required"; a non-empty one shows "Email is invalid" exactly when it is not an address |
| `CourseForm.PhoneMessages` | src/pages/CourseForm.tsx:46-49 | No phone message exactly for 1 to 15 characters; empty shows the required message, over 15 the too-long message |

## Left out

- The HTTP calls (`src/services/index.ts`, the course details fetch, the option-list fetches of the filter bar) are I/O. The filter bar's constructor takes the lists its fetches delivered.
- The course fetch effect is not modelled: its `async` lifecycle, overlapping requests, the `loading` flag and the error log. The source has no guard against a stale response, and the model does not add one. Only the state a successful fetch stores is modelled (`ApplyFetchResult`).
- The 500 ms debounce of the search text is timer-based, and its hook is not part of this model. The fetch query it feeds is left out with the fetch.
- `highlightText` for a non-empty query builds an unescaped, global regular expression from the query. Only the empty-query case is modelled; the other result is an opaque `Marked` value. When the query matches nothing, the source shows the text unchanged. When the query is not a valid pattern ("C++" or "(", say), `new RegExp` throws and the render of any course breaks; `Marked` does not capture this.
- `dateString`, the "upcoming" badge (`new Date(...) > new Date()`) and `cn` depend on locale formatting, the wall clock and styling libraries.
- CourseForm.FieldMessage: gives the message under a field once validation has run. When validation runs is not modelled. The form sets no validation mode, so the library validates on submit, and an untouched form shows no message until then.
- The email address format of the schema library is a regular expression; the model takes it as the predicate parameter `isEmail`.
- Decimal.ParseInt: gives None for every input that is not an optionally signed digit string. JavaScript's `parseInt` gives NaN for some of these, skips leading whitespace (" 5" is 5) and reads a digit prefix ("5abc" and "5.5" are 5); none of that is modelled.
- Routing.PageFromUrl: gives None for a `page` parameter that is not a decimal integer, for the same reason: `?page=5abc` shows page 5 in the source.
- CourseListPage.View.SyncPageFromUrl: requires the `page` parameter to be missing, empty or an optionally signed decimal integer, because `parseInt`'s NaN, its leading-whitespace skip and its reading of a digit prefix are not modelled.
- LegacyCourseList.View.SyncPageFromUrl: requires the same of the `page` parameter, for the same reason.
- The rest of the query string is not modelled, and neither is its percent-decoding: a location carries only the decoded value of its `page` parameter.
- Decimal.IntToString: gives plain digits for every integer. JavaScript writes plain digits only below 10^21 in magnitude and switches to exponent notation from there. A hand-typed `?page=1000000000000000000000` followed by Next navigates the source to `?page=1e+21`, which reads back as page 1; the model reads back 10^21 + 1.
- Page numbers are unbounded integers. JavaScript numbers are doubles, which hold every integer exactly only up to 2^53 in magnitude. The model is exact for pages with |n| <= 2^53 - 4, where page ± 1, the block start and the block end are exact too; this is also below 10^21. At the boundary the two part: on page -2^53 the source's block start rounds to -2^53 + 1, and on page 2^53 the source's range loop never ends because `i++` rounds back to 2^53. A longer hand-typed `page` parameter behaves differently: `?page=9007199254740993` gives page 9007199254740992 in the source and 9007199254740993 in the model.
- The string lengths in the form schema count Dafny characters (Unicode scalar values); JavaScript's `length` counts UTF-16 code units, so a character outside the Basic Multilingual Plane counts once here and twice in the source.
- React batches the setter calls of one event handler. Each setter here stores a plain value in its own field, so the batched result equals the sequential one that the methods compute.
- The older list component passes the filter bar no language or start-date props or setters. Its "Clear filters" and language radio would call an undefined function, and that wiring is not modelled: the filter bar acts only on the current list page.
- Markup, routing setup and layout (`Layout.tsx`, `LandingPage.tsx`, `NotFoundPage.tsx`, `main.tsx`, `App.tsx`) hold no logic. `src/src/types.ts` gives only the course record (`Types.Course`).
