/**
 * The filter bar above the course list: the search box, the option lists it
 * loads once, the language radio group and "Clear filters". Its setters are the
 * list page's own state setters, so it acts on a CourseListPage.View.
 */
module Filters {
  import opened Wrappers
  import CourseListPage

  /** The radio option that stands for no language filter. */
  const AllLanguages := "all"

  /** The radio group's value: `!language ? "all" : language`; undefined and "" are both falsy. */
  function RadioValue(language: Option<string>): (shown: string)
    ensures shown != ""
    ensures shown == AllLanguages <==> language == None || language.value == "" || language.value == AllLanguages
    ensures shown != AllLanguages ==> language == Some(shown)
  {
    match language
    case None => AllLanguages
    case Some(l) => if l == "" then AllLanguages else l
  }

  /** The radio group's `onValueChange`: "all" clears the language filter, any other option sets it. */
  function LanguageFromRadio(selected: string): (language: Option<string>)
    ensures language == None <==> selected == AllLanguages
    ensures language.Some? ==> language.value == selected
  {
    if selected == AllLanguages then None else Some(selected)
  }

  /** Selecting a non-empty option and rendering again shows that option. */
  lemma RadioRoundTrip(selected: string)
    requires selected != ""
    ensures RadioValue(LanguageFromRadio(selected)) == selected
  {
  }

  /**
   * Reading the radio back gives the language filter unchanged exactly when it
   * is undefined or a language other than "" and "all".
   */
  lemma LanguageRoundTrip(language: Option<string>)
    ensures LanguageFromRadio(RadioValue(language)) == language
        <==> language == None || (language.value != "" && language.value != AllLanguages)
  {
  }

  /** The list state after "Clear filters": empty search, first page, no filter; the page count stays. */
  function Cleared(s: CourseListPage.ListState): (cleared: CourseListPage.ListState)
  {
    s.(search := "", page := 1, category := "", location := "", delivery := "",
       language := None, startDate := None)
  }

  /** Clearing gives the state the page mounts with, except for the page count of the last fetch. */
  lemma ClearedIsInitial(s: CourseListPage.ListState)
    ensures Cleared(s) == CourseListPage.InitialState.(totalPages := s.totalPages)
  {
  }

  /** Clearing twice is clearing once. */
  lemma ClearIdempotent(s: CourseListPage.ListState)
    ensures Cleared(Cleared(s)) == Cleared(s)
  {
  }

  /** Clearing forgets every user choice: two states clear alike exactly when their page counts agree. */
  lemma ClearForgetsFilters(s: CourseListPage.ListState, t: CourseListPage.ListState)
    ensures Cleared(s) == Cleared(t) <==> s.totalPages == t.totalPages
  {
  }

  class FilterBar {
    /** The option lists the bar fetches once on mount. */
    var locations: seq<string>
    var categories: seq<string>
    var deliveryMethods: seq<string>
    /** The list page whose setters the bar was given. */
    const parent: CourseListPage.View

    /** The bar once its three option fetches have delivered their lists. */
    constructor (view: CourseListPage.View, fetchedLocations: seq<string>, fetchedCategories: seq<string>,
                 fetchedDeliveryMethods: seq<string>)
      ensures parent == view
      ensures locations == fetchedLocations && categories == fetchedCategories
      ensures deliveryMethods == fetchedDeliveryMethods
    {
      parent := view;
      locations := fetchedLocations;
      categories := fetchedCategories;
      deliveryMethods := fetchedDeliveryMethods;
    }

    /** The search input's change handler: the typed text goes to the page unchanged. */
    method HandleSearchChange(value: string)
      modifies parent
      ensures parent.State() == old(parent.State()).(search := value, page := 1)
      ensures parent.courses == old(parent.courses) && parent.location == old(parent.location)
    {
      parent.HandleSearchChange(value);
    }

    /**
     * `handleClearFilter`: six setter calls, the search going through the page's
     * search handler (which also goes back to page 1). The option lists and the
     * URL stay.
     */
    method HandleClearFilter()
      modifies parent
      ensures parent.State() == Cleared(old(parent.State()))
      ensures parent.courses == old(parent.courses) && parent.location == old(parent.location)
      ensures locations == old(locations) && categories == old(categories)
      ensures deliveryMethods == old(deliveryMethods)
    {
      parent.HandleSearchChange("");
      parent.SetCategory("");
      parent.SetCourseLocation("");
      parent.SetDeliveryMethod("");
      parent.SetLanguage(None);
      parent.SetStartDate(None);
    }

    /** The language radio group's `onValueChange`. */
    method OnLanguageChange(selected: string)
      modifies parent
      ensures parent.State() == old(parent.State()).(language := LanguageFromRadio(selected))
      ensures parent.courses == old(parent.courses) && parent.location == old(parent.location)
      ensures selected != "" ==> RadioValue(parent.language) == selected
    {
      if selected == AllLanguages {
        parent.SetLanguage(None);
      } else {
        parent.SetLanguage(Some(selected));
      }
    }
  }
}
