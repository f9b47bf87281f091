/**
 * The news filter bar: whether any filter is active, the "reset" button, and
 * the collapsible panel with its active-filter chips and their clear buttons.
 * The three filter values live in the parent; the bar changes them only
 * through the callbacks, which the class below stands for.
 */
module NewsFilters {
  import opened NewsStore

  /** The sort options, in display order, with their i18n label keys. */
  datatype SortOption = SortOption(value: SortBy, labelKey: string)

  const SORT_OPTIONS: seq<SortOption> := [
    SortOption(Date, "news.sortByDate"),
    SortOption(Views, "news.sortByViews"),
    SortOption(Likes, "news.sortByLikes")
  ]

  /** Every sort value has exactly one option. */
  lemma SortOptionsCoverEachOnce(s: SortBy)
    ensures |SORT_OPTIONS| == 3
    ensures exists i :: 0 <= i < |SORT_OPTIONS| && SORT_OPTIONS[i].value == s
    ensures forall i, j :: 0 <= i < j < |SORT_OPTIONS| ==> SORT_OPTIONS[i].value != SORT_OPTIONS[j].value
  {
    match s
    case Date => assert SORT_OPTIONS[0].value == s;
    case Views => assert SORT_OPTIONS[1].value == s;
    case Likes => assert SORT_OPTIONS[2].value == s;
  }

  /** `searchQuery || selectedCategory || sortBy !== 'date'`. */
  predicate HasActiveFilters(searchQuery: string, selectedCategory: string, sortBy: SortBy)
  {
    searchQuery != "" || selectedCategory != "" || sortBy != Date
  }

  /** The chips shown inside the filter panel, in display order. */
  datatype Chip = SearchChip(query: string) | CategoryChip(category: string) | SortChip(option: SortBy)

  /**
   * The chip row as rendered: the chips live inside the panel, so nothing is
   * shown while the panel is closed.
   */
  function Chips(showFilters: bool, searchQuery: string, selectedCategory: string, sortBy: SortBy): (r: seq<Chip>)
  {
    if !showFilters then []
    else
      (if searchQuery != "" then [SearchChip(searchQuery)] else [])
      + (if selectedCategory != "" then [CategoryChip(selectedCategory)] else [])
      + (if sortBy != Date then [SortChip(sortBy)] else [])
  }

  /**
   * With the panel open a chip is shown for each active filter and only for
   * it; with the panel closed no chip is shown. So some chip is visible
   * exactly when the panel is open and a filter is active.
   */
  lemma ChipsShowActiveFilters(showFilters: bool, searchQuery: string, selectedCategory: string, sortBy: SortBy)
    ensures var c := Chips(showFilters, searchQuery, selectedCategory, sortBy);
            (|c| > 0 <==> showFilters && HasActiveFilters(searchQuery, selectedCategory, sortBy))
            && (SearchChip(searchQuery) in c <==> showFilters && searchQuery != "")
            && (CategoryChip(selectedCategory) in c <==> showFilters && selectedCategory != "")
            && (SortChip(sortBy) in c <==> showFilters && sortBy != Date)
            && |c| <= 3
  {
  }

  /**
   * The "reset" button sits next to the filter button, outside the panel:
   * it is shown whenever a filter is active, whether the panel is open or not.
   */
  function ResetButtonShown(showFilters: bool, searchQuery: string, selectedCategory: string, sortBy: SortBy): (shown: bool)
    ensures shown <==> HasActiveFilters(searchQuery, selectedCategory, sortBy)
    ensures shown <==> searchQuery != "" || selectedCategory != "" || sortBy != Date
  {
    HasActiveFilters(searchQuery, selectedCategory, sortBy)
  }

  /** Opening or closing the panel never changes whether the reset button is shown. */
  lemma ResetButtonIgnoresPanel(searchQuery: string, selectedCategory: string, sortBy: SortBy)
    ensures ResetButtonShown(true, searchQuery, selectedCategory, sortBy)
            == ResetButtonShown(false, searchQuery, selectedCategory, sortBy)
    ensures ResetButtonShown(false, searchQuery, selectedCategory, sortBy)
            ==> Chips(false, searchQuery, selectedCategory, sortBy) == []
  {
  }

  /** The filter values as the bar's parent holds them, and the bar's own panel flag. */
  class FilterBar {
    var searchQuery: string
    var selectedCategory: string
    var sortBy: SortBy
    var showFilters: bool

    constructor (searchQuery: string, selectedCategory: string, sortBy: SortBy)
      ensures this.searchQuery == searchQuery && this.selectedCategory == selectedCategory && this.sortBy == sortBy
      ensures !showFilters
    {
      this.searchQuery, this.selectedCategory, this.sortBy := searchQuery, selectedCategory, sortBy;
      showFilters := false;
    }

    predicate Active()
      reads this
    {
      HasActiveFilters(searchQuery, selectedCategory, sortBy)
    }

    /** The chips the bar currently shows. */
    function VisibleChips(): seq<Chip>
      reads this
    {
      Chips(showFilters, searchQuery, selectedCategory, sortBy)
    }

    /**
     * The filter button opens and closes the panel; the reset button's
     * visibility does not depend on it, and a closed panel shows no chip.
     */
    method ToggleFilters()
      modifies this`showFilters
      ensures showFilters == !old(showFilters)
      ensures !showFilters ==> VisibleChips() == []
      ensures showFilters ==> (|VisibleChips()| > 0 <==> Active())
    {
      showFilters := !showFilters;
    }

    /** `clearFilters`: all three values back to their defaults, after which nothing is active. */
    method ClearFilters()
      modifies this`searchQuery, this`selectedCategory, this`sortBy
      ensures searchQuery == "" && selectedCategory == "" && sortBy == Date
      ensures !Active()
    {
      searchQuery := "";
      selectedCategory := "";
      sortBy := Date;
    }

    /** The search chip's X clears the query only. */
    method ClearSearchChip()
      modifies this`searchQuery
      ensures searchQuery == ""
      ensures Active() <==> selectedCategory != "" || sortBy != Date
    {
      searchQuery := "";
    }

    /** The category chip's X clears the category only. */
    method ClearCategoryChip()
      modifies this`selectedCategory
      ensures selectedCategory == ""
      ensures Active() <==> searchQuery != "" || sortBy != Date
    {
      selectedCategory := "";
    }

    /** The sort chip's X puts the sort back to date only. */
    method ClearSortChip()
      modifies this`sortBy
      ensures sortBy == Date
      ensures Active() <==> searchQuery != "" || selectedCategory != ""
    {
      sortBy := Date;
    }
  }
}
