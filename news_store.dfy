/**
 * The client news store: the news list and its filtered view, the filter
 * fields, and the user's favourites, bookmarks and read history, together with
 * the settings store's defaults. The store is a class whose actions replace
 * its fields; each action is specified by the pure list operation below it.
 */
module NewsStore {
  import opened Wrappers
  import opened NewsModel
  import opened Strings
  import SeqUtils

  datatype SortBy = Date | Views | Likes

  /** The read history keeps at most this many ids. */
  const HISTORY_LIMIT: nat := 100

  // ---------------------------------------------------------------------------
  // Id lists: favourites, bookmarks, history
  // ---------------------------------------------------------------------------

  /** `ids.includes(id) ? ids : [...ids, id]`. */
  function AddUnique(ids: seq<int>, id: int): seq<int>
  {
    if id in ids then ids else ids + [id]
  }

  /** `ids.filter(x => x !== id)`. */
  function RemoveAll(ids: seq<int>, id: int): (r: seq<int>)
    ensures forall x :: x in r <==> x in ids && x != id
    ensures |r| <= |ids|
  {
    if ids == [] then []
    else if ids[0] == id then RemoveAll(ids[1..], id)
    else [ids[0]] + RemoveAll(ids[1..], id)
  }

  /** `[id, ...history.filter(h => h !== id)].slice(0, 100)`. */
  function PushHistory(history: seq<int>, id: int): seq<int>
  {
    SeqUtils.Take([id] + RemoveAll(history, id), HISTORY_LIMIT)
  }

  /** Adding is idempotent, keeps a list duplicate-free, and makes the id a member. */
  lemma AddUniqueProperties(ids: seq<int>, id: int)
    ensures id in AddUnique(ids, id)
    ensures forall x :: x in AddUnique(ids, id) <==> x in ids || x == id
    ensures AddUnique(AddUnique(ids, id), id) == AddUnique(ids, id)
    ensures id in ids ==> AddUnique(ids, id) == ids
    ensures id !in ids ==> AddUnique(ids, id) == ids + [id]
    ensures SeqUtils.NoDuplicates(ids) ==> SeqUtils.NoDuplicates(AddUnique(ids, id))
  {
  }

  /** Removing an absent id changes nothing. */
  lemma {:induction false} RemoveAbsent(ids: seq<int>, id: int)
    requires id !in ids
    ensures RemoveAll(ids, id) == ids
  {
    if ids != [] {
      RemoveAbsent(ids[1..], id);
    }
  }

  /** Removal is idempotent. */
  lemma RemoveIdempotent(ids: seq<int>, id: int)
    ensures RemoveAll(RemoveAll(ids, id), id) == RemoveAll(ids, id)
  {
    RemoveAbsent(RemoveAll(ids, id), id);
  }

  /** `a` can be obtained from `b` by deleting elements: the elements of `a` occur in `b` in the same order. */
  predicate IsSubsequence(a: seq<int>, b: seq<int>)
    decreases |b|
  {
    if a == [] then true
    else if b == [] then false
    else (a[0] == b[0] && IsSubsequence(a[1..], b[1..])) || IsSubsequence(a, b[1..])
  }

  /** Removal keeps the survivors in order: what remains is a subsequence of the input. */
  lemma {:induction false} RemoveAllIsSubsequence(ids: seq<int>, id: int)
    ensures IsSubsequence(RemoveAll(ids, id), ids)
  {
    if ids != [] {
      RemoveAllIsSubsequence(ids[1..], id);
      var r := RemoveAll(ids, id);
      if ids[0] != id {
        assert r[0] == ids[0] && r[1..] == RemoveAll(ids[1..], id);
      }
    }
  }

  lemma {:induction false} RemoveAllDistinct(ids: seq<int>, id: int)
    requires SeqUtils.NoDuplicates(ids)
    ensures SeqUtils.NoDuplicates(RemoveAll(ids, id))
  {
    if ids != [] {
      RemoveAllDistinct(ids[1..], id);
      assert ids[0] !in ids[1..];
      assert ids[0] !in RemoveAll(ids[1..], id);
      var r := RemoveAll(ids, id);
      if ids[0] != id {
        assert r == [ids[0]] + RemoveAll(ids[1..], id);
        forall i, j | 0 <= i < j < |r| ensures r[i] != r[j] {
          if i == 0 {
            assert r[j] in RemoveAll(ids[1..], id);
          } else {
            assert r[i] == RemoveAll(ids[1..], id)[i - 1];
            assert r[j] == RemoveAll(ids[1..], id)[j - 1];
          }
        }
      }
    }
  }

  /**
   * The history push: the id comes first, is not repeated, at most 100 ids are
   * kept, and the rest is the old history without the id, in order, cut short.
   */
  lemma PushHistoryProperties(history: seq<int>, id: int)
    ensures var h := PushHistory(history, id);
            |h| >= 1 && h[0] == id
            && |h| <= HISTORY_LIMIT
            && id !in h[1..]
            && h[1..] == SeqUtils.Take(RemoveAll(history, id), HISTORY_LIMIT - 1)
            && (SeqUtils.NoDuplicates(history) ==> SeqUtils.NoDuplicates(h))
  {
    var h := PushHistory(history, id);
    var rest := RemoveAll(history, id);
    var tail := SeqUtils.Take(rest, HISTORY_LIMIT - 1);
    assert h[1..] == tail;
    assert forall x :: x in tail ==> x in rest;
    if SeqUtils.NoDuplicates(history) {
      RemoveAllDistinct(history, id);
      forall i, j | 0 <= i < j < |h| ensures h[i] != h[j] {
        if i == 0 {
          assert h[j] in tail;
        } else {
          assert h[i] == rest[i - 1] && h[j] == rest[j - 1];
        }
      }
    }
  }

  /** Reading ids one after another, starting from an empty history. */
  function PushAll(history: seq<int>, ids: seq<int>): seq<int>
  {
    if ids == [] then history else PushHistory(PushAll(history, ids[..|ids| - 1]), ids[|ids| - 1])
  }

  function Reverse(s: seq<int>): (r: seq<int>)
    ensures |r| == |s|
    ensures forall i :: 0 <= i < |s| ==> r[i] == s[|s| - 1 - i]
  {
    if s == [] then [] else [s[|s| - 1]] + Reverse(s[..|s| - 1])
  }

  /**
   * Reading distinct ids into an empty history leaves the most recent 100
   * of them, most recent first.
   */
  lemma {:induction false} HistoryOfDistinctReads(ids: seq<int>)
    requires SeqUtils.NoDuplicates(ids)
    ensures PushAll([], ids) == SeqUtils.Take(Reverse(ids), HISTORY_LIMIT)
  {
    if ids != [] {
      var init := ids[..|ids| - 1];
      var x := ids[|ids| - 1];
      HistoryOfDistinctReads(init);
      var prev := SeqUtils.Take(Reverse(init), HISTORY_LIMIT);
      assert forall i :: 0 <= i < |init| ==> init[i] != x;
      assert x !in init;
      assert forall y :: y in prev ==> y in Reverse(init);
      assert x !in Reverse(init);
      assert x !in prev;
      RemoveAbsent(prev, x);
      assert PushAll([], ids) == SeqUtils.Take([x] + prev, HISTORY_LIMIT);
      assert Reverse(ids) == [x] + Reverse(init);
    }
  }

  /** Re-reading an id already in the history moves it to the front without duplicating it. */
  lemma ReReadMovesToFront(history: seq<int>, id: int)
    requires id in history && |history| <= HISTORY_LIMIT
    requires SeqUtils.NoDuplicates(history)
    ensures var h := PushHistory(history, id);
            h[0] == id && id !in h[1..] && h[1..] == RemoveAll(history, id)
            && |h| == |history|
  {
    RemoveAllCount(history, id);
    CountInDistinct(history, id);
  }

  lemma {:induction false} CountInDistinct(s: seq<int>, x: int)
    requires SeqUtils.NoDuplicates(s) && x in s
    ensures Count(s, x) == 1
  {
    if s[0] == x {
      CountAbsent(s[1..], x);
    } else {
      CountInDistinct(s[1..], x);
    }
  }

  lemma {:induction false} CountAbsent(s: seq<int>, x: int)
    requires x !in s
    ensures Count(s, x) == 0
  {
    if s != [] {
      CountAbsent(s[1..], x);
    }
  }

  function Count(s: seq<int>, x: int): nat
  {
    if s == [] then 0 else (if s[0] == x then 1 else 0) + Count(s[1..], x)
  }

  lemma {:induction false} RemoveAllCount(ids: seq<int>, id: int)
    ensures |RemoveAll(ids, id)| == |ids| - Count(ids, id)
    ensures id in ids ==> Count(ids, id) >= 1
  {
    if ids != [] {
      RemoveAllCount(ids[1..], id);
    }
  }

  // ---------------------------------------------------------------------------
  // filterNews
  // ---------------------------------------------------------------------------

  /**
   * `item.title.toLowerCase().includes(q) || item.summary.toLowerCase().includes(q)`.
   * `None` is the TypeError raised when the title does not match and the
   * summary is null; a matching title never looks at the summary.
   */
  function MatchesQuery(item: NewsItem, q: string): (r: Option<bool>)
    ensures r == None <==> !Contains(ToLower(item.title), q) && item.summary.None?
    ensures r == Some(true) <==> Contains(ToLower(item.title), q) || (item.summary.Some? && Contains(ToLower(item.summary.value), q))
  {
    if Contains(ToLower(item.title), q) then Some(true)
    else match item.summary
      case None => None
      case Some(s) => Some(Contains(ToLower(s), q))
  }

  /** `filtered.filter(...)` with the search test; `None` when the test throws on some item. */
  function SearchFilter(news: seq<NewsItem>, q: string): (r: Option<seq<NewsItem>>)
    ensures r.None? <==> exists x :: x in news && MatchesQuery(x, q).None?
    ensures r.Some? ==> forall x :: x in r.value <==> x in news && MatchesQuery(x, q) == Some(true)
    ensures r.Some? ==> |r.value| <= |news|
  {
    if news == [] then Some([])
    else
      var rest := SearchFilter(news[1..], q);
      assert forall x :: x in news <==> x == news[0] || x in news[1..];
      match MatchesQuery(news[0], q)
      case None => None
      case Some(keep) =>
        if rest.None? then None
        else if keep then Some([news[0]] + rest.value)
        else rest
  }

  /** The sort key: `views` or `likes`; the date comparator reads a field absent from `NewsItem`, so every pair compares equal. */
  function SortKey(item: NewsItem, sortBy: SortBy): int
  {
    match sortBy
    case Views => item.views
    case Likes => item.likes
    case Date => 0
  }

  ghost predicate SortedDesc(s: seq<NewsItem>, sortBy: SortBy)
  {
    forall i, j :: 0 <= i < j < |s| ==> SortKey(s[i], sortBy) >= SortKey(s[j], sortBy)
  }

  /** Puts `x` after every element whose key is at least its own. */
  function InsertDesc(sorted: seq<NewsItem>, x: NewsItem, sortBy: SortBy): (r: seq<NewsItem>)
    ensures multiset(r) == multiset(sorted) + multiset{x}
    ensures |r| == |sorted| + 1
  {
    if sorted == [] then [x]
    else if SortKey(sorted[0], sortBy) < SortKey(x, sortBy) then [x] + sorted
    else
      assert sorted == [sorted[0]] + sorted[1..];
      [sorted[0]] + InsertDesc(sorted[1..], x, sortBy)
  }

  /** Putting an element with a key at least the head's in front of a sorted list keeps it sorted. */
  lemma SortedCons(a: NewsItem, t: seq<NewsItem>, sortBy: SortBy)
    requires SortedDesc(t, sortBy)
    requires t != [] ==> SortKey(a, sortBy) >= SortKey(t[0], sortBy)
    ensures SortedDesc([a] + t, sortBy)
  {
    var r := [a] + t;
    forall i, j | 0 <= i < j < |r| ensures SortKey(r[i], sortBy) >= SortKey(r[j], sortBy) {
      if i == 0 {
        assert r[j] == t[j - 1];
      } else {
        assert r[i] == t[i - 1] && r[j] == t[j - 1];
      }
    }
  }

  /** Inserting into a sorted list keeps it sorted. */
  lemma {:induction false} InsertDescSorted(sorted: seq<NewsItem>, x: NewsItem, sortBy: SortBy)
    requires SortedDesc(sorted, sortBy)
    ensures SortedDesc(InsertDesc(sorted, x, sortBy), sortBy)
    ensures var r := InsertDesc(sorted, x, sortBy);
            r[0] == x || (sorted != [] && r[0] == sorted[0])
  {
    if sorted == [] {
    } else if SortKey(sorted[0], sortBy) < SortKey(x, sortBy) {
      SortedCons(x, sorted, sortBy);
    } else {
      var tail := sorted[1..];
      assert SortedDesc(tail, sortBy);
      InsertDescSorted(tail, x, sortBy);
      var rt := InsertDesc(tail, x, sortBy);
      assert InsertDesc(sorted, x, sortBy) == [sorted[0]] + rt;
      SortedCons(sorted[0], rt, sortBy);
    }
  }

  /**
   * The stable sort that `filtered.sort((a, b) => key(b) - key(a))` performs:
   * non-increasing by key, equal keys kept in their input order.
   */
  function SortDesc(s: seq<NewsItem>, sortBy: SortBy): (r: seq<NewsItem>)
    ensures multiset(r) == multiset(s)
    ensures |r| == |s|
    ensures SortedDesc(r, sortBy)
  {
    if s == [] then []
    else
      assert s == s[..|s| - 1] + [s[|s| - 1]];
      InsertDescSorted(SortDesc(s[..|s| - 1], sortBy), s[|s| - 1], sortBy);
      InsertDesc(SortDesc(s[..|s| - 1], sortBy), s[|s| - 1], sortBy)
  }

  /** The date branch leaves the order untouched: its comparator calls every pair equal. */
  lemma {:induction false} DateSortKeepsOrder(s: seq<NewsItem>)
    ensures SortDesc(s, Date) == s
  {
    if s != [] {
      DateSortKeepsOrder(s[..|s| - 1]);
      InsertAtEqualKeys(s[..|s| - 1], s[|s| - 1]);
      assert s[..|s| - 1] + [s[|s| - 1]] == s;
    }
  }

  lemma {:induction false} InsertAtEqualKeys(t: seq<NewsItem>, x: NewsItem)
    ensures InsertDesc(t, x, Date) == t + [x]
  {
    if t != [] {
      InsertAtEqualKeys(t[1..], x);
      assert [t[0]] + (t[1..] + [x]) == t + [x];
    }
  }

  /** Everything `filterNews` computes; `None` when the search test throws. */
  function FilterResult(news: seq<NewsItem>, category: string, sortBy: SortBy, query: string): Option<seq<NewsItem>>
  {
    var byCategory := if category != "" then FilterCategory(news, category) else news;
    if query == "" then Some(SortDesc(byCategory, sortBy))
    else
      match SearchFilter(byCategory, ToLower(query))
      case None => None
      case Some(found) => Some(SortDesc(found, sortBy))
  }

  /** Whether `filterNews` keeps an item: the category test and then the search test. */
  predicate Kept(x: NewsItem, category: string, query: string)
  {
    (category == "" || x.category == Some(category))
    && (query == "" || MatchesQuery(x, ToLower(query)) == Some(true))
  }

  /** The reference: the items `filterNews` keeps, in list order. */
  function KeptItems(news: seq<NewsItem>, category: string, query: string): seq<NewsItem>
  {
    if news == [] then []
    else (if Kept(news[0], category, query) then [news[0]] else []) + KeptItems(news[1..], category, query)
  }

  /** The category step alone keeps the kept items of an empty query. */
  lemma {:induction false} CategoryStepKeeps(news: seq<NewsItem>, category: string)
    ensures (if category != "" then FilterCategory(news, category) else news) == KeptItems(news, category, "")
  {
    if news != [] {
      CategoryStepKeeps(news[1..], category);
    }
  }

  /** When the search does not throw, the category step followed by the search keeps exactly the kept items, in order. */
  lemma SearchStepKeeps(news: seq<NewsItem>, category: string, query: string)
    requires query != ""
    ensures var found := SearchFilter(if category != "" then FilterCategory(news, category) else news, ToLower(query));
            found.Some? ==> found.value == KeptItems(news, category, query)
  {
    CategoryStepKeeps(news, category);
    SearchOfKept(news, category, query);
  }

  /** Searching the category's kept items, when it does not throw, keeps the items passing both tests. */
  lemma {:induction false} SearchOfKept(news: seq<NewsItem>, category: string, query: string)
    requires query != ""
    ensures var found := SearchFilter(KeptItems(news, category, ""), ToLower(query));
            found.Some? ==> found.value == KeptItems(news, category, query)
  {
    if news != [] {
      SearchOfKept(news[1..], category, query);
      var kept := KeptItems(news, category, "");
      var tail := KeptItems(news[1..], category, "");
      if Kept(news[0], category, "") {
        assert kept == [news[0]] + tail;
        assert kept[1..] == tail;
      } else {
        assert kept == tail;
      }
    }
  }

  /**
   * `filterNews` keeps exactly the items passing the category and search
   * tests, ordered non-increasingly by the sort key (the date order is the
   * list order), and the filter throws only when a kept-by-category item has
   * a non-matching title and a null summary.
   */
  lemma FilterResultProperties(news: seq<NewsItem>, category: string, sortBy: SortBy, query: string)
    ensures var r := FilterResult(news, category, sortBy, query);
            (r.None? <==> query != "" && exists x :: x in news && (category == "" || x.category == Some(category))
                                                && MatchesQuery(x, ToLower(query)).None?)
            && (r.Some? ==>
                  (forall x :: x in r.value <==> x in news && Kept(x, category, query))
                  && SortedDesc(r.value, sortBy))
  {
    var byCategory := if category != "" then FilterCategory(news, category) else news;
    assert forall x :: x in byCategory <==> x in news && (category == "" || x.category == Some(category));
    if query != "" {
      var found := SearchFilter(byCategory, ToLower(query));
      if found.Some? {
        var sorted := SortDesc(found.value, sortBy);
        forall x ensures x in sorted <==> x in found.value {
          assert x in sorted <==> x in multiset(sorted);
        }
      }
    } else {
      var sorted := SortDesc(byCategory, sortBy);
      forall x ensures x in sorted <==> x in byCategory {
        assert x in sorted <==> x in multiset(sorted);
      }
    }
  }

  /** When `filterNews` does not throw, its result is a permutation of the kept items. */
  lemma FilterResultPermutesKept(news: seq<NewsItem>, category: string, sortBy: SortBy, query: string)
    ensures var r := FilterResult(news, category, sortBy, query);
            r.Some? ==> multiset(r.value) == multiset(KeptItems(news, category, query))
  {
    if query != "" {
      SearchStepKeeps(news, category, query);
    } else {
      CategoryStepKeeps(news, category);
    }
  }

  /** With no category and no query, the date order gives back the news list itself. */
  lemma UnfilteredDateOrder(news: seq<NewsItem>)
    ensures FilterResult(news, "", Date, "") == Some(news)
  {
    DateSortKeepsOrder(news);
  }

  // ---------------------------------------------------------------------------
  // The store
  // ---------------------------------------------------------------------------

  class Store {
    var news: seq<NewsItem>
    var filteredNews: seq<NewsItem>
    var selectedCategory: string
    var sortBy: SortBy
    var searchQuery: string
    var favorites: seq<int>
    var readHistory: seq<int>
    var bookmarks: seq<int>
    var isLoading: bool
    var error: Option<string>

    /** The initial state of `useNewsStore`. */
    constructor ()
      ensures news == [] && filteredNews == [] && selectedCategory == "" && sortBy == Date && searchQuery == ""
      ensures favorites == [] && readHistory == [] && bookmarks == []
      ensures !isLoading && error == None
    {
      news, filteredNews := [], [];
      selectedCategory, sortBy, searchQuery := "", Date, "";
      favorites, readHistory, bookmarks := [], [], [];
      isLoading, error := false, None;
    }

    method SetNews(items: seq<NewsItem>)
      modifies this`news
      ensures news == items
    {
      news := items;
    }

    method SetFilteredNews(items: seq<NewsItem>)
      modifies this`filteredNews
      ensures filteredNews == items
    {
      filteredNews := items;
    }

    method SetSelectedCategory(category: string)
      modifies this`selectedCategory
      ensures selectedCategory == category
    {
      selectedCategory := category;
    }

    method SetSortBy(s: SortBy)
      modifies this`sortBy
      ensures sortBy == s
    {
      sortBy := s;
    }

    method SetSearchQuery(query: string)
      modifies this`searchQuery
      ensures searchQuery == query
    {
      searchQuery := query;
    }

    method SetIsLoading(loading: bool)
      modifies this`isLoading
      ensures isLoading == loading
    {
      isLoading := loading;
    }

    method SetError(e: Option<string>)
      modifies this`error
      ensures error == e
    {
      error := e;
    }

    method AddToFavorites(id: int)
      modifies this`favorites
      ensures favorites == AddUnique(old(favorites), id)
    {
      if id !in favorites {
        favorites := favorites + [id];
      }
    }

    method RemoveFromFavorites(id: int)
      modifies this`favorites
      ensures favorites == RemoveAll(old(favorites), id)
    {
      favorites := RemoveAll(favorites, id);
    }

    method AddToHistory(id: int)
      modifies this`readHistory
      ensures readHistory == PushHistory(old(readHistory), id)
    {
      var newHistory := [id] + RemoveAll(readHistory, id);
      readHistory := SeqUtils.Take(newHistory, HISTORY_LIMIT);
    }

    method AddToBookmarks(id: int)
      modifies this`bookmarks
      ensures bookmarks == AddUnique(old(bookmarks), id)
    {
      if id !in bookmarks {
        bookmarks := bookmarks + [id];
      }
    }

    method RemoveFromBookmarks(id: int)
      modifies this`bookmarks
      ensures bookmarks == RemoveAll(old(bookmarks), id)
    {
      bookmarks := RemoveAll(bookmarks, id);
    }

    /** Empties the read history only; favourites and bookmarks are framed out. */
    method ClearHistory()
      modifies this`readHistory
      ensures readHistory == []
    {
      readHistory := [];
    }

    /**
     * `filterNews`: category filter, then search filter, then sort, stored in
     * `filteredNews`. `ok` is false when the search test throws; the store is
     * then left as it was.
     */
    method FilterNews() returns (ok: bool)
      modifies this`filteredNews
      ensures var r := FilterResult(news, selectedCategory, sortBy, searchQuery);
              ok == r.Some?
              && (ok ==> filteredNews == r.value)
              && (!ok ==> filteredNews == old(filteredNews))
    {
      var filtered := news;
      if selectedCategory != "" {
        filtered := FilterCategory(filtered, selectedCategory);
      }
      if searchQuery != "" {
        var query := ToLower(searchQuery);
        var found := SearchFilter(filtered, query);
        if found.None? {
          return false;
        }
        filtered := found.value;
      }
      filtered := SortDesc(filtered, sortBy);
      filteredNews := filtered;
      ok := true;
    }

    /** `searchNews`: stores the query, then re-filters with it. */
    method SearchNews(query: string) returns (ok: bool)
      modifies this`searchQuery, this`filteredNews
      ensures searchQuery == query
      ensures var r := FilterResult(news, selectedCategory, sortBy, query);
              ok == r.Some?
              && (ok ==> filteredNews == r.value)
              && (!ok ==> filteredNews == old(filteredNews))
    {
      searchQuery := query;
      ok := FilterNews();
    }

    /** `resetFilters`: all three filter fields back to their defaults and the full list shown. */
    method ResetFilters()
      modifies this`selectedCategory, this`sortBy, this`searchQuery, this`filteredNews
      ensures selectedCategory == "" && sortBy == Date && searchQuery == ""
      ensures filteredNews == news
    {
      selectedCategory, sortBy, searchQuery := "", Date, "";
      filteredNews := news;
    }
  }

  // ---------------------------------------------------------------------------
  // Settings store
  // ---------------------------------------------------------------------------

  datatype ThemePreference = LightTheme | DarkTheme | SystemTheme
  datatype Language = Zh | En

  class SettingsStore {
    var theme: ThemePreference
    var language: Language
    var notifications: bool
    var autoRefresh: bool
    var refreshInterval: int

    /** The defaults of `useSettingsStore`: system theme, Chinese, notifications on, no auto-refresh, 5 minutes. */
    constructor ()
      ensures theme == SystemTheme && language == Zh
      ensures notifications && !autoRefresh
      ensures refreshInterval == 300000
    {
      theme, language := SystemTheme, Zh;
      notifications, autoRefresh := true, false;
      refreshInterval := 300000;
    }

    method SetTheme(t: ThemePreference)
      modifies this`theme
      ensures theme == t
    {
      theme := t;
    }

    method SetLanguage(l: Language)
      modifies this`language
      ensures language == l
    {
      language := l;
    }

    method SetNotifications(enabled: bool)
      modifies this`notifications
      ensures notifications == enabled
    {
      notifications := enabled;
    }

    method SetAutoRefresh(enabled: bool)
      modifies this`autoRefresh
      ensures autoRefresh == enabled
    {
      autoRefresh := enabled;
    }

    method SetRefreshInterval(interval: int)
      modifies this`refreshInterval
      ensures refreshInterval == interval
    {
      refreshInterval := interval;
    }
  }
}
