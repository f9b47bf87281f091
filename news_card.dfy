/**
 * The news card: relative-time labels, the favourite toggle behind the like
 * button, and the read action that records the item in the history.
 */
module NewsCard {
  import NewsStore
  import SeqUtils

  /** Milliseconds in a minute, the unit of the elapsed-time count. */
  const MINUTE_MS: nat := 1000 * 60

  /** The translated label `formatTime` picks, with its `count` argument. */
  datatype TimeLabel = JustNow | MinutesAgo(minutes: int) | HoursAgo(hours: int) | DaysAgo(days: int)

  /** The i18n key each label is looked up under. */
  function LabelKey(l: TimeLabel): string
  {
    match l
    case JustNow => "time.justNow"
    case MinutesAgo(_) => "time.minutesAgo"
    case HoursAgo(_) => "time.hoursAgo"
    case DaysAgo(_) => "time.daysAgo"
  }

  /**
   * Whole minutes elapsed, rounded down as `Math.floor` does (Dafny's `/` by a
   * positive divisor rounds towards minus infinity too).
   */
  function ElapsedMinutes(nowMs: int, dateMs: int): int
  {
    (nowMs - dateMs) / MINUTE_MS
  }

  /** `formatTime`, with both instants as epoch milliseconds. */
  function FormatTime(nowMs: int, dateMs: int): TimeLabel
  {
    var m := ElapsedMinutes(nowMs, dateMs);
    if m < 1 then JustNow
    else if m < 60 then MinutesAgo(m)
    else if m < 1440 then HoursAgo(m / 60)
    else DaysAgo(m / 1440)
  }

  /**
   * The four bands: under a minute (future dates included) is "just now",
   * 1..59 minutes counts minutes, up to a day counts hours in 1..23, and
   * beyond counts days, at least one.
   */
  lemma FormatTimeBands(nowMs: int, dateMs: int)
    ensures var m := ElapsedMinutes(nowMs, dateMs);
            var l := FormatTime(nowMs, dateMs);
            (l == JustNow <==> nowMs - dateMs < MINUTE_MS)
            && (l.MinutesAgo? <==> 1 <= m < 60)
            && (l.MinutesAgo? ==> l.minutes == m)
            && (l.HoursAgo? <==> 60 <= m < 1440)
            && (l.HoursAgo? ==> 1 <= l.hours <= 23 && l.hours * 60 <= m < (l.hours + 1) * 60)
            && (l.DaysAgo? <==> m >= 1440)
            && (l.DaysAgo? ==> l.days >= 1 && l.days * 1440 <= m < (l.days + 1) * 1440)
  {
  }

  /** A publication date later than the clock still reads "just now". */
  lemma FutureIsJustNow(nowMs: int, dateMs: int)
    requires dateMs >= nowMs
    ensures FormatTime(nowMs, dateMs) == JustNow
  {
  }

  /** How coarse a label's unit is. */
  function Rank(l: TimeLabel): nat
  {
    match l
    case JustNow => 0
    case MinutesAgo(_) => 1
    case HoursAgo(_) => 2
    case DaysAgo(_) => 3
  }

  /** As the clock advances the label only grows coarser: the counted unit never shrinks. */
  lemma FormatTimeMonotone(nowMs: int, laterMs: int, dateMs: int)
    requires nowMs <= laterMs
    ensures Rank(FormatTime(nowMs, dateMs)) <= Rank(FormatTime(laterMs, dateMs))
  {
  }

  // ---------------------------------------------------------------------------
  // Favourites and history
  // ---------------------------------------------------------------------------

  /** `favorites.includes(news.id)`. */
  predicate IsFavorited(favorites: seq<int>, id: int)
  {
    id in favorites
  }

  /** The favourites after `handleLike`: removed when present, added otherwise. */
  function Toggle(favorites: seq<int>, id: int): seq<int>
  {
    if IsFavorited(favorites, id) then NewsStore.RemoveAll(favorites, id)
    else NewsStore.AddUnique(favorites, id)
  }

  /**
   * One toggle flips the id's membership and leaves every other id's
   * membership alone; it keeps a duplicate-free list duplicate-free, and
   * liking an item that was not favourited and liking it again restores the
   * list exactly.
   */
  lemma ToggleFlips(favorites: seq<int>, id: int)
    ensures IsFavorited(Toggle(favorites, id), id) <==> !IsFavorited(favorites, id)
    ensures forall x :: x != id ==> (x in Toggle(favorites, id) <==> x in favorites)
    ensures SeqUtils.NoDuplicates(favorites) ==> SeqUtils.NoDuplicates(Toggle(favorites, id))
    ensures !IsFavorited(favorites, id) ==> Toggle(Toggle(favorites, id), id) == favorites
  {
    if IsFavorited(favorites, id) {
      if SeqUtils.NoDuplicates(favorites) {
        NewsStore.RemoveAllDistinct(favorites, id);
      }
    } else {
      NewsStore.AddUniqueProperties(favorites, id);
      RemoveLast(favorites, id);
    }
  }

  /** Removing an id that only occurs as the appended last element undoes the append. */
  lemma {:induction false} RemoveLast(s: seq<int>, id: int)
    requires id !in s
    ensures NewsStore.RemoveAll(s + [id], id) == s
  {
    if s == [] {
      assert NewsStore.RemoveAll([id], id) == NewsStore.RemoveAll([], id);
    } else {
      assert (s + [id])[1..] == s[1..] + [id];
      RemoveLast(s[1..], id);
    }
  }

  /** `handleLike`: the card's like button toggles the item's favourite. */
  method HandleLike(store: NewsStore.Store, id: int)
    modifies store`favorites
    ensures store.favorites == Toggle(old(store.favorites), id)
  {
    if id in store.favorites {
      store.RemoveFromFavorites(id);
    } else {
      store.AddToFavorites(id);
    }
  }

  /** `handleRead`: records the item at the front of the read history. */
  method HandleRead(store: NewsStore.Store, id: int)
    modifies store`readHistory
    ensures store.readHistory == NewsStore.PushHistory(old(store.readHistory), id)
    ensures |store.readHistory| > 0 && store.readHistory[0] == id
  {
    store.AddToHistory(id);
    NewsStore.PushHistoryProperties(old(store.readHistory), id);
  }
}
