/**
 * The section renderer shared by the home page channels: which of the
 * skeleton, full-error, card-grid and empty states a section shows, and how
 * many "partly failed" filler cards pad a short row when an error occurred.
 */
module SmartSection {
  import opened Wrappers
  import opened Strings

  const DEFAULT_MAX_CARDS_PER_ROW: int := 3
  const DEFAULT_ARTICLE_COUNT: int := 6

  const LOAD_FAILED: string := "加载失败"
  const LOAD_FAILED_MESSAGE: string := "暂时没有找到相关内容，请稍后重试"
  const PARTIAL_FAILED: string := "部分内容加载失败"
  const PARTIAL_FAILED_MESSAGE: string := "暂时没有找到更多内容"
  const SOURCES_SUFFIX: string := " 个来源"
  const NOTHING_FOUND: string := "暂时没有找到"

  /** The card grid of a section that has data, or its empty state. */
  datatype Body<R> =
    | Cards(cards: seq<R>, fillers: nat)
    | Empty(emptyTitle: string, emptyDescription: string)

  /** What the renderer returns. */
  datatype View<R> =
    | Skeleton(skeletonTitle: string, cardCount: int, articleCount: int)
    | FullError(errorTitle: string)
    | Section(title: string, badge: string, body: Body<R>)

  /** The component's props; `data` is `None` for both `null` and `undefined`. */
  datatype Props<T> = Props(
    title: string,
    isLoading: bool,
    error: Option<string>,
    data: Option<seq<T>>,
    emptyTitle: string,
    emptyDescription: string,
    maxCardsPerRow: Option<int>,
    articleCount: Option<int>)

  /** `data && data.length > 0`. */
  predicate HasData<T>(data: Option<seq<T>>)
  {
    data.Some? && |data.value| > 0
  }

  /** `data.map((item, index) => renderCard(item, index))`. */
  function RenderAll<T, R>(items: seq<T>, render: (T, nat) -> R): (r: seq<R>)
    ensures |r| == |items|
    ensures forall i :: 0 <= i < |items| ==> r[i] == render(items[i], i)
  {
    seq(|items|, i requires 0 <= i < |items| => render(items[i], i))
  }

  /** The number of filler error cards after the real ones. */
  function Fillers(error: Option<string>, len: nat, maxCardsPerRow: int): nat
  {
    if Truthy(error) && len < maxCardsPerRow then maxCardsPerRow - len else 0
  }

  /** `SmartSectionRenderer`, with `renderCard` as `render`. */
  function Render<T, R>(p: Props<T>, render: (T, nat) -> R): View<R>
  {
    var maxCards := p.maxCardsPerRow.GetOr(DEFAULT_MAX_CARDS_PER_ROW);
    if p.isLoading then
      Skeleton(p.title, maxCards, p.articleCount.GetOr(DEFAULT_ARTICLE_COUNT))
    else if Truthy(p.error) && !HasData(p.data) then
      FullError(p.title)
    else if HasData(p.data) then
      var items := p.data.value;
      Section(p.title, NatToString(|items|) + SOURCES_SUFFIX,
              Cards(RenderAll(items, render), Fillers(p.error, |items|, maxCards)))
    else
      Section(p.title, NOTHING_FOUND, Empty(p.emptyTitle, p.emptyDescription))
  }

  /**
   * The decision: loading wins over everything; otherwise an error without
   * data is the full error state, data is a card grid, and neither is the
   * empty state. The skeleton takes the defaults 3 and 6 when the props omit
   * them.
   */
  lemma RenderStates<T, R>(p: Props<T>, render: (T, nat) -> R)
    ensures var v := Render(p, render);
            (v.Skeleton? <==> p.isLoading)
            && (v.FullError? <==> !p.isLoading && Truthy(p.error) && !HasData(p.data))
            && (v.Section? && v.body.Cards? <==> !p.isLoading && HasData(p.data))
            && (v.Section? && v.body.Empty? <==> !p.isLoading && !Truthy(p.error) && !HasData(p.data))
            && (v.Skeleton? ==> v.cardCount == p.maxCardsPerRow.GetOr(3) && v.articleCount == p.articleCount.GetOr(6))
  {
  }

  /**
   * With data, every item becomes one card in order, the badge counts the
   * items, and the row is padded with `maxCardsPerRow - len` fillers exactly
   * when there is an error and the row is short, so real and filler cards
   * then fill one row.
   */
  lemma CardGrid<T, R>(p: Props<T>, render: (T, nat) -> R)
    requires !p.isLoading && HasData(p.data)
    ensures var v := Render(p, render);
            var items := p.data.value;
            var maxCards := p.maxCardsPerRow.GetOr(3);
            v.Section? && v.body.Cards?
            && v.badge == NatToString(|items|) + " 个来源"
            && |v.body.cards| == |items|
            && (forall i :: 0 <= i < |items| ==> v.body.cards[i] == render(items[i], i))
            && (v.body.fillers > 0 <==> Truthy(p.error) && |items| < maxCards)
            && (v.body.fillers > 0 ==> |v.body.cards| + v.body.fillers == maxCards)
  {
  }

  /** Only a section with data shows the `"<len> 个来源"` badge; one without shows `'暂时没有找到'`. */
  lemma BadgeText<T, R>(p: Props<T>, render: (T, nat) -> R)
    requires !p.isLoading
    ensures var v := Render(p, render);
            v.Section? ==> (EndsWith(v.badge, SOURCES_SUFFIX) <==> HasData(p.data))
  {
    var v := Render(p, render);
    if v.Section? {
      if HasData(p.data) {
        AffixesOfAppend(NatToString(|p.data.value|), SOURCES_SUFFIX, SOURCES_SUFFIX);
      } else {
        assert v.badge == NOTHING_FOUND;
        assert |NOTHING_FOUND| == 6 && |SOURCES_SUFFIX| == 4;
        assert NOTHING_FOUND[2..] != SOURCES_SUFFIX by {
          assert NOTHING_FOUND[2] != SOURCES_SUFFIX[0];
        }
      }
    }
  }
}
