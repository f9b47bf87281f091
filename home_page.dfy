/**
 * The home page's data pipeline: flattening the nested payload into one list
 * of news items with sequential ids, regrouping that list into the three
 * channel buckets, bumping likes and listing the categories present.
 */
module HomePage {
  import opened Wrappers
  import opened NewsModel
  import SeqUtils

  const NEW_PRODUCTS: string := "new_products"
  const REDDITS: string := "reddits"
  const TRENDINGS: string := "trendings"

  /** The placeholder shown as a channel's update time when its category has no dated source. */
  const NO_UPDATE: string := "暂无更新"

  predicate IsCategory(c: string)
  {
    c == NEW_PRODUCTS || c == REDDITS || c == TRENDINGS
  }

  /**
   * One draw of `Math.floor(Math.random() * 1000)`. The model takes the draws as
   * a parameter `draw`, where `draw(k)` is the draw made for the post given id k.
   */
  type Draw = d: nat | d < 1000

  // ---------------------------------------------------------------------------
  // Reference order of the posts
  // ---------------------------------------------------------------------------

  /** Where a post comes from: its category list and its source. */
  datatype Origin = Origin(category: string, source: NewsSource, post: NewsPost)

  /** Number of posts over a list of sources. */
  function PostCount(sources: seq<NewsSource>): nat
  {
    if sources == [] then 0 else |sources[0].posts| + PostCount(sources[1..])
  }

  function TotalPosts(resp: NewsResponse): nat
  {
    PostCount(resp.newProducts) + PostCount(resp.reddits) + PostCount(resp.trendings)
  }

  function PostOrigins(category: string, source: NewsSource, posts: seq<NewsPost>): (r: seq<Origin>)
  {
    seq(|posts|, j requires 0 <= j < |posts| => Origin(category, source, posts[j]))
  }

  /** Posts of a category, source by source and post by post, in array order. */
  function OriginsOf(category: string, sources: seq<NewsSource>): seq<Origin>
  {
    if sources == [] then []
    else
      var last := sources[|sources| - 1];
      OriginsOf(category, sources[..|sources| - 1]) + PostOrigins(category, last, last.posts)
  }

  /** All posts in the order new products, then reddits, then trendings. */
  function Origins(resp: NewsResponse): seq<Origin>
  {
    OriginsOf(NEW_PRODUCTS, resp.newProducts)
      + OriginsOf(REDDITS, resp.reddits)
      + OriginsOf(TRENDINGS, resp.trendings)
  }

  /** The news item built for the post at `o`, given id `id`. */
  function ItemFor(id: int, o: Origin, fmt: string -> string, draw: nat -> Draw): NewsItem
    requires id >= 0
  {
    NewsItem(
      id := id,
      title := o.post.title,
      summary := o.post.description,
      link := o.post.url,
      date := fmt(o.source.updateTime),
      views := draw(id) + 100,
      likes := o.post.upvotes,
      category := Some(o.category),
      tags := Some([o.source.title]))
  }

  /** Items for consecutive origins, ids counting up from `start`. */
  function ItemsFrom(origins: seq<Origin>, start: nat, fmt: string -> string, draw: nat -> Draw): (r: seq<NewsItem>)
  {
    seq(|origins|, k requires 0 <= k < |origins| => ItemFor(start + k, origins[k], fmt, draw))
  }

  /**
   * What `transformNewsResponse` computes: the k-th post in reference order
   * becomes the item with id k + 1. `fmt` stands for `toLocaleString('zh-CN')`
   * applied to the parsed source time.
   */
  function Transformed(resp: NewsResponse, fmt: string -> string, draw: nat -> Draw): (r: seq<NewsItem>)
  {
    ItemsFrom(Origins(resp), 1, fmt, draw)
  }

  // ---------------------------------------------------------------------------
  // transformNewsResponse
  // ---------------------------------------------------------------------------

  lemma OriginsOfSnoc(category: string, sources: seq<NewsSource>, i: nat)
    requires i < |sources|
    ensures OriginsOf(category, sources[..i + 1])
         == OriginsOf(category, sources[..i]) + PostOrigins(category, sources[i], sources[i].posts)
  {
    assert sources[..i + 1][..i] == sources[..i];
  }

  lemma ItemsFromAppend(a: seq<Origin>, b: seq<Origin>, start: nat, fmt: string -> string, draw: nat -> Draw)
    ensures ItemsFrom(a + b, start, fmt, draw) == ItemsFrom(a, start, fmt, draw) + ItemsFrom(b, start + |a|, fmt, draw)
  {
  }

  /** Appends the items of one category, source by source and post by post, as each `forEach` block does. */
  method PushCategory(allNews: seq<NewsItem>, idCounter: nat, sources: seq<NewsSource>, category: string,
                      fmt: string -> string, draw: nat -> Draw)
    returns (out: seq<NewsItem>, next: nat)
    ensures out == allNews + ItemsFrom(OriginsOf(category, sources), idCounter, fmt, draw)
    ensures next == idCounter + |OriginsOf(category, sources)|
  {
    out, next := allNews, idCounter;
    var i := 0;
    while i < |sources|
      invariant 0 <= i <= |sources|
      invariant out == allNews + ItemsFrom(OriginsOf(category, sources[..i]), idCounter, fmt, draw)
      invariant next == idCounter + |OriginsOf(category, sources[..i])|
    {
      var source := sources[i];
      ghost var before := OriginsOf(category, sources[..i]);
      var j := 0;
      while j < |source.posts|
        invariant 0 <= j <= |source.posts|
        invariant out == allNews + ItemsFrom(before + PostOrigins(category, source, source.posts[..j]), idCounter, fmt, draw)
        invariant next == idCounter + |before| + j
      {
        var post := source.posts[j];
        ghost var done := before + PostOrigins(category, source, source.posts[..j]);
        assert before + PostOrigins(category, source, source.posts[..j + 1])
            == done + [Origin(category, source, post)];
        ItemsFromAppend(done, [Origin(category, source, post)], idCounter, fmt, draw);
        out := out + [ItemFor(next, Origin(category, source, post), fmt, draw)];
        next := next + 1;
        j := j + 1;
      }
      assert source.posts[..j] == source.posts;
      OriginsOfSnoc(category, sources, i);
      i := i + 1;
    }
    assert sources[..i] == sources;
  }

  /**
   * `transformNewsResponse`: one pass over new products, reddits and
   * trendings with a running id counter starting at 1.
   */
  method TransformNewsResponse(resp: NewsResponse, fmt: string -> string, draw: nat -> Draw)
    returns (allNews: seq<NewsItem>)
    ensures allNews == Transformed(resp, fmt, draw)
  {
    var idCounter: nat := 1;
    allNews := [];
    allNews, idCounter := PushCategory(allNews, idCounter, resp.newProducts, NEW_PRODUCTS, fmt, draw);
    allNews, idCounter := PushCategory(allNews, idCounter, resp.reddits, REDDITS, fmt, draw);
    allNews, idCounter := PushCategory(allNews, idCounter, resp.trendings, TRENDINGS, fmt, draw);
    var a := OriginsOf(NEW_PRODUCTS, resp.newProducts);
    var b := OriginsOf(REDDITS, resp.reddits);
    var c := OriginsOf(TRENDINGS, resp.trendings);
    ItemsFromAppend(a, b, 1, fmt, draw);
    ItemsFromAppend(a + b, c, 1, fmt, draw);
  }

  // ---------------------------------------------------------------------------
  // Properties of the transformation
  // ---------------------------------------------------------------------------

  lemma {:induction false} PostCountSnoc(sources: seq<NewsSource>, s: NewsSource)
    ensures PostCount(sources + [s]) == PostCount(sources) + |s.posts|
  {
    if sources != [] {
      assert (sources + [s])[1..] == sources[1..] + [s];
      PostCountSnoc(sources[1..], s);
    } else {
      assert [s][1..] == [];
    }
  }

  /** A category contributes exactly as many entries as it has posts. */
  lemma {:induction false} OriginsOfLength(category: string, sources: seq<NewsSource>)
    ensures |OriginsOf(category, sources)| == PostCount(sources)
  {
    if sources != [] {
      var init := sources[..|sources| - 1];
      OriginsOfLength(category, init);
      PostCountSnoc(init, sources[|sources| - 1]);
      assert init + [sources[|sources| - 1]] == sources;
    }
  }

  lemma {:induction false} OriginsOfCategory(category: string, sources: seq<NewsSource>)
    ensures forall o :: o in OriginsOf(category, sources) ==> o.category == category
  {
    if sources != [] {
      OriginsOfCategory(category, sources[..|sources| - 1]);
    }
  }

  /** One item per post, with ids 1..N and nothing else. */
  lemma TransformedCountAndIds(resp: NewsResponse, fmt: string -> string, draw: nat -> Draw)
    ensures |Transformed(resp, fmt, draw)| == TotalPosts(resp)
    ensures forall k :: 0 <= k < |Transformed(resp, fmt, draw)| ==> Transformed(resp, fmt, draw)[k].id == k + 1
  {
    OriginsOfLength(NEW_PRODUCTS, resp.newProducts);
    OriginsOfLength(REDDITS, resp.reddits);
    OriginsOfLength(TRENDINGS, resp.trendings);
  }

  /**
   * Ids follow the category order: the first `PostCount(newProducts)` items
   * are new products, the next `PostCount(reddits)` reddits, the rest trendings.
   */
  lemma TransformedCategoryBlocks(resp: NewsResponse, fmt: string -> string, draw: nat -> Draw, k: nat)
    requires k < TotalPosts(resp)
    ensures |Transformed(resp, fmt, draw)| == TotalPosts(resp)
    ensures var n1 := PostCount(resp.newProducts);
            var n2 := n1 + PostCount(resp.reddits);
            Transformed(resp, fmt, draw)[k].category
              == Some(if k < n1 then NEW_PRODUCTS else if k < n2 then REDDITS else TRENDINGS)
  {
    TransformedCountAndIds(resp, fmt, draw);
    var a := OriginsOf(NEW_PRODUCTS, resp.newProducts);
    var b := OriginsOf(REDDITS, resp.reddits);
    var c := OriginsOf(TRENDINGS, resp.trendings);
    OriginsOfLength(NEW_PRODUCTS, resp.newProducts);
    OriginsOfLength(REDDITS, resp.reddits);
    OriginsOfCategory(NEW_PRODUCTS, resp.newProducts);
    OriginsOfCategory(REDDITS, resp.reddits);
    OriginsOfCategory(TRENDINGS, resp.trendings);
    var o := Origins(resp);
    if k < |a| {
      assert o[k] == a[k];
      assert a[k] in a;
    } else if k < |a| + |b| {
      assert o[k] == b[k - |a|];
      assert b[k - |a|] in b;
    } else {
      assert o[k] == c[k - |a| - |b|];
      assert c[k - |a| - |b|] in c;
    }
  }

  /**
   * Within a category, post j of source i is entry `PostCount(sources[..i]) + j`:
   * sources, then posts, are taken in array order.
   */
  lemma {:induction false} OriginOfPost(category: string, sources: seq<NewsSource>, i: nat, j: nat)
    requires i < |sources| && j < |sources[i].posts|
    ensures PostCount(sources[..i]) + j < |OriginsOf(category, sources)|
    ensures OriginsOf(category, sources)[PostCount(sources[..i]) + j] == Origin(category, sources[i], sources[i].posts[j])
    decreases |sources|
  {
    var init := sources[..|sources| - 1];
    var last := sources[|sources| - 1];
    OriginsOfLength(category, init);
    OriginsOfLength(category, sources[..i]);
    if i == |sources| - 1 {
      assert sources[..i] == init;
    } else {
      assert init[i] == sources[i];
      assert init[..i] == sources[..i];
      OriginOfPost(category, init, i, j);
    }
  }

  /**
   * The item of post j of source i of the new-products list gets id
   * `PostCount(newProducts[..i]) + j + 1`, and its fields are copied from that
   * post and source: title, link = url, summary = description (null stays null),
   * likes = upvotes, tags = [source title], date from the source's update time.
   */
  lemma NewProductItem(resp: NewsResponse, fmt: string -> string, draw: nat -> Draw, i: nat, j: nat)
    requires i < |resp.newProducts| && j < |resp.newProducts[i].posts|
    ensures var k := PostCount(resp.newProducts[..i]) + j;
            var source := resp.newProducts[i];
            var post := source.posts[j];
            k < |Transformed(resp, fmt, draw)|
            && Transformed(resp, fmt, draw)[k] == NewsItem(
                 k + 1, post.title, post.description, post.url, fmt(source.updateTime),
                 draw(k + 1) + 100, post.upvotes, Some(NEW_PRODUCTS), Some([source.title]))
  {
    OriginOfPost(NEW_PRODUCTS, resp.newProducts, i, j);
  }

  /** The same for the reddits list, offset by the number of new-product posts. */
  lemma RedditItem(resp: NewsResponse, fmt: string -> string, draw: nat -> Draw, i: nat, j: nat)
    requires i < |resp.reddits| && j < |resp.reddits[i].posts|
    ensures var k := PostCount(resp.newProducts) + PostCount(resp.reddits[..i]) + j;
            var source := resp.reddits[i];
            var post := source.posts[j];
            k < |Transformed(resp, fmt, draw)|
            && Transformed(resp, fmt, draw)[k] == NewsItem(
                 k + 1, post.title, post.description, post.url, fmt(source.updateTime),
                 draw(k + 1) + 100, post.upvotes, Some(REDDITS), Some([source.title]))
  {
    OriginOfPost(REDDITS, resp.reddits, i, j);
    OriginsOfLength(NEW_PRODUCTS, resp.newProducts);
    var a := OriginsOf(NEW_PRODUCTS, resp.newProducts);
    var b := OriginsOf(REDDITS, resp.reddits);
    var k := PostCount(resp.newProducts) + PostCount(resp.reddits[..i]) + j;
    assert Origins(resp)[k] == b[k - |a|];
  }

  /** The same for the trendings list, offset by the posts of the two lists before it. */
  lemma TrendingItem(resp: NewsResponse, fmt: string -> string, draw: nat -> Draw, i: nat, j: nat)
    requires i < |resp.trendings| && j < |resp.trendings[i].posts|
    ensures var k := PostCount(resp.newProducts) + PostCount(resp.reddits) + PostCount(resp.trendings[..i]) + j;
            var source := resp.trendings[i];
            var post := source.posts[j];
            k < |Transformed(resp, fmt, draw)|
            && Transformed(resp, fmt, draw)[k] == NewsItem(
                 k + 1, post.title, post.description, post.url, fmt(source.updateTime),
                 draw(k + 1) + 100, post.upvotes, Some(TRENDINGS), Some([source.title]))
  {
    OriginOfPost(TRENDINGS, resp.trendings, i, j);
    OriginsOfLength(NEW_PRODUCTS, resp.newProducts);
    OriginsOfLength(REDDITS, resp.reddits);
    var a := OriginsOf(NEW_PRODUCTS, resp.newProducts);
    var b := OriginsOf(REDDITS, resp.reddits);
    var c := OriginsOf(TRENDINGS, resp.trendings);
    var k := PostCount(resp.newProducts) + PostCount(resp.reddits) + PostCount(resp.trendings[..i]) + j;
    assert Origins(resp)[k] == c[k - |a| - |b|];
  }

  /** The synthetic view count always lies in [100, 1099]. */
  lemma TransformedViewsRange(resp: NewsResponse, fmt: string -> string, draw: nat -> Draw)
    ensures forall x :: x in Transformed(resp, fmt, draw) ==> 100 <= x.views <= 1099
  {
  }

  /** Every transformed item carries one of the three category names. */
  lemma TransformedCategories(resp: NewsResponse, fmt: string -> string, draw: nat -> Draw)
    ensures forall x :: x in Transformed(resp, fmt, draw) ==> x.category.Some? && IsCategory(x.category.value)
  {
    var t := Transformed(resp, fmt, draw);
    TransformedCountAndIds(resp, fmt, draw);
    forall x | x in t ensures x.category.Some? && IsCategory(x.category.value) {
      var k :| 0 <= k < |t| && t[k] == x;
      TransformedCategoryBlocks(resp, fmt, draw, k);
    }
  }

  // ---------------------------------------------------------------------------
  // The fallback payload
  // ---------------------------------------------------------------------------

  /** `defaultNewsFallback`: one placeholder post per category, stamped with `nowIso`. */
  function DefaultNewsFallback(nowIso: string): NewsResponse
  {
    NewsResponse(
      [NewsSource("默认产品资讯", Some(""), nowIso, [NewsPost("暂无数据", "#", Some("当前无法获取最新的产品发布信息"), 0)])],
      [NewsSource("默认社区讨论", Some(""), nowIso, [NewsPost("暂无数据", "#", Some("当前无法获取最新的社区讨论"), 0)])],
      [NewsSource("默认趋势数据", Some(""), nowIso, [NewsPost("暂无数据", "#", Some("当前无法获取最新的趋势信息"), 0)])])
  }

  /** The fallback flattens to three items with ids 1, 2, 3, one per category in order. */
  lemma DefaultNewsTransformed(nowIso: string, fmt: string -> string, draw: nat -> Draw)
    ensures var t := Transformed(DefaultNewsFallback(nowIso), fmt, draw);
            |t| == 3
            && t[0].id == 1 && t[1].id == 2 && t[2].id == 3
            && t[0].category == Some(NEW_PRODUCTS)
            && t[1].category == Some(REDDITS)
            && t[2].category == Some(TRENDINGS)
  {
    var resp := DefaultNewsFallback(nowIso);
    assert resp.newProducts[..0] == [] && resp.reddits[..0] == [] && resp.trendings[..0] == [];
    assert resp.newProducts[1..] == [] && resp.reddits[1..] == [] && resp.trendings[1..] == [];
    assert PostCount(resp.newProducts) == 1 && PostCount(resp.reddits) == 1 && PostCount(resp.trendings) == 1;
    NewProductItem(resp, fmt, draw, 0, 0);
    RedditItem(resp, fmt, draw, 0, 0);
    TrendingItem(resp, fmt, draw, 0, 0);
    TransformedCountAndIds(resp, fmt, draw);
  }

  // ---------------------------------------------------------------------------
  // Channel partition
  // ---------------------------------------------------------------------------

  /** A channel's update time: the first source's time when present and non-empty, else the placeholder. */
  function ChannelUpdateTime(sources: seq<NewsSource>, fmt: string -> string): (r: string)
  {
    if |sources| > 0 && sources[0].updateTime != "" then fmt(sources[0].updateTime) else NO_UPDATE
  }

  /** The `dynamicChannels` built after a fetch. */
  function DynamicChannels(news: seq<NewsItem>, resp: NewsResponse, fmt: string -> string): seq<Channel>
  {
    [ Channel(NEW_PRODUCTS, "新产品发布", "zap", ChannelUpdateTime(resp.newProducts, fmt),
              FilterCategory(news, NEW_PRODUCTS), "#FF6154", "from-orange-500/20 to-red-500/20"),
      Channel(REDDITS, "Reddit 讨论", "users", ChannelUpdateTime(resp.reddits, fmt),
              FilterCategory(news, REDDITS), "#FF4500", "from-red-500/20 to-orange-500/20"),
      Channel(TRENDINGS, "趋势热点", "trending-up", ChannelUpdateTime(resp.trendings, fmt),
              FilterCategory(news, TRENDINGS), "#00D084", "from-green-500/20 to-emerald-500/20") ]
  }

  /** Total number of articles over a list of channels. */
  function ArticleTotal(channels: seq<Channel>): nat
  {
    if channels == [] then 0 else |channels[0].articles| + ArticleTotal(channels[1..])
  }

  /** When every item names one of the three categories, the three filters split the list. */
  lemma {:induction false} FilterCategoriesSplit(news: seq<NewsItem>)
    requires forall x :: x in news ==> x.category.Some? && IsCategory(x.category.value)
    ensures |FilterCategory(news, NEW_PRODUCTS)| + |FilterCategory(news, REDDITS)| + |FilterCategory(news, TRENDINGS)| == |news|
  {
    if news != [] {
      assert forall x :: x in news[1..] ==> x in news;
      FilterCategoriesSplit(news[1..]);
    }
  }

  /**
   * There are always three channels, in the order new products, reddits,
   * trendings; each holds exactly the items of its category; and when every
   * item names one of the three categories the article counts add up to the
   * list length and each item is in exactly one channel.
   */
  lemma PartitionComplete(news: seq<NewsItem>, resp: NewsResponse, fmt: string -> string)
    requires forall x :: x in news ==> x.category.Some? && IsCategory(x.category.value)
    ensures var chans := DynamicChannels(news, resp, fmt);
            |chans| == 3
            && chans[0].id == NEW_PRODUCTS && chans[1].id == REDDITS && chans[2].id == TRENDINGS
            && ArticleTotal(chans) == |news|
            && forall x, c :: x in news && 0 <= c < 3 ==> (x in chans[c].articles <==> x.category == Some(chans[c].id))
  {
    var chans := DynamicChannels(news, resp, fmt);
    FilterCategoriesSplit(news);
    assert ArticleTotal(chans[1..][1..][1..]) == 0;
    assert ArticleTotal(chans[1..][1..]) == |chans[2].articles|;
    assert ArticleTotal(chans[1..]) == |chans[1].articles| + |chans[2].articles|;
  }

  /** Filtering a concatenation filters each part. */
  lemma {:induction false} FilterCategoryAppend(a: seq<NewsItem>, b: seq<NewsItem>, category: string)
    ensures FilterCategory(a + b, category) == FilterCategory(a, category) + FilterCategory(b, category)
  {
    if a != [] {
      assert (a + b)[1..] == a[1..] + b;
      FilterCategoryAppend(a[1..], b, category);
    } else {
      assert a + b == b;
    }
  }

  /** A list whose every item has the category passes the filter unchanged. */
  lemma {:induction false} FilterCategoryAll(news: seq<NewsItem>, category: string)
    requires forall k :: 0 <= k < |news| ==> news[k].category == Some(category)
    ensures FilterCategory(news, category) == news
  {
    if news != [] {
      FilterCategoryAll(news[1..], category);
      assert [news[0]] + news[1..] == news;
    }
  }

  /** A list none of whose items has the category filters to nothing. */
  lemma {:induction false} FilterCategoryNone(news: seq<NewsItem>, category: string)
    requires forall k :: 0 <= k < |news| ==> news[k].category != Some(category)
    ensures FilterCategory(news, category) == []
  {
    if news != [] {
      FilterCategoryNone(news[1..], category);
    }
  }

  /** The source list behind channel `c` (0 new products, 1 reddits, 2 trendings). */
  function ChannelSources(resp: NewsResponse, c: nat): seq<NewsSource>
    requires c < 3
  {
    if c == 0 then resp.newProducts else if c == 1 then resp.reddits else resp.trendings
  }

  /** Where channel `c`'s posts start in the flattened list. */
  function BlockStart(resp: NewsResponse, c: nat): nat
    requires c < 3
  {
    if c == 0 then 0
    else if c == 1 then PostCount(resp.newProducts)
    else PostCount(resp.newProducts) + PostCount(resp.reddits)
  }

  /** When the items of a category are exactly those in `t[lo..hi]`, the filter returns that slice. */
  lemma BlockFilter(t: seq<NewsItem>, lo: nat, hi: nat, category: string)
    requires lo <= hi <= |t|
    requires forall k :: 0 <= k < |t| ==> (t[k].category == Some(category) <==> lo <= k < hi)
    ensures FilterCategory(t, category) == t[lo..hi]
  {
    var x, y, z := t[..lo], t[lo..hi], t[hi..];
    assert x + y == t[..hi];
    assert t[..hi] + z == t;
    forall k | 0 <= k < |x| ensures x[k].category != Some(category) {
      assert x[k] == t[k];
    }
    forall k | 0 <= k < |y| ensures y[k].category == Some(category) {
      assert y[k] == t[lo + k];
    }
    forall k | 0 <= k < |z| ensures z[k].category != Some(category) {
      assert z[k] == t[hi + k];
    }
    FilterCategoryAppend(x + y, z, category);
    FilterCategoryAppend(x, y, category);
    FilterCategoryNone(x, category);
    FilterCategoryAll(y, category);
    FilterCategoryNone(z, category);
  }

  /** The three category names differ (they have 12, 7 and 9 characters). */
  lemma CategoriesDistinct()
    ensures NEW_PRODUCTS != REDDITS && NEW_PRODUCTS != TRENDINGS && REDDITS != TRENDINGS
  {
    assert |NEW_PRODUCTS| == 12 && |REDDITS| == 7 && |TRENDINGS| == 9;
  }

  /** The category of channel `c`. */
  function ChannelCategory(c: nat): string
    requires c < 3
  {
    if c == 0 then NEW_PRODUCTS else if c == 1 then REDDITS else TRENDINGS
  }

  /** Three category blocks, in order, of sizes `a`, `b` and `d`. */
  predicate ThreeBlocks(t: seq<NewsItem>, a: nat, b: nat, d: nat)
  {
    |t| == a + b + d
    && forall k :: 0 <= k < |t| ==>
         t[k].category == Some(if k < a then NEW_PRODUCTS else if k < a + b then REDDITS else TRENDINGS)
  }

  /** In three blocks, the new-products filter returns the first block. */
  lemma NewProductsBlock(t: seq<NewsItem>, a: nat, b: nat, d: nat)
    requires ThreeBlocks(t, a, b, d)
    ensures FilterCategory(t, NEW_PRODUCTS) == t[0..a]
  {
    CategoriesDistinct();
    forall k | 0 <= k < |t| ensures t[k].category == Some(NEW_PRODUCTS) <==> 0 <= k < a {
    }
    BlockFilter(t, 0, a, NEW_PRODUCTS);
  }

  /** In three blocks, the reddits filter returns the middle block. */
  lemma RedditsBlock(t: seq<NewsItem>, a: nat, b: nat, d: nat)
    requires ThreeBlocks(t, a, b, d)
    ensures FilterCategory(t, REDDITS) == t[a..a + b]
  {
    CategoriesDistinct();
    forall k | 0 <= k < |t| ensures t[k].category == Some(REDDITS) <==> a <= k < a + b {
    }
    BlockFilter(t, a, a + b, REDDITS);
  }

  /** In three blocks, the trendings filter returns the last block. */
  lemma TrendingsBlock(t: seq<NewsItem>, a: nat, b: nat, d: nat)
    requires ThreeBlocks(t, a, b, d)
    ensures FilterCategory(t, TRENDINGS) == t[a + b..a + b + d]
  {
    CategoriesDistinct();
    forall k | 0 <= k < |t| ensures t[k].category == Some(TRENDINGS) <==> a + b <= k < a + b + d {
    }
    BlockFilter(t, a + b, a + b + d, TRENDINGS);
  }

  /** The flattened list is the new-products block, then the reddits block, then the trendings block. */
  lemma TransformedBlocks(resp: NewsResponse, fmt: string -> string, draw: nat -> Draw)
    ensures ThreeBlocks(Transformed(resp, fmt, draw), PostCount(resp.newProducts), PostCount(resp.reddits), PostCount(resp.trendings))
  {
    var t := Transformed(resp, fmt, draw);
    TransformedCountAndIds(resp, fmt, draw);
    forall k | 0 <= k < |t|
      ensures t[k].category == Some(if k < PostCount(resp.newProducts) then NEW_PRODUCTS
                                    else if k < PostCount(resp.newProducts) + PostCount(resp.reddits) then REDDITS
                                    else TRENDINGS)
    {
      TransformedCategoryBlocks(resp, fmt, draw, k);
    }
  }

  /**
   * Each channel follows its own source list `L`: the update time is the
   * placeholder when `L` is empty or its first source has an empty time, and
   * the formatted first time otherwise; the articles are exactly that
   * category's block of the flattened list, so there are as many as `L` has
   * posts, and none when it has none.
   */
  lemma ChannelsFollowSources(resp: NewsResponse, fmt: string -> string, draw: nat -> Draw, c: nat)
    requires c < 3
    ensures var t := Transformed(resp, fmt, draw);
            var chans := DynamicChannels(t, resp, fmt);
            var sources := ChannelSources(resp, c);
            var start := BlockStart(resp, c);
            |chans| == 3
            && ((|sources| == 0 || sources[0].updateTime == "") ==> chans[c].updateTime == NO_UPDATE)
            && (|sources| > 0 && sources[0].updateTime != "" ==> chans[c].updateTime == fmt(sources[0].updateTime))
            && start + PostCount(sources) <= |t|
            && chans[c].articles == t[start..start + PostCount(sources)]
            && |chans[c].articles| == PostCount(sources)
            && (PostCount(sources) == 0 ==> chans[c].articles == [])
  {
    TransformedBlocks(resp, fmt, draw);
    ChannelsOfBlocks(Transformed(resp, fmt, draw), resp, fmt, c);
  }

  /** `ChannelsFollowSources` for any list made of the payload's three blocks. */
  lemma ChannelsOfBlocks(t: seq<NewsItem>, resp: NewsResponse, fmt: string -> string, c: nat)
    requires c < 3
    requires ThreeBlocks(t, PostCount(resp.newProducts), PostCount(resp.reddits), PostCount(resp.trendings))
    ensures var chans := DynamicChannels(t, resp, fmt);
            var sources := ChannelSources(resp, c);
            var start := BlockStart(resp, c);
            |chans| == 3
            && ((|sources| == 0 || sources[0].updateTime == "") ==> chans[c].updateTime == NO_UPDATE)
            && (|sources| > 0 && sources[0].updateTime != "" ==> chans[c].updateTime == fmt(sources[0].updateTime))
            && start + PostCount(sources) <= |t|
            && chans[c].articles == t[start..start + PostCount(sources)]
            && |chans[c].articles| == PostCount(sources)
            && (PostCount(sources) == 0 ==> chans[c].articles == [])
  {
    var a, b, d := PostCount(resp.newProducts), PostCount(resp.reddits), PostCount(resp.trendings);
    var chans := DynamicChannels(t, resp, fmt);
    assert chans[c].updateTime == ChannelUpdateTime(ChannelSources(resp, c), fmt);
    if c == 0 {
      NewProductsBlock(t, a, b, d);
    } else if c == 1 {
      RedditsBlock(t, a, b, d);
    } else {
      TrendingsBlock(t, a, b, d);
    }
  }

  // ---------------------------------------------------------------------------
  // handleNewsLike and categories
  // ---------------------------------------------------------------------------

  /** `news.map(item => item.id === id ? {...item, likes: item.likes + 1} : item)`. */
  function BumpLikes(news: seq<NewsItem>, id: int): (r: seq<NewsItem>)
    ensures |r| == |news|
    ensures forall k :: 0 <= k < |news| ==>
              r[k].likes == (if news[k].id == id then news[k].likes + 1 else news[k].likes)
              && r[k] == news[k].(likes := r[k].likes)
  {
    if news == [] then []
    else [if news[0].id == id then news[0].(likes := news[0].likes + 1) else news[0]] + BumpLikes(news[1..], id)
  }

  /** `handleNewsLike`: the local list changes only when the like request succeeded. */
  function HandleNewsLike(news: seq<NewsItem>, id: int, requestSucceeded: bool): (r: seq<NewsItem>)
    ensures !requestSucceeded ==> r == news
    ensures requestSucceeded ==> r == BumpLikes(news, id)
  {
    if requestSucceeded then BumpLikes(news, id) else news
  }

  /** Liking an id that no item has changes nothing. */
  lemma BumpAbsentId(news: seq<NewsItem>, id: int)
    requires forall x :: x in news ==> x.id != id
    ensures BumpLikes(news, id) == news
  {
    var r := BumpLikes(news, id);
    assert forall k :: 0 <= k < |news| ==> r[k] == news[k];
  }

  /** The non-empty categories of the items, in list order (`map(...).filter(Boolean)`). */
  function PresentCategories(news: seq<NewsItem>): (r: seq<string>)
    ensures forall c :: c in r <==> c != "" && exists x :: x in news && x.category == Some(c)
  {
    if news == [] then []
    else
      var rest := PresentCategories(news[1..]);
      assert forall x :: x in news <==> x == news[0] || x in news[1..];
      match news[0].category
      case Some(c) => if c != "" then [c] + rest else rest
      case None => rest
  }

  /** The index of the first item whose category is `c`. */
  function FirstWith(news: seq<NewsItem>, c: string): (k: nat)
    requires exists x :: x in news && x.category == Some(c)
    ensures k < |news| && news[k].category == Some(c)
    ensures forall m :: 0 <= m < k ==> news[m].category != Some(c)
  {
    if news[0].category == Some(c) then 0
    else
      assert forall x :: x in news ==> x == news[0] || x in news[1..];
      1 + FirstWith(news[1..], c)
  }

  /** A category listed earlier by `PresentCategories` first appears earlier among the items. */
  lemma {:induction false} PresentOrder(news: seq<NewsItem>, a: string, b: string)
    requires a in PresentCategories(news) && b in PresentCategories(news)
    requires SeqUtils.FirstIndex(PresentCategories(news), a) < SeqUtils.FirstIndex(PresentCategories(news), b)
    ensures FirstWith(news, a) < FirstWith(news, b)
  {
    var p := PresentCategories(news);
    var rest := PresentCategories(news[1..]);
    assert forall x :: x in news ==> x == news[0] || x in news[1..];
    if news[0].category != Some(a) {
      assert p[0] != b;
      if news[0].category.Some? && news[0].category.value != "" {
        assert p == [news[0].category.value] + rest;
        assert p[1..] == rest;
        assert p[0] != a;
      } else {
        assert p == rest;
      }
      assert a in rest && b in rest;
      assert SeqUtils.FirstIndex(rest, a) < SeqUtils.FirstIndex(rest, b);
      PresentOrder(news[1..], a, b);
    }
  }

  /** `categories`: the distinct non-empty categories, in order of first appearance. */
  function Categories(news: seq<NewsItem>): (r: seq<string>)
    ensures SeqUtils.NoDuplicates(r)
    ensures forall c :: c in r <==> c != "" && exists x :: x in news && x.category == Some(c)
    ensures forall i, j :: 0 <= i < j < |r| ==>
              exists k :: 0 <= k < |news| && news[k].category == Some(r[i])
                && forall m :: 0 <= m < |news| && news[m].category == Some(r[j]) ==> k < m
  {
    CategoriesInFirstOrder(news);
    SeqUtils.Dedup(PresentCategories(news))
  }

  /** Of two listed categories, some item of the earlier one precedes every item of the later one. */
  lemma CategoryPairOrder(news: seq<NewsItem>, r: seq<string>, i: nat, j: nat)
    requires r == SeqUtils.Dedup(PresentCategories(news))
    requires i < j < |r|
    ensures exists k :: 0 <= k < |news| && news[k].category == Some(r[i])
              && forall m :: 0 <= m < |news| && news[m].category == Some(r[j]) ==> k < m
  {
    SeqUtils.DedupFirstOrder(PresentCategories(news), i, j);
    PresentOrder(news, r[i], r[j]);
    var k := FirstWith(news, r[i]);
    var kj := FirstWith(news, r[j]);
    assert forall m :: 0 <= m < |news| && news[m].category == Some(r[j]) ==> kj <= m;
  }

  lemma CategoriesInFirstOrder(news: seq<NewsItem>)
    ensures forall i, j :: 0 <= i < j < |SeqUtils.Dedup(PresentCategories(news))| ==>
              exists k :: 0 <= k < |news| && news[k].category == Some(SeqUtils.Dedup(PresentCategories(news))[i])
                && forall m :: 0 <= m < |news| && news[m].category == Some(SeqUtils.Dedup(PresentCategories(news))[j]) ==> k < m
  {
    var r := SeqUtils.Dedup(PresentCategories(news));
    forall i, j | 0 <= i < j < |r|
      ensures exists k :: 0 <= k < |news| && news[k].category == Some(r[i])
                && forall m :: 0 <= m < |news| && news[m].category == Some(r[j]) ==> k < m
    {
      CategoryPairOrder(news, r, i, j);
    }
  }


}
