/**
 * The shapes of the news payload and of the records the UI works on: the
 * upstream `NewsResponse` (three categories of sources, each with posts) and
 * the flattened `NewsItem` / `Channel` view models.
 */
module NewsModel {
  import opened Wrappers

  /** One post of an upstream source; `description` may be null. */
  datatype NewsPost = NewsPost(title: string, url: string, description: Option<string>, upvotes: int)

  /** One upstream source's snapshot: its name, logo, refresh time and posts in relevance order. */
  datatype NewsSource = NewsSource(title: string, logo: Option<string>, updateTime: string, posts: seq<NewsPost>)

  /** The whole payload: three category lists, each possibly empty. */
  datatype NewsResponse = NewsResponse(newProducts: seq<NewsSource>, reddits: seq<NewsSource>, trendings: seq<NewsSource>)

  /**
   * A flattened news record. `summary` keeps a null description as `None`;
   * `category` and `tags` are optional in the record type.
   */
  datatype NewsItem = NewsItem(
    id: int,
    title: string,
    summary: Option<string>,
    link: string,
    date: string,
    views: int,
    likes: int,
    category: Option<string>,
    tags: Option<seq<string>>)

  /** A channel bucket shown on the home page. */
  datatype Channel = Channel(
    id: string,
    name: string,
    icon: string,
    updateTime: string,
    articles: seq<NewsItem>,
    color: string,
    bgGradient: string)

  /** The order-preserving filter on one category, `news.filter(item => item.category === category)`. */
  function FilterCategory(news: seq<NewsItem>, category: string): (r: seq<NewsItem>)
    ensures forall x :: x in r <==> x in news && x.category == Some(category)
    ensures |r| <= |news|
  {
    if news == [] then []
    else if news[0].category == Some(category) then [news[0]] + FilterCategory(news[1..], category)
    else FilterCategory(news[1..], category)
  }

}
