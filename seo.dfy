/**
 * Page metadata helpers (`seoUtils`): title, description, keyword list,
 * canonical URL and Open Graph image URL. The site URL comes from the build
 * environment and is a parameter; `encodeURIComponent` is a parameter too.
 */
module Seo {
  import opened Wrappers
  import opened Strings
  import opened SeqUtils

  const SITE_NAME: string := "ProductHot"
  const DEFAULT_SITE_URL: string := "https://producthot.top"
  const DEFAULT_TITLE: string := "ProductHot - 发现最新科技产品与创新资讯"
  const DEFAULT_DESCRIPTION: string := "聚合ProductHunt、HackerNews、GitHub、Reddit、TechCrunch等平台的最新科技产品发布和创新资讯，为产品经理、创业者和科技爱好者提供一站式产品发现平台。"
  const DEFAULT_IMAGE: string := "/images/og-image.jpg"
  const LOGO_URL: string := "/images/logo.png"

  /** The default keywords, in their declared order. */
  const PRIMARY_KEYWORDS: seq<string> := ["产品资讯", "科技新闻", "产品发布", "创业产品", "科技趋势", "产品推荐", "新产品发现", "科技资讯"]

  const DESCRIPTION_LIMIT: nat := 140
  const KEYWORD_LIMIT: nat := 10
  const DESCRIPTION_KEYWORDS: nat := 3

  /** `SITE_URL`: the configured site URL when non-empty, else the production domain. */
  function SiteUrl(configured: Option<string>): (r: string)
    ensures Truthy(configured) ==> r == configured.value
    ensures !Truthy(configured) ==> r == DEFAULT_SITE_URL
  {
    OrElse(configured, DEFAULT_SITE_URL)
  }

  /** `generateTitle(pageTitle, includeKeyword)`. */
  function GenerateTitle(pageTitle: Option<string>, includeKeyword: Option<string>): string
  {
    if !Truthy(pageTitle) then DEFAULT_TITLE
    else
      var title := if Truthy(includeKeyword) then includeKeyword.value + " - " + pageTitle.value else pageTitle.value;
      title + " | " + SITE_NAME
  }

  /**
   * No title gives the default title; otherwise the title carries the site
   * suffix, preceded by `"<keyword> - "` exactly when a keyword is given.
   */
  lemma TitleShape(pageTitle: Option<string>, includeKeyword: Option<string>)
    ensures var r := GenerateTitle(pageTitle, includeKeyword);
            (!Truthy(pageTitle) ==> r == DEFAULT_TITLE)
            && (Truthy(pageTitle) && !Truthy(includeKeyword) ==> r == pageTitle.value + " | ProductHot")
            && (Truthy(pageTitle) && Truthy(includeKeyword) ==> r == includeKeyword.value + " - " + pageTitle.value + " | ProductHot")
  {
  }

  /** With a page title the result always names the site at its end and keeps the title in front of the suffix. */
  lemma TitleEndsWithSiteName(pageTitle: Option<string>, includeKeyword: Option<string>)
    requires Truthy(pageTitle)
    ensures var r := GenerateTitle(pageTitle, includeKeyword);
            var suffix := " | " + SITE_NAME;
            |r| >= |pageTitle.value| + |suffix|
            && r[|r| - |suffix|..] == suffix
            && r[|r| - |suffix| - |pageTitle.value|..|r| - |suffix|] == pageTitle.value
  {
    var suffix := " | " + SITE_NAME;
    var t := pageTitle.value;
    var front := if Truthy(includeKeyword) then includeKeyword.value + " - " else "";
    var r := GenerateTitle(pageTitle, includeKeyword);
    assert r == front + t + suffix;
  }

  /** `content.substring(0, 140)`. */
  function Excerpt(content: string): (r: string)
    ensures |r| <= DESCRIPTION_LIMIT && |r| <= |content|
    ensures r == content[..|r|]
    ensures |content| <= DESCRIPTION_LIMIT ==> r == content
  {
    Take(content, DESCRIPTION_LIMIT)
  }

  /** `generateDescription(content, keywords)`. */
  function GenerateDescription(content: Option<string>, keywords: Option<seq<string>>): string
  {
    if !Truthy(content) then DEFAULT_DESCRIPTION
    else
      var description := Excerpt(content.value);
      var withKeywords :=
        if keywords.Some? && |keywords.value| > 0
        then description + " 关键词：" + Join(Take(keywords.value, DESCRIPTION_KEYWORDS), "、")
        else description;
      withKeywords + "..."
  }

  /**
   * Without content the default description; otherwise a prefix of at most
   * 140 characters, the keyword note with at most three keywords only when
   * keywords are given, and always the closing ellipsis.
   */
  lemma DescriptionShape(content: Option<string>, keywords: Option<seq<string>>)
    ensures var r := GenerateDescription(content, keywords);
            (!Truthy(content) ==> r == DEFAULT_DESCRIPTION)
            && (Truthy(content) ==>
                  var head := content.value[..if |content.value| < 140 then |content.value| else 140];
                  var hasKeywords := keywords.Some? && |keywords.value| > 0;
                  |r| >= |head| + 3
                  && r[..|head|] == head
                  && r[|r| - 3..] == "..."
                  && (!hasKeywords ==> r == head + "...")
                  && (hasKeywords ==>
                        var shown := if |keywords.value| < 3 then keywords.value else keywords.value[..3];
                        r == head + " 关键词：" + Join(shown, "、") + "..."))
  {
    if Truthy(content) {
      var c := content.value;
      var head := c[..if |c| < 140 then |c| else 140];
      assert Excerpt(c) == head;
      var r := GenerateDescription(content, keywords);
      if keywords.Some? && |keywords.value| > 0 {
        var shown := Take(keywords.value, DESCRIPTION_KEYWORDS);
        assert shown == if |keywords.value| < 3 then keywords.value else keywords.value[..3];
        assert r == head + (" 关键词：" + Join(shown, "、") + "...");
      } else {
        assert r == head + "...";
      }
    }
  }

  /** The keyword list before joining: page keywords first, then the defaults, de-duplicated and capped at ten. */
  function KeywordList(pageKeywords: Option<seq<string>>): (r: seq<string>)
  {
    Take(Dedup(pageKeywords.GetOr([]) + PRIMARY_KEYWORDS), KEYWORD_LIMIT)
  }

  /** `generateKeywords(pageKeywords)`. */
  function GenerateKeywords(pageKeywords: Option<seq<string>>): string
  {
    Join(KeywordList(pageKeywords), ", ")
  }

  /**
   * At most ten keywords, none repeated, each one a page keyword or a default;
   * the first distinct page keywords come first in their own order, and the
   * list is cut short only when there are more than ten distinct keywords.
   */
  lemma KeywordListProperties(pageKeywords: Option<seq<string>>)
    ensures var all := pageKeywords.GetOr([]) + PRIMARY_KEYWORDS;
            var r := KeywordList(pageKeywords);
            var own := Dedup(pageKeywords.GetOr([]));
            |r| <= 10
            && NoDuplicates(r)
            && (forall k :: k in r ==> k in all)
            && (|r| < 10 ==> forall k :: k in all ==> k in r)
            && (|own| <= 10 ==> |own| <= |r| && r[..|own|] == own)
            && (|own| > 10 ==> r == own[..10])
  {
    var page := pageKeywords.GetOr([]);
    var all := page + PRIMARY_KEYWORDS;
    var d := Dedup(all);
    var r := KeywordList(pageKeywords);
    DedupPrefix(page, PRIMARY_KEYWORDS);
    assert forall k :: k in r ==> k in d;
    if |r| < 10 {
      assert r == d;
    }
  }

  lemma PrimaryDistinct()
    ensures NoDuplicates(PRIMARY_KEYWORDS)
  {
    var p := PRIMARY_KEYWORDS;
    assert forall i, j :: 0 <= i < j < |p| ==> p[i][0] != p[j][0] || p[i][1] != p[j][1] || |p[i]| != |p[j]| || p[i][2] != p[j][2] || p[i][3] != p[j][3];
  }

  /** With no page keywords the result is exactly the default keywords, in their order. */
  lemma NoPageKeywordsGivesDefaults(pageKeywords: Option<seq<string>>)
    requires pageKeywords.None? || pageKeywords.value == []
    ensures KeywordList(pageKeywords) == PRIMARY_KEYWORDS
    ensures GenerateKeywords(pageKeywords) == Join(PRIMARY_KEYWORDS, ", ")
  {
    assert pageKeywords.GetOr([]) + PRIMARY_KEYWORDS == PRIMARY_KEYWORDS;
    PrimaryDistinct();
    DedupOfDistinct(PRIMARY_KEYWORDS);
  }

  /** `generateCanonicalUrl(path)`. */
  function GenerateCanonicalUrl(siteUrl: string, path: string): string
  {
    siteUrl + if StartsWith(path, "/") then path else "/" + path
  }

  /**
   * The URL is the site URL followed by the path with exactly one leading
   * slash added when it had none; a path and the same path with a slash
   * prepended give the same URL.
   */
  lemma CanonicalUrlShape(siteUrl: string, path: string)
    ensures var r := GenerateCanonicalUrl(siteUrl, path);
            (StartsWith(path, "/") ==> r == siteUrl + path)
            && (!StartsWith(path, "/") ==> r == siteUrl + "/" + path && r == GenerateCanonicalUrl(siteUrl, "/" + path))
            && |r| > |siteUrl| && r[..|siteUrl|] == siteUrl && r[|siteUrl|] == '/'
  {
    if !StartsWith(path, "/") {
      assert StartsWith("/" + path, "/");
      assert siteUrl + ("/" + path) == siteUrl + "/" + path;
    }
  }

  /** `generateOGImage(title)`; `encode` is `encodeURIComponent`. */
  function GenerateOGImage(siteUrl: string, title: Option<string>, encode: string -> string): string
  {
    if !Truthy(title) then siteUrl + DEFAULT_IMAGE
    else siteUrl + "/api/og?title=" + encode(title.value)
  }

  /** Without a title the static image; with one the generator endpoint carrying the encoded title. */
  lemma OGImageChoice(siteUrl: string, title: Option<string>, encode: string -> string)
    ensures var r := GenerateOGImage(siteUrl, title, encode);
            (!Truthy(title) ==> r == siteUrl + "/images/og-image.jpg")
            && (Truthy(title) ==> r == siteUrl + "/api/og?title=" + encode(title.value))
  {
  }
}
