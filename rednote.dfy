/**
 * The RedNote publisher: the platform's limits (a 20-character title, a
 * 1000-character body, ten tags), the validation that collects one error
 * per broken limit, the formatting that truncates and appends automatic
 * tags, and the publish flow (validation, draft mode, the mock API). The
 * clock, the MD5 digest of the post and the API credentials are
 * parameters.
 */
module RedNote {
  import opened Wrappers
  import opened Values
  import PyStr

  const MaxTitleLength: nat := 20
  const MaxContentLength: nat := 1000
  const MaxHashtags: nat := 10

  /** The writer's article; its tag list is a mutable list the formatter may extend. */
  class Article {
    var title: string
    var content: string
    var hashtags: seq<string>
    var summary: string
    var wordCount: int
    var sources: seq<string>

    constructor(title: string, content: string, hashtags: seq<string>, summary: string, wordCount: int, sources: seq<string>)
      ensures this.title == title && this.content == content && this.hashtags == hashtags
      ensures this.summary == summary && this.wordCount == wordCount && this.sources == sources
    {
      this.title := title;
      this.content := content;
      this.hashtags := hashtags;
      this.summary := summary;
      this.wordCount := wordCount;
      this.sources := sources;
    }
  }

  /** The publish options the publisher reads (platform, schedule_time, max_hashtags and image_required are never read). */
  datatype PublishConfig = PublishConfig(autoHashtags: bool, draftMode: bool)

  const DefaultConfig := PublishConfig(true, false)

  // ----- Validation -----

  /** The three length messages; each is longer than either blank message. */
  function TitleTooLong(n: nat): (m: string)
    ensures |m| > 20
  {
    "Title too long: " + NatDigits(n) + " > 20"
  }

  function ContentTooLong(n: nat): (m: string)
    ensures |m| > 20
  {
    "Content too long: " + NatDigits(n) + " > 1000"
  }

  function TooManyHashtags(n: nat): (m: string)
    ensures |m| > 20
  {
    "Too many hashtags: " + NatDigits(n) + " > 10"
  }

  /** The length errors _validate_article collects, in its order. */
  function LengthErrors(title: string, content: string, hashtags: seq<string>): seq<string>
  {
    (if |title| > MaxTitleLength then [TitleTooLong(|title|)] else [])
    + (if |content| > MaxContentLength then [ContentTooLong(|content|)] else [])
    + (if |hashtags| > MaxHashtags then [TooManyHashtags(|hashtags|)] else [])
  }

  /** The errors for a blank title or body. */
  function BlankErrors(title: string, content: string): seq<string>
  {
    (if PyStr.Strip(title) == [] then ["Title is required"] else [])
    + (if PyStr.Strip(content) == [] then ["Content is required"] else [])
  }

  function ValidationErrors(title: string, content: string, hashtags: seq<string>): seq<string>
  {
    LengthErrors(title, content, hashtags) + BlankErrors(title, content)
  }

  /** An article passes every check: short enough title, body and tag list, and a title and body that are not blank. */
  predicate Publishable(title: string, content: string, hashtags: seq<string>)
  {
    |title| <= MaxTitleLength && |content| <= MaxContentLength && |hashtags| <= MaxHashtags &&
    PyStr.Strip(title) != [] && PyStr.Strip(content) != []
  }

  /**
   * One message per broken rule: each message is present exactly when its
   * rule is broken, so no errors means publishable.
   */
  lemma ValidationRules(title: string, content: string, hashtags: seq<string>)
    ensures ValidationErrors(title, content, hashtags) == [] <==> Publishable(title, content, hashtags)
    ensures ("Title is required" in ValidationErrors(title, content, hashtags)) <==> PyStr.Strip(title) == []
    ensures ("Content is required" in ValidationErrors(title, content, hashtags)) <==> PyStr.Strip(content) == []
    ensures |ValidationErrors(title, content, hashtags)| <= 5
    ensures |title| > MaxTitleLength ==> ValidationErrors(title, content, hashtags)[0] == TitleTooLong(|title|)
  {
    var l := LengthErrors(title, content, hashtags);
    assert forall m :: m in l ==> |m| > 20;
    assert |"Title is required"| == 17 && |"Content is required"| == 19;
    assert "Title is required" !in l && "Content is required" !in l;
  }

  /** _validate_article: the errors list built by appending. */
  method ValidateArticle(article: Article) returns (valid: bool, errors: seq<string>)
    ensures errors == ValidationErrors(article.title, article.content, article.hashtags)
    ensures valid <==> errors == []
  {
    var title, content, hashtags := article.title, article.content, article.hashtags;
    errors := [];
    if |title| > MaxTitleLength {
      errors := errors + [TitleTooLong(|title|)];
    }
    if |content| > MaxContentLength {
      errors := errors + [ContentTooLong(|content|)];
    }
    if |hashtags| > MaxHashtags {
      errors := errors + [TooManyHashtags(|hashtags|)];
    }
    assert errors == LengthErrors(title, content, hashtags);
    var blank := [];
    if PyStr.Strip(title) == [] {
      blank := blank + ["Title is required"];
    }
    if PyStr.Strip(content) == [] {
      blank := blank + ["Content is required"];
    }
    assert blank == BlankErrors(title, content);
    errors := errors + blank;
    valid := |errors| == 0;
  }

  /** repr() of a list of strings without quotes in them: ['a', 'b']. */
  function ListRepr(items: seq<string>): string
  {
    "[" + PyStr.Join(", ", seq(|items|, i requires 0 <= i < |items| => "'" + items[i] + "'")) + "]"
  }

  // ----- Automatic tags -----

  /** tech_keywords, in the dict's order: keyword found in the lowered body, tag to add. */
  const KeywordsBefore: seq<(string, string)> :=
    [("ai", "AI"), ("人工智能", "人工智能"), ("机器学习", "机器学习"), ("深度学习", "深度学习"), ("python", "Python")]
  const ProgrammingKeywords: seq<(string, string)> := [("编程", "编程"), ("代码", "编程")]
  const KeywordsAfter: seq<(string, string)> := [("数据", "数据分析"), ("算法", "算法"), ("技术", "技术分享")]
  const TechKeywords: seq<(string, string)> := KeywordsBefore + ProgrammingKeywords + KeywordsAfter

  const EngagementTags: seq<string> := ["干货分享", "学习笔记", "经验分享", "知识科普"]

  /** Whether keyword entry kw adds its tag. */
  predicate Hit(kw: (string, string), lower: string, existing: seq<string>)
  {
    PyStr.Contains(lower, kw.0) && kw.1 !in existing
  }

  /** The keyword tags, one per entry whose keyword occurs and whose tag the article lacks. */
  function KeywordTags(lower: string, existing: seq<string>, kws: seq<(string, string)>): (r: seq<string>)
    ensures |r| <= |kws|
  {
    if kws == [] then []
    else KeywordTags(lower, existing, kws[..|kws| - 1]) + (if Hit(kws[|kws| - 1], lower, existing) then [kws[|kws| - 1].1] else [])
  }

  /** _generate_auto_hashtags: the keyword tags, then up to two engagement tags while the ten slots are not full. */
  function AutoTags(content: string, existing: seq<string>): seq<string>
  {
    var kw := KeywordTags(PyStr.Lower(content), existing, TechKeywords);
    var remaining := MaxHashtags - |existing| - |kw|;
    kw + (if remaining > 0 then EngagementTags[..if remaining < 2 then remaining else 2] else [])
  }

  lemma {:induction false} KeywordTagsConcat(lower: string, existing: seq<string>, a: seq<(string, string)>, b: seq<(string, string)>)
    ensures KeywordTags(lower, existing, a + b) == KeywordTags(lower, existing, a) + KeywordTags(lower, existing, b)
    decreases |b|
  {
    if b == [] {
      assert a + b == a;
    } else {
      var b0 := b[..|b| - 1];
      assert (a + b)[..|a + b| - 1] == a + b0;
      KeywordTagsConcat(lower, existing, a, b0);
    }
  }

  lemma {:induction false} KeywordTagsFrom(lower: string, existing: seq<string>, kws: seq<(string, string)>)
    ensures forall x :: x in KeywordTags(lower, existing, kws) ==> x !in existing && exists k :: 0 <= k < |kws| && kws[k].1 == x
  {
    if kws != [] {
      var init := kws[..|kws| - 1];
      KeywordTagsFrom(lower, existing, init);
      forall x | x in KeywordTags(lower, existing, init) ensures exists k :: 0 <= k < |kws| && kws[k].1 == x {
        var k :| 0 <= k < |init| && init[k].1 == x;
        assert kws[k] == init[k];
      }
    }
  }

  /** A keyword list none of whose tags starts with 编 never yields '编程'. */
  lemma NoProgrammingTag(lower: string, existing: seq<string>, kws: seq<(string, string)>)
    requires forall k :: 0 <= k < |kws| ==> kws[k].1 != [] && kws[k].1[0] != '编'
    ensures "编程" !in KeywordTags(lower, existing, kws)
  {
    KeywordTagsFrom(lower, existing, kws);
  }

  /** Keyword tags never repeat one the article already has. */
  lemma KeywordTagsNew(content: string, existing: seq<string>)
    ensures forall x :: x in KeywordTags(PyStr.Lower(content), existing, TechKeywords) ==> x !in existing
  {
    KeywordTagsFrom(PyStr.Lower(content), existing, TechKeywords);
  }

  /**
   * '编程' is added twice when the body mentions both 编程 and 代码 and the
   * article lacks the tag, because the check looks at the article's tags,
   * not at the tags already added.
   */
  lemma ProgrammingTwice(content: string, existing: seq<string>)
    requires PyStr.Contains(PyStr.Lower(content), "编程") && PyStr.Contains(PyStr.Lower(content), "代码")
    requires "编程" !in existing
    ensures multiset(KeywordTags(PyStr.Lower(content), existing, TechKeywords))["编程"] == 2
  {
    var lower := PyStr.Lower(content);
    KeywordTagsConcat(lower, existing, KeywordsBefore + ProgrammingKeywords, KeywordsAfter);
    KeywordTagsConcat(lower, existing, KeywordsBefore, ProgrammingKeywords);
    var before := KeywordTags(lower, existing, KeywordsBefore);
    var after := KeywordTags(lower, existing, KeywordsAfter);
    var mid := KeywordTags(lower, existing, ProgrammingKeywords);
    OthersLackProgramming(lower, existing);
    ProgrammingPair(lower, existing);
    assert multiset(before)["编程"] == 0 && multiset(after)["编程"] == 0;
    assert multiset(mid)["编程"] == 2;
    assert KeywordTags(lower, existing, TechKeywords) == before + mid + after;
  }

  /** The entries around the two programming keywords never yield '编程'. */
  lemma OthersLackProgramming(lower: string, existing: seq<string>)
    ensures "编程" !in KeywordTags(lower, existing, KeywordsBefore)
    ensures "编程" !in KeywordTags(lower, existing, KeywordsAfter)
  {
    assert forall k :: 0 <= k < |KeywordsBefore| ==> KeywordsBefore[k].1 != [] && KeywordsBefore[k].1[0] != '编';
    NoProgrammingTag(lower, existing, KeywordsBefore);
    assert forall k :: 0 <= k < |KeywordsAfter| ==> KeywordsAfter[k].1 != [] && KeywordsAfter[k].1[0] != '编';
    NoProgrammingTag(lower, existing, KeywordsAfter);
  }

  /** Both programming keywords present and the tag missing: both entries add '编程'. */
  lemma ProgrammingPair(lower: string, existing: seq<string>)
    requires PyStr.Contains(lower, "编程") && PyStr.Contains(lower, "代码") && "编程" !in existing
    ensures KeywordTags(lower, existing, ProgrammingKeywords) == ["编程", "编程"]
  {
    assert ProgrammingKeywords[..1] == [("编程", "编程")];
    assert ProgrammingKeywords[..1][..0] == [];
    assert Hit(ProgrammingKeywords[0], lower, existing) && Hit(ProgrammingKeywords[1], lower, existing);
  }

  /** Engagement tags fill at most two of the slots the article's tags and the keyword tags leave. */
  lemma AutoTagsShape(content: string, existing: seq<string>)
    ensures var kw := KeywordTags(PyStr.Lower(content), existing, TechKeywords);
      var remaining := MaxHashtags - |existing| - |kw|;
      && AutoTags(content, existing)[..|kw|] == kw
      && |AutoTags(content, existing)| == |kw| + (if remaining <= 0 then 0 else if remaining < 2 then remaining else 2)
      && AutoTags(content, existing)[|kw|..] == EngagementTags[..|AutoTags(content, existing)| - |kw|]
  {
  }

  /** _generate_auto_hashtags: the loop over the keywords, then the engagement tags. */
  method GenerateAutoHashtags(article: Article) returns (autoTags: seq<string>)
    ensures autoTags == AutoTags(article.content, article.hashtags)
  {
    autoTags := [];
    var contentLower := PyStr.Lower(article.content);
    for i := 0 to |TechKeywords|
      invariant autoTags == KeywordTags(contentLower, article.hashtags, TechKeywords[..i])
    {
      assert TechKeywords[..i + 1][..i] == TechKeywords[..i];
      var (keyword, tag) := TechKeywords[i];
      if PyStr.Contains(contentLower, keyword) && tag !in article.hashtags {
        autoTags := autoTags + [tag];
      }
    }
    assert TechKeywords[..|TechKeywords|] == TechKeywords;
    var remainingSlots := MaxHashtags - |article.hashtags| - |autoTags|;
    if remainingSlots > 0 {
      autoTags := autoTags + EngagementTags[..if remainingSlots < 2 then remainingSlots else 2];
    }
  }

  // ----- Formatting -----

  datatype Formatted = Formatted(title: string, content: string, hashtags: seq<string>, summary: string,
                                 wordCount: nat, originalWordCount: int)

  function FormatTitle(title: string): (r: string)
    ensures |r| <= MaxTitleLength && |r| <= |title| && r == title[..|r|]
    ensures r == title <==> |title| <= MaxTitleLength
  {
    if |title| > MaxTitleLength then title[..MaxTitleLength] else title
  }

  function FormatContent(content: string): (r: string)
    ensures |r| <= MaxContentLength
    ensures |content| <= MaxContentLength ==> r == content
    ensures |content| > MaxContentLength ==> |r| == MaxContentLength && r == content[..MaxContentLength - 3] + "..."
  {
    if |content| > MaxContentLength then content[..MaxContentLength - 3] + "..." else content
  }

  /** " ".join(f"#{tag}" for tag in tags). */
  function TagText(tags: seq<string>): string
  {
    PyStr.Join(" ", seq(|tags|, i requires 0 <= i < |tags| => "#" + tags[i]))
  }

  /** The tag list the post carries. */
  function PostTags(hashtags: seq<string>, autoTags: seq<string>, auto: bool): seq<string>
  {
    var base := if |hashtags| > MaxHashtags then hashtags[..MaxHashtags] else hashtags;
    if auto then PyStr.Take(PyStr.Dedup(base + autoTags), MaxHashtags) else base
  }

  /** _format_for_rednote as a value, from the article's fields before the call. */
  function Format(title: string, content: string, hashtags: seq<string>, summary: string, wordCount: int, auto: bool): Formatted
  {
    var tags := PostTags(hashtags, AutoTags(content, hashtags), auto);
    var full := FormatContent(content) + "\n\n" + TagText(tags);
    Formatted(FormatTitle(title), full, tags, summary, |full|, wordCount)
  }

  /**
   * The post's tags are at most ten; with automatic tags on they are
   * distinct, each from the article or the automatic list, and all of them
   * are kept when there are at most ten distinct ones among the first ten
   * and the automatic tags. The post's text is the (truncated) body, a blank
   * line and the tags, and its word count is that text's length.
   */
  lemma FormatRules(title: string, content: string, hashtags: seq<string>, summary: string, wordCount: int, auto: bool)
    ensures var f := Format(title, content, hashtags, summary, wordCount, auto);
      && |f.hashtags| <= MaxHashtags
      && f.content == FormatContent(content) + "\n\n" + TagText(f.hashtags)
      && f.wordCount == |f.content|
      && f.title == FormatTitle(title)
    ensures var f := Format(title, content, hashtags, summary, wordCount, auto);
      auto ==> (forall a, b :: 0 <= a < b < |f.hashtags| ==> f.hashtags[a] != f.hashtags[b]) &&
               (forall x :: x in f.hashtags ==> x in hashtags || x in AutoTags(content, hashtags))
    ensures var f := Format(title, content, hashtags, summary, wordCount, auto);
      var pool := (if |hashtags| > MaxHashtags then hashtags[..MaxHashtags] else hashtags) + AutoTags(content, hashtags);
      auto && |PyStr.Dedup(pool)| <= MaxHashtags ==> forall x :: x in f.hashtags <==> x in pool
    ensures !auto ==> Format(title, content, hashtags, summary, wordCount, auto).hashtags == PyStr.Take(hashtags, MaxHashtags)
  {
    var base := if |hashtags| > MaxHashtags then hashtags[..MaxHashtags] else hashtags;
    var pool := base + AutoTags(content, hashtags);
    PyStr.DedupRules(pool);
    var d := PyStr.Dedup(pool);
    var t := PyStr.Take(d, MaxHashtags);
    assert forall a :: 0 <= a < |t| ==> t[a] == d[a];
    forall x | x in t ensures x in hashtags || x in AutoTags(content, hashtags) {
      assert x in pool;
    }
  }

  /**
   * _format_for_rednote. With at most ten tags the article's own list is the
   * one extended with the automatic tags, so the article keeps them; with
   * more, a copy of the first ten is extended and the article is untouched.
   */
  method FormatForRedNote(article: Article, config: PublishConfig) returns (f: Formatted)
    modifies article
    ensures f == Format(old(article.title), old(article.content), old(article.hashtags), old(article.summary),
                        old(article.wordCount), config.autoHashtags)
    ensures article.hashtags == if config.autoHashtags && |old(article.hashtags)| <= MaxHashtags
      then old(article.hashtags) + AutoTags(old(article.content), old(article.hashtags))
      else old(article.hashtags)
    ensures article.title == old(article.title) && article.content == old(article.content)
    ensures article.summary == old(article.summary) && article.wordCount == old(article.wordCount)
    ensures article.sources == old(article.sources)
  {
    var title := if |article.title| > MaxTitleLength then article.title[..MaxTitleLength] else article.title;
    var content := article.content;
    if |content| > MaxContentLength {
      content := content[..MaxContentLength - 3] + "...";
    }
    var hashtags: seq<string>;
    var aliased := |article.hashtags| <= MaxHashtags;
    if !aliased {
      hashtags := article.hashtags[..MaxHashtags];
    } else {
      hashtags := article.hashtags;
    }
    if config.autoHashtags {
      var autoTags := GenerateAutoHashtags(article);
      if aliased {
        article.hashtags := article.hashtags + autoTags;   // hashtags.extend(auto_tags) on the article's own list
        hashtags := article.hashtags;
      } else {
        hashtags := hashtags + autoTags;
      }
      hashtags := PyStr.Take(PyStr.Dedup(hashtags), MaxHashtags);
    }
    var fullContent := content + "\n\n" + TagText(hashtags);
    f := Formatted(title, fullContent, hashtags, article.summary, |fullContent|, article.wordCount);
  }

  // ----- Publishing -----

  datatype PublishResult = PublishResult(success: bool, postId: Option<string>, postUrl: Option<string>,
                                         errorMessage: Option<string>, formatted: Option<Formatted>)

  /** The mock API call: with both credentials it succeeds with the post id, else it reports them missing. */
  function PublishToApi(f: Formatted, hasCredentials: bool, postId: string): PublishResult
  {
    if hasCredentials then
      PublishResult(true, Some(postId), Some("https://www.xiaohongshu.com/explore/" + postId), None, Some(f))
    else PublishResult(false, None, None, Some("Missing API credentials (app_id or app_secret)"), None)
  }

  /**
   * publish_article as a value: validation failure first, then draft mode
   * (no API call), then the API. `now` is int(time.time()) and `postId`
   * the id the mock API derives from the clock and the content's digest.
   */
  function Publish(title: string, content: string, hashtags: seq<string>, summary: string, wordCount: int,
                   config: PublishConfig, hasCredentials: bool, now: int, postId: string): PublishResult
  {
    var errors := ValidationErrors(title, content, hashtags);
    if errors != [] then
      PublishResult(false, None, None, Some("Article validation failed: " + ListRepr(errors)), None)
    else
      var f := Format(title, content, hashtags, summary, wordCount, config.autoHashtags);
      if config.draftMode then PublishResult(true, Some("draft_" + IntToString(now)), None, None, Some(f))
      else PublishToApi(f, hasCredentials, postId)
  }

  /** A body that passed validation reaches the post whole: the text starts with it. */
  lemma FormattedKeepsBody(title: string, content: string, hashtags: seq<string>, summary: string, wordCount: int, auto: bool)
    requires Publishable(title, content, hashtags)
    ensures var f := Format(title, content, hashtags, summary, wordCount, auto);
      f.title == title && |content| <= |f.content| && f.content[..|content|] == content
  {
    var f := Format(title, content, hashtags, summary, wordCount, auto);
    assert f.content == content + ("\n\n" + TagText(f.hashtags));
  }

  /**
   * Only a valid article succeeds, and then formatting never truncates it;
   * a valid article in draft mode succeeds whatever the credentials.
   */
  lemma PublishRules(title: string, content: string, hashtags: seq<string>, summary: string, wordCount: int,
                     config: PublishConfig, hasCredentials: bool, now: int, postId: string)
    ensures Publish(title, content, hashtags, summary, wordCount, config, hasCredentials, now, postId).success ==>
      Publishable(title, content, hashtags)
    ensures Publishable(title, content, hashtags) ==>
      (Publish(title, content, hashtags, summary, wordCount, config, hasCredentials, now, postId).success <==>
        config.draftMode || hasCredentials)
    ensures Publish(title, content, hashtags, summary, wordCount, config, hasCredentials, now, postId).success ==>
      Publish(title, content, hashtags, summary, wordCount, config, hasCredentials, now, postId).formatted ==
        Some(Format(title, content, hashtags, summary, wordCount, config.autoHashtags))
  {
    ValidationRules(title, content, hashtags);
  }

  /** publish_article, after the model's validation and formatting steps. */
  method PublishArticle(article: Article, config: PublishConfig, hasCredentials: bool, now: int, postId: string)
    returns (r: PublishResult)
    modifies article
    ensures r == Publish(old(article.title), old(article.content), old(article.hashtags), old(article.summary),
                         old(article.wordCount), config, hasCredentials, now, postId)
    ensures article.hashtags ==
      if Publishable(old(article.title), old(article.content), old(article.hashtags)) && config.autoHashtags &&
         |old(article.hashtags)| <= MaxHashtags
      then old(article.hashtags) + AutoTags(old(article.content), old(article.hashtags))
      else old(article.hashtags)
    ensures article.title == old(article.title) && article.content == old(article.content)
    ensures article.summary == old(article.summary) && article.wordCount == old(article.wordCount)
    ensures article.sources == old(article.sources)
  {
    var valid, errors := ValidateArticle(article);
    ValidationRules(article.title, article.content, article.hashtags);
    if !valid {
      return PublishResult(false, None, None, Some("Article validation failed: " + ListRepr(errors)), None);
    }
    var f := FormatForRedNote(article, config);
    if config.draftMode {
      return PublishResult(true, Some("draft_" + IntToString(now)), None, None, Some(f));
    }
    r := PublishToApi(f, hasCredentials, postId);
  }
}
