/**
 * The pure part of the Xiaohongshu client: turning generated content into a
 * post, appending its hashtags to the body unless one is already there, the
 * request body of a new note and the request headers. The HTTP calls, image
 * upload and the scheduling placeholder are not part of this model.
 */
module Xiaohongshu {
  import opened Wrappers
  import opened Values
  import PyStr

  /** An article as the agent hands it over. */
  datatype GeneratedContent = GeneratedContent(
    title: string, content: string, hashtags: seq<string>, summary: string,
    wordCount: int, sources: seq<string>, factChecked: bool)

  /** A post; images and location are None until someone sets them. */
  datatype XiaohongshuPost = XiaohongshuPost(
    title: string, content: string, hashtags: seq<string>,
    images: Option<seq<string>>, privacy: string, location: Option<string>)

  datatype XiaohongshuClient = XiaohongshuClient(accessToken: string, appId: string, appSecret: string, apiBase: string)

  /** api_base.rstrip("/"): every trailing slash removed, nothing else. */
  function RStripSlash(s: string): (r: string)
    ensures |r| <= |s| && r == s[..|r|]
    ensures r == [] || r[|r| - 1] != '/'
    ensures forall i :: |r| <= i < |s| ==> s[i] == '/'
  {
    if s != [] && s[|s| - 1] == '/' then RStripSlash(s[..|s| - 1]) else s
  }

  const DefaultApiBase: string := "https://api.xiaohongshu.com"

  /** The client keeps its credentials and the base address without trailing slashes. */
  function NewClient(accessToken: string, appId: string, appSecret: string, apiBase: string): (c: XiaohongshuClient)
    ensures c.accessToken == accessToken && c.appId == appId && c.appSecret == appSecret
    ensures |c.apiBase| <= |apiBase| && c.apiBase == apiBase[..|c.apiBase|]
    ensures c.apiBase == [] || c.apiBase[|c.apiBase| - 1] != '/'
  {
    XiaohongshuClient(accessToken, appId, appSecret, RStripSlash(apiBase))
  }

  /** The default base address has no trailing slash and is kept as is. */
  lemma DefaultApiBaseKept()
    ensures RStripSlash(DefaultApiBase) == DefaultApiBase
  {
  }

  const AuthorizationKey: string := "Authorization"
  const ContentTypeKey: string := "Content-Type"
  const UserAgentKey: string := "User-Agent"
  const BearerPrefix: string := "Bearer "
  const JsonContentType: string := "application/json"
  const UserAgent: string := "ColumnistAgent/1.0.0"

  /** _get_headers. */
  function Headers(client: XiaohongshuClient): map<string, string>
  {
    map[AuthorizationKey := BearerPrefix + client.accessToken, ContentTypeKey := JsonContentType, UserAgentKey := UserAgent]
  }

  /** Three headers; the token comes back out of the authorization header, the other two are fixed. */
  lemma HeadersRules(client: XiaohongshuClient)
    ensures var h := Headers(client);
      && h.Keys == {AuthorizationKey, ContentTypeKey, UserAgentKey}
      && PyStr.StartsWith(h[AuthorizationKey], BearerPrefix)
      && h[AuthorizationKey][|BearerPrefix|..] == client.accessToken
      && h[ContentTypeKey] == JsonContentType && h[UserAgentKey] == UserAgent
  {
    var h := Headers(client);
    assert h[AuthorizationKey][..|BearerPrefix|] == BearerPrefix;
  }

  /** f"#{tag}". */
  function Mark(tag: string): (r: string)
    ensures |r| == |tag| + 1 && r[0] == '#' && r[1..] == tag
  {
    "#" + tag
  }

  function Marks(hashtags: seq<string>): (r: seq<string>)
    ensures |r| == |hashtags| && forall i :: 0 <= i < |r| ==> r[i] == Mark(hashtags[i])
  {
    seq(|hashtags|, i requires 0 <= i < |hashtags| => Mark(hashtags[i]))
  }

  /** any(f"#{tag}" in content for tag in hashtags). */
  predicate Tagged(content: string, hashtags: seq<string>)
  {
    exists i :: 0 <= i < |hashtags| && PyStr.Contains(content, Mark(hashtags[i]))
  }

  /** _format_content. */
  function FormatContent(content: string, hashtags: seq<string>): string
  {
    if Tagged(content, hashtags) then content
    else content + "\n\n" + PyStr.Join(" ", Marks(hashtags))
  }

  /** A joined list starts with its first part. */
  lemma JoinStartsWithFirst(sep: string, parts: seq<string>)
    requires parts != []
    ensures |parts[0]| <= |PyStr.Join(sep, parts)| && PyStr.Join(sep, parts)[..|parts[0]|] == parts[0]
  {
    if |parts| > 1 {
      var j := PyStr.Join(sep, parts);
      assert j == parts[0] + (sep + PyStr.Join(sep, parts[1..]));
    }
  }

  /**
   * Content that already carries one of the marks is returned unchanged;
   * otherwise the body is the content, a blank line and the space-separated
   * marks, so with no hashtags at all a bare blank line is appended.
   */
  lemma FormatContentRules(content: string, hashtags: seq<string>)
    ensures Tagged(content, hashtags) ==> FormatContent(content, hashtags) == content
    ensures !Tagged(content, hashtags) ==> FormatContent(content, hashtags) == content + "\n\n" + PyStr.Join(" ", Marks(hashtags))
    ensures FormatContent(content, []) == content + "\n\n"
  {
  }

  /** After formatting with at least one hashtag, the body is tagged. */
  lemma FormattedIsTagged(content: string, hashtags: seq<string>)
    requires hashtags != []
    ensures Tagged(FormatContent(content, hashtags), hashtags)
  {
    if !Tagged(content, hashtags) {
      var ms := Marks(hashtags);
      var j := PyStr.Join(" ", ms);
      var r := content + "\n\n" + j;
      JoinStartsWithFirst(" ", ms);
      var p := |content| + 2;
      assert r[p..p + |ms[0]|] == j[..|ms[0]|];
      assert PyStr.OccursAt(r, Mark(hashtags[0]), p);
      assert PyStr.Contains(r, Mark(hashtags[0]));
    }
  }

  /** Formatting twice adds the hashtags once, when there is at least one. */
  lemma FormatContentIdempotent(content: string, hashtags: seq<string>)
    requires hashtags != []
    ensures FormatContent(FormatContent(content, hashtags), hashtags) == FormatContent(content, hashtags)
  {
    FormattedIsTagged(content, hashtags);
  }

  /** Without hashtags the blank line is appended on every pass. */
  lemma NoHashtagsGrows(content: string)
    ensures FormatContent(FormatContent(content, []), []) == content + "\n\n\n\n"
  {
  }

  /** convert_generated_content. */
  function ConvertGeneratedContent(content: GeneratedContent): (post: XiaohongshuPost)
    ensures post.title == content.title && post.content == content.content && post.hashtags == content.hashtags
    ensures post.images.None? && post.location.None? && post.privacy == "public"
  {
    XiaohongshuPost(content.title, content.content, content.hashtags, None, "public", None)
  }

  function OptStr(o: Option<string>): Value
  {
    match o
    case Some(s) => VStr(s)
    case None => VNone
  }

  /** The request body create_post sends: images only when the list is present and non-empty. */
  function PostData(post: XiaohongshuPost): map<string, Value>
  {
    var base := map["title" := VStr(post.title), "content" := VStr(FormatContent(post.content, post.hashtags)),
                    "privacy" := VStr(post.privacy), "location" := OptStr(post.location)];
    match post.images
    case Some(imgs) => if imgs != [] then base["images" := VList(seq(|imgs|, i requires 0 <= i < |imgs| => VStr(imgs[i])))] else base
    case None => base
  }

  /**
   * A converted article is sent with exactly title, formatted content,
   * "public" privacy and a null location, and no images.
   */
  lemma ConvertedPostData(content: GeneratedContent)
    ensures var d := PostData(ConvertGeneratedContent(content));
      && d.Keys == {"title", "content", "privacy", "location"}
      && d["title"] == VStr(content.title)
      && d["content"] == VStr(FormatContent(content.content, content.hashtags))
      && d["privacy"] == VStr("public") && d["location"] == VNone
  {
  }

  /** Images are sent exactly when the post has a non-empty list of them. */
  lemma PostDataImages(post: XiaohongshuPost)
    ensures "images" in PostData(post) <==> post.images.Some? && post.images.value != []
    ensures "images" in PostData(post) ==> PostData(post)["images"].VList? && |PostData(post)["images"].items| == |post.images.value|
  {
  }
}
