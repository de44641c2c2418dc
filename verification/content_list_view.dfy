/**
 * The admin list page of one content type: four status filters, one request
 * per filter for up to 100 items, and the badge, date and slug shown per row.
 */
module ContentListView {
  import opened Wrappers
  import opened Models
  import opened Seqs
  import ContentListApi

  const Filters: seq<string> := ["all", "published", "draft", "archived"]

  /**
   * The query the page sends: `status` is empty for "all", the page's own
   * type, a limit of 100 and no page number.
   */
  function ListRequest(filter: string, ct: ContentType): (q: ContentQuery)
    ensures q.limit == Some(100) && q.page.None? && q.search.None?
    ensures q.contentType == Some(TypeName(ct))
    ensures filter == "all" ==> q.status == Some("")
    ensures filter != "all" ==> q.status == Some(filter)
  {
    ContentQuery(Some(if filter == "all" then "" else filter), Some(TypeName(ct)), None, Some(100), None)
  }

  /**
   * What a filter button lists: rows of the page's type only, restricted to
   * the button's status unless it is "all"; the first 100 of them, newest first.
   */
  lemma FilterShowsMatchingRows(rows: seq<Content>, filter: string, ct: ContentType)
    requires filter in Filters
    ensures var r := ContentListApi.List(Ok(rows), ListRequest(filter, ct));
      && r.ListOk? && r.page == 1 && r.limit == 100 && |r.content| <= 100
      && SortedDesc(r.content, ContentListApi.CreatedKey)
      && forall c :: c in r.content ==>
           c in rows && c.contentType == ct && (filter == "all" || StatusName(c.status) == filter)
  {
    var r := ContentListApi.List(Ok(rows), ListRequest(filter, ct));
    forall c | c in r.content
      ensures c.contentType == ct && (filter == "all" || StatusName(c.status) == filter)
    {
      RequestMatches(c, filter, ct);
    }
  }

  /** A row matches a button's request exactly when it has the page's type and, unless "all", the button's status. */
  lemma RequestMatches(c: Content, filter: string, ct: ContentType)
    requires filter in Filters
    ensures ContentListApi.Matches(c, ListRequest(filter, ct))
        <==> c.contentType == ct && (filter == "all" || StatusName(c.status) == filter)
  {
    TypeNamesRoundTrip(c.contentType, TypeName(ct));
    TypeNamesRoundTrip(ct, TypeName(c.contentType));
  }

  /** Up to 100 matching rows the page shows all of them; beyond that the rest never appear. */
  lemma FirstHundredOnly(rows: seq<Content>, filter: string, ct: ContentType)
    ensures var q := ListRequest(filter, ct);
      var matching := ContentListApi.Matching(rows, q);
      var r := ContentListApi.List(Ok(rows), q);
      && |r.content| == Min(100, |matching|)
      && r.content == SortDesc(matching, ContentListApi.CreatedKey)[..Min(100, |matching|)]
  {
    var q := ListRequest(filter, ct);
    var sorted := SortDesc(ContentListApi.Matching(rows, q), ContentListApi.CreatedKey);
    ContentListApi.PageSlice(sorted, 1, 100);
  }

  /** `statusColors[post.status] || "outline"`. */
  function BadgeVariant(status: string): (r: string)
    ensures ParseStatus(status) == Some(Published) ==> r == "default"
    ensures ParseStatus(status) == Some(Draft) ==> r == "secondary"
    ensures ParseStatus(status) == Some(Archived) ==> r == "destructive"
    ensures ParseStatus(status).None? ==> r == "outline"
  {
    if status == "published" then "default"
    else if status == "draft" then "secondary"
    else if status == "archived" then "destructive"
    else "outline"
  }

  /** Each status has its own badge, and none of them uses the fallback. */
  lemma BadgesDistinct(s: ContentStatus, t: ContentStatus)
    ensures BadgeVariant(StatusName(s)) != "outline"
    ensures s != t ==> BadgeVariant(StatusName(s)) != BadgeVariant(StatusName(t))
  {
  }

  /** `published_at || created_at`: the publication time when there is one. */
  function DisplayDate(c: Content): (r: Timestamp)
    ensures c.publishedAt.Some? ==> r == c.publishedAt.value
    ensures c.publishedAt.None? ==> r == c.createdAt
  {
    c.publishedAt.GetOr(c.createdAt)
  }

  /**
   * The list is ordered by creation time, not by the date it shows: a row
   * created later but published earlier is listed first with the older date.
   */
  lemma ShownDatesNeedNotDescend(a: Content, b: Content)
    requires a.createdAt == 2 && a.publishedAt == Some(5)
    requires b.createdAt == 1 && b.publishedAt == Some(9)
    ensures SortedDesc([a, b], ContentListApi.CreatedKey)
    ensures DisplayDate(a) < DisplayDate(b)
  {
  }

  /** The slug line under the title: `post.slug && contentType !== 'feed'`. */
  function SlugLine(c: Content, ct: ContentType): (r: Option<string>)
    ensures ct == Feed ==> r.None?
    ensures ct != Feed ==> (r.Some? <==> c.slug != "")
    ensures r.Some? ==> r.value == c.slug
  {
    if c.slug != "" && ct != Feed then Some(c.slug) else None
  }

  /** `post.author_name || 'Unknown'`. */
  function AuthorShown(c: Content): (r: string)
    ensures r != ""
    ensures c.authorName != "" ==> r == c.authorName
    ensures c.authorName == "" ==> r == "Unknown"
  {
    if c.authorName != "" then c.authorName else "Unknown"
  }
}
