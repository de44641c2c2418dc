/**
 * `GET /api/content`: the list query.  Rows are filtered by status and content
 * type, ordered by creation time with the newest first, and cut to one page;
 * the response also reports the total number of matching rows and the number
 * of pages.
 */
module ContentListApi {
  import opened Wrappers
  import opened Models
  import opened Seqs

  /** A query parameter restricts the listing only when it is present, non-empty and not "all". */
  predicate Restricts(param: Option<string>) {
    param.Some? && param.value != "" && param.value != "all"
  }

  predicate Matches(c: Content, q: ContentQuery) {
    && (Restricts(q.status) ==> StatusName(c.status) == q.status.value)
    && (Restricts(q.contentType) ==> TypeName(c.contentType) == q.contentType.value)
  }

  /** The page number; an absent or empty parameter means page 1. */
  function PageOf(q: ContentQuery): int {
    q.page.GetOr(1)
  }

  /** The page size; an absent or empty parameter means 10. */
  function LimitOf(q: ContentQuery): int {
    q.limit.GetOr(10)
  }

  function CreatedKey(c: Content): int {
    c.createdAt
  }

  /** The rows that satisfy the query's filters, in storage order. */
  function Matching(rows: seq<Content>, q: ContentQuery): (r: seq<Content>)
    ensures forall c :: multiset(r)[c] == if Matches(c, q) then multiset(rows)[c] else 0
    ensures forall c :: c in r <==> c in rows && Matches(c, q)
  {
    if rows == [] then []
    else
      var rest := Matching(rows[1..], q);
      assert rows == [rows[0]] + rows[1..];
      var r := if Matches(rows[0], q) then [rows[0]] + rest else rest;
      assert forall c :: c in r <==> multiset(r)[c] > 0;
      assert forall c :: c in rows <==> multiset(rows)[c] > 0;
      r
  }

  /** The inclusive offsets `from` and `to` of one page. */
  function From(page: int, limit: int): int {
    (page - 1) * limit
  }

  function To(page: int, limit: int): int {
    From(page, limit) + limit - 1
  }

  /** One page of an ordered result: at most `limit` of its rows, still in order. */
  function Page(sorted: seq<Content>, page: int, limit: int): (r: seq<Content>)
    ensures forall c :: c in r ==> c in sorted
    ensures |r| <= Max(0, limit)
    ensures SortedDesc(sorted, CreatedKey) ==> SortedDesc(r, CreatedKey)
  {
    var r := Range(sorted, From(page, limit), To(page, limit));
    var lo := Max(From(page, limit), 0);
    assert forall i :: 0 <= i < |r| ==> r[i] == sorted[lo + i];
    r
  }

  /**
   * `Math.ceil(total / limit)` as it appears in the JSON response: a zero
   * limit yields Infinity or NaN, both of which serialise as `null`.
   */
  function PageCount(total: nat, limit: int): (r: Option<int>)
    ensures limit == 0 <==> r.None?
    ensures limit > 0 ==> (r.value - 1) * limit < total <= r.value * limit || (total == 0 && r.value == 0)
    ensures limit < 0 ==> r.value * limit <= total < (r.value - 1) * limit
  {
    if limit == 0 then None
    else if limit > 0 then Some((total + limit - 1) / limit)
    else Some(-(total / -limit))
  }

  datatype ListResponse =
    | ListOk(content: seq<Content>, page: int, limit: int, total: nat, pages: Option<int>)
    | ListError(details: string)

  /** The handler, given what the store returns for the unpaginated query. */
  function List(store: Result<seq<Content>, string>, q: ContentQuery): (r: ListResponse)
    ensures store.Err? <==> r.ListError?
    ensures r.ListError? ==> r.details == store.error
    ensures r.ListOk? ==> r.content == Page(SortDesc(Matching(store.value, q), CreatedKey), r.page, r.limit)
    ensures r.ListOk? ==>
      && r.page == PageOf(q) && r.limit == LimitOf(q)
      && r.total == |Matching(store.value, q)|
      && r.pages == PageCount(r.total, r.limit)
      && SortedDesc(r.content, CreatedKey)
      && (forall c :: c in r.content ==> c in store.value && Matches(c, q))
      && |r.content| <= Max(0, r.limit)
  {
    match store
    case Err(e) => ListError(e)
    case Ok(rows) =>
      var page := PageOf(q);
      var limit := LimitOf(q);
      var matching := Matching(rows, q);
      var sorted := SortDesc(matching, CreatedKey);
      var content := Page(sorted, page, limit);
      assert forall c :: c in sorted ==> c in multiset(matching);
      ListOk(content, page, limit, |matching|, PageCount(|matching|, limit))
  }

  // ---------------------------------------------------------------------------
  // Pagination

  /** Pages 1 through `k`, in order. */
  function FirstPages(sorted: seq<Content>, limit: int, k: nat): seq<Content> {
    if k == 0 then [] else FirstPages(sorted, limit, k - 1) + Page(sorted, k, limit)
  }

  lemma PageSlice(sorted: seq<Content>, page: int, limit: int)
    requires limit > 0 && page >= 1
    ensures Page(sorted, page, limit)
         == sorted[Min((page - 1) * limit, |sorted|)..Min(page * limit, |sorted|)]
  {
    assert To(page, limit) + 1 == page * limit;
    var r := Page(sorted, page, limit);
    var lo := Min((page - 1) * limit, |sorted|);
    assert (page - 1) * limit >= 0;
  }

  lemma SliceJoin<T>(s: seq<T>, a: int, b: int)
    requires 0 <= a <= b <= |s|
    ensures s[..a] + s[a..b] == s[..b]
  {
  }

  lemma MulStep(k: int, limit: int)
    ensures (k - 1) * limit + limit == k * limit
  {
  }

  lemma MulMono(a: int, b: int, limit: int)
    requires a <= b && limit >= 0
    ensures a * limit <= b * limit
  {
    assert b * limit - a * limit == (b - a) * limit;
  }

  /**
   * Pages 1..k laid end to end are exactly the first k*limit rows: pages never
   * overlap, leave no gaps and keep the order.
   */
  lemma {:induction false} FirstPagesArePrefix(sorted: seq<Content>, limit: int, k: nat)
    requires limit > 0
    ensures FirstPages(sorted, limit, k) == sorted[..Min(k * limit, |sorted|)]
  {
    if k > 0 {
      FirstPagesArePrefix(sorted, limit, k - 1);
      PageSlice(sorted, k, limit);
      MulStep(k, limit);
      MulMono(0, k - 1, limit);
      var a := Min((k - 1) * limit, |sorted|);
      var b := Min(k * limit, |sorted|);
      SliceJoin(sorted, a, b);
    }
  }

  /** Every matching row appears on one of pages 1..pages, and nothing else does. */
  lemma AllPagesCoverResult(sorted: seq<Content>, limit: int)
    requires limit > 0
    ensures FirstPages(sorted, limit, PageCount(|sorted|, limit).value) == sorted
  {
    var n := PageCount(|sorted|, limit).value;
    FirstPagesArePrefix(sorted, limit, n);
    assert n * limit >= |sorted|;
  }

  /** The windows of two different pages share no offset. */
  lemma WindowsDisjoint(p: int, q: int, limit: int)
    requires limit > 0 && p < q
    ensures To(p, limit) < From(q, limit)
  {
    assert (q - 1) * limit - p * limit == (q - 1 - p) * limit;
    assert (q - 1 - p) * limit >= 0;
  }

  /** Rows are ordered before the window is cut: an earlier page never holds an older row. */
  lemma EarlierPagesAreNewer(sorted: seq<Content>, p: int, q: int, limit: int, c: Content, d: Content)
    requires limit > 0 && p < q
    requires SortedDesc(sorted, CreatedKey)
    requires c in Page(sorted, p, limit) && d in Page(sorted, q, limit)
    ensures c.createdAt >= d.createdAt
  {
    WindowsDisjoint(p, q, limit);
    var rc := Page(sorted, p, limit);
    var rd := Page(sorted, q, limit);
    var i :| 0 <= i < |rc| && rc[i] == c;
    var j :| 0 <= j < |rd| && rd[j] == d;
    assert c == sorted[Max(From(p, limit), 0) + i];
    assert d == sorted[Max(From(q, limit), 0) + j];
  }

  /** A page holds rows exactly when its number lies between 1 and the page count. */
  lemma PageNonEmptyIff(sorted: seq<Content>, page: int, limit: int)
    requires limit > 0
    ensures Page(sorted, page, limit) != [] <==> 1 <= page <= PageCount(|sorted|, limit).value
  {
    var n := PageCount(|sorted|, limit).value;
    MulStep(page, limit);
    if page <= 0 {
      MulMono(page, 0, limit);
      assert |Page(sorted, page, limit)| == 0;
    } else {
      PageSlice(sorted, page, limit);
      if page <= n {
        MulMono(page - 1, n - 1, limit);
        assert (page - 1) * limit < |sorted|;
      } else {
        MulMono(n, page - 1, limit);
        assert (page - 1) * limit >= |sorted|;
      }
    }
  }

  /** Example: 25 matching rows at 10 per page make 3 pages, the last holding 5. */
  lemma TwentyFiveRowsExample(sorted: seq<Content>)
    requires |sorted| == 25
    ensures PageCount(25, 10) == Some(3)
    ensures |Page(sorted, 1, 10)| == 10 && |Page(sorted, 3, 10)| == 5 && Page(sorted, 4, 10) == []
  {
  }

  /** The filter reads only the status and content-type parameters. */
  lemma {:induction false} MatchingReadsFilters(rows: seq<Content>, q: ContentQuery, q': ContentQuery)
    requires q.status == q'.status && q.contentType == q'.contentType
    ensures Matching(rows, q) == Matching(rows, q')
  {
    if rows != [] {
      MatchingReadsFilters(rows[1..], q, q');
    }
  }

  /**
   * What the handler ignores: the `search` parameter and the soft-delete
   * marker play no part in which rows are listed.
   */
  lemma IgnoredCriteria(store: Result<seq<Content>, string>, q: ContentQuery, s: Option<string>,
                        c: Content, d: Option<Timestamp>)
    ensures List(store, q.(search := s)) == List(store, q)
    ensures Matches(c.(deletedAt := d), q) == Matches(c, q)
  {
    if store.Ok? {
      MatchingReadsFilters(store.value, q.(search := s), q);
    }
  }
}
