/**
 * `GET /api/content/trash`: every soft-deleted row, the most recently deleted
 * first, unpaginated.
 */
module TrashApi {
  import opened Wrappers
  import opened Models
  import opened Seqs

  predicate Trashed(c: Content) {
    c.deletedAt.Some?
  }

  /** The sort key; only trashed rows are ever sorted, so the default is never read. */
  function DeletedKey(c: Content): int {
    c.deletedAt.GetOr(0)
  }

  datatype TrashResponse =
    | TrashOk(content: seq<Content>)
    | TrashError(status: int, details: string)

  function ListTrash(store: Result<seq<Content>, string>): (r: TrashResponse)
    ensures store.Err? <==> r.TrashError?
    ensures r.TrashError? ==> r.status == 500 && r.details == store.error
    ensures r.TrashOk? ==>
      && (forall c :: multiset(r.content)[c] == if Trashed(c) then multiset(store.value)[c] else 0)
      && SortedDesc(r.content, DeletedKey)
  {
    match store
    case Err(e) => TrashError(500, e)
    case Ok(rows) =>
      var trashed := Filter(rows, Trashed);
      TrashOk(SortDesc(trashed, DeletedKey))
  }

  /** In the listing every row carries a deletion time, and those times never increase. */
  lemma TrashOrder(store: Result<seq<Content>, string>, i: int, j: int)
    requires ListTrash(store).TrashOk?
    requires 0 <= i < j < |ListTrash(store).content|
    ensures ListTrash(store).content[i].deletedAt.Some?
    ensures ListTrash(store).content[j].deletedAt.Some?
    ensures ListTrash(store).content[i].deletedAt.value >= ListTrash(store).content[j].deletedAt.value
  {
    var r := ListTrash(store).content;
    assert r[i] in multiset(r) && r[j] in multiset(r);
  }

  /**
   * The trash and the live rows split the table: every stored row is in
   * exactly one of them, as often as it is stored.
   */
  lemma TrashPartitions(rows: seq<Content>)
    ensures multiset(ListTrash(Ok(rows)).content) + multiset(Filter(rows, c => !Trashed(c))) == multiset(rows)
  {
    var live := Filter(rows, c => !Trashed(c));
    var t := ListTrash(Ok(rows)).content;
    assert forall c :: (multiset(t) + multiset(live))[c] == multiset(rows)[c];
  }
}
