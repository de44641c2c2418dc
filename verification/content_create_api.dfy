/**
 * `POST /api/content`: maps a request body onto the columns of a new row.  The
 * handler refuses anonymous callers, reads a fixed set of body properties
 * (accepting both the snake_case and camelCase spelling of two of them), fills
 * in defaults, stamps the author from the session and drops everything else.
 */
module ContentCreateApi {
  import opened Wrappers
  import opened Json
  import opened Forms

  /** The signed-in user as the session reports it. */
  datatype Actor = Actor(id: string, email: Option<string>)

  /** Body properties copied to the column of the same name unchanged. */
  const CopiedKeys: set<string> :=
    {"title", "slug", "status", "body", "excerpt", "platform", "update_type", "version", "external_link", "parent_id"}

  /** Every column the insert can set. */
  const RowKeys: set<string> :=
    CopiedKeys + {"content_type", "featured_image", "author_id", "author_email", "author_name", "metadata", "published_at"}

  /** Every body property the handler looks at. */
  const ReadKeys: set<string> :=
    CopiedKeys + {"content_type", "contentType", "featured_image", "featuredImage", "author", "metadata"}

  /** `body.author?.name`: the name of an author object, undefined for anything else. */
  function AuthorName(body: JsonObject): (r: Option<Json>)
    ensures r.Some? <==> "author" in body && body["author"].JObj? && "name" in body["author"].fields
    ensures r.Some? ==> r.value == body["author"].fields["name"]
  {
    match Get(body, "author")
    case Some(JObj(fields)) => Get(fields, "name")
    case _ => None
  }

  /** The value the insert gives column `k`; `None` leaves the column unset. */
  function Column(body: JsonObject, user: Actor, now: string, k: string): Option<Json> {
    if k in CopiedKeys then Get(body, k)
    else if k == "content_type" then Or(Or(Get(body, "content_type"), Get(body, "contentType")), Some(JStr("post")))
    else if k == "featured_image" then Or(Get(body, "featured_image"), Get(body, "featuredImage"))
    else if k == "author_id" then Some(JStr(user.id))
    else if k == "author_email" then OptStr(user.email)
    else if k == "author_name" then Or(AuthorName(body), Some(JStr("Admin")))
    else if k == "metadata" then Or(Get(body, "metadata"), Some(JObj(map[])))
    else if k == "published_at" then
      Some(if Get(body, "status") == Some(JStr("published")) then JStr(now) else JNull)
    else None
  }

  /**
   * The row inserted for `body` on behalf of `user`; `now` is the ISO-8601
   * time the handler reads from the clock.
   */
  function NewContent(body: JsonObject, user: Actor, now: string): (row: JsonObject)
    ensures row.Keys <= RowKeys
    ensures forall k :: k in CopiedKeys ==> Get(row, k) == Get(body, k)
  {
    map k | k in RowKeys && Column(body, user, now, k).Some? :: Column(body, user, now, k).value
  }

  lemma ColumnAt(body: JsonObject, user: Actor, now: string, k: string)
    ensures Get(NewContent(body, user, now), k) == Column(body, user, now, k)
  {
  }

  /** The columns the handler computes rather than copies, read back with `Get`. */
  lemma ComputedColumns(body: JsonObject, user: Actor, now: string)
    ensures var row := NewContent(body, user, now);
      && Get(row, "content_type") == Or(Or(Get(body, "content_type"), Get(body, "contentType")), Some(JStr("post")))
      && Get(row, "featured_image") == Or(Get(body, "featured_image"), Get(body, "featuredImage"))
      && Get(row, "metadata") == Or(Get(body, "metadata"), Some(JObj(map[])))
  {
    ColumnAt(body, user, now, "content_type");
    ColumnAt(body, user, now, "featured_image");
    ColumnAt(body, user, now, "metadata");
  }

  /** A copied column holds exactly what the body holds under its name. */
  lemma CopiedColumn(body: JsonObject, user: Actor, now: string, k: string)
    requires k in CopiedKeys
    ensures Get(NewContent(body, user, now), k) == Get(body, k)
  {
  }

  /** A body that gives its type only in camelCase, as a non-empty string, gets that type. */
  lemma CamelTypeStored(body: JsonObject, user: Actor, now: string, name: string)
    requires Get(body, "content_type") == None && Get(body, "contentType") == Some(JStr(name)) && name != ""
    ensures Get(NewContent(body, user, now), "content_type") == Some(JStr(name))
  {
    ColumnAt(body, user, now, "content_type");
  }

  /** A body that gives its type in snake_case, as a non-empty string, gets that type. */
  lemma SnakeTypeStored(body: JsonObject, user: Actor, now: string, name: string)
    requires Get(body, "content_type") == Some(JStr(name)) && name != ""
    ensures Get(NewContent(body, user, now), "content_type") == Some(JStr(name))
  {
    ColumnAt(body, user, now, "content_type");
  }

  /** Truthy metadata is stored as sent. */
  lemma MetadataStored(body: JsonObject, user: Actor, now: string, m: Json)
    requires Get(body, "metadata") == Some(m) && Truthy(m)
    ensures Get(NewContent(body, user, now), "metadata") == Some(m)
  {
    ColumnAt(body, user, now, "metadata");
  }

  datatype PostResponse =
    | Unauthorized
    | Created(content: JsonObject)
    | Failed(details: string)

  function StatusCode(r: PostResponse): int {
    match r
    case Unauthorized => 401
    case Created(_) => 201
    case Failed(_) => 500
  }

  /**
   * The handler.  `insert` is the store: given the new row it returns the
   * stored record or an error message.
   */
  function Post(body: JsonObject, user: Option<Actor>, now: string,
                insert: JsonObject -> Result<JsonObject, string>): (r: PostResponse)
    ensures user.None? <==> r.Unauthorized?
    ensures user.Some? ==>
      var stored := insert(NewContent(body, user.value, now));
      (r.Created? <==> stored.Ok?) && (r.Created? ==> r.content == stored.value)
        && (r.Failed? ==> r.details == stored.error)
  {
    if user.None? then Unauthorized
    else
      match insert(NewContent(body, user.value, now))
      case Ok(stored) => Created(stored)
      case Err(e) => Failed(e)
  }

  /** The defaults: a new row always has a truthy type, author name and metadata object. */
  lemma DefaultsFilled(body: JsonObject, user: Actor, now: string)
    ensures var row := NewContent(body, user, now);
      && "content_type" in row && Truthy(row["content_type"])
      && "author_name" in row && Truthy(row["author_name"])
      && "metadata" in row && Truthy(row["metadata"])
  {
    ColumnAt(body, user, now, "content_type");
    ColumnAt(body, user, now, "author_name");
    ColumnAt(body, user, now, "metadata");
  }

  /**
   * The author's name when it is truthy, otherwise "Admin"; truthy metadata,
   * otherwise an empty object.
   */
  lemma FallbackColumns(body: JsonObject, user: Actor, now: string)
    ensures Get(NewContent(body, user, now), "author_name")
         == if AuthorName(body).Some? && Truthy(AuthorName(body).value) then AuthorName(body) else Some(JStr("Admin"))
    ensures Get(NewContent(body, user, now), "metadata")
         == if Given(body, "metadata") then Some(body["metadata"]) else Some(JObj(map[]))
  {
    ColumnAt(body, user, now, "author_name");
    ColumnAt(body, user, now, "metadata");
  }

  /**
   * The type column: the snake_case property wins when truthy, then the
   * camelCase one, then "post".
   */
  lemma ContentTypeChoice(body: JsonObject, user: Actor, now: string)
    ensures Given(body, "content_type") ==>
      NewContent(body, user, now)["content_type"] == body["content_type"]
    ensures !Given(body, "content_type") && Given(body, "contentType") ==>
      NewContent(body, user, now)["content_type"] == body["contentType"]
    ensures !Given(body, "content_type") && !Given(body, "contentType") ==>
      NewContent(body, user, now)["content_type"] == JStr("post")
  {
    ColumnAt(body, user, now, "content_type");
  }

  /** The image column takes the snake_case property when truthy, otherwise the camelCase one as is. */
  lemma FeaturedImageChoice(body: JsonObject, user: Actor, now: string)
    ensures var row := NewContent(body, user, now);
      && (Given(body, "featured_image") ==> Get(row, "featured_image") == Some(body["featured_image"]))
      && (!Given(body, "featured_image") ==> Get(row, "featured_image") == Get(body, "featuredImage"))
  {
    ColumnAt(body, user, now, "featured_image");
  }

  /** A `published_at` stamp appears exactly when the body's status is the string "published". */
  lemma PublishedIff(body: JsonObject, user: Actor, now: string)
    ensures "published_at" in NewContent(body, user, now)
    ensures NewContent(body, user, now)["published_at"] == JStr(now) <==> Get(body, "status") == Some(JStr("published"))
    ensures NewContent(body, user, now)["published_at"] == JNull <==> Get(body, "status") != Some(JStr("published"))
  {
    ColumnAt(body, user, now, "published_at");
  }

  lemma ColumnsAgree(b1: JsonObject, b2: JsonObject, user: Actor, now: string, k: string)
    requires forall k :: k in ReadKeys ==> Get(b1, k) == Get(b2, k)
    ensures Column(b1, user, now, k) == Column(b2, user, now, k)
  {
    assert "author" in ReadKeys && "metadata" in ReadKeys && "status" in ReadKeys;
    assert "content_type" in ReadKeys && "contentType" in ReadKeys;
    assert "featured_image" in ReadKeys && "featuredImage" in ReadKeys;
    assert AuthorName(b1) == AuthorName(b2);
    if k in CopiedKeys {
      assert k in ReadKeys;
    }
  }

  lemma SameColumnsSameRow(b1: JsonObject, b2: JsonObject, user: Actor, now: string)
    requires forall k :: Column(b1, user, now, k) == Column(b2, user, now, k)
    ensures NewContent(b1, user, now) == NewContent(b2, user, now)
  {
  }

  /**
   * Everything else in the body is dropped: two bodies that agree on the
   * properties the handler reads produce the same row.
   */
  lemma UnreadKeysDropped(b1: JsonObject, b2: JsonObject, user: Actor, now: string)
    requires forall k :: k in ReadKeys ==> Get(b1, k) == Get(b2, k)
    ensures NewContent(b1, user, now) == NewContent(b2, user, now)
  {
    forall k ensures Column(b1, user, now, k) == Column(b2, user, now, k) {
      ColumnsAgree(b1, b2, user, now, k);
    }
    SameColumnsSameRow(b1, b2, user, now);
  }

  /** The status, stamp and author id of a row, as read back with `Get`. */
  lemma StatusAndAuthor(body: JsonObject, user: Actor, now: string)
    ensures var row := NewContent(body, user, now);
      && Get(row, "status") == Get(body, "status")
      && (Get(row, "published_at") == Some(JStr(now)) <==> Get(body, "status") == Some(JStr("published")))
      && Get(row, "author_id") == Some(JStr(user.id))
  {
    ColumnAt(body, user, now, "status");
    ColumnAt(body, user, now, "published_at");
    ColumnAt(body, user, now, "author_id");
  }

  /** The author columns come from the session, never from the body. */
  lemma AuthorFromSession(b1: JsonObject, b2: JsonObject, user: Actor, now: string)
    ensures NewContent(b1, user, now)["author_id"] == NewContent(b2, user, now)["author_id"] == JStr(user.id)
    ensures Get(NewContent(b1, user, now), "author_email") == Get(NewContent(b2, user, now), "author_email") == OptStr(user.email)
  {
    ColumnAt(b1, user, now, "author_id");
    ColumnAt(b2, user, now, "author_id");
    ColumnAt(b1, user, now, "author_email");
    ColumnAt(b2, user, now, "author_email");
  }
}
