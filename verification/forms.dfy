/**
 * What the admin forms share: the two submit buttons and the JSON encodings of
 * the values they post.
 */
module Forms {
  import opened Wrappers
  import opened Json
  import opened Models

  /** "Save Draft" and "Publish" call the submit handler with 'draft' and 'published'. */
  datatype Submit = SaveDraft | Publish

  function StatusText(s: Submit): (r: string)
    ensures ParseStatus(r) == Some(if s == Publish then Published else Draft)
  {
    match s
    case SaveDraft => "draft"
    case Publish => "published"
  }

  /** An optional string as a property value: `undefined` leaves the key out. */
  function OptStr(s: Option<string>): (r: Option<Json>)
    ensures r.Some? <==> s.Some?
    ensures s.Some? ==> r.value == JStr(s.value)
  {
    if s.Some? then Some(JStr(s.value)) else None
  }
}
