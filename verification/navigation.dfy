/**
 * Sidebar (and mobile header) highlighting: an item is active when the current
 * path starts with its link, except the dashboard link `/admin`, which is
 * active only on the dashboard itself.
 */
module Navigation {
  import opened Strings
  import opened Wrappers
  import opened Models
  import ContentEditor

  /** The sidebar links, in menu order. */
  const SidebarHrefs: seq<string> :=
    ["/admin", "/admin/updates", "/admin/resources", "/admin/press", "/admin/feed", "/admin/blog", "/admin/settings"]

  const Dashboard: string := "/admin"

  function IsActive(path: string, href: string): (r: bool)
    ensures href != Dashboard ==> (r <==> StartsWith(path, href))
    ensures href == Dashboard ==> (r <==> path == Dashboard)
  {
    if StartsWith(path, href) && href != Dashboard then true else path == href
  }

  /** Every link is active on its own page. */
  lemma ActiveOnOwnPage(href: string)
    ensures IsActive(href, href)
  {
    assert href[..|href|] == href;
  }

  /**
   * The prefix test is on characters, not path segments: the blog link is lit
   * on any path that merely begins with its text.
   */
  lemma PrefixIsCharacterwise()
    ensures IsActive("/admin/blog/123", "/admin/blog")
    ensures IsActive("/admin/blogroll", "/admin/blog")
    ensures !IsActive("/admin/blog", "/admin")
  {
    assert "/admin/blog/123"[..11] == "/admin/blog";
    assert "/admin/blogroll"[..11] == "/admin/blog";
  }

  lemma NotBothPrefixes(path: string, a: string, b: string, k: int)
    requires 0 <= k < |a| && k < |b| && a[k] != b[k]
    ensures !(StartsWith(path, a) && StartsWith(path, b))
  {
    if StartsWith(path, a) {
      assert path[k] == a[k];
    }
  }

  /**
   * At most one menu item is highlighted on any path: past the dashboard,
   * the links already differ in their first character after "/admin/".
   */
  lemma AtMostOneActive(path: string, i: int, j: int)
    requires 0 <= i < j < |SidebarHrefs|
    ensures !(IsActive(path, SidebarHrefs[i]) && IsActive(path, SidebarHrefs[j]))
  {
    if i > 0 {
      NotBothPrefixes(path, SidebarHrefs[i], SidebarHrefs[j], 7);
    }
  }

  /** Wherever the editor sends the user after saving, that page's menu item is lit. */
  lemma EditorReturnsToMenuPage(ct: Option<Json.Json>)
    requires ContentEditor.RedirectPath(ct).Some?
    ensures ContentEditor.RedirectPath(ct).value in SidebarHrefs
    ensures IsActive(ContentEditor.RedirectPath(ct).value, ContentEditor.RedirectPath(ct).value)
  {
    ActiveOnOwnPage(ContentEditor.RedirectPath(ct).value);
  }
}
