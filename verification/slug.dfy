/**
 * Slug derivation `s.toLowerCase().replace(/[^a-z0-9]+/g, '-')`: the text is
 * lower-cased and every maximal run of characters outside [a-z0-9] becomes a
 * single '-'.
 */
module Slug {
  import opened Strings

  predicate IsSlugChar(c: char) {
    'a' <= c <= 'z' || '0' <= c <= '9'
  }

  /** The shape of every derived slug: only [a-z0-9-], and never two hyphens in a row. */
  predicate IsSlug(r: string) {
    && (forall i :: 0 <= i < |r| ==> IsSlugChar(r[i]) || r[i] == '-')
    && (forall i :: 0 <= i < |r| - 1 ==> !(r[i] == '-' && r[i + 1] == '-'))
  }

  /** The [a-z0-9] characters of `s`, in order. */
  function Alnums(s: string): (r: string)
    ensures |r| <= |s|
  {
    if s == [] then []
    else if IsSlugChar(s[0]) then [s[0]] + Alnums(s[1..])
    else Alnums(s[1..])
  }

  /**
   * The global replace, scanning left to right; `inRun` records that the
   * previous character was already outside [a-z0-9] and its run has already
   * produced its '-'.
   */
  function Collapse(s: string, inRun: bool): (r: string)
    ensures IsSlug(r)
    ensures inRun ==> r == [] || r[0] != '-'
    ensures Alnums(r) == Alnums(s)
    ensures |r| <= |s|
    decreases |s|
  {
    if s == [] then []
    else
      var rest := if IsSlugChar(s[0]) then Collapse(s[1..], false) else Collapse(s[1..], true);
      var r := if IsSlugChar(s[0]) then [s[0]] + rest
               else if inRun then rest
               else ['-'] + rest;
      assert IsSlugChar(s[0]) ==> r[1..] == rest;
      assert !IsSlugChar(s[0]) && !inRun ==> r[1..] == rest;
      r
  }

  /** Slug of a title: lower-case, then collapse runs of non-[a-z0-9] into '-'. */
  function Slugify(s: string): (r: string)
    ensures IsSlug(r)
    ensures Alnums(r) == Alnums(Lower(s))
    ensures |r| <= |s|
  {
    Collapse(Lower(s), false)
  }

  lemma {:induction false} AlnumsAppend(a: string, b: string)
    ensures Alnums(a + b) == Alnums(a) + Alnums(b)
    decreases |a|
  {
    if a == [] {
      assert a + b == b;
    } else {
      assert (a + b)[0] == a[0] && (a + b)[1..] == a[1..] + b;
      AlnumsAppend(a[1..], b);
      if IsSlugChar(a[0]) {
        assert Alnums(a + b) == [a[0]] + (Alnums(a[1..]) + Alnums(b));
        assert [a[0]] + (Alnums(a[1..]) + Alnums(b)) == ([a[0]] + Alnums(a[1..])) + Alnums(b);
      }
    }
  }

  /** A text starting with a letter or digit gives a slug starting with that character. */
  lemma CollapseKeepsFirst(s: string)
    requires s != [] && IsSlugChar(s[0])
    ensures Collapse(s, false) != [] && Collapse(s, false)[0] == s[0]
  {
  }

  // ---------------------------------------------------------------------------
  // An independent, two-phase reading of the same replace: first every
  // character outside [a-z0-9] becomes '-', then runs of '-' are squeezed.

  function Mask(s: string): (r: string)
    ensures |r| == |s|
  {
    seq(|s|, i requires 0 <= i < |s| => if IsSlugChar(s[i]) then s[i] else '-')
  }

  function Squeeze(t: string): string
    decreases |t|
  {
    if |t| <= 1 then t
    else if t[0] == '-' && t[1] == '-' then Squeeze(t[1..])
    else [t[0]] + Squeeze(t[1..])
  }

  lemma {:induction false} CollapseIsMaskSqueeze(s: string)
    ensures Squeeze(Mask(s)) == Collapse(s, false)
    ensures Squeeze(['-'] + Mask(s)) == ['-'] + Collapse(s, true)
    decreases |s|
  {
    if s != [] {
      CollapseIsMaskSqueeze(s[1..]);
      var m := Mask(s[1..]);
      assert Mask(s) == [Mask(s)[0]] + m;
      if IsSlugChar(s[0]) {
        var c := s[0];
        assert Mask(s) == [c] + m;
        assert (['-'] + Mask(s))[1..] == [c] + m;
        if m == [] {
          assert Squeeze([c] + m) == [c];
        } else {
          assert ([c] + m)[1..] == m;
          assert Squeeze([c] + m) == [c] + Squeeze(m);
        }
      } else {
        assert Mask(s) == ['-'] + m;
        assert (['-'] + Mask(s))[1..] == ['-'] + m;
        if m == [] {
        } else {
          assert (['-'] + m)[1..] == m;
          if m[0] == '-' {
            assert Squeeze(['-'] + m) == Squeeze(m);
          } else {
            assert Squeeze(['-'] + m) == ['-'] + Squeeze(m);
          }
        }
      }
    }
  }

  /** The derived slug agrees with the two-phase reference reading of the replace. */
  lemma SlugifyIsReference(s: string)
    ensures Slugify(s) == Squeeze(Mask(Lower(s)))
  {
    CollapseIsMaskSqueeze(Lower(s));
  }

  lemma {:induction false} CollapseKeepsSlug(r: string)
    requires IsSlug(r)
    ensures Collapse(r, false) == r
    ensures r == [] || r[0] != '-' ==> Collapse(r, true) == r
    decreases |r|
  {
    if r != [] {
      var t := r[1..];
      assert IsSlug(t) by {
        assert forall i :: 0 <= i < |t| ==> t[i] == r[i + 1];
      }
      CollapseKeepsSlug(t);
      if !IsSlugChar(r[0]) {
        assert r[0] == '-';
        assert t == [] || t[0] != '-' by {
          if t != [] { assert t[0] == r[1]; }
        }
      }
      assert r == [r[0]] + t;
    }
  }

  lemma LowerKeepsSlug(r: string)
    requires IsSlug(r)
    ensures Lower(r) == r
  {
  }

  /** A slug is its own slug: deriving twice changes nothing. */
  lemma SlugifyIdempotent(s: string)
    ensures Slugify(Slugify(s)) == Slugify(s)
  {
    var r := Slugify(s);
    LowerKeepsSlug(r);
    CollapseKeepsSlug(r);
  }

  /** Example: "Hello World" becomes "hello-world". */
  lemma HelloWorld()
    ensures Slugify("Hello World") == "hello-world"
  {
    var h := "hello-world";
    HelloWorldMask();
    SlugifyIsReference("Hello World");
    CollapseIsMaskSqueeze(h);
    CollapseKeepsSlug(h);
  }

  lemma HelloWorldMask()
    ensures Mask(Lower("Hello World")) == "hello-world"
    ensures Mask("hello-world") == "hello-world"
    ensures IsSlug("hello-world")
  {
    assert Lower("Hello World") == "hello world";
  }
}
