/**
 * The comma-separated list input used for tags and categories: the text the
 * user types is split on ',', each piece is trimmed and empty pieces are
 * dropped; the list is shown back as its elements joined with ", ".
 */
module CommaList {
  import opened Strings
  import opened Seqs

  /** An element a parsed list can hold: non-empty, trimmed, free of commas. */
  predicate IsToken(x: string) {
    x != [] && Trimmed(x) && Lacks(x, ',')
  }

  predicate AllTokens(xs: seq<string>) {
    forall i :: 0 <= i < |xs| ==> IsToken(xs[i])
  }

  /** `.map(s => s.trim()).filter(Boolean)` over comma-free pieces. */
  function Clean(pieces: seq<string>): (r: seq<string>)
    requires forall i :: 0 <= i < |pieces| ==> Lacks(pieces[i], ',')
    ensures AllTokens(r)
    ensures |r| <= |pieces|
  {
    if pieces == [] then []
    else
      var t := Trim(pieces[0]);
      TrimKeepsLacks(pieces[0], ',');
      var rest := Clean(pieces[1..]);
      if t == [] then rest else TokensCons(t, rest); [t] + rest
  }

  lemma TokensCons(t: string, rest: seq<string>)
    requires IsToken(t) && AllTokens(rest)
    ensures AllTokens([t] + rest)
  {
    assert forall i :: 1 <= i <= |rest| ==> ([t] + rest)[i] == rest[i - 1];
  }

  /** `pieces.map(s => s.trim())`. */
  function TrimAll(pieces: seq<string>): (r: seq<string>)
    ensures |r| == |pieces|
    ensures forall i :: 0 <= i < |pieces| ==> r[i] == Trim(pieces[i])
  {
    seq(|pieces|, i requires 0 <= i < |pieces| => Trim(pieces[i]))
  }

  /** `Boolean` on a string: it is kept when it is not empty. */
  predicate NonEmpty(s: string) {
    s != []
  }

  lemma TrimKeepsLacks(p: string, d: char)
    requires Lacks(p, d)
    ensures Lacks(Trim(p), d)
  {
    LacksIff(p, d);
    LacksIff(Trim(p), d);
  }

  /** `s.split(',').map(s => s.trim()).filter(Boolean)`. */
  function Parse(s: string): (r: seq<string>)
    ensures AllTokens(r)
  {
    Clean(Split(s, ','))
  }

  /** Parsing is the split, the map and the filter, in that order. */
  lemma ParseIsPipeline(s: string)
    ensures Parse(s) == Filter(TrimAll(Split(s, ',')), NonEmpty)
  {
    CleanIsTrimThenFilter(Split(s, ','));
  }

  /** The text shown for a list: `value.join(', ')`. */
  function Display(value: seq<string>): string {
    Join(value, ", ")
  }

  /**
   * The parent-sync effect: the local text is replaced by the display of the
   * parent's list only when the list parsed from the text differs from it.
   * (The source compares the two lists' JSON encodings, which are equal
   * exactly when the lists are.)
   */
  function Resync(display: string, value: seq<string>): (r: string)
    ensures Parse(display) == value ==> r == display
    ensures Parse(display) != value ==> r == Display(value)
    ensures AllTokens(value) ==> Parse(r) == value && (r == display <==> Parse(display) == value)
  {
    RoundTripWhenTokens(value);
    if Parse(display) != value then Display(value) else display
  }

  /** A keystroke: the raw text becomes the display and its parse is emitted to the parent. */
  datatype EditResult = EditResult(display: string, emitted: seq<string>)

  function Edit(raw: string): (r: EditResult)
    ensures r.display == raw && AllTokens(r.emitted)
  {
    EditResult(raw, Parse(raw))
  }

  // ---------------------------------------------------------------------------
  // Lemmas

  /** The fused `Clean` is the source's two-step pipeline: trim every piece, then keep the non-empty ones. */
  lemma {:induction false} CleanIsTrimThenFilter(pieces: seq<string>)
    requires forall i :: 0 <= i < |pieces| ==> Lacks(pieces[i], ',')
    ensures Clean(pieces) == Filter(TrimAll(pieces), NonEmpty)
    decreases |pieces|
  {
    if pieces != [] {
      CleanIsTrimThenFilter(pieces[1..]);
      CleanCons(pieces);
      TrimAllCons(pieces);
      KeepNonEmptyCons(Trim(pieces[0]), TrimAll(pieces[1..]));
    }
  }

  lemma TrimAllCons(pieces: seq<string>)
    requires pieces != []
    ensures TrimAll(pieces) == [Trim(pieces[0])] + TrimAll(pieces[1..])
  {
  }

  lemma KeepNonEmptyCons(h: string, tail: seq<string>)
    ensures Filter([h] + tail, NonEmpty) == (if h == [] then [] else [h]) + Filter(tail, NonEmpty)
  {
    FilterAppend([h], tail, NonEmpty);
    FilterSingle(h, NonEmpty);
  }

  lemma CleanCons(pieces: seq<string>)
    requires forall i :: 0 <= i < |pieces| ==> Lacks(pieces[i], ',')
    requires pieces != []
    ensures Clean(pieces) == (if Trim(pieces[0]) == [] then [] else [Trim(pieces[0])]) + Clean(pieces[1..])
  {
  }

  /** Text made only of commas and white space parses to the empty list. */
  lemma {:induction false} BlankParsesEmpty(s: string)
    requires forall i :: 0 <= i < |s| ==> s[i] == ',' || IsSpace(s[i])
    ensures Parse(s) == []
    decreases |s|
  {
    if s != [] {
      BlankParsesEmpty(s[1..]);
      var rest := Split(s[1..], ',');
      if s[0] != ',' {
        var p := [s[0]] + rest[0];
        SplitPiecesOfBlank(s[1..]);
        assert forall i :: 0 <= i < |p| ==> IsSpace(p[i]);
        assert Split(s, ',') == [p] + rest[1..];
        CleanAppend([p], rest[1..]);
        CleanAppend([rest[0]], rest[1..]);
        assert rest == [rest[0]] + rest[1..];
      } else {
        assert Split(s, ',') == [""] + rest;
        CleanAppend([""], rest);
      }
    }
  }

  lemma {:induction false} SplitPiecesOfBlank(s: string)
    requires forall i :: 0 <= i < |s| ==> s[i] == ',' || IsSpace(s[i])
    ensures forall i, j :: 0 <= i < |Split(s, ',')| && 0 <= j < |Split(s, ',')[i]| ==> IsSpace(Split(s, ',')[i][j])
    decreases |s|
  {
    if s != [] {
      SplitPiecesOfBlank(s[1..]);
    }
  }

  lemma {:induction false} CleanAppend(a: seq<string>, b: seq<string>)
    requires forall i :: 0 <= i < |a| ==> Lacks(a[i], ',')
    requires forall i :: 0 <= i < |b| ==> Lacks(b[i], ',')
    ensures Clean(a + b) == Clean(a) + Clean(b)
    decreases |a|
  {
    if a != [] {
      assert (a + b)[1..] == a[1..] + b;
      CleanAppend(a[1..], b);
    } else {
      assert a + b == b;
    }
  }

  /** Splitting at the first comma of a comma-free prefix. */
  lemma {:induction false} SplitAfter(a: string, b: string)
    requires Lacks(a, ',')
    ensures Split(a + [','] + b, ',') == [a] + Split(b, ',')
    decreases |a|
  {
    if a == [] {
      assert (a + [','] + b)[1..] == b;
    } else {
      assert (a + [','] + b)[1..] == a[1..] + [','] + b;
      SplitAfter(a[1..], b);
      assert [a[0]] + a[1..] == a;
    }
  }

  lemma {:induction false} SplitNoComma(a: string)
    requires Lacks(a, ',')
    ensures Split(a, ',') == [a]
    decreases |a|
  {
    if a != [] {
      SplitNoComma(a[1..]);
      assert [a[0]] + a[1..] == a;
    }
  }

  lemma SplitCons(c: char, t: string)
    requires c != ','
    ensures Split([c] + t, ',') == [[c] + Split(t, ',')[0]] + Split(t, ',')[1..]
  {
    assert ([c] + t)[1..] == t;
  }

  lemma TrimStartLeadingSpace(p: string)
    ensures TrimStart([' '] + p) == TrimStart(p)
  {
    assert ([' '] + p)[1..] == p;
  }

  lemma TrimLeadingSpace(p: string)
    ensures Trim([' '] + p) == Trim(p)
  {
    TrimStartLeadingSpace(p);
  }

  /** Two piece lists that differ only in their first piece clean alike when those pieces trim alike. */
  lemma CleanSameHead(xs: seq<string>, ys: seq<string>)
    requires forall i :: 0 <= i < |xs| ==> Lacks(xs[i], ',')
    requires forall i :: 0 <= i < |ys| ==> Lacks(ys[i], ',')
    requires xs != [] && ys != [] && xs[1..] == ys[1..] && Trim(xs[0]) == Trim(ys[0])
    ensures Clean(xs) == Clean(ys)
  {
  }

  /** A leading space only reaches the first piece, and trimming removes it again. */
  lemma ParseLeadingSpace(t: string)
    ensures Clean(Split([' '] + t, ',')) == Clean(Split(t, ','))
  {
    var rest := Split(t, ',');
    SplitCons(' ', t);
    TrimLeadingSpace(rest[0]);
    CleanSameHead(Split([' '] + t, ','), rest);
  }

  lemma CleanSingle(p: string)
    requires Lacks(p, ',')
    ensures Clean([p]) == (if Trim(p) == [] then [] else [Trim(p)])
  {
  }

  /** One token, then ", ", then the rest: the token comes first in the parse. */
  lemma ParseCons(x: string, t: string)
    requires IsToken(x)
    ensures Clean(Split(x + ", " + t, ',')) == [x] + Clean(Split(t, ','))
  {
    assert x + ", " + t == x + [','] + ([' '] + t);
    SplitAfter(x, [' '] + t);
    CleanAppend([x], Split([' '] + t, ','));
    CleanSingle(x);
    ParseLeadingSpace(t);
  }

  lemma RoundTripSingle(x: string)
    requires IsToken(x)
    ensures Clean(Split(x, ',')) == [x]
  {
    SplitNoComma(x);
    CleanSingle(x);
  }

  lemma EmptyRoundTrip()
    ensures Clean(Split(Join([], ", "), ',')) == []
  {
    var e: string := [];
    assert Join([], ", ") == e;
    assert Split(e, ',') == [e];
    assert Trim(e) == [] by { assert Trimmed(e); }
    CleanSingle(e);
  }

  lemma TokensTail(xs: seq<string>)
    requires AllTokens(xs) && xs != []
    ensures IsToken(xs[0]) && AllTokens(xs[1..])
  {
  }

  /** The inductive step: the first token is recovered in front of the tail's round trip. */
  lemma JoinSplitCleanStep(xs: seq<string>)
    requires |xs| > 1 && IsToken(xs[0])
    requires Clean(Split(Join(xs[1..], ", "), ',')) == xs[1..]
    ensures Clean(Split(Join(xs, ", "), ',')) == xs
  {
    ParseCons(xs[0], Join(xs[1..], ", "));
    assert xs == [xs[0]] + xs[1..];
  }

  /** The round trip stated on the unfolded definitions, proved by induction on the list. */
  lemma {:induction false} JoinSplitClean(xs: seq<string>)
    requires AllTokens(xs)
    ensures Clean(Split(Join(xs, ", "), ',')) == xs
    decreases |xs|
  {
    if xs == [] {
      EmptyRoundTrip();
    } else if |xs| == 1 {
      RoundTripSingle(xs[0]);
    } else {
      TokensTail(xs);
      JoinSplitClean(xs[1..]);
      JoinSplitCleanStep(xs);
    }
  }

  /** Round trip: a list of tokens is recovered from its display text. */
  lemma RoundTrip(xs: seq<string>)
    requires AllTokens(xs)
    ensures Parse(Display(xs)) == xs
  {
    JoinSplitClean(xs);
  }

  lemma RoundTripWhenTokens(xs: seq<string>)
    ensures AllTokens(xs) ==> Parse(Display(xs)) == xs
  {
    if AllTokens(xs) {
      RoundTrip(xs);
    }
  }

  /** Parsing is idempotent through the display: what is shown parses back to what was parsed. */
  lemma ParseDisplayParse(s: string)
    ensures Parse(Display(Parse(s))) == Parse(s)
  {
    RoundTrip(Parse(s));
  }

  /**
   * After a keystroke the parent stores the emitted list; the sync effect that
   * follows leaves the raw text alone, so commas and spaces being typed are
   * never rewritten under the cursor.
   */
  lemma EditThenResync(raw: string)
    ensures Resync(Edit(raw).display, Edit(raw).emitted) == raw
  {
  }

  /**
   * Syncing twice to the same parent list is syncing once, whatever the list
   * holds; but a list holding an element that is empty, untrimmed or contains
   * a comma can never be what the synced text parses to, so such a list is
   * rewritten into the text again on every parent update.
   */
  lemma ResyncSettles(display: string, value: seq<string>)
    ensures Resync(Resync(display, value), value) == Resync(display, value)
    ensures !AllTokens(value) ==> Parse(Resync(display, value)) != value
  {
  }

  /** The initial text of the input parses back to the parent's list. */
  lemma InitialDisplayParses(value: seq<string>)
    requires AllTokens(value)
    ensures Parse(Display(value)) == value
    ensures value == [] ==> Display(value) == ""
  {
    RoundTrip(value);
  }
}
