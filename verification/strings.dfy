/**
 * The JavaScript string primitives the admin pages rely on, restricted to
 * ASCII: `toLowerCase`, `trim`, `split`, `join`, `startsWith` and the decimal
 * rendering of a number.
 */
module Strings {

  predicate IsUpper(c: char) { 'A' <= c <= 'Z' }

  /** ASCII lower-casing of one character; every other character is kept. */
  function LowerChar(c: char): (r: char)
    ensures IsUpper(c) ==> r as int == c as int + 32
    ensures !IsUpper(c) ==> r == c
    ensures !IsUpper(r)
  {
    if IsUpper(c) then (c as int + 32) as char else c
  }

  /** `s.toLowerCase()`. */
  function Lower(s: string): (r: string)
    ensures |r| == |s|
    ensures forall i :: 0 <= i < |s| ==> r[i] == LowerChar(s[i])
  {
    seq(|s|, i requires 0 <= i < |s| => LowerChar(s[i]))
  }

  /** Lower-casing works character by character, so it distributes over concatenation. */
  lemma LowerAppend(a: string, b: string)
    ensures Lower(a + b) == Lower(a) + Lower(b)
  {
  }

  /** The ASCII white-space characters `trim` removes. */
  predicate IsSpace(c: char) {
    c == ' ' || c == '\t' || c == '\n' || c == '\r' || c == '\U{000B}' || c == '\U{000C}'
  }

  /** `s` has no white space at either end. */
  predicate Trimmed(s: string) {
    s == [] || (!IsSpace(s[0]) && !IsSpace(s[|s| - 1]))
  }

  function TrimStart(s: string): (r: string)
    ensures |r| <= |s| && r == s[|s| - |r|..]
    ensures r == [] || !IsSpace(r[0])
    ensures forall i :: 0 <= i < |s| - |r| ==> IsSpace(s[i])
  {
    if |s| > 0 && IsSpace(s[0]) then TrimStart(s[1..]) else s
  }

  function TrimEnd(s: string): (r: string)
    ensures |r| <= |s| && r == s[..|r|]
    ensures r == [] || !IsSpace(r[|r| - 1])
    ensures forall i :: |r| <= i < |s| ==> IsSpace(s[i])
  {
    if |s| > 0 && IsSpace(s[|s| - 1]) then TrimEnd(s[..|s| - 1]) else s
  }

  /** `r` is the infix `s[i..j]` of `s`, and `s` holds only white space outside it. */
  predicate SpaceAroundAt(s: string, r: string, i: int, j: int) {
    && 0 <= i <= j <= |s| && r == s[i..j]
    && (forall k :: 0 <= k < i ==> IsSpace(s[k]))
    && (forall k :: j <= k < |s| ==> IsSpace(s[k]))
  }

  /** `r` is an infix of `s` with only white space around it. */
  ghost predicate SpaceAround(s: string, r: string) {
    exists i, j :: SpaceAroundAt(s, r, i, j)
  }

  /** `s.trim()`: the longest infix of `s` that starts and ends with a non-space character. */
  function Trim(s: string): (r: string)
    ensures Trimmed(r)
    ensures forall c :: c in r ==> c in s
    ensures Trimmed(s) ==> r == s
    ensures (forall i :: 0 <= i < |s| ==> IsSpace(s[i])) <==> r == []
  {
    TrimFacts(s);
    TrimEnd(TrimStart(s))
  }

  /** The trimmed text is the infix of the input between its leading and its trailing white space. */
  lemma TrimInfix(s: string)
    ensures SpaceAround(s, Trim(s))
  {
    var t := TrimStart(s);
    var i := |s| - |t|;
    TrimEndInfix(t, s, i);
    assert SpaceAroundAt(s, Trim(s), i, i + |Trim(s)|);
  }

  /** Trimming the end of the tail `t == s[i..]` keeps an infix of `s` followed by white space only. */
  lemma TrimEndInfix(t: string, s: string, i: int)
    requires 0 <= i <= |s| && t == s[i..]
    ensures var r := TrimEnd(t); i + |r| <= |s| && r == s[i..i + |r|]
    ensures var r := TrimEnd(t); forall k :: i + |r| <= k < |s| ==> IsSpace(s[k])
  {
    var r := TrimEnd(t);
    forall k | i + |r| <= k < |s| ensures IsSpace(s[k]) {
      assert s[k] == t[k - i];
    }
  }

  lemma TrimFacts(s: string)
    ensures Trimmed(TrimEnd(TrimStart(s)))
    ensures forall c :: c in TrimEnd(TrimStart(s)) ==> c in s
    ensures Trimmed(s) ==> TrimEnd(TrimStart(s)) == s
    ensures (forall i :: 0 <= i < |s| ==> IsSpace(s[i])) <==> TrimEnd(TrimStart(s)) == []
  {
    var t := TrimStart(s);
    var r := TrimEnd(t);
    assert r == [] || r[0] == t[0];
    assert forall c :: c in r ==> c in t;
    if Trimmed(s) && s != [] {
      assert t == s;
    }
    if r == [] {
      assert t == [];
    } else {
      assert !IsSpace(s[|s| - |t|]);
    }
  }

  /** `s` does not contain `d`, stated letter by letter. */
  predicate Lacks(s: string, d: char) {
    s == [] || (s[0] != d && Lacks(s[1..], d))
  }

  lemma {:induction false} LacksIff(s: string, d: char)
    ensures Lacks(s, d) <==> d !in s
    decreases |s|
  {
    if s != [] {
      LacksIff(s[1..], d);
      assert s == [s[0]] + s[1..];
    }
  }

  /** `s.split(d)`: the pieces between occurrences of `d`, always at least one. */
  function Split(s: string, d: char): (r: seq<string>)
    ensures |r| >= 1
    ensures forall i :: 0 <= i < |r| ==> Lacks(r[i], d)
  {
    if s == [] then [""]
    else
      var rest := Split(s[1..], d);
      if s[0] == d then [""] + rest
      else [[s[0]] + rest[0]] + rest[1..]
  }

  /** Joining the pieces with the separator gives the text back. */
  lemma {:induction false} SplitJoin(s: string, d: char)
    ensures Join(Split(s, d), [d]) == s
    decreases |s|
  {
    if s != [] {
      var rest := Split(s[1..], d);
      SplitJoin(s[1..], d);
      assert s == [s[0]] + s[1..];
      if s[0] == d {
        assert ([""] + rest)[1..] == rest;
      } else {
        var r := [[s[0]] + rest[0]] + rest[1..];
        if |rest| > 1 {
          assert r[1..] == rest[1..];
          assert Join(rest, [d]) == rest[0] + [d] + Join(rest[1..], [d]);
        }
      }
    }
  }

  /** `xs.join(sep)`. */
  function Join(xs: seq<string>, sep: string): string
  {
    if |xs| == 0 then ""
    else if |xs| == 1 then xs[0]
    else xs[0] + sep + Join(xs[1..], sep)
  }

  /** `s.startsWith(p)`. */
  predicate StartsWith(s: string, p: string) {
    |p| <= |s| && s[..|p|] == p
  }

  predicate IsDigit(c: char) { '0' <= c <= '9' }

  /** The number a string of decimal digits denotes. */
  function DecimalValue(s: string): nat
    requires forall i :: 0 <= i < |s| ==> IsDigit(s[i])
  {
    if s == [] then 0
    else
      assert IsDigit(s[|s| - 1]);
      DecimalValue(s[..|s| - 1]) * 10 + (s[|s| - 1] as int - '0' as int)
  }

  /** `String(n)` for a non-negative integer. */
  function NatToString(n: nat): (r: string)
    ensures r != []
    ensures forall i :: 0 <= i < |r| ==> IsDigit(r[i])
    ensures DecimalValue(r) == n
    ensures |r| > 1 ==> r[0] != '0'
    ensures n == 0 ==> r == "0"
  {
    var last := [('0' as int + n % 10) as char];
    if n < 10 then
      last
    else
      var r := NatToString(n / 10) + last;
      assert r[..|r| - 1] == NatToString(n / 10);
      r
  }
}
