/** Byte-string helpers with Python 2 `str` semantics: ASCII-only case mapping,
    `str.strip`, `str.split(sep)` and the comma splitter `cc_delim_re` (`\s*,\s*`). */
module Text {

  /** The characters `str.strip()` and the regex class `\s` treat as whitespace. */
  predicate IsSpace(c: char)
  {
    c == ' ' || c == '\t' || c == '\n' || c == '\r' || c == '\U{0B}' || c == '\U{0C}'
  }

  function LowerChar(c: char): char
  {
    if 'A' <= c <= 'Z' then (c as int + 32) as char else c
  }

  function UpperChar(c: char): char
  {
    if 'a' <= c <= 'z' then (c as int - 32) as char else c
  }

  /** `str.lower()` in the C locale. */
  function Lower(s: string): (r: string)
    ensures |r| == |s| && forall i :: 0 <= i < |s| ==> r[i] == LowerChar(s[i])
  {
    seq(|s|, i requires 0 <= i < |s| => LowerChar(s[i]))
  }

  /** `str.upper()` in the C locale. */
  function Upper(s: string): (r: string)
    ensures |r| == |s| && forall i :: 0 <= i < |s| ==> r[i] == UpperChar(s[i])
  {
    seq(|s|, i requires 0 <= i < |s| => UpperChar(s[i]))
  }

  /** `s.replace(a, b)` for single characters. */
  function Replace(s: string, a: char, b: char): (r: string)
    ensures |r| == |s| && forall i :: 0 <= i < |s| ==> r[i] == (if s[i] == a then b else s[i])
  {
    seq(|s|, i requires 0 <= i < |s| => if s[i] == a then b else s[i])
  }

  /** Two strings whose lower-case forms agree have the same upper-case form. */
  lemma UpperDeterminedByLower(a: string, b: string)
    requires Lower(a) == Lower(b)
    ensures Upper(a) == Upper(b)
  {
    assert |a| == |Lower(a)| == |Lower(b)| == |b|;
    forall i | 0 <= i < |a| ensures Upper(a)[i] == Upper(b)[i] {
      assert LowerChar(a[i]) == Lower(a)[i] == Lower(b)[i] == LowerChar(b[i]);
    }
  }

  /** Case mapping is stable: lowering an already lowered or upper-cased string gives
      the lowered original, and likewise for upper case, so no letter A-Z survives
      `lower()` and no letter a-z survives `upper()`. */
  lemma CaseFoldingStable(s: string)
    ensures Lower(Lower(s)) == Lower(s) && Lower(Upper(s)) == Lower(s)
    ensures Upper(Upper(s)) == Upper(s) && Upper(Lower(s)) == Upper(s)
    ensures forall i :: 0 <= i < |s| ==> !('A' <= Lower(s)[i] <= 'Z') && !('a' <= Upper(s)[i] <= 'z')
  {
    assert Lower(Lower(s)) == Lower(s);
    assert Lower(Upper(s)) == Lower(s);
    assert Upper(Upper(s)) == Upper(s);
    assert Upper(Lower(s)) == Upper(s);
  }

  /** `replace(a, b)` leaves no `a` behind, and only `a`'s were changed: every other
      character, `b` included, stays where it was. */
  lemma ReplaceEliminates(s: string, a: char, b: char)
    requires a != b
    ensures a !in Replace(s, a, b)
    ensures forall i :: 0 <= i < |s| && s[i] != a ==> Replace(s, a, b)[i] == s[i]
    ensures Replace(Replace(s, a, b), a, b) == Replace(s, a, b)
  {
    var r := Replace(s, a, b);
    assert forall i :: 0 <= i < |r| ==> r[i] != a;
    assert Replace(r, a, b) == r;
  }

  /** ... and conversely. */
  lemma LowerDeterminedByUpper(a: string, b: string)
    requires Upper(a) == Upper(b)
    ensures Lower(a) == Lower(b)
  {
    assert |a| == |Upper(a)| == |Upper(b)| == |b|;
    forall i | 0 <= i < |a| ensures Lower(a)[i] == Lower(b)[i] {
      assert UpperChar(a[i]) == Upper(a)[i] == Upper(b)[i] == UpperChar(b[i]);
    }
  }

  /** Drops every leading character equal to `c` (`s.lstrip(c)`). */
  function TrimLeftChar(s: string, c: char): (r: string)
    ensures |r| <= |s| && r == s[|s| - |r|..]
    ensures r == [] || r[0] != c
    ensures forall j :: 0 <= j < |s| - |r| ==> s[j] == c
  {
    if |s| > 0 && s[0] == c then TrimLeftChar(s[1..], c) else s
  }

  /** Drops every trailing character equal to `c` (`s.rstrip(c)`). */
  function TrimRightChar(s: string, c: char): (r: string)
    ensures |r| <= |s| && r == s[..|r|]
    ensures r == [] || r[|r| - 1] != c
    ensures forall j :: |r| <= j < |s| ==> s[j] == c
  {
    if |s| > 0 && s[|s| - 1] == c then TrimRightChar(s[..|s| - 1], c) else s
  }

  /** `s.strip(c)`: no occurrence of `c` is left at either end. */
  function StripChar(s: string, c: char): string
  {
    TrimRightChar(TrimLeftChar(s, c), c)
  }

  /** Stripping `c` from a string that neither starts nor ends with `c` changes
      nothing, and removes exactly one `c` on each side that was added. */
  lemma StripCharEnclosed(s: string, c: char)
    requires |s| >= 1 && s[0] != c && s[|s| - 1] != c
    ensures StripChar(s, c) == s
    ensures StripChar([c] + s + [c], c) == s
  {
    var t := [c] + s + [c];
    assert t[1..] == s + [c];
    assert TrimLeftChar(t, c) == TrimLeftChar(s + [c], c) == s + [c];
    assert (s + [c])[..|s|] == s;
    assert TrimRightChar(s + [c], c) == TrimRightChar(s, c) == s;
  }

  /** Drops leading whitespace. */
  function TrimLeftSpace(s: string): (r: string)
    ensures |r| <= |s| && r == s[|s| - |r|..]
    ensures r == [] || !IsSpace(r[0])
    ensures forall j :: 0 <= j < |s| - |r| ==> IsSpace(s[j])
  {
    if |s| > 0 && IsSpace(s[0]) then TrimLeftSpace(s[1..]) else s
  }

  /** Drops trailing whitespace. */
  function TrimRightSpace(s: string): (r: string)
    ensures |r| <= |s| && r == s[..|r|]
    ensures r == [] || !IsSpace(r[|r| - 1])
    ensures forall j :: |r| <= j < |s| ==> IsSpace(s[j])
  {
    if |s| > 0 && IsSpace(s[|s| - 1]) then TrimRightSpace(s[..|s| - 1]) else s
  }

  /** `str.strip()` with no argument. */
  function StripSpace(s: string): string
  {
    TrimRightSpace(TrimLeftSpace(s))
  }

  /** The index of the first `c` in `s`, or `|s|` when there is none. */
  function IndexOf(s: string, c: char): (i: nat)
    ensures i <= |s|
    ensures forall j :: 0 <= j < i ==> s[j] != c
    ensures i < |s| ==> s[i] == c
  {
    if |s| == 0 then 0 else if s[0] == c then 0 else 1 + IndexOf(s[1..], c)
  }

  /** `s.split(c)`: the pieces between occurrences of `c`; never empty. */
  function Split(s: string, c: char): (pieces: seq<string>)
    ensures |pieces| >= 1
    ensures pieces[0] == s[..IndexOf(s, c)]
    decreases |s|
  {
    var i := IndexOf(s, c);
    if i == |s| then [s] else [s[..i]] + Split(s[i + 1..], c)
  }

  /** `re.split(r'\s*,\s*', s)` (Django's `cc_delim_re`): split at commas, dropping the
      whitespace that surrounds each comma but not whitespace at either end of `s`. */
  function SplitCommas(s: string): (names: seq<string>)
    ensures |names| == |Split(s, ',')|
  {
    var pieces := Split(s, ',');
    seq(|pieces|, i requires 0 <= i < |pieces| =>
      var p := if i > 0 then TrimLeftSpace(pieces[i]) else pieces[i];
      if i < |pieces| - 1 then TrimRightSpace(p) else p)
  }
}
