/**
 * String helpers the sources take from JavaScript: `trim`, `toLowerCase`,
 * `startsWith`, `includes` and `join`.
 */
module Text {

  predicate IsDigit(c: char) { '0' <= c <= '9' }

  predicate AllDigits(s: string) { forall i :: 0 <= i < |s| ==> IsDigit(s[i]) }

  /** The 25 code points of the WhiteSpace and LineTerminator productions of ECMA-262, listed one by one. */
  const JsSpaces: set<char> := {
    '\t', '\n', '\U{B}', '\U{C}', '\r', ' ', '\U{A0}', '\U{1680}',
    '\U{2000}', '\U{2001}', '\U{2002}', '\U{2003}', '\U{2004}', '\U{2005}',
    '\U{2006}', '\U{2007}', '\U{2008}', '\U{2009}', '\U{200A}',
    '\U{2028}', '\U{2029}', '\U{202F}', '\U{205F}', '\U{3000}', '\U{FEFF}' }

  /** The code points JavaScript counts as WhiteSpace or LineTerminator, which `String.prototype.trim` removes. */
  predicate IsJsSpace(c: char)
    ensures IsJsSpace(c) ==> !IsDigit(c)
  {
    || c == '\t' || c == '\n' || c == '\U{B}' || c == '\U{C}' || c == '\r'
    || c == ' ' || c == '\U{A0}' || c == '\U{1680}'
    || ('\U{2000}' <= c <= '\U{200A}')
    || c == '\U{2028}' || c == '\U{2029}' || c == '\U{202F}' || c == '\U{205F}'
    || c == '\U{3000}' || c == '\U{FEFF}'
  }

  /** The white space `trim` removes is exactly the listed code points. */
  lemma JsSpacesListed(c: char)
    ensures IsJsSpace(c) <==> c in JsSpaces
  {
  }

  function TrimStart(s: string): (r: string)
    ensures |r| <= |s| && r == s[|s| - |r|..]
    ensures r == [] || !IsJsSpace(r[0])
    ensures forall i :: 0 <= i < |s| - |r| ==> IsJsSpace(s[i])
  {
    if |s| > 0 && IsJsSpace(s[0]) then TrimStart(s[1..]) else s
  }

  function TrimEnd(s: string): (r: string)
    ensures |r| <= |s| && r == s[..|r|]
    ensures r == [] || !IsJsSpace(r[|r| - 1])
    ensures forall i :: |r| <= i < |s| ==> IsJsSpace(s[i])
  {
    if |s| > 0 && IsJsSpace(s[|s| - 1]) then TrimEnd(s[..|s| - 1]) else s
  }

  /** `part` sits at index `k` of `s`, and everything of `s` before and after it is white space. */
  predicate PaddedAt(s: string, part: string, k: int) {
    && OccursAt(s, part, k)
    && (forall i :: 0 <= i < k ==> IsJsSpace(s[i]))
    && (forall i :: k + |part| <= i < |s| ==> IsJsSpace(s[i]))
  }

  /** Neither the first nor the last character is white space. */
  predicate Trimmed(s: string) {
    s == [] || (!IsJsSpace(s[0]) && !IsJsSpace(s[|s| - 1]))
  }

  /** `s.trim()`: `s` with only white space removed, and all of it removed, at both ends. */
  function Trim(s: string): (r: string)
    ensures Trimmed(r)
    ensures exists k :: PaddedAt(s, r, k)
  {
    TrimPadded(s);
    TrimEnd(TrimStart(s))
  }

  lemma TrimPadded(s: string)
    ensures PaddedAt(s, TrimEnd(TrimStart(s)), |s| - |TrimStart(s)|)
  {
    var t := TrimStart(s);
    var r := TrimEnd(t);
    assert |t| <= |s| && t == s[|s| - |t|..] && forall i :: 0 <= i < |s| - |t| ==> IsJsSpace(s[i]);
    assert |r| <= |t| && r == t[..|r|] && forall i :: |r| <= i < |t| ==> IsJsSpace(t[i]);
    PaddedOfParts(s, t, r);
  }

  /** A prefix `r` of a suffix `t` of `s`, with only white space cut off on each side, is padded in `s`. */
  lemma PaddedOfParts(s: string, t: string, r: string)
    requires |t| <= |s| && t == s[|s| - |t|..] && forall i :: 0 <= i < |s| - |t| ==> IsJsSpace(s[i])
    requires |r| <= |t| && r == t[..|r|] && forall i :: |r| <= i < |t| ==> IsJsSpace(t[i])
    ensures PaddedAt(s, r, |s| - |t|)
  {
    var k := |s| - |t|;
    forall i | k + |r| <= i < |s|
      ensures IsJsSpace(s[i])
    {
      assert s[i] == t[i - k];
    }
  }

  /** The two clauses of `Trim`'s contract pin the result down: any white-space-padded part of `s`
      that neither starts nor ends with white space is `Trim(s)`. */
  lemma TrimUnique(s: string, r: string, k: int)
    requires PaddedAt(s, r, k) && Trimmed(r)
    ensures r == Trim(s)
  {
    var r0 := Trim(s);
    var k0 :| PaddedAt(s, r0, k0);
    if r0 != [] {
      assert s[k0] == r0[0] && s[k0 + |r0| - 1] == r0[|r0| - 1];
    }
    if r != [] {
      assert s[k] == r[0] && s[k + |r| - 1] == r[|r| - 1];
      assert r0 != [];
      assert k == k0 && k + |r| == k0 + |r0|;
    }
  }

  /** `toLowerCase` restricted to the ASCII letters; every other code point is kept. */
  function LowerChar(c: char): (d: char)
    ensures IsJsSpace(d) <==> IsJsSpace(c)
    ensures IsDigit(d) <==> IsDigit(c)
    ensures !('A' <= d <= 'Z')
  {
    if 'A' <= c <= 'Z' then (c as int - 'A' as int + 'a' as int) as char else c
  }

  function Lower(s: string): (r: string)
    ensures |r| == |s|
    ensures forall i :: 0 <= i < |s| ==> r[i] == LowerChar(s[i])
  {
    seq(|s|, i requires 0 <= i < |s| => LowerChar(s[i]))
  }

  /** `s.trim().toLowerCase()`, the form in which e-mail addresses are stored and looked up. */
  function NormalizeEmail(s: string): (e: string)
    ensures forall i :: 0 <= i < |e| ==> !('A' <= e[i] <= 'Z')
    ensures |e| <= |s|
  {
    Lower(Trim(s))
  }

  /** Lower-casing first and trimming afterwards gives the same normalised address. */
  lemma NormalizeEitherOrder(s: string)
    ensures NormalizeEmail(s) == Trim(Lower(s))
  {
    LowerTrimStart(s);
    LowerTrimEnd(TrimStart(s));
  }

  lemma {:induction false} TrimStartOfTrimmed(s: string)
    requires s == [] || !IsJsSpace(s[0])
    ensures TrimStart(s) == s
  {
  }

  lemma {:induction false} TrimEndOfTrimmed(s: string)
    requires s == [] || !IsJsSpace(s[|s| - 1])
    ensures TrimEnd(s) == s
  {
  }

  lemma {:induction false} LowerIdempotent(s: string)
    ensures Lower(Lower(s)) == s ==> Lower(s) == s
    ensures Lower(Lower(s)) == Lower(s)
  {
    forall i | 0 <= i < |s| ensures Lower(Lower(s))[i] == Lower(s)[i] {
      var c := s[i];
      if 'A' <= c <= 'Z' {
        assert 'a' as int <= LowerChar(c) as int <= 'z' as int;
      }
    }
  }

  /** Normalising an address twice is normalising it once: trimming a lower-cased trimmed string changes nothing. */
  lemma NormalizeEmailIdempotent(s: string)
    ensures NormalizeEmail(NormalizeEmail(s)) == NormalizeEmail(s)
  {
    var t := Trim(s);
    var l := Lower(t);
    assert l == [] || (!IsJsSpace(l[0]) && !IsJsSpace(l[|l| - 1]));
    TrimStartOfTrimmed(l);
    TrimEndOfTrimmed(l);
    assert Trim(l) == l;
    LowerIdempotent(t);
  }

  /** Inputs that differ only in upper/lower case of ASCII letters normalise alike. */
  lemma NormalizeIgnoresCase(s: string)
    ensures NormalizeEmail(Lower(s)) == NormalizeEmail(s)
  {
    var t := TrimStart(s);
    var lt := TrimStart(Lower(s));
    LowerTrimStart(s);
    LowerTrimEnd(t);
    LowerIdempotent(TrimEnd(t));
  }

  lemma {:induction false} LowerTrimStart(s: string)
    ensures TrimStart(Lower(s)) == Lower(TrimStart(s))
    decreases |s|
  {
    if |s| > 0 && IsJsSpace(s[0]) {
      assert Lower(s)[1..] == Lower(s[1..]);
      LowerTrimStart(s[1..]);
    }
  }

  lemma {:induction false} LowerTrimEnd(s: string)
    ensures TrimEnd(Lower(s)) == Lower(TrimEnd(s))
    decreases |s|
  {
    if |s| > 0 && IsJsSpace(s[|s| - 1]) {
      assert Lower(s)[..|s| - 1] == Lower(s[..|s| - 1]);
      LowerTrimEnd(s[..|s| - 1]);
    }
  }

  /** `part` appears in `s` starting at index `k`. */
  predicate OccursAt(s: string, part: string, k: int) {
    0 <= k <= |s| - |part| && s[k..k + |part|] == part
  }

  /** `s.startsWith(prefix)`, compared character by character. */
  function StartsWith(s: string, prefix: string): (b: bool)
    ensures b <==> |prefix| <= |s| && s[..|prefix|] == prefix
  {
    if prefix == [] then true
    else if s == [] || s[0] != prefix[0] then false
    else
      var b := StartsWith(s[1..], prefix[1..]);
      assert |prefix| <= |s| ==> s[..|prefix|] == [s[0]] + s[1..][..|prefix| - 1];
      assert prefix == [prefix[0]] + prefix[1..];
      b
  }

  /** `s.includes(part)`, searched from the left. */
  function Contains(s: string, part: string): (b: bool)
    ensures b <==> exists k :: OccursAt(s, part, k)
    decreases |s|
  {
    if StartsWith(s, part) then
      assert OccursAt(s, part, 0);
      true
    else if |s| == 0 then
      false
    else
      var b := Contains(s[1..], part);
      forall k | 1 <= k ensures OccursAt(s, part, k) <==> OccursAt(s[1..], part, k - 1) {
        if k <= |s| - |part| {
          var here, there := s[k..k + |part|], s[1..][k - 1..k - 1 + |part|];
          assert forall i :: 0 <= i < |part| ==> here[i] == there[i];
        }
      }
      if b then
        var k :| OccursAt(s[1..], part, k);
        assert OccursAt(s, part, k + 1);
        true
      else
        false
  }

  /** `items.join(sep)`. */
  function Join(items: seq<string>, sep: string): (r: string)
    ensures items == [] ==> r == ""
    ensures |items| == 1 ==> r == items[0]
    ensures |items| == 2 ==> r == items[0] + sep + items[1]
  {
    if items == [] then ""
    else if |items| == 1 then items[0]
    else items[0] + sep + Join(items[1..], sep)
  }

  /** Joining one more item appends the separator and that item to the joined text. */
  lemma {:induction false} JoinAppend(items: seq<string>, x: string, sep: string)
    requires items != []
    ensures Join(items + [x], sep) == Join(items, sep) + sep + x
  {
    if |items| > 1 {
      assert (items + [x])[1..] == items[1..] + [x];
      JoinAppend(items[1..], x, sep);
    }
  }
}
