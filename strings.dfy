/** The Python `str` operations the service applies to text: `strip()`,
    `replace()`, `title()` and substring search. Characters are Unicode
    code points, as in Python 3. */
module Strings {

  /** `str.isspace()` for one code point: the characters CPython treats as whitespace. */
  predicate IsSpace(c: char) {
    || c == ' '
    || ('\t' <= c <= '\r')
    || ('\U{1c}' <= c <= '\U{1f}')
    || c == '\U{85}' || c == '\U{a0}' || c == '\U{1680}'
    || ('\U{2000}' <= c <= '\U{200a}')
    || c == '\U{2028}' || c == '\U{2029}' || c == '\U{202f}' || c == '\U{205f}' || c == '\U{3000}'
  }

  /** `str.lstrip()`: drops exactly the leading run of whitespace. */
  function TrimStart(s: string): (r: string)
    ensures |r| <= |s| && r == s[|s| - |r|..]
    ensures forall i :: 0 <= i < |s| - |r| ==> IsSpace(s[i])
    ensures r == [] || !IsSpace(r[0])
  {
    if s != [] && IsSpace(s[0]) then TrimStart(s[1..]) else s
  }

  /** `str.rstrip()`: drops exactly the trailing run of whitespace. */
  function TrimEnd(s: string): (r: string)
    ensures |r| <= |s| && r == s[..|r|]
    ensures forall i :: |r| <= i < |s| ==> IsSpace(s[i])
    ensures r == [] || !IsSpace(r[|r| - 1])
  {
    if s != [] && IsSpace(s[|s| - 1]) then TrimEnd(s[..|s| - 1]) else s
  }

  /** `str.strip()`: whitespace removed from both ends. */
  function Strip(s: string): (r: string)
    ensures r == [] || (!IsSpace(r[0]) && !IsSpace(r[|r| - 1]))
  {
    var t := TrimStart(s);
    var r := TrimEnd(t);
    assert r != [] ==> r[0] == t[0];
    r
  }

  /** What `strip()` keeps is one slice of its input, starting where the
      leading whitespace ends. */
  lemma StripIsSlice(s: string)
    ensures var k := |s| - |TrimStart(s)|;
      k + |Strip(s)| <= |s| && Strip(s) == s[k..k + |Strip(s)|]
  {
    var t := TrimStart(s);
    var r := TrimEnd(t);
    var k := |s| - |t|;
    assert Strip(s) == r;
    assert t == s[k..];
    assert r == t[..|r|];
  }

  /** Everything `strip()` drops is whitespace. */
  lemma StripDropsSpace(s: string)
    ensures var k := |s| - |TrimStart(s)|;
      && (forall i :: 0 <= i < k ==> IsSpace(s[i]))
      && (forall i :: k + |Strip(s)| <= i < |s| ==> IsSpace(s[i]))
  {
    var t := TrimStart(s);
    var r := TrimEnd(t);
    var k := |s| - |t|;
    assert Strip(s) == r;
    forall i | k + |r| <= i < |s|
      ensures IsSpace(s[i])
    {
      assert s[i] == t[i - k];
    }
  }

  /** `pat` occurs in `s` starting at index `i`. */
  predicate OccursAt(s: string, pat: string, i: nat) {
    i + |pat| <= |s| && s[i..i + |pat|] == pat
  }

  /** `pat in s`, Python's substring test. */
  predicate Contains(s: string, pat: string) {
    exists i: nat | i <= |s| :: OccursAt(s, pat, i)
  }

  /** A slice of a string in which `pat` does not occur holds no occurrence either. */
  lemma SliceKeepsAbsence(s: string, pat: string, lo: nat, hi: nat)
    requires lo <= hi <= |s|
    requires !Contains(s, pat)
    ensures !Contains(s[lo..hi], pat)
  {
    forall i: nat | OccursAt(s[lo..hi], pat, i)
      ensures OccursAt(s, pat, lo + i)
    {
      var a, b := s[lo..hi][i..i + |pat|], s[lo + i..lo + i + |pat|];
      forall j | 0 <= j < |a|
        ensures a[j] == b[j]
      {
        assert a[j] == s[lo + i + j];
      }
      assert a == b;
    }
  }

  /** `s.replace(pat, rep)`: every non-overlapping occurrence of `pat`,
      scanning from the left, is replaced by `rep`. */
  function ReplaceAll(s: string, pat: string, rep: string): string
    requires pat != []
    decreases |s|
  {
    if |s| < |pat| then s
    else if s[..|pat|] == pat then rep + ReplaceAll(s[|pat|..], pat, rep)
    else [s[0]] + ReplaceAll(s[1..], pat, rep)
  }

  /** Replacing one character by another maps the string character by character. */
  lemma {:induction false} ReplaceCharAt(s: string, a: char, b: char)
    ensures |ReplaceAll(s, [a], [b])| == |s|
    ensures forall i :: 0 <= i < |s| ==>
      ReplaceAll(s, [a], [b])[i] == if s[i] == a then b else s[i]
    decreases |s|
  {
    if s != [] {
      ReplaceCharAt(s[1..], a, b);
      assert s[..1] == [a] <==> s[0] == a;
    }
  }

  /** The Markdown code fence the service strips from generated text. */
  const Fence: string := "```"

  /** Deleting every fence cannot create a new one: after the left-to-right
      removal, each run of backticks is shorter than three. */
  lemma {:induction false} RemovalLeavesNoFence(s: string)
    ensures !Contains(ReplaceAll(s, Fence, ""), Fence)
    decreases |s|
  {
    var r := ReplaceAll(s, Fence, "");
    if |s| < 3 {
      assert r == s;
    } else if s[..3] == Fence {
      RemovalLeavesNoFence(s[3..]);
      assert r == ReplaceAll(s[3..], Fence, "");
    } else {
      var t := s[1..];
      var q := ReplaceAll(t, Fence, "");
      RemovalLeavesNoFence(t);
      assert r == [s[0]] + q;
      forall i: nat | OccursAt(r, Fence, i)
        ensures false
      {
        if i > 0 {
          assert r[i..i + 3] == q[i - 1..i - 1 + 3];
          assert OccursAt(q, Fence, i - 1);
        }
      }
    }
  }

  predicate IsAsciiLetter(c: char) {
    'a' <= c <= 'z' || 'A' <= c <= 'Z'
  }

  function Upper(c: char): char {
    if 'a' <= c <= 'z' then (c as int - 32) as char else c
  }

  function Lower(c: char): char {
    if 'A' <= c <= 'Z' then (c as int + 32) as char else c
  }

  /** The loop of `str.title()`, with `afterLetter` telling whether the
      previous character was a cased one. */
  function TitleFrom(s: string, afterLetter: bool): string {
    if s == [] then []
    else [if afterLetter then Lower(s[0]) else Upper(s[0])] + TitleFrom(s[1..], IsAsciiLetter(s[0]))
  }

  /** `str.title()` on ASCII letters. */
  function Title(s: string): string {
    TitleFrom(s, false)
  }

  lemma {:induction false} TitleFromAt(s: string, afterLetter: bool)
    ensures |TitleFrom(s, afterLetter)| == |s|
    ensures forall i :: 0 <= i < |s| ==>
      TitleFrom(s, afterLetter)[i] ==
        if (if i == 0 then afterLetter else IsAsciiLetter(s[i - 1])) then Lower(s[i]) else Upper(s[i])
    decreases |s|
  {
    if s != [] {
      TitleFromAt(s[1..], IsAsciiLetter(s[0]));
    }
  }

  /** A letter is upper-cased unless the character before it is a letter,
      in which case it is lower-cased; nothing else changes. */
  lemma TitleAt(s: string)
    ensures |Title(s)| == |s|
    ensures forall i :: 0 <= i < |s| ==>
      Title(s)[i] == if i > 0 && IsAsciiLetter(s[i - 1]) then Lower(s[i]) else Upper(s[i])
  {
    TitleFromAt(s, false);
  }
}
