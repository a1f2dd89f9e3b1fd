/**
 * The Python `str` operations the chatbot applies to user text:
 * `isspace`/`strip`, `lower`, the `in` substring test and `replace(p, '')`.
 */
module PyText {

  /** The code points for which Python's `str.isspace()` holds. */
  const SpaceCodes: set<int> := {
    0x09, 0x0A, 0x0B, 0x0C, 0x0D, 0x1C, 0x1D, 0x1E, 0x1F, 0x20, 0x85, 0xA0, 0x1680,
    0x2000, 0x2001, 0x2002, 0x2003, 0x2004, 0x2005, 0x2006, 0x2007, 0x2008, 0x2009, 0x200A,
    0x2028, 0x2029, 0x202F, 0x205F, 0x3000
  }

  /** Python's `str.isspace()` for one character. */
  predicate IsSpace(c: char)
  {
    c as int in SpaceCodes
  }

  /** The number of whitespace characters `s.lstrip()` removes from the front of `s`. */
  function Leading(s: string): (n: nat)
    ensures n <= |s|
    ensures forall k :: 0 <= k < n ==> IsSpace(s[k])
    ensures n < |s| ==> !IsSpace(s[n])
  {
    if s != [] && IsSpace(s[0]) then 1 + Leading(s[1..]) else 0
  }

  /** The number of whitespace characters `s.rstrip()` removes from the back of `s`. */
  function Trailing(s: string): (n: nat)
    ensures n <= |s|
    ensures forall k :: |s| - n <= k < |s| ==> IsSpace(s[k])
    ensures n < |s| ==> !IsSpace(s[|s| - 1 - n])
  {
    if s != [] && IsSpace(s[|s| - 1]) then 1 + Trailing(s[..|s| - 1]) else 0
  }

  /** `r` is what is left of `s` after removing whitespace only, `a` characters at the front. */
  predicate StrippedAt(s: string, r: string, a: int)
  {
    && 0 <= a && a + |r| <= |s|
    && s[a..a + |r|] == r
    && (forall k :: 0 <= k < a ==> IsSpace(s[k]))
    && (forall k :: a + |r| <= k < |s| ==> IsSpace(s[k]))
  }

  /** Python's `s.strip()`: `s` without its leading and trailing whitespace. */
  function Strip(s: string): (r: string)
    ensures r == [] || (!IsSpace(r[0]) && !IsSpace(r[|r| - 1]))
    ensures StrippedAt(s, r, Leading(s))
    ensures r == [] <==> forall k :: 0 <= k < |s| ==> IsSpace(s[k])
  {
    var a := Leading(s);
    if a == |s| then []
    else
      var b := Trailing(s);
      s[a..|s| - b]
  }

  /** A text that neither starts nor ends with whitespace is its own `strip()`. */
  lemma {:induction false} StripUnspaced(s: string)
    requires s == [] || (!IsSpace(s[0]) && !IsSpace(s[|s| - 1]))
    ensures Strip(s) == s
  {
    if s != [] {
      assert Leading(s) == 0;
      assert Trailing(s) == 0;
    }
  }

  /** A text that is its own `strip()` neither starts nor ends with whitespace. */
  lemma StrippedEnds(s: string)
    requires s != [] && Strip(s) == s
    ensures !IsSpace(s[0]) && !IsSpace(s[|s| - 1])
  {
  }

  /** A text ending in a character that is not whitespace does not strip to nothing. */
  lemma StripKeepsLast(s: string)
    requires s != [] && !IsSpace(s[|s| - 1])
    ensures Strip(s) != []
  {
    assert !IsSpace(s[|s| - 1]);
  }

  /** `strip()` is idempotent. */
  lemma StripIdempotent(s: string)
    ensures Strip(Strip(s)) == Strip(s)
  {
    StripUnspaced(Strip(s));
  }

  /** Python's `c.lower()` on the ASCII letters; other characters are kept. */
  function LowerChar(c: char): (d: char)
    ensures 'A' <= c <= 'Z' ==> 'a' <= d <= 'z' && d as int - c as int == 32
    ensures !('A' <= c <= 'Z') ==> d == c
  {
    if 'A' <= c <= 'Z' then (c as int + 32) as char else c
  }

  /** `s.lower()`, character by character. */
  function Lower(s: string): (r: string)
    ensures |r| == |s|
    ensures forall i :: 0 <= i < |s| ==> r[i] == LowerChar(s[i])
    ensures forall i :: 0 <= i < |r| ==> !('A' <= r[i] <= 'Z')
  {
    seq(|s|, i requires 0 <= i < |s| => LowerChar(s[i]))
  }

  /** `p` occurs in `s` starting at index `i`. */
  predicate OccursAt(s: string, p: string, i: int)
  {
    0 <= i && i + |p| <= |s| && s[i..i + |p|] == p
  }

  /** Python's `p in s`. */
  predicate Contains(s: string, p: string): (b: bool)
    ensures b ==> |p| <= |s|
    ensures p == [] ==> b
  {
    assert p == [] ==> OccursAt(s, p, 0);
    exists i :: 0 <= i <= |s| - |p| && OccursAt(s, p, i)
  }

  /** When `p` does not occur at the front of `s`, it occurs in `s` exactly when it occurs in `s[1..]`. */
  lemma ContainsTail(s: string, p: string)
    requires s != [] && !OccursAt(s, p, 0)
    ensures Contains(s, p) <==> Contains(s[1..], p)
  {
    if Contains(s, p) {
      var i :| 0 <= i <= |s| - |p| && OccursAt(s, p, i);
      assert s[1..][i - 1..i - 1 + |p|] == s[i..i + |p|];
      assert OccursAt(s[1..], p, i - 1);
    }
    if Contains(s[1..], p) {
      var i :| 0 <= i <= |s[1..]| - |p| && OccursAt(s[1..], p, i);
      assert s[i + 1..i + 1 + |p|] == s[1..][i..i + |p|];
      assert OccursAt(s, p, i + 1);
    }
  }

  /** Python's `s.replace(p, '')`: every non-overlapping occurrence of `p`, scanning left to right, is deleted. */
  function RemoveAll(s: string, p: string): (r: string)
    ensures |r| <= |s|
    ensures forall i :: 0 <= i < |r| ==> r[i] in s
    ensures p == [] ==> r == s
    decreases |s|
  {
    if p == [] || |s| < |p| then s
    else if s[..|p|] == p then RemoveAll(s[|p|..], p)
    else [s[0]] + RemoveAll(s[1..], p)
  }

  /**
   * Removing a non-empty phrase never lengthens the text, and it shortens it
   * exactly when the phrase occurs in it; otherwise the text is returned unchanged.
   */
  lemma {:induction false} RemoveAllShrinks(s: string, p: string)
    requires p != []
    ensures |RemoveAll(s, p)| <= |s|
    ensures |RemoveAll(s, p)| < |s| <==> Contains(s, p)
    ensures !Contains(s, p) ==> RemoveAll(s, p) == s
    decreases |s|
  {
    if |s| < |p| {
      assert !Contains(s, p);
    } else if s[..|p|] == p {
      assert OccursAt(s, p, 0);
      RemoveAllShrinks(s[|p|..], p);
    } else {
      assert !OccursAt(s, p, 0);
      ContainsTail(s, p);
      RemoveAllShrinks(s[1..], p);
      if !Contains(s, p) {
        assert [s[0]] + s[1..] == s;
      }
    }
  }
}
