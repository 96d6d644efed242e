/** The few Python `str` operations the quiz logic relies on: `strip()`,
    `lower()` and the substring test `sub in s`. Only the ASCII part of
    Python's character classes is modelled. */
module PyStr {

  /** Python's `str.isspace()` restricted to ASCII: tab, line feed, vertical
      tab, form feed, carriage return, the four separators 0x1C-0x1F and space. */
  predicate IsSpace(c: char)
  {
    var n := c as int;
    (9 <= n <= 13) || (28 <= n <= 32)
  }

  predicate IsUpper(c: char)
  {
    'A' <= c <= 'Z'
  }

  function LowerChar(c: char): (d: char)
    ensures !IsUpper(d)
    ensures IsUpper(c) ==> d as int == c as int + 32
    ensures !IsUpper(c) ==> d == c
  {
    if IsUpper(c) then (c as int + 32) as char else c
  }

  /** `s.lower()` on ASCII letters. */
  function Lower(s: string): string
  {
    seq(|s|, i requires 0 <= i < |s| => LowerChar(s[i]))
  }

  /** `lower()` keeps the length, leaves no upper-case letter, moves each
      upper-case letter to its lower-case form and keeps every other
      character. */
  lemma LowerFacts(s: string)
    ensures |Lower(s)| == |s|
    ensures forall i :: 0 <= i < |s| ==> !IsUpper(Lower(s)[i])
    ensures forall i :: 0 <= i < |s| && IsUpper(s[i]) ==> Lower(s)[i] as int == s[i] as int + 32
    ensures forall i :: 0 <= i < |s| && !IsUpper(s[i]) ==> Lower(s)[i] == s[i]
  {
    forall i | 0 <= i < |s|
      ensures Lower(s)[i] == LowerChar(s[i])
    {
    }
  }

  /** `s.lstrip()`. */
  function StripStart(s: string): string
  {
    if |s| > 0 && IsSpace(s[0]) then StripStart(s[1..]) else s
  }

  /** `lstrip()` yields the longest suffix of `s` that does not start with
      whitespace: everything it drops is whitespace. */
  lemma {:induction false} StripStartFacts(s: string)
    ensures var r := StripStart(s);
            && |r| <= |s| && r == s[|s| - |r|..]
            && (forall k :: 0 <= k < |s| - |r| ==> IsSpace(s[k]))
            && (|r| > 0 ==> !IsSpace(r[0]))
  {
    if |s| > 0 && IsSpace(s[0]) {
      StripStartFacts(s[1..]);
    }
  }

  /** `s.rstrip()`. */
  function StripEnd(s: string): string
  {
    if |s| > 0 && IsSpace(s[|s| - 1]) then StripEnd(s[..|s| - 1]) else s
  }

  /** `rstrip()` yields the longest prefix of `s` that does not end with
      whitespace: everything it drops is whitespace. */
  lemma {:induction false} StripEndFacts(s: string)
    ensures var r := StripEnd(s);
            && |r| <= |s| && r == s[..|r|]
            && (forall k :: |r| <= k < |s| ==> IsSpace(s[k]))
            && (|r| > 0 ==> !IsSpace(r[|r| - 1]))
  {
    if |s| > 0 && IsSpace(s[|s| - 1]) {
      StripEndFacts(s[..|s| - 1]);
    }
  }

  /** `s.strip()`. */
  function Strip(s: string): string
  {
    StripEnd(StripStart(s))
  }

  /** `strip()` leaves no whitespace at either end, and leaves nothing at all
      exactly when `s` is all whitespace. */
  lemma StripFacts(s: string)
    ensures var r := Strip(s);
            && |r| <= |s|
            && (|r| > 0 ==> !IsSpace(r[0]) && !IsSpace(r[|r| - 1]))
            && (|r| == 0 <==> forall k :: 0 <= k < |s| ==> IsSpace(s[k]))
  {
    var t := StripStart(s);
    StripStartFacts(s);
    StripEndFacts(t);
    var r := StripEnd(t);
    if |r| > 0 {
      assert r[0] == t[0];
    }
  }

  /** `s.strip().lower()`: the key under which question texts are compared
      for duplicates and fill-in-the-blank answers are graded. */
  function Normalize(s: string): string
  {
    Lower(Strip(s))
  }

  /** `sub` occurs in `s` starting at index `i`. */
  predicate OccursAt(s: string, sub: string, i: nat)
  {
    i + |sub| <= |s| && s[i..i + |sub|] == sub
  }

  /** Python's `sub in s`, as a left-to-right scan. */
  function Contains(s: string, sub: string): (b: bool)
    ensures b <==> exists i: nat :: OccursAt(s, sub, i)
    decreases |s|
  {
    if |s| < |sub| then
      assert forall i: nat :: !OccursAt(s, sub, i);
      false
    else if s[..|sub|] == sub then
      assert OccursAt(s, sub, 0);
      true
    else
      var rest := Contains(s[1..], sub);
      ShiftOccurrence(s, sub);
      rest
  }

  lemma ShiftOccurrence(s: string, sub: string)
    requires |s| > 0 && |sub| <= |s| && s[..|sub|] != sub
    ensures (exists i: nat :: OccursAt(s[1..], sub, i)) <==> (exists i: nat :: OccursAt(s, sub, i))
  {
    forall i: nat | OccursAt(s[1..], sub, i)
      ensures OccursAt(s, sub, i + 1)
    {
      assert s[1..][i..i + |sub|] == s[i + 1..i + 1 + |sub|];
    }
    forall i: nat | OccursAt(s, sub, i)
      ensures i >= 1 && OccursAt(s[1..], sub, i - 1)
    {
      assert s[1..][i - 1..i - 1 + |sub|] == s[i..i + |sub|];
    }
  }

  /** Stripping twice is stripping once. */
  lemma StripIdempotent(s: string)
    ensures Strip(Strip(s)) == Strip(s)
  {
    StripFacts(s);
    NoMarginsStripFixed(Strip(s));
  }

  /** A text with no whitespace at either end is left alone by `strip()`. */
  lemma NoMarginsStripFixed(t: string)
    requires |t| > 0 ==> !IsSpace(t[0]) && !IsSpace(t[|t| - 1])
    ensures Strip(t) == t
  {
    assert StripStart(t) == t;
    assert StripEnd(t) == t;
  }

  /** Lower-casing never turns whitespace into non-whitespace or back. */
  lemma LowerKeepsSpace(c: char)
    ensures IsSpace(LowerChar(c)) == IsSpace(c)
  {
  }

  /** Lower-casing twice is lower-casing once. */
  lemma LowerIdempotent(s: string)
    ensures Lower(Lower(s)) == Lower(s)
  {
  }

  /** Normalising an already normalised text changes nothing, so a stored
      duplicate key can be compared against freshly normalised texts. */
  lemma {:induction false} NormalizeIdempotent(s: string)
    ensures Normalize(Normalize(s)) == Normalize(s)
  {
    var t := Strip(s);
    var l := Lower(t);
    StripFacts(s);
    LowerFacts(t);
    if |l| > 0 {
      LowerKeepsSpace(t[0]);
      LowerKeepsSpace(t[|t| - 1]);
    }
    NoMarginsStripFixed(l);
    LowerIdempotent(t);
  }
}
