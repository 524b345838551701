/** The text operations the program applies to channels, references and tokens:
    trimming, lower-casing, prefix and control-character tests, and the
    codepoint order in which both Python and SQLite compare strings. */
module Text {

  datatype Option<+T> = None | Some(value: T)

  /** The characters that Python's str.strip removes. */
  predicate IsSpace(c: char) {
    var n := c as int;
    9 <= n <= 13 || 28 <= n <= 32 || n == 0x85 || n == 0xA0 || n == 0x1680 ||
    0x2000 <= n <= 0x200A || n == 0x2028 || n == 0x2029 || n == 0x202F || n == 0x205F || n == 0x3000
  }

  function StripLeft(s: string): string {
    if s == [] then [] else if IsSpace(s[0]) then StripLeft(s[1..]) else s
  }

  function StripRight(s: string): string {
    if s == [] then [] else if IsSpace(s[|s| - 1]) then StripRight(s[..|s| - 1]) else s
  }

  lemma {:induction false} StripLeftKeepsSuffix(s: string)
    ensures var r := StripLeft(s);
            && (r == [] || !IsSpace(r[0]))
            && |r| <= |s| && r == s[|s| - |r|..]
  {
    if s != [] && IsSpace(s[0]) {
      StripLeftKeepsSuffix(s[1..]);
    }
  }

  lemma {:induction false} StripRightKeepsPrefix(s: string)
    ensures var r := StripRight(s);
            && (r == [] || !IsSpace(r[|r| - 1]))
            && |r| <= |s| && r == s[..|r|]
  {
    if s != [] && IsSpace(s[|s| - 1]) {
      StripRightKeepsPrefix(s[..|s| - 1]);
    }
  }

  function Strip(s: string): string {
    StripRight(StripLeft(s))
  }

  /** A text with no white space at either end, which is what trimming yields. */
  predicate IsTrimmed(s: string) {
    s == [] || (!IsSpace(s[0]) && !IsSpace(s[|s| - 1]))
  }

  /** Trimming yields a trimmed text, and exactly the trimmed texts are left alone. */
  lemma StripTrims(s: string)
    ensures IsTrimmed(Strip(s))
    ensures Strip(s) == s <==> IsTrimmed(s)
    ensures Strip(Strip(s)) == Strip(s)
  {
    StripLeftKeepsSuffix(s);
    StripRightKeepsPrefix(StripLeft(s));
    TrimmedIsFixed(Strip(s));
    if IsTrimmed(s) {
      TrimmedIsFixed(s);
    }
  }

  lemma TrimmedIsFixed(s: string)
    requires IsTrimmed(s)
    ensures Strip(s) == s
  {
    assert StripLeft(s) == s;
    assert StripRight(s) == s;
  }

  ghost predicate IsBlank(s: string) {
    forall i | 0 <= i < |s| :: IsSpace(s[i])
  }

  /** t is what is left of s from i on when only white space is taken away. */
  ghost predicate IsLeft(s: string, t: string, i: nat) {
    && i + |t| <= |s| && t == s[i..i + |t|]
    && forall k | 0 <= k < |s| && !(i <= k < i + |t|) :: IsSpace(s[k])
  }

  /** t is s without the white space around it. */
  ghost predicate IsTrimming(s: string, t: string) {
    IsTrimmed(t) && exists i: nat :: IsLeft(s, t, i)
  }

  lemma {:induction false} StripLeftDropsBlank(s: string)
    ensures |StripLeft(s)| <= |s| && IsBlank(s[..|s| - |StripLeft(s)|])
  {
    if s != [] && IsSpace(s[0]) {
      StripLeftDropsBlank(s[1..]);
    }
  }

  lemma {:induction false} StripRightDropsBlank(s: string)
    ensures |StripRight(s)| <= |s| && IsBlank(s[|StripRight(s)|..])
  {
    if s != [] && IsSpace(s[|s| - 1]) {
      StripRightDropsBlank(s[..|s| - 1]);
    }
  }

  lemma StripIsTrimming(s: string)
    ensures IsTrimming(s, Strip(s))
  {
    var left := StripLeft(s);
    StripTrims(s);
    StripLeftKeepsSuffix(s);
    StripLeftDropsBlank(s);
    StripRightKeepsPrefix(left);
    StripRightDropsBlank(left);
    var i, t := |s| - |left|, Strip(s);
    forall k | 0 <= k < |s| && !(i <= k < i + |t|) ensures IsSpace(s[k]) {
      if k < i {
        assert s[..i][k] == s[k];
      } else {
        assert left[|t|..][k - i - |t|] == s[k];
      }
    }
    assert IsLeft(s, t, i);
  }

  lemma LeftStarts(s: string, t: string, i: nat)
    requires IsTrimmed(t) && IsLeft(s, t, i)
    ensures t == [] <==> IsBlank(s)
    ensures t != [] ==> !IsSpace(s[i]) && !IsSpace(s[i + |t| - 1])
  {
    if t != [] {
      assert t[0] == s[i] && t[|t| - 1] == s[i + |t| - 1];
    }
  }

  lemma BlankIsEmpty(s: string)
    ensures Strip(s) == [] <==> IsBlank(s)
  {
    StripIsTrimming(s);
    var i: nat :| IsLeft(s, Strip(s), i);
    LeftStarts(s, Strip(s), i);
  }

  /** There is only one way to trim a text. */
  lemma TrimmingIsStrip(s: string, t: string)
    requires IsTrimming(s, t)
    ensures t == Strip(s)
  {
    StripIsTrimming(s);
    var u := Strip(s);
    hide Strip, IsTrimmed, IsSpace;
    var i: nat :| IsLeft(s, t, i);
    var j: nat :| IsLeft(s, u, j);
    LeftStarts(s, t, i);
    LeftStarts(s, u, j);
    if t != [] && u != [] {
      assert i == j && |t| == |u|;
    }
  }

  /** Lower-casing as far as it can produce an ASCII letter: the ASCII capitals and the Kelvin
      sign. Other letters are left as they are. */
  function LowerChar(c: char): char {
    if 'A' <= c <= 'Z' then ((c as int) + 32) as char
    else if c as int == 0x212A then 'k'
    else c
  }

  function Lower(s: string): (r: string)
    ensures |r| == |s|
  {
    seq(|s|, i requires 0 <= i < |s| => LowerChar(s[i]))
  }

  predicate StartsWith(s: string, prefix: string) {
    |prefix| <= |s| && s[..|prefix|] == prefix
  }

  predicate Contains(s: string, part: string) {
    exists i | 0 <= i <= |s| :: StartsWith(s[i..], part)
  }

  predicate HasControlCharacter(s: string) {
    exists i | 0 <= i < |s| :: (s[i] as int < 32 || s[i] as int == 127)
  }

  /** A missing or blank value becomes absent; any other is trimmed. */
  function NormalizeOptional(value: Option<string>): Option<string> {
    match value
    case None => None
    case Some(text) => if Strip(text) == [] then None else Some(Strip(text))
  }

  lemma NormalizeKeepsTrimmed(value: Option<string>)
    requires value.Some? && IsTrimmed(value.value) && value.value != []
    ensures NormalizeOptional(value) == value
  {
    TrimmedIsFixed(value.value);
  }

  /** Python's `value or fallback` on an optional text: absent and empty both fall back. */
  function OrElse(value: Option<string>, fallback: string): string {
    if value.Some? && value.value != [] then value.value else fallback
  }

  /** Strict codepoint order: the first difference decides and a proper prefix comes first. */
  predicate Less(a: string, b: string) {
    if b == [] then false
    else if a == [] then true
    else if a[0] != b[0] then a[0] < b[0]
    else Less(a[1..], b[1..])
  }

  predicate LessOrEqual(a: string, b: string) {
    !Less(b, a)
  }

  lemma {:induction false} LessTotal(a: string, b: string)
    ensures Less(a, b) || a == b || Less(b, a)
    ensures !(Less(a, b) && Less(b, a))
    ensures !Less(a, a)
  {
    if a != [] && b != [] && a[0] == b[0] {
      LessTotal(a[1..], b[1..]);
      assert a == [a[0]] + a[1..] && b == [b[0]] + b[1..];
    }
    LessIrreflexive(a);
  }

  lemma {:induction false} LessIrreflexive(a: string)
    ensures !Less(a, a)
  {
    if a != [] {
      LessIrreflexive(a[1..]);
    }
  }

  lemma {:induction false} LessTransitive(a: string, b: string, c: string)
    requires Less(a, b) && Less(b, c)
    ensures Less(a, c)
  {
    if a != [] && a[0] == b[0] && b[0] == c[0] {
      LessTransitive(a[1..], b[1..], c[1..]);
    }
  }

  lemma LessOrEqualTransitive(a: string, b: string, c: string)
    requires LessOrEqual(a, b) && LessOrEqual(b, c)
    ensures LessOrEqual(a, c)
  {
    LessTotal(a, b);
    LessTotal(b, c);
    LessTotal(a, c);
    if Less(c, a) {
      if a == b {
      } else if b == c {
      } else {
        LessTransitive(a, b, c);
      }
    }
  }
}
