/**
 * The string operations of Python that the wizard relies on, over `seq<char>`:
 * `in`, `split`, `join`, `replace`, `lower`, `upper`, `strip`, `title`,
 * `str(int)` and `int(str)`. Letter-case and whitespace are the ASCII ones.
 */
module Text {
  import opened Wrappers

  predicate StartsWith(s: string, prefix: string) {
    |prefix| <= |s| && s[..|prefix|] == prefix
  }

  /** Python's `needle in s` for strings. */
  predicate Contains(s: string, needle: string)
    decreases |s|
  {
    StartsWith(s, needle) || (|s| > 0 && Contains(s[1..], needle))
  }

  /** Python's `s.split(sep)`: the pieces between the leftmost non-overlapping occurrences of `sep`. */
  function SplitOn(s: string, sep: string): (parts: seq<string>)
    requires |sep| > 0
    ensures |parts| >= 1
    decreases |s|
  {
    if |s| < |sep| then [s]
    else if s[..|sep|] == sep then [""] + SplitOn(s[|sep|..], sep)
    else
      var rest := SplitOn(s[1..], sep);
      [[s[0]] + rest[0]] + rest[1..]
  }

  /** Python's `s.split(c)` for a one-character separator. */
  function Split(s: string, c: char): (parts: seq<string>)
    ensures |parts| >= 1
  {
    SplitOn(s, [c])
  }

  /** Python's `sep.join(parts)`. */
  function Join(parts: seq<string>, sep: string): string
  {
    if |parts| == 0 then ""
    else if |parts| == 1 then parts[0]
    else parts[0] + sep + Join(parts[1..], sep)
  }

  /** Regrouping lines, proved apart from any larger context. */
  lemma Assoc(a: seq<string>, b: seq<string>, c: seq<string>)
    ensures a + (b + c) == (a + b) + c
    ensures (a + b) + [] == a + b
  {
  }

  /** The lines of several blocks, one block after another. */
  function Flatten(blocks: seq<seq<string>>): seq<string> {
    if |blocks| == 0 then [] else blocks[0] + Flatten(blocks[1..])
  }

  /** Python's `s.replace(pat, repl)`: every leftmost non-overlapping occurrence is replaced. */
  function ReplaceAll(s: string, pat: string, repl: string): string
    requires |pat| > 0
    decreases |s|
  {
    if |s| < |pat| then s
    else if s[..|pat|] == pat then repl + ReplaceAll(s[|pat|..], pat, repl)
    else [s[0]] + ReplaceAll(s[1..], pat, repl)
  }

  lemma {:induction false} JoinExtendHead(c: string, parts: seq<string>, sep: string)
    requires |parts| >= 1
    ensures Join([c + parts[0]] + parts[1..], sep) == c + Join(parts, sep)
  {
    var p := [c + parts[0]] + parts[1..];
    assert p[1..] == parts[1..];
  }

  /** Splitting then joining with the same separator gives the string back. */
  lemma {:induction false} JoinSplit(s: string, sep: string)
    requires |sep| > 0
    ensures Join(SplitOn(s, sep), sep) == s
    decreases |s|
  {
    if |s| < |sep| {
    } else if s[..|sep|] == sep {
      var rest := SplitOn(s[|sep|..], sep);
      JoinSplit(s[|sep|..], sep);
      var parts := [""] + rest;
      assert parts[1..] == rest;
      assert s == s[..|sep|] + s[|sep|..];
    } else {
      var rest := SplitOn(s[1..], sep);
      JoinSplit(s[1..], sep);
      JoinExtendHead([s[0]], rest, sep);
      assert s == [s[0]] + s[1..];
    }
  }

  /** `s.replace(pat, repl)` is `repl.join(s.split(pat))`: every occurrence is replaced. */
  lemma {:induction false} ReplaceIsSplitJoin(s: string, pat: string, repl: string)
    requires |pat| > 0
    ensures ReplaceAll(s, pat, repl) == Join(SplitOn(s, pat), repl)
    decreases |s|
  {
    if |s| < |pat| {
    } else if s[..|pat|] == pat {
      var rest := SplitOn(s[|pat|..], pat);
      ReplaceIsSplitJoin(s[|pat|..], pat, repl);
      var parts := [""] + rest;
      assert parts[1..] == rest;
    } else {
      var rest := SplitOn(s[1..], pat);
      ReplaceIsSplitJoin(s[1..], pat, repl);
      JoinExtendHead([s[0]], rest, repl);
    }
  }

  /** Replacing a substring that does not occur changes nothing. */
  lemma {:induction false} ReplaceAbsent(s: string, pat: string, repl: string)
    requires |pat| > 0
    requires !Contains(s, pat)
    ensures ReplaceAll(s, pat, repl) == s
    decreases |s|
  {
    if |s| < |pat| {
    } else {
      assert !StartsWith(s, pat);
      ReplaceAbsent(s[1..], pat, repl);
      assert s == [s[0]] + s[1..];
    }
  }

  lemma {:induction false} ContainsCharIn(s: string, c: char)
    ensures Contains(s, [c]) <==> c in s
    decreases |s|
  {
    if |s| > 0 {
      ContainsCharIn(s[1..], c);
      assert s == [s[0]] + s[1..];
    }
  }

  /** A needle found at any position of the text is contained in it. */
  lemma {:induction false} ContainsAt(s: string, needle: string, i: nat)
    requires i <= |s| && StartsWith(s[i..], needle)
    ensures Contains(s, needle)
    decreases i
  {
    if i > 0 {
      assert s[1..][i - 1..] == s[i..];
      ContainsAt(s[1..], needle, i - 1);
    }
  }

  /** A text lacking one of the needle's characters does not contain the needle. */
  lemma {:induction false} MissingCharNotContained(s: string, needle: string, c: char)
    requires c in needle && c !in s
    ensures !Contains(s, needle)
    decreases |s|
  {
    if |s| > 0 {
      MissingCharNotContained(s[1..], needle, c);
      if |needle| <= |s| {
        var k :| 0 <= k < |needle| && needle[k] == c;
        assert s[..|needle|][k] != needle[k];
      }
    }
  }

  /** No piece of a split on one character contains that character. */
  lemma {:induction false} SplitPiecesLackSeparator(s: string, c: char)
    ensures forall i | 0 <= i < |Split(s, c)| :: c !in Split(s, c)[i]
    decreases |s|
  {
    if |s| >= 1 {
      SplitPiecesLackSeparator(s[1..], c);
      var rest := Split(s[1..], c);
      if s[0] == c {
        assert s[..1] == [c];
        assert Split(s, c) == [""] + rest;
      } else {
        assert s[..1] != [c];
        assert Split(s, c) == [[s[0]] + rest[0]] + rest[1..];
      }
    } else {
      assert Split(s, c) == [s];
    }
  }

  /** Splitting a join on a character that no piece contains gives the pieces back. */
  lemma {:induction false} SplitJoin(parts: seq<string>, c: char)
    requires |parts| >= 1
    requires forall i | 0 <= i < |parts| :: c !in parts[i]
    ensures Split(Join(parts, [c]), c) == parts
    decreases |parts|, |parts[0]|
  {
    var j := Join(parts, [c]);
    if |parts[0]| > 0 {
      var tail := [parts[0][1..]] + parts[1..];
      assert forall i | 0 <= i < |tail| :: c !in tail[i] by {
        assert forall x :: x in parts[0][1..] ==> x in parts[0];
      }
      SplitJoin(tail, c);
      JoinExtendHead([parts[0][0]], tail, [c]);
      assert [parts[0][0]] + tail[0] == parts[0];
      assert [[parts[0][0]] + tail[0]] + tail[1..] == parts;
      assert j == [parts[0][0]] + Join(tail, [c]);
      assert j[..1] != [c];
      assert j[1..] == Join(tail, [c]);
    } else if |parts| == 1 {
      assert j == "";
    } else {
      assert j == [c] + Join(parts[1..], [c]);
      assert j[..1] == [c];
      assert j[1..] == Join(parts[1..], [c]);
      SplitJoin(parts[1..], c);
      assert [""] + parts[1..] == parts;
    }
  }

  predicate IsUpper(c: char) { 'A' <= c <= 'Z' }
  predicate IsLower(c: char) { 'a' <= c <= 'z' }
  predicate IsLetter(c: char) { IsUpper(c) || IsLower(c) }
  predicate IsDigit(c: char) { '0' <= c <= '9' }

  function LowerChar(c: char): char {
    if IsUpper(c) then (c as int + 32) as char else c
  }

  function UpperChar(c: char): char {
    if IsLower(c) then (c as int - 32) as char else c
  }

  /** Python's `s.lower()`. */
  function Lower(s: string): (r: string)
    ensures |r| == |s|
    ensures forall i | 0 <= i < |s| :: r[i] == LowerChar(s[i])
  {
    seq(|s|, i requires 0 <= i < |s| => LowerChar(s[i]))
  }

  /** Python's `s.upper()`. */
  function Upper(s: string): (r: string)
    ensures |r| == |s|
    ensures forall i | 0 <= i < |s| :: r[i] == UpperChar(s[i])
  {
    seq(|s|, i requires 0 <= i < |s| => UpperChar(s[i]))
  }

  /** Python's `s.title()`: a letter is upper-cased after a non-letter and lower-cased after a letter. */
  function TitleFrom(s: string, afterLetter: bool): (r: string)
    ensures |r| == |s|
  {
    if |s| == 0 then ""
    else
      var c := s[0];
      var out := if !IsLetter(c) then c else if afterLetter then LowerChar(c) else UpperChar(c);
      [out] + TitleFrom(s[1..], IsLetter(c))
  }

  function Title(s: string): string {
    TitleFrom(s, false)
  }

  /** Python's `str.isspace()` on ASCII characters. */
  predicate IsSpace(c: char) {
    c == ' ' || ('\t' <= c <= '\r') || ('\U{001C}' <= c <= '\U{001F}')
  }

  function StripLeft(s: string): string
  {
    if |s| > 0 && IsSpace(s[0]) then StripLeft(s[1..]) else s
  }

  function StripRight(s: string): string
  {
    if |s| > 0 && IsSpace(s[|s| - 1]) then StripRight(s[..|s| - 1]) else s
  }

  /** Python's `s.strip()`. */
  function Strip(s: string): string {
    StripRight(StripLeft(s))
  }

  predicate AllSpace(s: string) {
    forall i | 0 <= i < |s| :: IsSpace(s[i])
  }

  /** Neither end of the text is a space. */
  predicate Trimmed(s: string) {
    |s| == 0 || (!IsSpace(s[0]) && !IsSpace(s[|s| - 1]))
  }

  /** `s` pads `word` with spaces on either side. */
  ghost predicate PaddedWord(s: string, word: string) {
    exists left, right | AllSpace(left) && AllSpace(right) :: s == left + word + right
  }

  /** Stripping on the left removes a run of spaces and stops at a non-space. */
  lemma {:induction false} StripLeftSplit(s: string) returns (left: string)
    ensures AllSpace(left) && s == left + StripLeft(s)
    ensures |StripLeft(s)| > 0 ==> !IsSpace(StripLeft(s)[0])
    decreases |s|
  {
    if |s| > 0 && IsSpace(s[0]) {
      var rest := StripLeftSplit(s[1..]);
      left := [s[0]] + rest;
      assert s == [s[0]] + s[1..];
    } else {
      left := "";
    }
  }

  /** Stripping on the right removes a run of spaces and stops at a non-space. */
  lemma {:induction false} StripRightSplit(s: string) returns (right: string)
    ensures AllSpace(right) && s == StripRight(s) + right
    ensures |StripRight(s)| > 0 ==> !IsSpace(StripRight(s)[|StripRight(s)| - 1])
    decreases |s|
  {
    if |s| > 0 && IsSpace(s[|s| - 1]) {
      var rest := StripRightSplit(s[..|s| - 1]);
      right := rest + [s[|s| - 1]];
      assert s == s[..|s| - 1] + [s[|s| - 1]];
    } else {
      right := "";
    }
  }

  /** Every text is its stripped form padded with spaces, and the stripped form is trimmed. */
  lemma StripSplit(s: string) returns (left: string, right: string)
    ensures AllSpace(left) && AllSpace(right) && s == left + Strip(s) + right
    ensures Trimmed(Strip(s))
  {
    var t := StripLeft(s);
    left := StripLeftSplit(s);
    right := StripRightSplit(t);
    var core := Strip(s);
    assert s == left + t && t == core + right;
    assert s == left + core + right;
    if |core| > 0 {
      assert t[0] == core[0];
    }
  }

  lemma {:induction false} StripLeftPadded(left: string, t: string)
    requires AllSpace(left) && (|t| > 0 ==> !IsSpace(t[0]))
    ensures StripLeft(left + t) == t
    decreases |left|
  {
    if |left| > 0 {
      assert (left + t)[1..] == left[1..] + t;
      StripLeftPadded(left[1..], t);
    }
  }

  lemma {:induction false} StripRightPadded(t: string, right: string)
    requires AllSpace(right) && (|t| > 0 ==> !IsSpace(t[|t| - 1]))
    ensures StripRight(t + right) == t
    decreases |right|
  {
    if |right| > 0 {
      assert (t + right)[..|t + right| - 1] == t + right[..|right| - 1];
      StripRightPadded(t, right[..|right| - 1]);
    } else {
      assert t + right == t;
    }
  }

  /** Stripping a trimmed text padded with spaces gives back the text. */
  lemma StripPadded(left: string, core: string, right: string)
    requires AllSpace(left) && AllSpace(right) && Trimmed(core)
    ensures Strip(left + core + right) == core
  {
    if |core| == 0 {
      assert left + core + right == left + right;
      StripLeftPadded(left + right, "");
      assert left + right + "" == left + right;
    } else {
      assert left + core + right == left + (core + right);
      StripLeftPadded(left, core + right);
      StripRightPadded(core, right);
    }
  }

  /** A text strips to `word` (trimmed) exactly when it pads `word` with spaces. */
  lemma StripToWord(s: string, word: string)
    requires Trimmed(word)
    ensures Strip(s) == word <==> PaddedWord(s, word)
  {
    var left, right := StripSplit(s);
    if PaddedWord(s, word) {
      var l, r :| AllSpace(l) && AllSpace(r) && s == l + word + r;
      StripPadded(l, word, r);
    }
  }

  /** A text strips to nothing exactly when it is all whitespace. */
  lemma StripEmpty(s: string)
    ensures Strip(s) == "" <==> AllSpace(s)
  {
    var left, right := StripSplit(s);
    if Strip(s) == "" {
      assert s == left + right;
      forall i | 0 <= i < |s| ensures IsSpace(s[i]) {
        if i < |left| {
          assert s[i] == left[i];
        } else {
          assert s[i] == right[i - |left|];
        }
      }
    }
    if AllSpace(s) {
      StripPadded(s, "", "");
      assert s + "" + "" == s;
    }
  }

  /** Lower-casing before or after stripping gives the same text: no space is a letter. */
  lemma LowerStrip(s: string)
    ensures Lower(Strip(s)) == Strip(Lower(s))
  {
    LowerStripLeft(s);
    LowerStripRight(StripLeft(s));
  }

  lemma {:induction false} LowerStripLeft(s: string)
    ensures Lower(StripLeft(s)) == StripLeft(Lower(s))
    decreases |s|
  {
    if |s| > 0 {
      assert Lower(s)[1..] == Lower(s[1..]);
      LowerStripLeft(s[1..]);
    }
  }

  lemma {:induction false} LowerStripRight(s: string)
    ensures Lower(StripRight(s)) == StripRight(Lower(s))
    decreases |s|
  {
    if |s| > 0 {
      assert Lower(s)[..|s| - 1] == Lower(s[..|s| - 1]);
      LowerStripRight(s[..|s| - 1]);
    }
  }

  function DigitChar(d: nat): char
    requires d < 10
  {
    ('0' as int + d) as char
  }

  function DigitValue(c: char): nat
    requires IsDigit(c)
  {
    c as int - '0' as int
  }

  /** Python's `str(n)` for a non-negative integer. */
  function NatToString(n: nat): (r: string)
    ensures |r| >= 1
  {
    if n < 10 then [DigitChar(n)] else NatToString(n / 10) + [DigitChar(n % 10)]
  }

  predicate AllDigits(s: string) {
    forall i | 0 <= i < |s| :: IsDigit(s[i])
  }

  function DigitsValue(s: string): nat
    requires AllDigits(s)
  {
    if |s| == 0 then 0 else DigitsValue(s[..|s| - 1]) * 10 + DigitValue(s[|s| - 1])
  }

  /**
   * Python's `int(s)` on the forms the model admits: an optional sign followed by
   * one or more ASCII digits. `None` stands for the `ValueError` Python raises.
   */
  function ParseInt(s: string): (r: Option<int>)
    ensures r.Some? ==> |s| >= 1
  {
    if |s| >= 2 && (s[0] == '+' || s[0] == '-') && AllDigits(s[1..]) then
      Some(if s[0] == '-' then -(DigitsValue(s[1..]) as int) else DigitsValue(s[1..]) as int)
    else if |s| >= 1 && AllDigits(s) then Some(DigitsValue(s))
    else None
  }

  lemma {:induction false} DigitsOfNatToString(n: nat)
    ensures AllDigits(NatToString(n))
    ensures DigitsValue(NatToString(n)) == n
  {
    var s := NatToString(n);
    if n >= 10 {
      DigitsOfNatToString(n / 10);
      assert s[..|s| - 1] == NatToString(n / 10);
    }
  }

  /** `int(str(n)) == n`: the decimal rendering parses back to the same number. */
  lemma ParseNatToString(n: nat)
    ensures ParseInt(NatToString(n)) == Some(n)
  {
    DigitsOfNatToString(n);
  }

  /** Stripping leaves a run of digits unchanged: no digit is a space. */
  lemma StripDigits(s: string)
    requires AllDigits(s)
    ensures Strip(s) == s
  {
    if |s| > 0 {
      assert !IsSpace(s[0]) && !IsSpace(s[|s| - 1]);
    }
  }

  /** The decimal rendering of a number never holds the given non-digit character. */
  lemma NatToStringLacks(n: nat, c: char)
    requires !IsDigit(c)
    ensures c !in NatToString(n)
  {
    DigitsOfNatToString(n);
  }
}
