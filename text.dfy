/** The .NET string operations that the registry's admission rules are built
    from: `string.IsNullOrWhiteSpace`, `Trim`, `ToLower` and the pattern
    `^[a-zA-Z0-9_]+$`. A C# string that may be null is an `Option<string>`. */
module Text {
  import opened Wrappers

  /** `char.IsWhiteSpace`: the Unicode White_Space characters as .NET lists them. */
  predicate IsWhiteSpace(c: char) {
    var n := c as int;
    (0x09 <= n <= 0x0D) || n == 0x20 || n == 0x85 || n == 0xA0 || n == 0x1680
    || (0x2000 <= n <= 0x200A) || n == 0x2028 || n == 0x2029 || n == 0x202F
    || n == 0x205F || n == 0x3000
  }

  predicate AllWhiteSpace(s: string) {
    forall i :: 0 <= i < |s| ==> IsWhiteSpace(s[i])
  }

  predicate NoWhiteSpace(s: string) {
    forall i :: 0 <= i < |s| ==> !IsWhiteSpace(s[i])
  }

  /** `string.IsNullOrWhiteSpace`: null, empty, or only white space. */
  predicate IsNullOrWhiteSpace(s: Option<string>) {
    s.None? || AllWhiteSpace(s.value)
  }

  /** Number of white-space characters in front of the first other one. */
  function LeadingWhiteSpace(s: string): (k: nat)
    ensures k <= |s|
    ensures forall i :: 0 <= i < k ==> IsWhiteSpace(s[i])
    ensures k < |s| ==> !IsWhiteSpace(s[k])
  {
    if s == [] || !IsWhiteSpace(s[0]) then 0 else 1 + LeadingWhiteSpace(s[1..])
  }

  /** Length of `s` once its trailing white space is cut off. */
  function TrailingStart(s: string): (e: nat)
    ensures e <= |s|
    ensures forall i :: e <= i < |s| ==> IsWhiteSpace(s[i])
    ensures e > 0 ==> !IsWhiteSpace(s[e - 1])
  {
    if s == [] || !IsWhiteSpace(s[|s| - 1]) then |s| else TrailingStart(s[..|s| - 1])
  }

  /** `string.Trim`: `s` without its leading and trailing white space. The
      result is the infix of `s` left when white space is cut from both
      ends; it is empty exactly when `s` is all white space, and otherwise
      neither starts nor ends with white space. */
  function Trim(s: string): (r: string)
    ensures r == [] <==> AllWhiteSpace(s)
    ensures r != [] ==> !IsWhiteSpace(r[0]) && !IsWhiteSpace(r[|r| - 1])
    ensures LeadingWhiteSpace(s) + |r| <= |s|
    ensures r == s[LeadingWhiteSpace(s)..LeadingWhiteSpace(s) + |r|]
    ensures forall i :: (0 <= i < |s| && !(LeadingWhiteSpace(s) <= i < LeadingWhiteSpace(s) + |r|))
                        ==> IsWhiteSpace(s[i])
  {
    var k := LeadingWhiteSpace(s);
    var e := TrailingStart(s);
    if k == |s| then
      []
    else
      assert !IsWhiteSpace(s[k]);
      s[k..e]
  }

  lemma TrimWithoutWhiteSpace(s: string)
    requires NoWhiteSpace(s)
    ensures Trim(s) == s
  {
    if s != [] {
      assert !IsWhiteSpace(s[0]) && !IsWhiteSpace(s[|s| - 1]);
    }
  }

  /** A string that is not null or blank keeps something after `Trim`. */
  lemma TrimOfNonBlank(s: Option<string>)
    requires !IsNullOrWhiteSpace(s)
    ensures Trim(s.value) != [] && !IsWhiteSpace(Trim(s.value)[0])
  {
  }

  predicate IsAsciiUpper(c: char) {
    'A' <= c <= 'Z'
  }

  function LowerChar(c: char): char {
    if IsAsciiUpper(c) then (c as int + 32) as char else c
  }

  /** `ToLower`, on the ASCII letters: every upper-case ASCII letter becomes
      its lower-case partner, every other character is kept. */
  function ToLower(s: string): (r: string)
    ensures |r| == |s|
    ensures forall i :: 0 <= i < |s| ==>
      if IsAsciiUpper(s[i]) then r[i] as int == s[i] as int + 32 else r[i] == s[i]
  {
    if s == [] then [] else [LowerChar(s[0])] + ToLower(s[1..])
  }

  /** No upper-case ASCII letter survives `ToLower`. */
  lemma ToLowerHasNoUpper(s: string)
    ensures forall i :: 0 <= i < |ToLower(s)| ==> !IsAsciiUpper(ToLower(s)[i])
  {
  }

  lemma {:induction false} ToLowerIdempotent(s: string)
    ensures ToLower(ToLower(s)) == ToLower(s)
  {
    var l := ToLower(s);
    var ll := ToLower(l);
    ToLowerHasNoUpper(s);
  }

  /** One character of the class `[a-zA-Z0-9_]`. */
  predicate IsWordChar(c: char) {
    ('a' <= c <= 'z') || ('A' <= c <= 'Z') || ('0' <= c <= '9') || c == '_'
  }

  /** The whole string matches `^[a-zA-Z0-9_]+$`. */
  predicate MatchesWordPattern(s: string) {
    |s| > 0 && forall i :: 0 <= i < |s| ==> IsWordChar(s[i])
  }

  lemma WordHasNoWhiteSpace(s: string)
    requires MatchesWordPattern(s)
    ensures NoWhiteSpace(s) && Trim(s) == s
  {
    TrimWithoutWhiteSpace(s);
  }

  /** Lower-casing neither creates nor removes a character outside the class. */
  lemma ToLowerKeepsWordPattern(s: string)
    ensures MatchesWordPattern(ToLower(s)) <==> MatchesWordPattern(s)
  {
    var l := ToLower(s);
    if MatchesWordPattern(l) {
      forall i | 0 <= i < |s| ensures IsWordChar(s[i]) {
        assert IsWordChar(l[i]);
      }
    }
  }

  /** The strings `ToLower` leaves as they are: those without upper-case ASCII. */
  lemma ToLowerFixedPoint(s: string)
    ensures ToLower(s) == s <==> forall i :: 0 <= i < |s| ==> !IsAsciiUpper(s[i])
  {
    if forall i :: 0 <= i < |s| ==> !IsAsciiUpper(s[i]) {
      assert ToLower(s) == s;
    } else {
      var i :| 0 <= i < |s| && IsAsciiUpper(s[i]);
      assert ToLower(s)[i] != s[i];
    }
  }
}
