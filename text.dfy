/** The three `java.lang.String` operations the configuration applies to the
    names it is given: `trim()`, `toLowerCase()` and `equalsIgnoreCase()`.
    Characters are treated as ASCII; see README for what that leaves out. */
module Text {

  /** `String.trim()` strips every character whose code is at most U+0020. */
  predicate IsTrimmed(c: char) {
    c <= ' '
  }

  /** Number of characters `trim()` removes from the front of `s`. */
  function LeadingBlanks(s: string): (k: nat)
    ensures k <= |s|
    ensures forall i :: 0 <= i < k ==> IsTrimmed(s[i])
    ensures k < |s| ==> !IsTrimmed(s[k])
  {
    if s == [] || !IsTrimmed(s[0]) then 0 else 1 + LeadingBlanks(s[1..])
  }

  /** Length of `s` once `trim()` has removed the blanks at its end. */
  function TrailingEnd(s: string): (k: nat)
    ensures k <= |s|
    ensures forall i :: k <= i < |s| ==> IsTrimmed(s[i])
    ensures k > 0 ==> !IsTrimmed(s[k - 1])
  {
    if s == [] || !IsTrimmed(s[|s| - 1]) then |s| else TrailingEnd(s[..|s| - 1])
  }

  /** `String.trim()`: the part of `s` between its leading and trailing blanks;
      empty when `s` holds nothing but blanks. */
  function Trim(s: string): (r: string)
    ensures |r| <= |s|
    ensures r != [] ==> !IsTrimmed(r[0]) && !IsTrimmed(r[|r| - 1])
    ensures r == [] ==> forall i :: 0 <= i < |s| ==> IsTrimmed(s[i])
  {
    var start := LeadingBlanks(s);
    if start == |s| then [] else s[start..TrailingEnd(s)]
  }

  /** `trim()` returns the part of `s` that starts right after the leading
      blanks. */
  lemma TrimSlice(s: string)
    ensures LeadingBlanks(s) + |Trim(s)| <= |s|
    ensures Trim(s) == s[LeadingBlanks(s)..LeadingBlanks(s) + |Trim(s)|]
  {
    var start := LeadingBlanks(s);
    if start < |s| {
      var end := TrailingEnd(s);
      assert !IsTrimmed(s[start]);
      assert start < end;
      assert Trim(s) == s[start..end];
    }
  }

  /** Cutting a string at two positions and gluing the pieces back gives the
      string: the step that puts the trimmed text back between its blanks. */
  lemma SplitInThree(s: string, i: nat, j: nat)
    requires i <= j <= |s|
    ensures s == s[..i] + s[i..j] + s[j..]
  {
  }

  /** What `trim()` cut off is blank on both sides, and nothing else is lost:
      `s` is the leading blanks, then `Trim(s)`, then the trailing blanks. */
  lemma TrimDecomposition(s: string)
    ensures var start := LeadingBlanks(s);
            start + |Trim(s)| <= |s| &&
            s == s[..start] + Trim(s) + s[start + |Trim(s)|..] &&
            forall i :: start + |Trim(s)| <= i < |s| ==> IsTrimmed(s[i])
  {
    TrimSlice(s);
    var start := LeadingBlanks(s);
    SplitInThree(s, start, start + |Trim(s)|);
  }

  /** Trimming twice is the same as trimming once. */
  lemma TrimIdempotent(s: string)
    ensures Trim(Trim(s)) == Trim(s)
  {
    var t := Trim(s);
    if t != [] {
      assert LeadingBlanks(t) == 0;
      assert TrailingEnd(t) == |t|;
    }
  }

  /** `Character.toLowerCase` restricted to ASCII letters. */
  function LowerChar(c: char): (r: char)
    ensures 'A' <= c <= 'Z' ==> r as int == c as int + 32
    ensures !('A' <= c <= 'Z') ==> r == c
  {
    if 'A' <= c <= 'Z' then (c as int + 32) as char else c
  }

  predicate IsUpper(c: char) {
    'A' <= c <= 'Z'
  }

  /** `String.toLowerCase()`, character by character. */
  function Lower(s: string): (r: string)
    ensures |r| == |s|
    ensures forall i :: 0 <= i < |s| ==> r[i] == LowerChar(s[i])
  {
    if s == [] then [] else [LowerChar(s[0])] + Lower(s[1..])
  }

  /** A lower-cased string holds no upper-case letter, and lower-casing it
      again changes nothing. */
  lemma LowerIsLowerCase(s: string)
    ensures forall i :: 0 <= i < |s| ==> !IsUpper(Lower(s)[i])
    ensures Lower(Lower(s)) == Lower(s)
  {
  }

  /** A string without upper-case letters is its own lower-case form. */
  lemma {:induction false} LowerOfLowerCase(s: string)
    requires forall i :: 0 <= i < |s| ==> !IsUpper(s[i])
    ensures Lower(s) == s
  {
    if s != [] {
      LowerOfLowerCase(s[1..]);
    }
  }

  /** `String.equalsIgnoreCase`: same length and equal characters up to
      case, which is comparing the lower-case forms, in both directions. */
  predicate EqualsIgnoreCase(a: string, b: string): (r: bool)
    ensures r <==> Lower(a) == Lower(b)
  {
    |a| == |b| && forall i :: 0 <= i < |a| ==> LowerChar(a[i]) == LowerChar(b[i])
  }

  /** Against a literal written in lower case, `equalsIgnoreCase` holds
      exactly when lower-casing the other string yields the literal. */
  lemma EqualsIgnoreCaseLiteral(literal: string, s: string)
    requires forall i :: 0 <= i < |literal| ==> !IsUpper(literal[i])
    ensures EqualsIgnoreCase(literal, s) <==> Lower(s) == literal
  {
    LowerOfLowerCase(literal);
  }
}
