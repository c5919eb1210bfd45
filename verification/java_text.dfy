/** The parts of java.lang.String the account rules rely on: `isBlank`,
    `trim` and `toUpperCase`. A Java string is modelled as a sequence of
    Unicode scalar values. */
module JavaText {

  /** `Character.isWhitespace`: the ASCII controls TAB to CR and FS to US,
      and the space, line and paragraph separators other than the
      non-breaking ones (U+00A0, U+2007, U+202F). */
  predicate IsWhitespace(c: char)
  {
    ('\t' <= c <= '\r') || ('\U{1C}' <= c <= ' ') || c == '\U{1680}'
    || ('\U{2000}' <= c <= '\U{200A}' && c != '\U{2007}')
    || c == '\U{2028}' || c == '\U{2029}' || c == '\U{205F}' || c == '\U{3000}'
  }

  /** `String.isBlank`: empty, or white space only. */
  predicate IsBlank(s: string)
  {
    forall i :: 0 <= i < |s| ==> IsWhitespace(s[i])
  }

  /** How many leading characters `String.trim` drops: every one up to U+0020. */
  function LeadingCut(s: string): (k: nat)
    ensures k <= |s|
    ensures forall i :: 0 <= i < k ==> s[i] <= ' '
    ensures k < |s| ==> s[k] > ' '
  {
    if s == [] || s[0] > ' ' then 0 else 1 + LeadingCut(s[1..])
  }

  /** Where the part `String.trim` keeps ends: just after the last
      character above U+0020, or 0 when there is none. */
  function TrailingEnd(s: string): (k: nat)
    ensures k <= |s|
    ensures forall i :: k <= i < |s| ==> s[i] <= ' '
    ensures 0 < k ==> s[k - 1] > ' '
  {
    if s == [] || s[|s| - 1] > ' ' then |s| else TrailingEnd(s[..|s| - 1])
  }

  /** `String.trim`: drops the characters up to U+0020 at both ends. */
  function Trim(s: string): (r: string)
    ensures |r| <= |s|
    ensures r == [] <==> forall i :: 0 <= i < |s| ==> s[i] <= ' '
    ensures r != [] ==> r[0] > ' ' && r[|r| - 1] > ' '
    ensures exists lo, hi ::
              && 0 <= lo <= hi <= |s| && r == s[lo..hi]
              && (forall i :: 0 <= i < lo ==> s[i] <= ' ')
              && (forall i :: hi <= i < |s| ==> s[i] <= ' ')
  {
    var lo, hi := LeadingCut(s), TrailingEnd(s);
    if hi <= lo then
      assert [] == s[lo..lo];
      []
    else
      s[lo..hi]
  }

  /** A space with a character above U+0020 somewhere on each side of it:
      what is left of "contains a space" once the ends are trimmed. */
  ghost predicate HasInteriorSpace(s: string)
  {
    exists i, k, j :: 0 <= i < k < j < |s| && s[i] > ' ' && s[k] == ' ' && s[j] > ' '
  }

  /** `trim().contains(" ")` holds exactly for strings with an interior space. */
  lemma SpaceInTrimIff(s: string)
    ensures ' ' in Trim(s) <==> HasInteriorSpace(s)
  {
    if ' ' in Trim(s) {
      TrimIsMiddle(s);
      SpaceInTrimIsInterior(s);
    }
    if HasInteriorSpace(s) {
      var i, k, j :| 0 <= i < k < j < |s| && s[i] > ' ' && s[k] == ' ' && s[j] > ' ';
      InteriorSpaceSurvivesTrim(s, i, k, j);
    }
  }

  /** What `trim` keeps, when anything: the part between the two cuts. */
  lemma TrimIsMiddle(s: string)
    ensures ' ' in Trim(s) ==> LeadingCut(s) < TrailingEnd(s)
    ensures LeadingCut(s) < TrailingEnd(s) ==> Trim(s) == s[LeadingCut(s)..TrailingEnd(s)]
  {
  }

  /** A space kept by `trim` lies between its first and last characters. */
  lemma SpaceInTrimIsInterior(s: string)
    requires LeadingCut(s) < TrailingEnd(s) && ' ' in s[LeadingCut(s)..TrailingEnd(s)]
    ensures HasInteriorSpace(s)
  {
    var lo, hi := LeadingCut(s), TrailingEnd(s);
    var t := s[lo..hi];
    var m :| 0 <= m < |t| && t[m] == ' ';
    SpaceBetweenIsInterior(s, lo, lo + m, hi - 1);
  }

  /** A space strictly between two characters above U+0020 is an interior space. */
  lemma SpaceBetweenIsInterior(s: string, i: nat, k: nat, j: nat)
    requires i <= k <= j < |s| && s[i] > ' ' && s[k] == ' ' && s[j] > ' '
    ensures HasInteriorSpace(s)
  {
    assert i < k < j;
  }

  /** `trim` keeps every character from the first to the last one above U+0020. */
  lemma InteriorSpaceSurvivesTrim(s: string, i: nat, k: nat, j: nat)
    requires i < k < j < |s| && s[i] > ' ' && s[k] == ' ' && s[j] > ' '
    ensures ' ' in Trim(s)
  {
    var lo, hi := LeadingCut(s), TrailingEnd(s);
    assert lo <= i && j < hi;
    TrimIsMiddle(s);
    var t := s[lo..hi];
    assert t[k - lo] == ' ';
  }

  /** ASCII `Character.toUpperCase`: 'a' to 'z' become 'A' to 'Z'. */
  function ToUpper(c: char): char
  {
    if 'a' <= c <= 'z' then (c as int - ('a' as int - 'A' as int)) as char else c
  }

  /** `String.toUpperCase`, character by character. */
  function UpperCase(s: string): string
  {
    seq(|s|, i requires 0 <= i < |s| => ToUpper(s[i]))
  }

  /** Upper-casing keeps the length and leaves no lower-case ASCII letter. */
  lemma UpperCaseShape(s: string)
    ensures |UpperCase(s)| == |s|
    ensures forall i :: 0 <= i < |s| ==> !('a' <= UpperCase(s)[i] <= 'z')
  {
  }

  /** Upper-casing twice is upper-casing once. */
  lemma UpperCaseIdempotent(s: string)
    ensures UpperCase(UpperCase(s)) == UpperCase(s)
  {
  }

  /** Upper-casing turns no white space into a letter and no letter into
      white space, so it keeps a string blank or non-blank. */
  lemma UpperCaseKeepsBlankness(s: string)
    ensures IsBlank(UpperCase(s)) <==> IsBlank(s)
  {
    var u := UpperCase(s);
    forall i | 0 <= i < |s|
      ensures IsWhitespace(u[i]) <==> IsWhitespace(s[i])
    {
    }
  }

  /** Upper-casing a name whose letters are all ASCII: each lower-case
      letter turns into its capital and nothing else changes. */
  lemma UpperCaseOfName(s: string, t: string)
    requires |s| == |t|
    requires forall i :: 0 <= i < |s| ==> t[i] == (if 'a' <= s[i] <= 'z' then (s[i] as int - 32) as char else s[i])
    ensures UpperCase(s) == t
  {
  }
}
