/** Canonical ids of MAX messages and their edited variants (src/bridge/media_retry.py). */
module MessageIds {
  import opened Wrappers

  const EDITED := ":EDITED"
  const STATUS_EDITED := ":MESSAGESTATUS.EDITED"

  predicate IsSpace(c: char) {
    c == ' ' || '\t' <= c <= '\r'
  }

  function StripLeft(s: string): string {
    if s != "" && IsSpace(s[0]) then StripLeft(s[1..]) else s
  }

  function StripRight(s: string): string {
    if s != "" && IsSpace(s[|s| - 1]) then StripRight(s[..|s| - 1]) else s
  }

  function Strip(s: string): string {
    StripRight(StripLeft(s))
  }

  function UpperChar(c: char): char {
    if 'a' <= c <= 'z' then c - 'a' + 'A' else c
  }

  function LowerChar(c: char): char {
    if 'A' <= c <= 'Z' then c - 'A' + 'a' else c
  }

  function Upper(s: string): (r: string)
    ensures |r| == |s|
  {
    seq(|s|, i requires 0 <= i < |s| => UpperChar(s[i]))
  }

  function Lower(s: string): (r: string)
    ensures |r| == |s|
  {
    seq(|s|, i requires 0 <= i < |s| => LowerChar(s[i]))
  }

  predicate EndsWith(s: string, suffix: string) {
    |s| >= |suffix| && Upper(s)[|s| - |suffix|..] == suffix
  }

  /** What follows the last dot. */
  function AfterDot(s: string): string {
    if s == "" then ""
    else if s[|s| - 1] == '.' then ""
    else AfterDot(s[..|s| - 1]) + [s[|s| - 1]]
  }

  function NonEmpty(s: string): Option<string> {
    if s == "" then None else Some(s)
  }

  function EditBase(id: string, status: string): Option<string> {
    var text := Strip(id);
    if text == "" then None
    else if EndsWith(text, EDITED) then NonEmpty(text[..|text| - |EDITED|])
    else if EndsWith(text, STATUS_EDITED) then NonEmpty(text[..|text| - |STATUS_EDITED|])
    else if AfterDot(Upper(Strip(status))) == "EDITED" then Some(text)
    else None
  }

  function Canonical(id: string, status: string): Option<string> {
    if EditBase(id, status).Some? then EditBase(id, status) else NonEmpty(Strip(id))
  }

  function PartKind(kind: string): string {
    var text := Lower(Strip(kind));
    if text == "" then "unknown" else text
  }

  /** An id that is itself an edited variant of another one. */
  predicate IsVariant(id: string) {
    || (EndsWith(id, EDITED) && |id| > |EDITED|)
    || (EndsWith(id, STATUS_EDITED) && |id| > |STATUS_EDITED|)
  }

  /** The same letter, large or small. */
  predicate SameLetter(c: char, d: char) {
    c == d || ('A' <= c <= 'Z' && d == c - 'A' + 'a') || ('A' <= d <= 'Z' && c == d - 'A' + 'a')
  }

  predicate SameLetters(s: string, t: string) {
    |s| == |t| && forall i :: 0 <= i < |s| ==> SameLetter(s[i], t[i])
  }

  /** What an edited variant of an id ends with. */
  predicate IsSuffix(suffix: string) {
    SameLetters(suffix, ":EDITED") || SameLetters(suffix, ":MESSAGESTATUS.EDITED")
  }

  /** Two kinds are one exactly if they differ in white space around them and in the size of letters only. */
  lemma KindsAgreeIff(a: string, b: string)
    ensures PartKind(a) == PartKind(b) <==>
            SameLetters(if Strip(a) == "" then "unknown" else Strip(a), if Strip(b) == "" then "unknown" else Strip(b))
  {
    hide Strip;
    var s, t := if Strip(a) == "" then "unknown" else Strip(a), if Strip(b) == "" then "unknown" else Strip(b);
    assert Lower("unknown") == "unknown";
    assert PartKind(a) == Lower(s) && PartKind(b) == Lower(t);
    if |s| == |t| {
      assert forall i :: 0 <= i < |s| ==> Lower(s)[i] == LowerChar(s[i]) && Lower(t)[i] == LowerChar(t[i]);
    }
  }

  lemma UpperIs(s: string, word: string)
    requires Upper(word) == word
    ensures Upper(s) == word <==> SameLetters(s, word)
  {
    assert forall i :: 0 <= i < |word| ==> word[i] == UpperChar(word[i]);
  }

  lemma {:induction false} AfterDotIs(s: string, word: string)
    requires '.' !in word
    ensures AfterDot(s) == word <==> s == word || (|s| > |word| && s[|s| - |word|..] == word && s[|s| - |word| - 1] == '.')
  {
    if word == "" {
      if s != "" && s[|s| - 1] != '.' {
        assert AfterDot(s) != "";
      }
    } else if s != "" {
      var n := |word| - 1;
      AfterDotIs(s[..|s| - 1], word[..n]);
      assert word == word[..n] + [word[n]];
      if |s| > n {
        assert s[|s| - 1 - n..] == s[..|s| - 1][|s| - 1 - n..] + [s[|s| - 1]];
      }
      assert s == s[..|s| - 1] + [s[|s| - 1]];
    }
  }

  /** The status "edited", or one that ends with it after a dot, marks a message as edited whatever its id. */
  lemma StatusMarksEdits(id: string, status: string)
    requires Strip(id) != "" && EditBase(id, "").None? && !IsSuffix(Strip(id))
    ensures var word := Strip(status);
            EditBase(id, status) ==
            if SameLetters(word, "EDITED") || (|word| > 6 && word[|word| - 7] == '.' && SameLetters(word[|word| - 6..], "EDITED"))
            then Some(Strip(id)) else None
  {
    hide Strip, AfterDot, Upper, SameLetters, EndsWith, IsSuffix;
    NotSuffixed(id);
    NotSuffixedStatus(id, status);
    EditedWord(Strip(status));
  }

  lemma NotSuffixedStatus(id: string, status: string)
    requires Strip(id) != "" && !EndsWith(Strip(id), EDITED) && !EndsWith(Strip(id), STATUS_EDITED)
    ensures EditBase(id, status) == if AfterDot(Upper(Strip(status))) == "EDITED" then Some(Strip(id)) else None
  {
    hide Strip, AfterDot, Upper, EndsWith;
  }

  lemma EditedWord(word: string)
    ensures AfterDot(Upper(word)) == "EDITED" <==>
            SameLetters(word, "EDITED") || (|word| > 6 && word[|word| - 7] == '.' && SameLetters(word[|word| - 6..], "EDITED"))
  {
    hide AfterDot, SameLetters;
    UpperIs(word, "EDITED");
    AfterDotIs(Upper(word), "EDITED");
    if |word| > 6 {
      UpperIs(word[|word| - 6..], "EDITED");
      assert Upper(word)[|word| - 6..] == Upper(word[|word| - 6..]);
    }
  }

  lemma NotSuffixed(id: string)
    requires Strip(id) != "" && EditBase(id, "").None? && !IsSuffix(Strip(id))
    ensures !EndsWith(Strip(id), EDITED) && !EndsWith(Strip(id), STATUS_EDITED)
  {
    hide Strip, AfterDot;
    UpperIs(Strip(id), EDITED);
    UpperIs(Strip(id), STATUS_EDITED);
  }

  /** The status of a message plays no part in its canonical id. */
  lemma StatusIsIrrelevant(id: string, status: string, other: string)
    ensures Canonical(id, status) == Canonical(id, other)
  {
    hide EndsWith, AfterDot, Upper, Strip;
  }

  lemma {:induction false} Trimmed(s: string)
    requires s != "" && !IsSpace(s[0]) && !IsSpace(s[|s| - 1])
    ensures Strip(s) == s
  {
  }

  lemma {:induction false} StripLeftStarts(s: string)
    ensures StripLeft(s) == "" || !IsSpace(StripLeft(s)[0])
  {
    if s != "" && IsSpace(s[0]) {
      StripLeftStarts(s[1..]);
    }
  }

  lemma {:induction false} StripRightEnds(s: string)
    ensures StripRight(s) <= s && (StripRight(s) == "" || !IsSpace(StripRight(s)[|StripRight(s)| - 1]))
  {
    if s != "" && IsSpace(s[|s| - 1]) {
      StripRightEnds(s[..|s| - 1]);
    }
  }

  /** Nothing is left to strip at either end. */
  lemma StripTrims(s: string)
    ensures Strip(s) != "" ==> Strip(s)[0] !in " \t\n\r" && Strip(s)[|Strip(s)| - 1] !in " \t\n\r"
    ensures Strip(s) == "" || (!IsSpace(Strip(s)[0]) && !IsSpace(Strip(s)[|Strip(s)| - 1]))
    ensures Strip(Strip(s)) == Strip(s)
  {
    StripLeftStarts(s);
    StripRightEnds(StripLeft(s));
    if Strip(s) != "" {
      Trimmed(Strip(s));
    }
  }

  lemma UpperSuffix(s: string, suffix: string, word: string)
    requires SameLetters(suffix, word) && Upper(word) == word
    ensures EndsWith(s + suffix, word)
  {
    UpperIs(suffix, word);
    assert Upper(s + suffix)[|s|..] == Upper(suffix);
  }

  /** The canonical id of an edited variant is the id it was made from, whatever it ends with and however that is written. */
  lemma EditedOf(base: string, suffix: string, status: string)
    requires base != "" && Strip(base) == base && IsSuffix(suffix)
    ensures Canonical(base + suffix, status) == Some(base)
  {
    StripTrims(base);
    assert Upper(EDITED) == EDITED && Upper(STATUS_EDITED) == STATUS_EDITED;
    var text := base + suffix;
    assert !IsSpace(text[|text| - 1]);
    Trimmed(text);
    assert text[..|text| - |suffix|] == base;
    if SameLetters(suffix, EDITED) {
      UpperSuffix(base, suffix, EDITED);
    } else {
      UpperSuffix(base, suffix, STATUS_EDITED);
      assert Upper(text)[|text| - 7] == UpperChar(text[|text| - 7]) == '.';
    }
  }

  lemma VariantBase(base: string, status: string)
    requires base != "" && Strip(base) == base
    ensures Canonical(base, status) == Some(base) <==> !IsVariant(base)
  {
  }

  /** A message and its edited variant share a canonical id exactly if the message is not a variant itself. */
  lemma EditedSharesBase(base: string, suffix: string, status: string, edited: string)
    requires base != "" && Strip(base) == base && IsSuffix(suffix)
    ensures Canonical(base + suffix, edited) == Canonical(base, status) <==> !IsVariant(base)
  {
    EditedOf(base, suffix, edited);
    VariantBase(base, status);
  }
}
