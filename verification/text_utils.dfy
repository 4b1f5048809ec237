/**
 * The Thai text utilities of `src/utilities/text_utils.py`: translating Thai
 * digits to Arabic digits (`thai_to_arabic`) and the chain of regular
 * expression deletions of `remove_unimportant_word`. Strings are sequences of
 * Unicode scalar values: the model restricts text to those, leaving out the
 * lone surrogates a Python `str` can also hold.
 */
module TextUtils {
  import opened Sequences

  // ---------------------------------------------------------------------
  // Character classes
  // ---------------------------------------------------------------------

  /**
   * Python's whitespace (`\s` in a `str` pattern, and what `str.strip()`
   * removes): the characters for which `str.isspace()` holds. It includes
   * space, `\t`, `\n`, `\r`, `\f` and `\v`. The proofs below use only that
   * `\n`, `\r` and `\t` are whitespace and that digits, parentheses and
   * label letters are not.
   */
  predicate IsSpace(c: char) {
    ('\U{0009}' <= c <= '\U{000D}') || ('\U{001C}' <= c <= '\U{0020}')
    || c == '\U{0085}' || c == '\U{00A0}' || c == '\U{1680}'
    || ('\U{2000}' <= c <= '\U{200A}') || c == '\U{2028}' || c == '\U{2029}'
    || c == '\U{202F}' || c == '\U{205F}' || c == '\U{3000}'
  }

  predicate NotSpace(c: char) { !IsSpace(c) }

  /** The class `[\n\r\t]` of the first substitution. */
  predicate IsLineBreakOrTab(c: char) { c == '\n' || c == '\r' || c == '\t' }

  predicate NotLineBreakOrTab(c: char) { !IsLineBreakOrTab(c) }

  /** The class `[a-zA-Zก-ฮ]`: ASCII letters and the Thai consonants U+0E01 to U+0E2E. */
  predicate IsLabelLetter(c: char) {
    ('a' <= c <= 'z') || ('A' <= c <= 'Z') || ('\U{0E01}' <= c <= '\U{0E2E}')
  }

  /** The class `[ก-ฮ]` of the fourth substitution. */
  predicate IsThaiConsonant(c: char) { '\U{0E01}' <= c <= '\U{0E2E}' }

  /** The class `[ะ-ู็-๏]`: Thai vowels, tone marks and signs. */
  predicate IsThaiVowelOrMark(c: char) {
    ('\U{0E30}' <= c <= '\U{0E39}') || ('\U{0E47}' <= c <= '\U{0E4F}')
  }

  predicate NoSpace(s: string) { forall i :: 0 <= i < |s| ==> !IsSpace(s[i]) }

  // ---------------------------------------------------------------------
  // thai_to_arabic
  // ---------------------------------------------------------------------

  /** Thai digits ๐ (U+0E50) to ๙ (U+0E59). */
  predicate IsThaiDigit(c: char) { '\U{0E50}' <= c <= '\U{0E59}' }

  predicate IsArabicDigit(c: char) { '0' <= c <= '9' }

  predicate NoThaiDigit(s: string) { forall i :: 0 <= i < |s| ==> !IsThaiDigit(s[i]) }

  /** The translation table `str.maketrans("๑๒๓๔๕๖๗๘๙๐", "1234567890")`. */
  const DigitTable: map<char, char> := map[
    '๑' := '1', '๒' := '2', '๓' := '3', '๔' := '4', '๕' := '5',
    '๖' := '6', '๗' := '7', '๘' := '8', '๙' := '9', '๐' := '0']

  /** One character through the table; characters without an entry are kept. */
  function TranslateChar(c: char): (d: char)
    ensures IsThaiDigit(c) ==> IsArabicDigit(d) && d as int - '0' as int == c as int - '\U{0E50}' as int
    ensures !IsThaiDigit(c) ==> d == c
  {
    if c in DigitTable then DigitTable[c] else c
  }

  /** `text.translate(thai_to_arabic_map)`: every Thai digit becomes the Arabic digit of the same value. */
  function ThaiToArabic(text: string): (r: string)
    ensures |r| == |text|
    ensures forall i :: 0 <= i < |text| && IsThaiDigit(text[i]) ==>
      IsArabicDigit(r[i]) && r[i] as int - '0' as int == text[i] as int - '\U{0E50}' as int
    ensures forall i :: 0 <= i < |text| && !IsThaiDigit(text[i]) ==> r[i] == text[i]
    ensures NoThaiDigit(r)
  {
    seq(|text|, i requires 0 <= i < |text| => TranslateChar(text[i]))
  }

  /** The translation is character-local: it commutes with concatenation. */
  lemma ThaiToArabicAppend(a: string, b: string)
    ensures ThaiToArabic(a + b) == ThaiToArabic(a) + ThaiToArabic(b)
  {
    assert forall i :: 0 <= i < |a| ==> (a + b)[i] == a[i];
    assert forall i :: |a| <= i < |a| + |b| ==> (a + b)[i] == b[i - |a|];
  }

  /** A second translation finds no Thai digit left. */
  lemma ThaiToArabicIdempotent(text: string)
    ensures ThaiToArabic(ThaiToArabic(text)) == ThaiToArabic(text)
  {
  }

  /** The translation changes exactly the Thai digits. */
  lemma ThaiToArabicUnchanged(text: string)
    ensures ThaiToArabic(text) == text <==> NoThaiDigit(text)
  {
    if ThaiToArabic(text) == text {
      assert forall i :: 0 <= i < |text| ==> !IsThaiDigit(ThaiToArabic(text)[i]);
    }
  }

  // ---------------------------------------------------------------------
  // remove_unimportant_word
  // ---------------------------------------------------------------------

  /** Length of the run of whitespace at the start of `s`. */
  function LeadingSpaces(s: string): (n: nat)
    ensures n <= |s|
    ensures forall i :: 0 <= i < n ==> IsSpace(s[i])
    ensures n < |s| ==> !IsSpace(s[n])
    decreases |s|
  {
    if s != [] && IsSpace(s[0]) then 1 + LeadingSpaces(s[1..]) else 0
  }

  /** Length of the run of whitespace at the end of `s`. */
  function TrailingSpaces(s: string): (n: nat)
    ensures n <= |s|
    ensures forall i :: |s| - n <= i < |s| ==> IsSpace(s[i])
    ensures n < |s| ==> !IsSpace(s[|s| - 1 - n])
    decreases |s|
  {
    if s != [] && IsSpace(s[|s| - 1]) then 1 + TrailingSpaces(s[..|s| - 1]) else 0
  }

  /**
   * `str.strip()` with no argument: the leading whitespace run is cut off,
   * then the trailing one of what is left.
   */
  function Strip(s: string): (r: string)
    ensures |r| <= |s|
  {
    var t := s[LeadingSpaces(s)..];
    t[..|t| - TrailingSpaces(t)]
  }

  /**
   * `str.strip()` returns the slice of `s` after its leading whitespace run,
   * with only whitespace cut off after it, and neither starting nor ending
   * with whitespace.
   */
  lemma StripSlice(s: string)
    ensures var r, i := Strip(s), LeadingSpaces(s);
      && i + |r| <= |s| && r == s[i..i + |r|]
      && (forall j :: 0 <= j < i ==> IsSpace(s[j]))
      && (forall j :: i + |r| <= j < |s| ==> IsSpace(s[j]))
      && (r != [] ==> !IsSpace(r[0]) && !IsSpace(r[|r| - 1]))
  {
    var i := LeadingSpaces(s);
    var t := s[i..];
    var n := TrailingSpaces(t);
    var r := Strip(s);
    assert r == t[..|t| - n];
    SliceOfSuffix(s, i, t, 0, |r|);
    forall j | i + |r| <= j < |s| ensures IsSpace(s[j]) {
      assert s[j] == t[j - i];
    }
  }

  /** `(c)` with `c` a label letter starts at index `i` of `s`. */
  predicate LabelAt(s: string, i: int) {
    0 <= i && i + 3 <= |s| && s[i] == '(' && IsLabelLetter(s[i + 1]) && s[i + 2] == ')'
  }

  predicate HasLabel(s: string) { exists i :: 0 <= i < |s| && LabelAt(s, i) }

  /**
   * `re.sub(r"\([a-zA-Zก-ฮ]\)", "", s)`: scanning left to right, each
   * occurrence of the three-character pattern is deleted and the scan resumes
   * after it; elsewhere the scan moves on by one character.
   */
  function RemoveLabels(s: string): (r: string)
    ensures |r| <= |s|
    decreases |s|
  {
    if |s| == 0 then []
    else if LabelAt(s, 0) then RemoveLabels(s[3..])
    else [s[0]] + RemoveLabels(s[1..])
  }

  /**
   * `re.sub(r"([ก-ฮ])\s+([ะ-ู็-๏])", r"\1\2", s)`:
   * whitespace between a Thai consonant and a following vowel or mark is
   * deleted. The greedy `\s+` can only succeed with the whole run, because
   * the character after it must be a vowel or mark, which is not whitespace.
   */
  function JoinVowels(s: string): (r: string)
    ensures |r| <= |s|
    // only whitespace is deleted: every other character survives, in order
    ensures Filter(NotSpace, r) == Filter(NotSpace, s)
    decreases |s|
  {
    if |s| == 0 then []
    else
      var k := LeadingSpaces(s[1..]);
      if IsThaiConsonant(s[0]) && k >= 1 && 1 + k < |s| && IsThaiVowelOrMark(s[1 + k]) then
        var rest := JoinVowels(s[2 + k..]);
        var t := s[1..];
        HeadAndTail(s, k);
        FilterSkip(NotSpace, s[0], t, k);
        FilterPair(NotSpace, s[0], s[1 + k], rest);
        [s[0], s[1 + k]] + rest
      else
        var rest := JoinVowels(s[1..]);
        FilterCons(NotSpace, s[0], rest);
        FilterCons(NotSpace, s[0], s[1..]);
        assert [s[0]] + s[1..] == s;
        [s[0]] + rest
  }

  /**
   * The four substitutions of `remove_unimportant_word`, in order. Once the
   * second has removed all whitespace, `strip()` and the fourth change
   * nothing and the first is subsumed: the function is whitespace deletion
   * followed by label removal.
   */
  function RemoveUnimportantWord(text: string): (r: string)
    ensures r == RemoveLabels(Filter(NotSpace, text))
  {
    var noBreaks := Filter(NotLineBreakOrTab, text);
    var kept := Filter(NotSpace, text);
    assert Filter(NotSpace, noBreaks) == kept by {
      FilterRedundant(NotSpace, NotLineBreakOrTab, text);
    }
    assert NoSpace(kept) by {
      FilterKept(NotSpace, text);
    }
    var noSpaces := Strip(Filter(NotSpace, noBreaks));
    assert noSpaces == kept by {
      StripNoSpace(kept);
    }
    var noLabels := RemoveLabels(noSpaces);
    assert JoinVowels(noLabels) == noLabels by {
      RemoveLabelsNoSpace(kept);
      JoinVowelsNoSpace(noLabels);
    }
    JoinVowels(noLabels)
  }

  // ---------------------------------------------------------------------
  // Properties of the steps
  // ---------------------------------------------------------------------

  lemma StripNoSpace(s: string)
    requires NoSpace(s)
    ensures Strip(s) == s
  {
    StripSlice(s);
  }

  /** Without whitespace there is nothing between consonant and vowel to delete. */
  lemma {:induction false} JoinVowelsNoSpace(s: string)
    requires NoSpace(s)
    ensures JoinVowels(s) == s
    decreases |s|
  {
    if |s| > 0 {
      JoinVowelsNoSpace(s[1..]);
    }
  }

  /** Label removal only deletes characters: its output is a subsequence of its input. */
  lemma {:induction false} RemoveLabelsSubsequence(s: string)
    ensures IsSubsequence(RemoveLabels(s), s)
    decreases |s|
  {
    if |s| > 0 {
      if LabelAt(s, 0) {
        RemoveLabelsSubsequence(s[3..]);
        SubsequenceOfSuffix(RemoveLabels(s[3..]), s, 3);
      } else {
        RemoveLabelsSubsequence(s[1..]);
        assert RemoveLabels(s)[1..] == RemoveLabels(s[1..]);
      }
    }
  }

  /** Label removal deletes whole three-character labels: the length drops by a multiple of three. */
  lemma {:induction false} RemoveLabelsDeletesTriples(s: string)
    ensures (|s| - |RemoveLabels(s)|) % 3 == 0
    decreases |s|
  {
    if |s| > 0 {
      if LabelAt(s, 0) {
        RemoveLabelsDeletesTriples(s[3..]);
      } else {
        RemoveLabelsDeletesTriples(s[1..]);
      }
    }
  }

  /** The characters a label is made of. */
  predicate NotLabelPart(c: char) { c != '(' && c != ')' && !IsLabelLetter(c) }

  /**
   * Label removal deletes nothing but parentheses and label letters: the
   * other characters all survive, in their original order.
   */
  lemma {:induction false} RemoveLabelsKeepsOthers(s: string)
    ensures Filter(NotLabelPart, RemoveLabels(s)) == Filter(NotLabelPart, s)
    decreases |s|
  {
    if |s| > 0 {
      if LabelAt(s, 0) {
        RemoveLabelsKeepsOthers(s[3..]);
        assert s[1..][1..][1..] == s[3..];
        assert Filter(NotLabelPart, s) == Filter(NotLabelPart, s[1..]);
        assert Filter(NotLabelPart, s[1..]) == Filter(NotLabelPart, s[1..][1..]);
        assert Filter(NotLabelPart, s[1..][1..]) == Filter(NotLabelPart, s[3..]);
      } else {
        RemoveLabelsKeepsOthers(s[1..]);
        assert ([s[0]] + RemoveLabels(s[1..]))[1..] == RemoveLabels(s[1..]);
      }
    }
  }

  /** A label anywhere in the input makes the output strictly shorter. */
  lemma {:induction false} RemoveLabelsShrinks(s: string, i: int)
    requires LabelAt(s, i)
    ensures |RemoveLabels(s)| < |s|
    decreases |s|
  {
    if !LabelAt(s, 0) {
      assert LabelAt(s[1..], i - 1);
      RemoveLabelsShrinks(s[1..], i - 1);
    }
  }

  /**
   * Every label is deleted, wherever it stands: a label starts with `(`,
   * which is neither a label letter nor `)`, so no match that starts earlier
   * can overlap it, and the scan reaches it and deletes it.
   */
  lemma {:induction false} RemoveLabelsAroundLabel(a: string, c: char, b: string)
    requires IsLabelLetter(c)
    ensures RemoveLabels(a + ['(', c, ')'] + b) == RemoveLabels(a) + RemoveLabels(b)
    decreases |a|
  {
    var s := a + ['(', c, ')'] + b;
    if a == [] {
      assert LabelAt(s, 0) && s[3..] == b;
    } else if LabelAt(a, 0) {
      assert LabelAt(s, 0);
      assert s[3..] == a[3..] + ['(', c, ')'] + b;
      RemoveLabelsAroundLabel(a[3..], c, b);
    } else {
      assert !LabelAt(s, 0) by {
        if |a| == 1 {
          assert s[1] == '(';
        } else if |a| == 2 {
          assert s[2] == '(';
        }
      }
      assert s[1..] == a[1..] + ['(', c, ')'] + b;
      RemoveLabelsAroundLabel(a[1..], c, b);
      AppendAssociative([a[0]], RemoveLabels(a[1..]), RemoveLabels(b));
    }
  }

  /** Label removal changes its input exactly when the input holds a label. */
  lemma {:induction false} RemoveLabelsUnchanged(s: string)
    ensures RemoveLabels(s) == s <==> !HasLabel(s)
    decreases |s|
  {
    if HasLabel(s) {
      var i :| LabelAt(s, i);
      RemoveLabelsShrinks(s, i);
    } else if |s| > 0 {
      assert forall i :: LabelAt(s[1..], i) ==> LabelAt(s, i + 1);
      RemoveLabelsUnchanged(s[1..]);
    }
  }

  lemma RemoveLabelsNoSpace(s: string)
    requires NoSpace(s)
    ensures NoSpace(RemoveLabels(s))
  {
    RemoveLabelsSubsequence(s);
    SubsequenceMembers(RemoveLabels(s), s);
    var r := RemoveLabels(s);
    forall i | 0 <= i < |r| ensures !IsSpace(r[i]) {
      assert r[i] in r;
    }
  }

  /** The output holds no whitespace at all, and only deletes characters of the input. */
  lemma RemoveUnimportantWordShape(text: string)
    ensures NoSpace(RemoveUnimportantWord(text))
    ensures IsSubsequence(RemoveUnimportantWord(text), text)
    ensures |RemoveUnimportantWord(text)| <= |text|
  {
    var noSpaces := Filter(NotSpace, text);
    FilterKept(NotSpace, text);
    RemoveLabelsNoSpace(noSpaces);
    FilterIsSubsequence(NotSpace, text);
    RemoveLabelsSubsequence(noSpaces);
    SubsequenceTransitive(RemoveLabels(noSpaces), noSpaces, text);
    SubsequenceLength(RemoveUnimportantWord(text), text);
  }

  /** The input comes back unchanged exactly when it has no whitespace and no label. */
  lemma RemoveUnimportantWordUnchanged(text: string)
    ensures RemoveUnimportantWord(text) == text <==> NoSpace(text) && !HasLabel(text)
  {
    RemoveUnimportantWordShape(text);
    FilterUnchanged(NotSpace, text);
    if NoSpace(text) {
      RemoveLabelsUnchanged(text);
    }
  }

  lemma RemoveLabelsExample()
    ensures RemoveLabels("((a)b)") == "(b)"
    ensures RemoveLabels("(b)") == ""
    ensures RemoveLabels("(a)(b)") == ""
  {
    RemoveLabelsAroundLabel("", 'a', "(b)");
    assert "" + ['(', 'a', ')'] + "(b)" == "(a)(b)";
    var s := "((a)b)";
    assert !LabelAt(s, 0);
    assert s[1..] == "(a)b)";
    assert LabelAt("(a)b)", 0);
    assert "(a)b)"[3..] == "b)";
    assert RemoveLabels(")") == ")" by {
      assert ")"[1..] == "";
    }
    assert RemoveLabels("b)") == "b)" by {
      assert "b)"[1..] == ")";
    }
    assert LabelAt("(b)", 0);
    assert "(b)"[3..] == "";
  }

  /** The function is not idempotent: deleting `(a)` uncovers the new label `(b)`. */
  lemma RemoveUnimportantWordNotIdempotent()
    ensures RemoveUnimportantWord("((a)b)") == "(b)"
    ensures RemoveUnimportantWord("(b)") == ""
  {
    var s, t := "((a)b)", "(b)";
    assert NoSpace(s) by {
      forall i | 0 <= i < |s| ensures !IsSpace(s[i]) {
        assert s[i] in "(a)b";
      }
    }
    assert NoSpace(t) by {
      forall i | 0 <= i < |t| ensures !IsSpace(t[i]) {
        assert t[i] in "(b)";
      }
    }
    FilterUnchanged(NotSpace, s);
    FilterUnchanged(NotSpace, t);
    assert Filter(NotSpace, s) == s && Filter(NotSpace, t) == t;
    RemoveLabelsExample();
    assert RemoveLabels(Filter(NotSpace, s)) == t;
    assert RemoveLabels(Filter(NotSpace, t)) == "";
  }
}
