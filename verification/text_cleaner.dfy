/**
 * `TextCleaner.preprocess_text` of `src/services/text_cleaner.py`: Thai
 * digits are translated first, then the unimportant characters are removed.
 * The class's only state, a tokenizer, is never used by this operation, so
 * the operation is modelled as a function.
 */
module TextCleaner {
  import opened Sequences
  import opened TextUtils

  function PreprocessText(text: string): (r: string)
    ensures NoThaiDigit(r)
    ensures NoSpace(r)
    ensures IsSubsequence(r, ThaiToArabic(text))
    ensures |r| <= |text|
    // no case folding or normalisation: every non-digit character of the output was in the input
    ensures forall c :: c in r && !IsArabicDigit(c) ==> c in text
  {
    var arabic := ThaiToArabic(text);
    var r := RemoveUnimportantWord(arabic);
    assert NoSpace(r) && IsSubsequence(r, arabic) && |r| <= |arabic| by {
      RemoveUnimportantWordShape(arabic);
    }
    assert forall c :: c in r ==> c in arabic by {
      SubsequenceMembers(r, arabic);
    }
    assert forall c :: c in arabic && !IsArabicDigit(c) ==> c in text by {
      forall c | c in arabic && !IsArabicDigit(c) ensures c in text {
        var i :| 0 <= i < |arabic| && arabic[i] == c;
        assert text[i] == c;
      }
    }
    assert NoThaiDigit(r) by {
      forall i | 0 <= i < |r| ensures !IsThaiDigit(r[i]) {
        assert r[i] in arabic;
      }
    }
    r
  }

  /** Translation maps whitespace to whitespace and label parts to label parts. */
  lemma TranslateCharClasses(c: char)
    ensures IsSpace(TranslateChar(c)) == IsSpace(c)
    ensures TranslateChar(c) == '(' <==> c == '('
    ensures TranslateChar(c) == ')' <==> c == ')'
    ensures IsLabelLetter(TranslateChar(c)) == IsLabelLetter(c)
  {
  }

  /** Translating a character in front of a text. */
  lemma TranslateCons(c: char, s: string)
    ensures ThaiToArabic([c] + s) == [TranslateChar(c)] + ThaiToArabic(s)
  {
    ThaiToArabicAppend([c], s);
  }

  /** Translating a suffix gives the suffix of the translation. */
  lemma TranslateSuffix(s: string, k: nat)
    requires k <= |s|
    ensures ThaiToArabic(s)[k..] == ThaiToArabic(s[k..])
  {
  }

  lemma {:induction false} TranslateCommutesWithSpaceRemoval(s: string)
    ensures ThaiToArabic(Filter(NotSpace, s)) == Filter(NotSpace, ThaiToArabic(s))
    decreases |s|
  {
    if s != [] {
      var t := ThaiToArabic(s);
      TranslateCommutesWithSpaceRemoval(s[1..]);
      TranslateCharClasses(s[0]);
      TranslateSuffix(s, 1);
      assert t[0] == TranslateChar(s[0]);
      if NotSpace(s[0]) {
        calc {
          ThaiToArabic(Filter(NotSpace, s));
          ThaiToArabic([s[0]] + Filter(NotSpace, s[1..]));
        == { TranslateCons(s[0], Filter(NotSpace, s[1..])); }
          [t[0]] + ThaiToArabic(Filter(NotSpace, s[1..]));
          [t[0]] + Filter(NotSpace, t[1..]);
          Filter(NotSpace, t);
        }
      }
    }
  }

  lemma {:induction false} TranslateCommutesWithLabelRemoval(s: string)
    ensures ThaiToArabic(RemoveLabels(s)) == RemoveLabels(ThaiToArabic(s))
    decreases |s|
  {
    if s != [] {
      var t := ThaiToArabic(s);
      if |s| >= 3 {
        TranslateCharClasses(s[0]);
        TranslateCharClasses(s[1]);
        TranslateCharClasses(s[2]);
      }
      assert LabelAt(t, 0) <==> LabelAt(s, 0);
      if LabelAt(s, 0) {
        TranslateCommutesWithLabelRemoval(s[3..]);
        TranslateSuffix(s, 3);
      } else {
        TranslateCommutesWithLabelRemoval(s[1..]);
        TranslateSuffix(s, 1);
        calc {
          ThaiToArabic(RemoveLabels(s));
          ThaiToArabic([s[0]] + RemoveLabels(s[1..]));
        == { TranslateCons(s[0], RemoveLabels(s[1..])); }
          [t[0]] + ThaiToArabic(RemoveLabels(s[1..]));
          [t[0]] + RemoveLabels(t[1..]);
          RemoveLabels(t);
        }
      }
    }
  }

  /**
   * The two steps commute: translating digits before or after the removal
   * gives the same text, because neither step creates or destroys what the
   * other one looks at.
   */
  lemma PreprocessTextCommutes(text: string)
    ensures PreprocessText(text) == ThaiToArabic(RemoveUnimportantWord(text))
  {
    TranslateCommutesWithSpaceRemoval(text);
    TranslateCommutesWithLabelRemoval(Filter(NotSpace, text));
  }

  /** Text that is already clean comes back unchanged. */
  lemma PreprocessTextUnchanged(text: string)
    ensures PreprocessText(text) == text <==> NoThaiDigit(text) && NoSpace(text) && !HasLabel(text)
  {
    ThaiToArabicUnchanged(text);
    if NoThaiDigit(text) {
      RemoveUnimportantWordUnchanged(text);
    }
  }

  /** Preprocessing is idempotent on text without labels. */
  lemma PreprocessTextIdempotent(text: string)
    requires !HasLabel(PreprocessText(text))
    ensures PreprocessText(PreprocessText(text)) == PreprocessText(text)
  {
    PreprocessTextUnchanged(PreprocessText(text));
  }
}
