/**
 * The relevance filter `shouldRespond` (index.js, lines 5-11): a pure test on
 * the text of an incoming message, applied before any other processing.
 *
 * The three regular-expression tests are modelled as they are written:
 *  - `/^[\s\W\d]+$/` runs on the UNtrimmed text; without the `u` flag `\W`
 *    covers every non-ASCII code unit, and `_` is a word character;
 *  - `/^ok|yes|no|thanks|thx$/i` is an ungrouped alternation, so only `ok` is
 *    anchored to the start and only `thx` to the end, while `yes`, `no` and
 *    `thanks` match anywhere in the trimmed text.
 */
module Relevance {
  import opened Wrappers
  import opened JsText

  /** One code unit of the class `[\s\W\d]`. */
  predicate InSymbolClass(c: CodeUnit) {
    IsSpace(c) || !IsWordChar(c) || IsDigit(c)
  }

  /** `/^[\s\W\d]+$/.test(s)`: `s` is non-empty and made only of that class. */
  predicate AllSymbolic(s: JsString) {
    |s| > 0 && forall i :: 0 <= i < |s| ==> InSymbolClass(s[i])
  }

  /** A code unit from `[A-Za-z_]`, the complement of `[\s\W\d]`. */
  predicate IsLetterOrUnderscore(c: CodeUnit) {
    IsAsciiLetter(c) || c == 0x5F
  }

  predicate HasLetterOrUnderscore(s: JsString) {
    exists i :: 0 <= i < |s| && IsLetterOrUnderscore(s[i])
  }

  const OK: JsString := Units("ok")
  const YES: JsString := Units("yes")
  const NO: JsString := Units("no")
  const THANKS: JsString := Units("thanks")
  const THX: JsString := Units("thx")

  /** `/^ok|yes|no|thanks|thx$/i.test(t)`. */
  predicate MatchesShortReply(t: JsString) {
    StartsWithIgnoreCase(t, OK)
    || ContainsIgnoreCase(t, YES)
    || ContainsIgnoreCase(t, NO)
    || ContainsIgnoreCase(t, THANKS)
    || EndsWithIgnoreCase(t, THX)
  }

  /**
   * `shouldRespond(text)`. `None` is a missing body (`null` or `undefined`).
   * A message is worth answering exactly when its trimmed text is longer than
   * two code units, it holds at least one ASCII letter or underscore, and the
   * trimmed text does not match the short-reply pattern.
   */
  function ShouldRespond(text: Option<JsString>): (r: bool)
    ensures r <==>
      text.Some? && |Trim(text.value)| > 2
      && HasLetterOrUnderscore(text.value) && !MatchesShortReply(Trim(text.value))
  {
    match text
    case None => false
    case Some(s) =>
      if Trim(s) == [] then false               // `!text.trim()`
      else if |Trim(s)| <= 2 then false         // too short
      else
        SymbolicIffNoLetter(s);
        if AllSymbolic(s) then false            // digits, symbols, white space
        else if MatchesShortReply(Trim(s)) then false
        else true
  }

  // ---------------------------------------------------------------------------
  // The character-class rule
  // ---------------------------------------------------------------------------

  /** `[\s\W\d]` is exactly the complement of `[A-Za-z_]`. */
  lemma SymbolClassComplement(c: CodeUnit)
    ensures InSymbolClass(c) <==> !IsLetterOrUnderscore(c)
  {
  }

  /** On non-empty text the regular expression fails exactly when a letter or `_` occurs. */
  lemma SymbolicIffNoLetter(s: JsString)
    requires s != []
    ensures AllSymbolic(s) <==> !HasLetterOrUnderscore(s)
  {
    if !AllSymbolic(s) {
      var i :| 0 <= i < |s| && !InSymbolClass(s[i]);
      SymbolClassComplement(s[i]);
    }
  }

  /**
   * Testing the untrimmed text, as line 8 does, decides the same as testing
   * the trimmed text: the white space `trim` removes belongs to `[\s\W\d]`.
   */
  lemma SymbolRuleIgnoresTrim(s: JsString)
    requires Trim(s) != []
    ensures AllSymbolic(s) <==> AllSymbolic(Trim(s))
  {
    var a, b := TrimStartIndex(s), TrimEndIndex(s);
    var t := Trim(s);
    if AllSymbolic(s) {
      forall i | 0 <= i < |t| ensures InSymbolClass(t[i]) {
        assert t[i] == s[a + i];
      }
    }
    if AllSymbolic(t) {
      forall i | 0 <= i < |s| ensures InSymbolClass(s[i]) {
        if a <= i < b {
          assert s[i] == t[i - a];
        }
      }
    }
  }

  // ---------------------------------------------------------------------------
  // What the filter rejects
  // ---------------------------------------------------------------------------

  /** A missing body, an all-white-space body, or one whose trimmed length is at most 2. */
  lemma BlankOrShortIgnored(text: Option<JsString>)
    requires text.None? || AllSpace(text.value) || |Trim(text.value)| <= 2
    ensures !ShouldRespond(text)
  {
  }

  /** Text without any ASCII letter or `_`: digits, punctuation, emoji, any non-Latin script. */
  lemma NoLetterIgnored(s: JsString)
    requires forall i :: 0 <= i < |s| ==> !IsLetterOrUnderscore(s[i])
    ensures !ShouldRespond(Some(s))
  {
  }

  /**
   * `yes`, `no` or `thanks` anywhere in the trimmed text, in any ASCII case,
   * rejects the message: the alternation is not grouped, so these three
   * alternatives are not anchored.
   */
  lemma ShortReplyWordAnywhereIgnored(s: JsString, w: JsString, i: int)
    requires w == YES || w == NO || w == THANKS
    requires MatchAt(Trim(s), w, i)
    ensures !ShouldRespond(Some(s))
  {
    assert ContainsIgnoreCase(Trim(s), w);
  }

  /** Trimmed text starting with `ok` or ending with `thx`, in any ASCII case. */
  lemma AnchoredShortReplyIgnored(s: JsString)
    requires StartsWithIgnoreCase(Trim(s), OK) || EndsWithIgnoreCase(Trim(s), THX)
    ensures !ShouldRespond(Some(s))
  {
  }

  /** A real question is rejected because `know` contains `no`. */
  lemma {:induction false} QuestionContainingNoIgnored()
    ensures !ShouldRespond(Some(Units("Do you know the rent?")))
  {
    var s := Units("Do you know the rent?");
    UntrimmedLiteral(s);
    assert MatchAt(s, NO, 8);
  }

  /** Three underscores are answered: `_` is a word character, so line 8 lets them through. */
  lemma {:induction false} UnderscoresAnswered()
    ensures ShouldRespond(Some(Units("___")))
  {
    var s := Units("___");
    assert s[0] == s[1] == s[2] == 0x5F;
    UntrimmedLiteral(s);
    assert IsLetterOrUnderscore(s[0]);
    UnderscoresNoShortReply(s);
  }

  lemma UnderscoresNoShortReply(s: JsString)
    requires s == [0x5F, 0x5F, 0x5F]
    ensures !MatchesShortReply(s)
  {
    assert OK[0] == 0x6F && YES[0] == 0x79 && NO[0] == 0x6E && |THANKS| == 6 && THX[0] == 0x74;
    assert !MatchAt(s, OK, 0) && !MatchAt(s, THX, 0);
    assert !MatchAt(s, YES, 0);
    assert !MatchAt(s, NO, 0) && !MatchAt(s, NO, 1);
  }

  /** Text with no white space at either end is its own trim. */
  lemma UntrimmedLiteral(s: JsString)
    requires s != [] && !IsSpace(s[0]) && !IsSpace(s[|s| - 1])
    ensures Trim(s) == s
  {
    assert TrimStartIndex(s) == 0;
    assert TrimEndIndex(s) == |s|;
  }
}
