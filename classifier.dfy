/**
 * The result normalisation of `classify` (index.js, lines 30-53). The request
 * to the language model is not modelled; what it returned is a parameter, and
 * this module maps it to the intent the router sees.
 */
module Classifier {
  import opened Wrappers
  import opened JsText

  /** What the classification request produced. */
  datatype RawClassification =
    | Failed                  // the request rejected, or the response had no `choices`: the `catch`
    | NoChoice                // `choices[0]` is missing: `?.` yields `undefined`
    | NoMessage               // `choices[0].message` is missing: `?.` yields `undefined`
    | NullContent             // `message.content` is null: `.trim()` throws, so the `catch` runs
    | Content(text: JsString) // the model's reply text

  const ASSIST: JsString := Units("assist")
  const HUMAN: JsString := Units("human")

  /** Text that `trim` and lower-casing leave unchanged: no white space at either end, no ASCII capital. */
  predicate Normalised(t: JsString) {
    (t != [] ==> !IsSpace(t[0]) && !IsSpace(t[|t| - 1]))
    && forall i :: 0 <= i < |t| ==> !IsAsciiUpper(t[i])
  }

  /**
   * `classify`'s result, `None` being `undefined`. Every error becomes
   * `'assist'` (fail open); a missing choice or message becomes `undefined`;
   * a reply is trimmed and lower-cased.
   */
  function Classify(raw: RawClassification): (intent: Option<JsString>)
    ensures raw.Failed? || raw.NullContent? ==> intent == Some(ASSIST)
    ensures raw.NoChoice? || raw.NoMessage? ==> intent == None
    ensures raw.Content? ==> intent.Some? && Normalised(intent.value) && |intent.value| <= |raw.text|
    ensures raw.Content? ==> EqualsIgnoreCase(intent.value, Trim(raw.text))
  {
    match raw
    case Failed => Some(ASSIST)
    case NoChoice => None
    case NoMessage => None
    case NullContent => Some(ASSIST)
    case Content(text) => Some(LowerAsciiString(Trim(text)))
  }

  /** How the handler reads the result: `intent === 'human'`, `intent === 'assist'`, or neither. */
  datatype Intent = HumanIntent | AssistIntent | OtherIntent

  function IntentOf(raw: RawClassification): Intent {
    var intent := Classify(raw);
    if intent == Some(HUMAN) then HumanIntent
    else if intent == Some(ASSIST) then AssistIntent
    else OtherIntent
  }

  /**
   * A reply is classified as a given intent word exactly when, with white
   * space trimmed, it spells that word in any ASCII case.
   */
  lemma ContentClassifiedAs(text: JsString, word: JsString)
    requires word == ASSIST || word == HUMAN
    ensures Classify(Content(text)) == Some(word) <==> EqualsIgnoreCase(Trim(text), word)
  {
    var t := Trim(text);
    var l := LowerAsciiString(t);
    assert forall j :: 0 <= j < |word| ==> !IsAsciiUpper(word[j]);
    if l == word {
      forall j | 0 <= j < |word| ensures LowerAscii(t[j]) == LowerAscii(word[j]) {
        assert l[j] == word[j];
      }
    }
    if EqualsIgnoreCase(t, word) {
      forall j | 0 <= j < |word| ensures l[j] == word[j] {
        assert LowerAscii(word[j]) == word[j];
      }
    }
  }

  /** Replies that are not exactly one of the two intent words, after normalising, are neither. */
  lemma OtherContentIsNeither(text: JsString)
    requires !EqualsIgnoreCase(Trim(text), ASSIST) && !EqualsIgnoreCase(Trim(text), HUMAN)
    ensures Classify(Content(text)) != Some(ASSIST) && Classify(Content(text)) != Some(HUMAN)
  {
    ContentClassifiedAs(text, ASSIST);
    ContentClassifiedAs(text, HUMAN);
  }

  /**
   * The intent the handler acts on, by outcome of the request: errors are
   * `'assist'`, a missing choice or message is neither word, and a reply
   * counts when, trimmed, it spells `human` or `assist` in any ASCII case.
   */
  lemma IntentCases(raw: RawClassification)
    ensures raw.Failed? || raw.NullContent? ==> IntentOf(raw) == AssistIntent
    ensures raw.NoChoice? || raw.NoMessage? ==> IntentOf(raw) == OtherIntent
    ensures raw.Content? ==>
      (IntentOf(raw) == HumanIntent <==> EqualsIgnoreCase(Trim(raw.text), HUMAN))
      && (IntentOf(raw) == AssistIntent <==> EqualsIgnoreCase(Trim(raw.text), ASSIST))
  {
    if raw.Content? {
      ContentClassifiedAs(raw.text, HUMAN);
      ContentClassifiedAs(raw.text, ASSIST);
      assert HUMAN != ASSIST by { assert |HUMAN| != |ASSIST|; }
    }
  }
}
