# Nest Assistant message triage, modelled in Dafny

The Nest Assistant is a WhatsApp bot (`index.js`). For every incoming message it decides whether to answer with a language model, hand the chat over to a human, or stay silent. This project models the three parts of `index.js` that make that decision and proves what they guarantee.

- **`shouldRespond`** (lines 5-11) is the relevance filter. It is module `Relevance`, over JavaScript strings as UTF-16 code units (module `JsText`). The regular expressions are modelled as written:
  - `/^[\s\W\d]+$/` runs on the untrimmed text.
  - Without the `u` flag, `\W` covers every non-ASCII code unit, and `_` is a word character.
  - `/^ok|yes|no|thanks|thx$/i` is an ungrouped alternation. Only `ok` is anchored, to the start, and only `thx`, to the end. `yes`, `no` and `thanks` reject a message wherever they occur, so "Do you know the rent?" is dropped (`QuestionContainingNoIgnored`).
- **The result normalisation of `classify`** (lines 48-51) is module `Classifier`. The classifier's raw outcome is a parameter. A reply is trimmed and lower-cased. A missing choice or message gives `undefined`. An error, including `.trim()` on null content, gives `'assist'`.
- **The `onMessage` handler** (lines 64-148) is module `Triage`. Class `Router` holds, as fields updated in place:
  - `recentlyAnswered`, `humanRequests` and `humanFlaggedChats` (lines 24-26);
  - `botStartTime` (line 23);
  - `outbox`, where each `client.sendText` is appended;
  - `expiryDue`, the pending five-minute removals (line 143). A timer firing is the separate method `ExpireDedup`.

  The clock, the classifier outcome and the generator outcome are parameters. The function `Triage.Handle` gives the handler's effect on a `State` value. `Router.OnMessage` is proved to update its fields exactly as `Handle` says. The properties of `Handle` are lemmas in module `TriageFacts`. Module `Lifetime` lifts them to any sequence of deliveries and timer firings.

The model follows the code as written, also where it differs from what its comments and names suggest (line 114 logs "waiting for human" also for a chat whose wait has already ended):

- **A chat's flag is never cleared.** Resume (line 83) and timeout (line 89) only delete the `humanRequests` entry. Once a chat has asked for a human, it never gets an AI answer again (`Lifetime.FlaggedForever`). This holds after "resume" too.
- **A timed-out wait gives only the check-in.** An `'assist'` message that ends a timed-out wait gets the check-in and nothing else, not a check-in followed by an answer (`TriageFacts.AssistAfterTimeoutOnlyChecksIn`).
- **A failed generation leaves its message id remembered for good.** The id is remembered (line 120) before the generator is asked. Its removal is scheduled only after a successful send (line 143). So after a failure the id is never forgotten and never answered (`Lifetime.StuckIdStaysStuck`, `Lifetime.FailedGenerationNeverRetried`).
- **The ignore list is never read.** `ignoredContacts` (lines 19-21) has no effect on any path, so it has no counterpart in the model.

## Model

| member | source | states |
|---|---|---|
| JsText.Trim | index.js:6-9 | `trim` keeps the slice between leading and trailing `\s` white space; the result is empty exactly when the text is all white space, and otherwise neither starts nor ends with white space |
| JsText.LowerAscii | index.js:48 | an ASCII capital becomes the lower-case letter 0x20 above it; every other code unit is left alone; letters stay letters and white space stays white space |
| JsText.LowerAsciiString | index.js:48 | lower-casing keeps the length, leaves no ASCII capital, and gives a text equal to the input ignoring ASCII case |
| JsText.LowerAsciiStringUnique | index.js:48 | the lower-cased text is the only text of the same length, without ASCII capitals, that equals the input ignoring ASCII case |
| JsText.EncodeChar | index.js:103 | a character of a source literal becomes one code unit, or a surrogate pair that decodes back to it |
| JsText.Utf16 | index.js:103 | a string literal has at least as many code units as characters |
| JsText.Utf16OfBmp | index.js:103 | a literal without astral characters takes exactly one code unit per character |
| Relevance.ShouldRespond | index.js:5-11 | a message is answered exactly when it has a body, its trimmed text is longer than two code units, it contains an ASCII letter or `_`, and its trimmed text does not match the short-reply pattern |
| Relevance.SymbolClassComplement | index.js:8 | `[\s\W\d]` is exactly the complement of `[A-Za-z_]` |
| Relevance.SymbolicIffNoLetter | index.js:8 | on non-empty text, `^[\s\W\d]+$` matches exactly when no ASCII letter or `_` occurs |
| Relevance.SymbolRuleIgnoresTrim | index.js:6-8 | testing line 8's pattern on the untrimmed text decides the same as testing it on the trimmed text |
| Relevance.BlankOrShortIgnored | index.js:6-7 | a missing, all-white-space, or trimmed-length-at-most-2 body is not answered |
| Relevance.NoLetterIgnored | index.js:8 | a body without any ASCII letter or `_` (digits, symbols, emoji, other scripts) is not answered |
| Relevance.ShortReplyWordAnywhereIgnored | index.js:9 | `yes`, `no` or `thanks`, in any ASCII case, anywhere in the trimmed text, blocks the answer |
| Relevance.AnchoredShortReplyIgnored | index.js:9 | trimmed text starting with `ok` or ending with `thx`, in any ASCII case, is not answered |
| Relevance.QuestionContainingNoIgnored | index.js:9 | the real question "Do you know the rent?" is dropped because `know` contains `no` |
| Relevance.UnderscoresAnswered | index.js:8-10 | "___" passes every rule, since `_` is a word character |
| Relevance.UnderscoresNoShortReply | index.js:9 | "___" does not match the short-reply pattern |
| Relevance.UntrimmedLiteral | index.js:6 | text with no white space at either end is its own trim |
| Classifier.Classify | index.js:48-51 | errors and null content give `'assist'`; a missing choice or message gives `undefined`; a reply gives a text without ASCII capitals and without white space at either end, equal ignoring ASCII case to the trimmed reply |
| Classifier.ContentClassifiedAs | index.js:48 | a reply normalises to `assist` or `human` exactly when, trimmed, it spells that word in any ASCII case |
| Classifier.OtherContentIsNeither | index.js:107 | a reply that spells neither word after trimming is neither intent |
| Classifier.IntentCases | index.js:97-107 | the intent the handler acts on, by outcome: errors are `'assist'`, a missing choice or message is neither, and a reply is `'human'`/`'assist'` exactly when it spells that word |
| Triage.HandoffNoticeMentionsResume | index.js:82-103 | the handoff notice itself contains `resume`, so following its advice is accepted by the resume test |
| Triage.AnswerBody | index.js:136 | the answer is the generated text when non-empty, and the fixed fallback when the text is missing or empty |
| Triage.AnswerText | index.js:136-137 | an AI reply is the answer body followed by the fixed footer, and the body is recovered by removing the footer |
| Triage.Router.constructor | index.js:23-26 | the start second is `floor(startMs / 1000)`; all collections start empty |
| Triage.Router.OnMessage | index.js:64-148 | the new fields and the appended replies are exactly those `Handle` gives for the old state; the consistency invariant is kept |
| Triage.Router.Dispatch | index.js:79-147 | for an admitted message, the handoff block and the classification step together give the state and replies of `Route` |
| Triage.Router.HandoffGate | index.js:79-94 | resume, stay silent, or check in and go on, with the state and replies of `Gate` |
| Triage.Router.ClassifyAndAnswer | index.js:96-147 | for a chat not waiting, the state and replies of `Respond` for the classifier outcome |
| Triage.Router.AnswerAssist | index.js:118-147 | a repeated id is skipped; otherwise the id is remembered, then one answer with its removal scheduled, or one apology with none |
| Triage.Router.ExpireDedup | index.js:143 | the timer forgets the id and its pending removal and changes nothing else |
| TriageFacts.InadmissibleIgnored | index.js:66-76 | own messages, messages older than the start second, and filtered messages change nothing, send nothing and reach no model |
| TriageFacts.ResumeEndsWait | index.js:82-86 | a waiting chat asking to resume leaves `humanRequests` and keeps its flag; it gets exactly one notice and is not classified, at any time |
| TriageFacts.ResumeNowStaysWaiting | index.js:73-86 | a waiting chat writing "resume now", which line 82 would accept, is dropped by the filter first: nothing changes and nothing is sent |
| TriageFacts.WaitWithinTimeout | index.js:88-93 | within 14,400,000 ms of the request, a waiting chat gets nothing and no state changes |
| TriageFacts.ClassifiedAfterGate | index.js:79-97 | a message past the handoff block is classified from the released state, after a check-in exactly when its wait timed out |
| TriageFacts.HumanIntentHandsOff | index.js:99-105 | `'human'` sets the wait start to now (overwriting), flags the chat, and sends one handoff notice after any check-in |
| TriageFacts.OtherIntentIgnored | index.js:107-110 | any other intent, `undefined` included, sends nothing beyond a check-in and changes nothing else |
| TriageFacts.FlaggedChatNotAnswered | index.js:112-116 | a flagged chat never reaches the generator and gets no AI answer |
| TriageFacts.AssistAfterTimeoutOnlyChecksIn | index.js:88-116 | an `'assist'` message ending a timed-out wait gets only the check-in, since the flag stays |
| TriageFacts.RepeatedIdNotAnswered | index.js:119 | a remembered id reaches no generator, and gets neither an answer nor an apology |
| TriageFacts.AssistAnswered | index.js:118-147 | an `'assist'` message with a new id from an unflagged chat is remembered and generated. It gets the answer plus footer with removal due at now + 300,000 ms, or on failure one apology and no removal |
| TriageFacts.HandleInvariants | index.js:64-148 | each delivery keeps consistency; flags, remembered ids and pending removals only grow; a removal is added only for the answered id; generation happens only for an id not remembered, which is remembered afterwards |
| TriageFacts.HandleReplies | index.js:64-148 | each delivery sends at most two replies, all to the sender; when it sends two, the first is the check-in of a timed-out wait |
| Lifetime.RunKeepsConsistent | index.js:64-148 | every run of deliveries and timer firings keeps the consistency invariant |
| Lifetime.FlaggedForever | index.js:101 | once flagged, a chat stays flagged for the rest of any run and never gets an AI answer |
| Lifetime.RememberedIdNotRegenerated | index.js:119-120 | while its timer does not fire, a remembered id is never generated for again |
| Lifetime.StuckIdStaysStuck | index.js:120-143 | a remembered id with no pending removal stays remembered, unscheduled and unanswered for the rest of any run |
| Lifetime.FailedGenerationNeverRetried | index.js:120-147 | after a failed generation and its apology, that id is never generated for again in any later run |

## Left out

- The OpenAI client and the two `chat.completions.create` calls (lines 14-16, 32-46, 123-134) are network calls. Their outcomes are the parameters `cls` and `gen`. Prompt texts and model names are not modelled.
- The WhatsApp client (lines 1, 57-62) is not modelled. Each `sendText` is an append to `outbox`. A failing `sendText` is not modelled: every send succeeds.
- Async delivery is not modelled. Each message is handled to completion before the next, so races between deliveries are left out.
- `setTimeout` is not modelled as a timer. Only the scheduling decision and its due time (`expiryDue`) are recorded. `ExpireDedup` and `Lifetime.TimerFired` stand for the callback.
- `Date.now()` is the parameter `now`. Lines 88 and 100 read the clock at different moments; in the model they read the same value. Likewise the five minutes of line 143's `setTimeout` start only after generation and the send (lines 123-139), so the real due time is somewhat later than the `now + 300,000` the model records; nothing in the model reads the due time.
- `console.log` and `console.error` are not modelled.
- The `ignoredContacts` list (lines 19-21) is never read, so it has no counterpart.
- JsText.LowerAscii, JsText.LowerAsciiString lower-case ASCII letters only, while `toLowerCase` (line 48) also lower-cases non-ASCII capitals (`É` to `é`, U+0130 to `i` followed by U+0307). The line on Classifier.Classify below says why no intent changes.
- Classifier.Classify models `toLowerCase` on ASCII letters only. The normalised text of a reply with non-ASCII capitals therefore differs from JavaScript's. The intent the handler acts on is unaffected: the only non-ASCII code unit that lower-cases to a single ASCII letter is U+212A KELVIN SIGN, which becomes `k`, and `k` is in neither `human` nor `assist`. U+0130 becomes two code units, so a reply holding it can never equal either word.
- Relevance.ShouldRespond handles a missing body or a string body. Bodies that are other non-string values are not modelled.
