/**
 * What one delivery does, stated case by case against the handler
 * `Triage.Handle` (index.js, lines 64-148), and what every delivery keeps.
 */
module TriageFacts {
  import opened Wrappers
  import opened JsText
  import opened Relevance
  import opened Classifier
  import opened Triage

  /** The check-in that ends a timed-out wait (line 90), if `from` was waiting. */
  function CheckInFor(st: State, from: Sender): seq<Sent> {
    if from in st.humanRequests then [Sent(from, CheckIn)] else []
  }

  /** The state once the handoff block has let `from` through: no longer waiting. */
  function Released(st: State, from: Sender): State {
    st.(humanRequests := st.humanRequests - {from})
  }

  /**
   * Lines 67, 68 and 73: the bot's own messages, messages older than the
   * start second, and messages the relevance filter rejects change nothing,
   * send nothing and reach neither model. The comparison of line 68 is
   * strict, so a message stamped with the start second itself goes on.
   */
  lemma InadmissibleIgnored(st: State, botStartTime: int, m: Message, now: int, cls: RawClassification, gen: Generation)
    requires m.fromMe || m.timestamp < botStartTime || !ShouldRespond(m.body)
    ensures Handle(st, botStartTime, m, now, cls, gen) == Outcome(st, [], false, false)
  {
  }

  /**
   * Lines 82-85: a waiting chat that asks to resume is released (its flag
   * stays), gets exactly one notice, and is not classified; this is decided
   * before the timeout, so it holds whatever the time.
   */
  lemma ResumeEndsWait(st: State, botStartTime: int, m: Message, now: int, cls: RawClassification, gen: Generation)
    requires Admitted(m, botStartTime) && m.from in st.humanRequests && AsksToResume(m.body.value)
    ensures var o := Handle(st, botStartTime, m, now, cls, gen);
      && o.after == Released(st, m.from)
      && o.after.humanFlaggedChats == st.humanFlaggedChats
      && o.sent == [Sent(m.from, ResumeNotice)]
      && !o.classified && !o.generated
  {
  }

  /**
   * The relevance filter (line 73) runs before the resume test (line 82), so
   * a waiting chat that writes "resume now" is dropped: `now` contains `no`,
   * which line 9 rejects anywhere. The chat stays waiting, although line 82
   * alone would have accepted the text.
   */
  lemma {:induction false} ResumeNowStaysWaiting(st: State, botStartTime: int, m: Message, now: int, cls: RawClassification, gen: Generation)
    requires m.body == Some(Units("resume now"))
    ensures AsksToResume(m.body.value)
    ensures Handle(st, botStartTime, m, now, cls, gen) == Outcome(st, [], false, false)
  {
    var s := m.body.value;
    assert MatchAt(s, RESUME, 0);
    UntrimmedLiteral(s);
    ShortReplyWordAnywhereIgnored(s, NO, 7);
  }

  /** Lines 88-93: within four hours of the request, a waiting chat gets nothing and nothing changes. */
  lemma WaitWithinTimeout(st: State, botStartTime: int, m: Message, now: int, cls: RawClassification, gen: Generation)
    requires Admitted(m, botStartTime) && m.from in st.humanRequests && !AsksToResume(m.body.value)
    requires now - st.humanRequests[m.from] < HUMAN_TIMEOUT_MS
    ensures HUMAN_TIMEOUT_MS == 14_400_000
    ensures Handle(st, botStartTime, m, now, cls, gen) == Outcome(st, [], false, false)
  {
  }

  /**
   * Lines 79-97: a message that gets past the handoff block is classified,
   * after the check-in if its wait timed out, starting from the released state.
   */
  lemma {:induction false} ClassifiedAfterGate(st: State, botStartTime: int, m: Message, now: int, cls: RawClassification, gen: Generation)
    requires ReachesClassifier(m, botStartTime, st.humanRequests, now)
    ensures var o := Handle(st, botStartTime, m, now, cls, gen);
      var r := Respond(Released(st, m.from), m, now, cls, gen);
      && o.classified
      && o.after == r.after
      && o.sent == CheckInFor(st, m.from) + r.sent
      && o.generated == r.generated
  {
    if m.from !in st.humanRequests {
      assert Released(st, m.from) == st by {
        assert st.humanRequests - {m.from} == st.humanRequests;
      }
    }
  }

  /**
   * Lines 99-104: on `'human'` the chat waits from now on (replacing any
   * earlier start), is flagged, and gets the handoff notice.
   */
  lemma {:induction false} HumanIntentHandsOff(st: State, botStartTime: int, m: Message, now: int, cls: RawClassification, gen: Generation)
    requires ReachesClassifier(m, botStartTime, st.humanRequests, now) && IntentOf(cls) == HumanIntent
    ensures var o := Handle(st, botStartTime, m, now, cls, gen);
      && o.after.humanRequests == st.humanRequests[m.from := now]
      && o.after.humanFlaggedChats == st.humanFlaggedChats + {m.from}
      && o.after.recentlyAnswered == st.recentlyAnswered && o.after.expiryDue == st.expiryDue
      && o.sent == CheckInFor(st, m.from) + [Sent(m.from, HandoffNotice)]
      && !o.generated
  {
    ClassifiedAfterGate(st, botStartTime, m, now, cls, gen);
    assert (st.humanRequests - {m.from})[m.from := now] == st.humanRequests[m.from := now];
  }

  /**
   * Lines 107-110: any intent other than the two words, `undefined`
   * included, sends nothing beyond a check-in and changes nothing more.
   */
  lemma {:induction false} OtherIntentIgnored(st: State, botStartTime: int, m: Message, now: int, cls: RawClassification, gen: Generation)
    requires ReachesClassifier(m, botStartTime, st.humanRequests, now) && IntentOf(cls) == OtherIntent
    ensures var o := Handle(st, botStartTime, m, now, cls, gen);
      o.after == Released(st, m.from) && o.sent == CheckInFor(st, m.from) && !o.generated
  {
    ClassifiedAfterGate(st, botStartTime, m, now, cls, gen);
  }

  /**
   * Lines 113-116: a flagged chat never gets an AI answer and never reaches
   * the generator, whatever the classifier says.
   */
  lemma FlaggedChatNotAnswered(st: State, botStartTime: int, m: Message, now: int, cls: RawClassification, gen: Generation)
    requires m.from in st.humanFlaggedChats
    ensures var o := Handle(st, botStartTime, m, now, cls, gen);
      !o.generated && forall r <- o.sent :: !r.reply.Answer?
  {
  }

  /**
   * Because the flag outlives the wait, an `'assist'` message that ends a
   * timed-out wait gets the check-in and nothing else.
   */
  lemma {:induction false} AssistAfterTimeoutOnlyChecksIn(st: State, botStartTime: int, m: Message, now: int, cls: RawClassification, gen: Generation)
    requires Consistent(st)
    requires ReachesClassifier(m, botStartTime, st.humanRequests, now) && m.from in st.humanRequests
    requires IntentOf(cls) == AssistIntent
    ensures var o := Handle(st, botStartTime, m, now, cls, gen);
      o.after == Released(st, m.from) && o.sent == [Sent(m.from, CheckIn)] && !o.generated
  {
    ClassifiedAfterGate(st, botStartTime, m, now, cls, gen);
  }

  /** Line 119: a message id that is remembered is not answered again. */
  lemma RepeatedIdNotAnswered(st: State, botStartTime: int, m: Message, now: int, cls: RawClassification, gen: Generation)
    requires m.id in st.recentlyAnswered
    ensures var o := Handle(st, botStartTime, m, now, cls, gen);
      && !o.generated
      && o.after.recentlyAnswered == st.recentlyAnswered && o.after.expiryDue == st.expiryDue
      && forall r <- o.sent :: !r.reply.Answer? && !r.reply.Apology?
  {
    if ReachesClassifier(m, botStartTime, st.humanRequests, now) {
      ClassifiedAfterGate(st, botStartTime, m, now, cls, gen);
    }
  }

  /**
   * Lines 119-147: an `'assist'` message from a chat never flagged, with a
   * new id, has its id remembered before the generator is asked; it then
   * gets the answer with the footer and a removal due in five minutes, or,
   * when generation fails, one apology and no removal at all.
   */
  lemma {:induction false} AssistAnswered(st: State, botStartTime: int, m: Message, now: int, cls: RawClassification, gen: Generation)
    requires Consistent(st)
    requires Admitted(m, botStartTime) && IntentOf(cls) == AssistIntent
    requires m.from !in st.humanFlaggedChats && m.id !in st.recentlyAnswered
    ensures var o := Handle(st, botStartTime, m, now, cls, gen);
      && o.classified && o.generated
      && o.after.humanRequests == st.humanRequests
      && o.after.humanFlaggedChats == st.humanFlaggedChats
      && o.after.recentlyAnswered == st.recentlyAnswered + {m.id}
      && (gen.GenerationFailed? ==>
            o.sent == [Sent(m.from, Apology)] && o.after.expiryDue == st.expiryDue)
      && (gen.Generated? ==>
            && o.sent == [Sent(m.from, Answer(AnswerBody(gen.content)))]
            && o.after.expiryDue == st.expiryDue[m.id := now + 300_000])
  {
    assert m.from !in st.humanRequests;
    ClassifiedAfterGate(st, botStartTime, m, now, cls, gen);
    assert Released(st, m.from) == st by {
      assert st.humanRequests - {m.from} == st.humanRequests;
    }
  }

  /**
   * What every delivery keeps: consistency; flags, remembered ids and
   * scheduled removals are never dropped by the handler; a removal is
   * scheduled only for the id just answered, and the generator is asked only
   * for an id that was not remembered, which is remembered afterwards.
   */
  lemma {:induction false} HandleInvariants(st: State, botStartTime: int, m: Message, now: int, cls: RawClassification, gen: Generation)
    ensures var o := Handle(st, botStartTime, m, now, cls, gen);
      && (Consistent(st) ==> Consistent(o.after))
      && st.humanFlaggedChats <= o.after.humanFlaggedChats
      && st.recentlyAnswered <= o.after.recentlyAnswered
      && st.expiryDue.Keys <= o.after.expiryDue.Keys
      && o.after.expiryDue.Keys <= st.expiryDue.Keys + (if o.generated then {m.id} else {})
      && (o.generated ==> o.classified && m.id !in st.recentlyAnswered && m.id in o.after.recentlyAnswered)
  {
    if ReachesClassifier(m, botStartTime, st.humanRequests, now) {
      ClassifiedAfterGate(st, botStartTime, m, now, cls, gen);
    }
  }

  /**
   * One delivery sends at most two replies, both to the sender: two only
   * when a timed-out wait ends (the check-in, then the handoff notice, the
   * answer or the apology).
   */
  lemma {:induction false} HandleReplies(st: State, botStartTime: int, m: Message, now: int, cls: RawClassification, gen: Generation)
    ensures var o := Handle(st, botStartTime, m, now, cls, gen);
      && |o.sent| <= 2
      && (forall r <- o.sent :: r.to == m.from)
      && (|o.sent| == 2 ==> o.sent[0] == Sent(m.from, CheckIn) && m.from in st.humanRequests)
  {
    if ReachesClassifier(m, botStartTime, st.humanRequests, now) {
      ClassifiedAfterGate(st, botStartTime, m, now, cls, gen);
      RespondSendsOne(Released(st, m.from), m, now, cls, gen);
    }
  }

  /** Classification and what follows it (lines 96-147) send at most one reply, to the sender. */
  lemma RespondSendsOne(st: State, m: Message, now: int, cls: RawClassification, gen: Generation)
    ensures var r := Respond(st, m, now, cls, gen);
      |r.sent| <= 1 && forall x <- r.sent :: x.to == m.from
  {
  }
}
