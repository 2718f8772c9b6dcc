/**
 * The message handler registered with `client.onMessage` (index.js, lines
 * 64-148) and the module-level state it updates (lines 23-27).
 *
 * One delivery of a message runs to completion. The clock, the classifier's
 * answer and the generator's answer are parameters; every `client.sendText`
 * appends to an outbox; the five-minute `setTimeout` that forgets an answered
 * message id is recorded as a due time, and its firing is a separate step.
 *
 * `Handle` is the handler as a function of the state before the delivery;
 * the class `Router` runs it step by step on fields updated in place, and
 * its methods are proved to agree with `Handle` and `Expire`.
 */
module Triage {
  import opened Wrappers
  import opened JsText
  import opened Relevance
  import opened Classifier

  /** A chat identifier (`message.from`). */
  type Sender = JsString

  /** A message identifier (`message.id`). */
  type MessageId = JsString

  /** The fields of an incoming message that the handler reads. */
  datatype Message = Message(
    id: MessageId,
    from: Sender,
    body: Option<JsString>, // `None`: no text body
    timestamp: int,         // seconds since the epoch
    fromMe: bool)

  /** What the answer-generation request produced. */
  datatype Generation =
    | GenerationFailed                // the request rejected, or its response had no `choices`
    | Generated(content: Option<JsString>) // `None`: choice, message or content missing or null

  /** The five texts the handler sends. */
  datatype Reply =
    | ResumeNotice
    | CheckIn
    | HandoffNotice
    | Answer(body: JsString)
    | Apology
  {
    /** The text handed to `client.sendText`. */
    function Text(): JsString {
      match this
      case ResumeNotice => Utf16("Nest Assistant is back! How can I help you today?")
      case CheckIn => Utf16("Just checking in \U{2014} I\U{2019}m back if you still need help! How can I assist?")
      case HandoffNotice => Utf16(HANDOFF_NOTICE)
      case Answer(body) => body + FOOTER
      case Apology => Utf16("Sorry, I\U{2019}m having trouble answering right now.")
    }
  }

  /** The acknowledgement of line 103, as written in the source. */
  const HANDOFF_NOTICE: string :=
    "\U{1F4E9} Your Request Is Noted \U{1F4E9} Our team will contact you soon. Only reply if it\U{2019}s urgent "
    + "\U{2014} replying unnecessarily can slow things down. If you want me back sooner, just type 'resume'."

  /**
   * The handoff notice tells the user how to leave human mode: it contains
   * `resume`, which the resume test of line 82 accepts.
   */
  lemma HandoffNoticeMentionsResume()
    ensures AsksToResume(HandoffNotice.Text())
  {
    var n := |HANDOFF_NOTICE|;
    var tail := HANDOFF_NOTICE[n - 8..];
    assert tail == "resume'.";
    assert HANDOFF_NOTICE == HANDOFF_NOTICE[..n - 8] + tail;
    ClosingMentionsResume(HANDOFF_NOTICE[..n - 8], tail);
  }

  /** A text whose closing characters start with `resume` asks to resume. */
  lemma ClosingMentionsResume(head: string, tail: string)
    requires |tail| >= 6 && tail[..6] == "resume"
    requires forall i :: 0 <= i < |tail| ==> tail[i] as int < 0x1_0000
    ensures AsksToResume(Utf16(head + tail))
  {
    Utf16Append(head, tail);
    Utf16OfBmp(tail);
    var text := Utf16(head + tail);
    var k := |Utf16(head)|;
    assert MatchAt(text, RESUME, k) by {
      forall j | 0 <= j < |RESUME| ensures text[k + j] == RESUME[j] {
        assert text[k + j] == Units(tail)[j];
      }
    }
  }

  /** One `client.sendText(to, reply.Text())`. */
  datatype Sent = Sent(to: Sender, reply: Reply)

  const HUMAN_TIMEOUT_MS: int := 4 * 60 * 60 * 1000
  const DEDUP_RETENTION_MS: int := 5 * 60 * 1000

  const FALLBACK: JsString := Units("Sorry, I couldn't generate a reply just now.")
  const FOOTER: JsString :=
    Utf16("\n\n_Need to speak to someone from Nest? Just reply with 'human' and we\U{2019}ll connect you._")

  const RESUME: JsString := Units("resume")
  const BACK_TO_BOT: JsString := Units("back to bot")

  /** `/resume|back to bot/i.test(body)`. */
  predicate AsksToResume(body: JsString) {
    ContainsIgnoreCase(body, RESUME) || ContainsIgnoreCase(body, BACK_TO_BOT)
  }

  /** The three early exits of lines 67, 68 and 73 all let the message through. */
  predicate Admitted(m: Message, botStartTime: int) {
    !m.fromMe && m.timestamp >= botStartTime && ShouldRespond(m.body)
  }

  /**
   * The message gets past the handoff block (lines 79-94) to classification:
   * its sender is not waiting for a human, or the wait timed out and the
   * message does not ask to resume.
   */
  predicate ReachesClassifier(m: Message, botStartTime: int, humanRequests: map<Sender, int>, now: int) {
    Admitted(m, botStartTime)
    && (m.from in humanRequests ==>
          !AsksToResume(m.body.value) && now - humanRequests[m.from] >= HUMAN_TIMEOUT_MS)
  }

  /** `content || "Sorry, I couldn't generate a reply just now."`: a missing or empty text falls back. */
  function AnswerBody(content: Option<JsString>): (body: JsString)
    ensures body != []
    ensures content.Some? && content.value != [] ==> body == content.value
    ensures content.None? || content.value == [] ==> body == FALLBACK
  {
    if content.Some? && content.value != [] then content.value else FALLBACK
  }

  /** An AI answer is the generated text, or the fallback, followed by the footer. */
  lemma AnswerText(content: Option<JsString>)
    ensures var t := Answer(AnswerBody(content)).Text();
      |t| > |FOOTER| && t[|t| - |FOOTER|..] == FOOTER && t[..|t| - |FOOTER|] == AnswerBody(content)
  {
    var b := AnswerBody(content);
    var t := Answer(b).Text();
    assert t == b + FOOTER;
    assert t[|b|..] == FOOTER;
    assert t[..|b|] == b;
  }

  /** The four collections of lines 24-26 and the pending `setTimeout` removals (line 143). */
  datatype State = State(
    recentlyAnswered: set<MessageId>,  // ids an answer was committed to (line 120)
    humanRequests: map<Sender, int>,   // chats waiting for a human, with when the wait began (ms)
    humanFlaggedChats: set<Sender>,    // chats that ever asked for a human
    expiryDue: map<MessageId, int>)    // scheduled removals from `recentlyAnswered`, with when each is due (ms)

  /** The state when the bot starts. */
  const INITIAL: State := State({}, map[], {}, map[])

  /**
   * What the handler keeps true: a chat waiting for a human is flagged, and
   * a removal is scheduled only for a remembered id.
   */
  predicate Consistent(st: State) {
    st.humanRequests.Keys <= st.humanFlaggedChats && st.expiryDue.Keys <= st.recentlyAnswered
  }

  /** The handoff block (lines 79-94) either stops the handler or lets it go on to classification. */
  datatype Gated =
    | Stop(after: State, sent: seq<Sent>)
    | Proceed(after: State, sent: seq<Sent>)

  /** One delivery: the new state, the replies in order, and whether each model was asked. */
  datatype Outcome = Outcome(after: State, sent: seq<Sent>, classified: bool, generated: bool)

  /** Lines 79-94 for a message from `from` with text `text`, at `now`. */
  function Gate(st: State, from: Sender, text: JsString, now: int): Gated {
    if from !in st.humanRequests then Proceed(st, [])
    else if AsksToResume(text) then
      Stop(st.(humanRequests := st.humanRequests - {from}), [Sent(from, ResumeNotice)])
    else if now - st.humanRequests[from] >= HUMAN_TIMEOUT_MS then
      Proceed(st.(humanRequests := st.humanRequests - {from}), [Sent(from, CheckIn)])
    else Stop(st, [])
  }

  /** Lines 96-147: classify, then hand off, stay silent, or answer. */
  function Respond(st: State, m: Message, now: int, cls: RawClassification, gen: Generation): Outcome {
    var intent := IntentOf(cls);
    if intent == HumanIntent then
      var flagged := st.(humanRequests := st.humanRequests[m.from := now],
                         humanFlaggedChats := st.humanFlaggedChats + {m.from});
      Outcome(flagged, [Sent(m.from, HandoffNotice)], true, false)
    else if intent != AssistIntent || m.from in st.humanFlaggedChats then
      Outcome(st, [], true, false)
    else
      Assist(st, m, now, gen)
  }

  /** Lines 118-147, for a classified message that is to be answered: skip a repeated id, or answer it. */
  function Assist(st: State, m: Message, now: int, gen: Generation): Outcome {
    if m.id in st.recentlyAnswered then Outcome(st, [], true, false)
    else
      var remembered := st.(recentlyAnswered := st.recentlyAnswered + {m.id});
      match gen
      case GenerationFailed =>
        Outcome(remembered, [Sent(m.from, Apology)], true, true)
      case Generated(content) =>
        var scheduled := remembered.(expiryDue := remembered.expiryDue[m.id := now + DEDUP_RETENTION_MS]);
        Outcome(scheduled, [Sent(m.from, Answer(AnswerBody(content)))], true, true)
  }

  /** Lines 79-147 for a message with text `text`. */
  function Route(st: State, m: Message, text: JsString, now: int, cls: RawClassification, gen: Generation): Outcome {
    match Gate(st, m.from, text, now)
    case Stop(after, sent) => Outcome(after, sent, false, false)
    case Proceed(after, sent) =>
      var o := Respond(after, m, now, cls, gen);
      o.(sent := sent + o.sent)
  }

  /** The whole handler (lines 64-148) for message `m` delivered at `now`. */
  function Handle(st: State, botStartTime: int, m: Message, now: int, cls: RawClassification, gen: Generation): Outcome {
    if !Admitted(m, botStartTime) then Outcome(st, [], false, false)
    else Route(st, m, m.body.value, now, cls, gen)
  }

  /** The `setTimeout` callback of line 143 for a scheduled removal of `id`. */
  function Expire(st: State, id: MessageId): State
    requires id in st.expiryDue
  {
    st.(recentlyAnswered := st.recentlyAnswered - {id}, expiryDue := st.expiryDue - {id})
  }

  class Router {
    /** `Math.floor(Date.now() / 1000)` when the bot started. */
    const botStartTime: int
    var recentlyAnswered: set<MessageId>
    var humanRequests: map<Sender, int>
    var humanFlaggedChats: set<Sender>
    var expiryDue: map<MessageId, int>
    /** Everything sent so far, in order. */
    var outbox: seq<Sent>
    /** Messages handed to the classifier, in order. */
    ghost var classified: seq<MessageId>
    /** Messages an answer was requested for, in order. */
    ghost var generated: seq<MessageId>

    ghost function Snapshot(): State
      reads this
    {
      State(recentlyAnswered, humanRequests, humanFlaggedChats, expiryDue)
    }

    /** The state is consistent, and every remembered id had an answer requested. */
    ghost predicate Valid()
      reads this
    {
      Consistent(Snapshot()) && forall id :: id in recentlyAnswered ==> id in generated
    }

    /** The bot starts at `startMs` with nothing remembered and nothing sent. */
    constructor (startMs: int)
      ensures Valid()
      ensures botStartTime * 1000 <= startMs < botStartTime * 1000 + 1000
      ensures Snapshot() == INITIAL
      ensures outbox == [] && classified == [] && generated == []
    {
      botStartTime := startMs / 1000;
      recentlyAnswered, humanRequests, humanFlaggedChats := {}, map[], {};
      expiryDue, outbox := map[], [];
      classified, generated := [], [];
    }

    /**
     * The handler for one message `m`, delivered at `now` (ms). `cls` is what
     * the classifier returns if it is asked, `gen` what the generator returns
     * if it is asked; `sent` is what this delivery appended to `outbox`.
     */
    method OnMessage(m: Message, now: int, cls: RawClassification, gen: Generation) returns (sent: seq<Sent>)
      requires Valid()
      modifies this
      ensures Valid()
      ensures var o := Handle(old(Snapshot()), botStartTime, m, now, cls, gen);
        && Snapshot() == o.after
        && sent == o.sent
        && outbox == old(outbox) + sent
        && classified == old(classified) + (if o.classified then [m.id] else [])
        && generated == old(generated) + (if o.generated then [m.id] else [])
    {
      sent := [];
      if m.fromMe {
        return;
      }
      if m.timestamp < botStartTime {
        return;
      }
      if !ShouldRespond(m.body) {
        return;
      }
      sent := Dispatch(m, m.body.value, now, cls, gen);
    }

    /** Lines 79-147, for an admitted message with text `text`. */
    method Dispatch(m: Message, text: JsString, now: int, cls: RawClassification, gen: Generation) returns (sent: seq<Sent>)
      requires Valid()
      modifies this
      ensures Valid()
      ensures var o := Route(old(Snapshot()), m, text, now, cls, gen);
        && Snapshot() == o.after
        && sent == o.sent
        && outbox == old(outbox) + sent
        && classified == old(classified) + (if o.classified then [m.id] else [])
        && generated == old(generated) + (if o.generated then [m.id] else [])
    {
      var proceed, handoffSent := HandoffGate(m.from, text, now);
      sent := handoffSent;
      if proceed {
        var answerSent := ClassifyAndAnswer(m, now, cls, gen);
        sent := sent + answerSent;
      }
    }

    /** Lines 79-94: resume on request, stay silent within the timeout, or check in and go on. */
    method HandoffGate(from: Sender, text: JsString, now: int) returns (proceed: bool, sent: seq<Sent>)
      requires Valid()
      modifies this
      ensures Valid()
      ensures var g := Gate(old(Snapshot()), from, text, now);
        && proceed == g.Proceed?
        && Snapshot() == g.after
        && sent == g.sent
        && outbox == old(outbox) + sent
        && classified == old(classified) && generated == old(generated)
    {
      proceed, sent := true, [];
      if from in humanRequests {
        var enteredTime := humanRequests[from];
        if AsksToResume(text) {
          humanRequests := humanRequests - {from};
          sent := [Sent(from, ResumeNotice)];
          outbox := outbox + sent;
          return false, sent;
        }
        if now - enteredTime >= HUMAN_TIMEOUT_MS {
          humanRequests := humanRequests - {from};
          sent := [Sent(from, CheckIn)];
          outbox := outbox + sent;
        } else {
          return false, sent;
        }
      }
    }

    /** Lines 96-147: classify the message, then hand off, stay silent, or answer. */
    method ClassifyAndAnswer(m: Message, now: int, cls: RawClassification, gen: Generation)
      returns (sent: seq<Sent>)
      requires Valid()
      requires m.from !in humanRequests
      modifies this
      ensures Valid()
      ensures var o := Respond(old(Snapshot()), m, now, cls, gen);
        && Snapshot() == o.after
        && sent == o.sent
        && outbox == old(outbox) + sent
        && classified == old(classified) + [m.id]
        && generated == old(generated) + (if o.generated then [m.id] else [])
    {
      sent := [];
      classified := classified + [m.id];
      var intent := IntentOf(cls);
      if intent == HumanIntent {
        humanRequests := humanRequests[m.from := now];
        humanFlaggedChats := humanFlaggedChats + {m.from};
        sent := [Sent(m.from, HandoffNotice)];
        outbox := outbox + sent;
        return;
      }
      if intent != AssistIntent {
        return;
      }
      if m.from in humanFlaggedChats {
        return;
      }
      sent := AnswerAssist(m, now, gen);
    }

    /** Lines 118-147: skip a repeated id; otherwise remember it, then answer or apologise. */
    method AnswerAssist(m: Message, now: int, gen: Generation) returns (sent: seq<Sent>)
      requires Valid()
      modifies this
      ensures Valid()
      ensures var o := Assist(old(Snapshot()), m, now, gen);
        && Snapshot() == o.after
        && sent == o.sent
        && outbox == old(outbox) + sent
        && classified == old(classified)
        && generated == old(generated) + (if o.generated then [m.id] else [])
    {
      sent := [];
      if m.id in recentlyAnswered {
        return;
      }
      recentlyAnswered := recentlyAnswered + {m.id};
      generated := generated + [m.id];

      match gen {
        case GenerationFailed =>
          sent := [Sent(m.from, Apology)];
          outbox := outbox + sent;
        case Generated(content) =>
          sent := [Sent(m.from, Answer(AnswerBody(content)))];
          outbox := outbox + sent;
          expiryDue := expiryDue[m.id := now + DEDUP_RETENTION_MS];
      }
    }

    /** The `setTimeout` callback of line 143 fires for `id`. */
    method ExpireDedup(id: MessageId)
      requires Valid()
      requires id in expiryDue
      modifies this
      ensures Valid()
      ensures Snapshot() == Expire(old(Snapshot()), id)
      ensures outbox == old(outbox) && classified == old(classified) && generated == old(generated)
    {
      recentlyAnswered := recentlyAnswered - {id};
      expiryDue := expiryDue - {id};
    }
  }
}
