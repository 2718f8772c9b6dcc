/**
 * The bot over its whole run: a sequence of deliveries and timer firings,
 * each run to completion in turn, starting from one state. What the handler
 * keeps for one delivery (`TriageFacts`) is lifted here to any such run.
 */
module Lifetime {
  import opened Wrappers
  import opened JsText
  import opened Classifier
  import opened Triage
  import opened TriageFacts

  /** One step of the bot: a message delivered, or a five-minute timer firing (line 143). */
  datatype Event =
    | Delivered(m: Message, now: int, cls: RawClassification, gen: Generation)
    | TimerFired(id: MessageId)

  /** Where a run ends, everything it sent in order, and the ids the generator was asked for, in order. */
  datatype Log = Log(after: State, sent: seq<Sent>, generatedFor: seq<MessageId>)

  /**
   * The bot started at second `botStartTime` going through `events` from
   * `st`. A timer fires only if it was scheduled: a firing for an id with no
   * pending removal does nothing.
   */
  function Run(st: State, botStartTime: int, events: seq<Event>): Log
    decreases |events|
  {
    if events == [] then Log(st, [], [])
    else
      match events[0]
      case Delivered(m, now, cls, gen) =>
        var o := Handle(st, botStartTime, m, now, cls, gen);
        var rest := Run(o.after, botStartTime, events[1..]);
        Log(rest.after, o.sent + rest.sent, (if o.generated then [m.id] else []) + rest.generatedFor)
      case TimerFired(id) =>
        Run(if id in st.expiryDue then Expire(st, id) else st, botStartTime, events[1..])
  }

  /** Every run from a consistent state ends in a consistent state. */
  lemma {:induction false} RunKeepsConsistent(st: State, botStartTime: int, events: seq<Event>)
    requires Consistent(st)
    ensures Consistent(Run(st, botStartTime, events).after)
    decreases |events|
  {
    if events != [] {
      match events[0]
      case Delivered(m, now, cls, gen) =>
        HandleInvariants(st, botStartTime, m, now, cls, gen);
        RunKeepsConsistent(Handle(st, botStartTime, m, now, cls, gen).after, botStartTime, events[1..]);
      case TimerFired(id) =>
        RunKeepsConsistent(if id in st.expiryDue then Expire(st, id) else st, botStartTime, events[1..]);
    }
  }

  /**
   * No code path unflags a chat: once a chat asked for a human it stays
   * flagged, and it never gets an AI answer again.
   */
  lemma {:induction false} FlaggedForever(st: State, botStartTime: int, events: seq<Event>, chat: Sender)
    requires chat in st.humanFlaggedChats
    ensures var log := Run(st, botStartTime, events);
      && chat in log.after.humanFlaggedChats
      && forall r <- log.sent :: r.to == chat ==> !r.reply.Answer?
    decreases |events|
  {
    if events != [] {
      match events[0]
      case Delivered(m, now, cls, gen) =>
        var o := Handle(st, botStartTime, m, now, cls, gen);
        FlaggedStep(st, botStartTime, m, now, cls, gen, chat);
        FlaggedForever(o.after, botStartTime, events[1..], chat);
      case TimerFired(id) =>
        FlaggedForever(if id in st.expiryDue then Expire(st, id) else st, botStartTime, events[1..], chat);
    }
  }

  /** One delivery keeps a flagged chat flagged and sends it no AI answer. */
  lemma FlaggedStep(st: State, botStartTime: int, m: Message, now: int, cls: RawClassification, gen: Generation, chat: Sender)
    requires chat in st.humanFlaggedChats
    ensures var o := Handle(st, botStartTime, m, now, cls, gen);
      && chat in o.after.humanFlaggedChats
      && forall r <- o.sent :: r.to == chat ==> !r.reply.Answer?
  {
    HandleInvariants(st, botStartTime, m, now, cls, gen);
    HandleReplies(st, botStartTime, m, now, cls, gen);
    if m.from == chat {
      FlaggedChatNotAnswered(st, botStartTime, m, now, cls, gen);
    }
  }

  /**
   * While an id stays remembered (its timer does not fire), the generator is
   * not asked for it again: a given id triggers generation at most once
   * until its removal fires.
   */
  lemma {:induction false} RememberedIdNotRegenerated(st: State, botStartTime: int, events: seq<Event>, id: MessageId)
    requires id in st.recentlyAnswered
    requires TimerFired(id) !in events
    ensures var log := Run(st, botStartTime, events);
      id in log.after.recentlyAnswered && id !in log.generatedFor
    decreases |events|
  {
    if events != [] {
      assert events[0] != TimerFired(id);
      assert forall e <- events[1..] :: e in events;
      match events[0]
      case Delivered(m, now, cls, gen) =>
        var o := Handle(st, botStartTime, m, now, cls, gen);
        HandleInvariants(st, botStartTime, m, now, cls, gen);
        RememberedIdNotRegenerated(o.after, botStartTime, events[1..], id);
      case TimerFired(other) =>
        RememberedIdNotRegenerated(if other in st.expiryDue then Expire(st, other) else st, botStartTime, events[1..], id);
    }
  }

  /**
   * An id that is remembered with no removal scheduled, as a failed
   * generation leaves it, stays so for the rest of the run, whatever
   * happens: it is never forgotten and never answered again.
   */
  lemma {:induction false} StuckIdStaysStuck(st: State, botStartTime: int, events: seq<Event>, id: MessageId)
    requires id in st.recentlyAnswered && id !in st.expiryDue
    ensures var log := Run(st, botStartTime, events);
      && id in log.after.recentlyAnswered && id !in log.after.expiryDue
      && id !in log.generatedFor
    decreases |events|
  {
    if events != [] {
      match events[0]
      case Delivered(m, now, cls, gen) =>
        var o := Handle(st, botStartTime, m, now, cls, gen);
        HandleInvariants(st, botStartTime, m, now, cls, gen);
        StuckIdStaysStuck(o.after, botStartTime, events[1..], id);
      case TimerFired(other) =>
        StuckIdStaysStuck(if other in st.expiryDue then Expire(st, other) else st, botStartTime, events[1..], id);
    }
  }

  /**
   * A failed generation keeps its id for good: after the apology, no later
   * delivery of that id is answered, in any run.
   */
  lemma {:induction false} FailedGenerationNeverRetried(
    st: State, botStartTime: int, m: Message, now: int, cls: RawClassification, events: seq<Event>)
    requires Consistent(st)
    requires Admitted(m, botStartTime) && IntentOf(cls) == AssistIntent
    requires m.from !in st.humanFlaggedChats && m.id !in st.recentlyAnswered
    ensures var o := Handle(st, botStartTime, m, now, cls, GenerationFailed);
      var log := Run(o.after, botStartTime, events);
      && o.sent == [Sent(m.from, Apology)]
      && m.id in log.after.recentlyAnswered && m.id !in log.generatedFor
  {
    AssistAnswered(st, botStartTime, m, now, cls, GenerationFailed);
    var o := Handle(st, botStartTime, m, now, cls, GenerationFailed);
    StuckIdStaysStuck(o.after, botStartTime, events, m.id);
  }
}
