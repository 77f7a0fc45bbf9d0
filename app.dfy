/**
 * The chat screen's state and handlers: submitting a turn and streaming its answer, saving and
 * switching conversations, and managing pending attachments. Each handler runs to completion
 * before the next; the stop button's effect reaches a turn through the deliveries' stop flags.
 */
module App {

  import opened Types
  import opened Text
  import opened Seqs
  import opened Streaming
  import Gemini
  import ModelSelector
  import Attachments
  import Sessions

  const WelcomeText: string := "Hello, I'm Cortex. How can I help you today?"
  const DefaultAttachmentPrompt: string := "Analyze this attachment."
  const ErrorText: string := "I encountered an issue. Please try again later."
  const DefaultSessionId: string := "default"

  /** The greeting every new conversation starts with. */
  function WelcomeMessage(timestamp: int): Message
  {
    Message(Gemini.WelcomeId, Model, WelcomeText, timestamp, None, None, None, None, None, None)
  }

  /** A submission goes ahead unless the trimmed input is empty with nothing attached, or a turn is in flight. */
  predicate AcceptsSubmission(input: string, pending: seq<Attachment>, isLoading: bool)
  {
    !((Trim(input) == "" && |pending| == 0) || isLoading)
  }

  lemma AcceptsSubmissionIff(input: string, pending: seq<Attachment>, isLoading: bool)
    ensures AcceptsSubmission(input, pending, isLoading) <==>
      !isLoading && (|pending| > 0 || exists i :: 0 <= i < |input| && !IsTrimmable(input[i]))
  {
    TrimEmptyIff(input);
  }

  /** The text sent for a turn: the user's text, or a fixed instruction when only attachments were given. */
  function OutboundText(userText: string, pending: seq<Attachment>): string
  {
    if userText != "" then userText
    else if |pending| > 0 then DefaultAttachmentPrompt
    else ""
  }

  /** An accepted submission always sends a non-empty directive: the trimmed text, or the default one. */
  lemma AcceptedTurnHasDirective(input: string, pending: seq<Attachment>, isLoading: bool)
    requires AcceptsSubmission(input, pending, isLoading)
    ensures OutboundText(Trim(input), pending) != ""
    ensures Trim(input) != "" ==> OutboundText(Trim(input), pending) == Trim(input)
    ensures Trim(input) == "" ==> OutboundText(Trim(input), pending) == DefaultAttachmentPrompt
  {
  }

  /** Attachments only: an image sent with empty text goes out with the default instruction. */
  lemma AttachmentOnlyExample(image: Attachment)
    ensures AcceptsSubmission("  ", [image], false)
    ensures OutboundText(Trim("  "), [image]) == "Analyze this attachment."
  {
    assert Trim("  ") == "" by {
      TrimEmptyIff("  ");
    }
  }

  function UserMessage(id: string, text: string, timestamp: int, snapshot: seq<Attachment>): Message
  {
    Message(id, User, text, timestamp, None, None, Some(snapshot), None, None, None)
  }

  /** The empty answer message that the stream fills in. */
  function Placeholder(id: string, timestamp: int, modelId: ModelId): Message
  {
    Message(id, Model, "", timestamp, Some(true), None, None, None, None, Some(ModelIdName(modelId)))
  }

  function ErrorMessage(id: string, timestamp: int): Message
  {
    Message(id, Model, ErrorText, timestamp, None, Some(true), None, None, None, None)
  }

  /** The readings of the clock during one turn, and the ids made from them. */
  datatype TurnClock = TurnClock(
    userMessageId: string,
    userTimestamp: int,
    startTime: int,
    responseId: string,
    responseTimestamp: int,
    endTime: int,
    errorId: string,
    errorTimestamp: int)

  /** How the remote stream behaves: it ends after its deliveries, or raises an error after them. */
  datatype StreamOutcome = Completed(deliveries: seq<Delivery>) | Failed(deliveries: seq<Delivery>)

  /** The error reaches the turn only when the loop did not stop first. */
  predicate FailureSurfaces(outcome: StreamOutcome)
  {
    outcome.Failed? && StopIndex(outcome.deliveries) == |outcome.deliveries|
  }

  /**
   * The transcript after an accepted turn: the user message and the placeholder are appended, the
   * fragments before the first stop are applied to the placeholder, and then either the placeholder
   * is finished or, when the stream failed, one error message is appended.
   */
  function TurnTranscript(prior: seq<Message>, userText: string, snapshot: seq<Attachment>, modelId: ModelId, clock: TurnClock, outcome: StreamOutcome): seq<Message>
  {
    var withUser := prior + [UserMessage(clock.userMessageId, userText, clock.userTimestamp, snapshot)];
    var withPlaceholder := withUser + [Placeholder(clock.responseId, clock.responseTimestamp, modelId)];
    var streamed := Streamed(withPlaceholder, clock.responseId, outcome.deliveries);
    if FailureSurfaces(outcome) then streamed + [ErrorMessage(clock.errorId, clock.errorTimestamp)]
    else WithFinished(streamed, clock.responseId, clock.endTime - clock.startTime)
  }

  /**
   * The answer as the turn leaves it: the placeholder with the received text and sources, which
   * stops streaming and records the latency unless the stream failed.
   */
  function Answer(clock: TurnClock, modelId: ModelId, outcome: StreamOutcome): Message
  {
    var streamed := StreamedMessage(Placeholder(clock.responseId, clock.responseTimestamp, modelId), outcome.deliveries);
    if FailureSurfaces(outcome) then streamed
    else streamed.(isStreaming := Some(false), latency := Some(clock.endTime - clock.startTime))
  }

  /**
   * With a fresh response id, a turn keeps the earlier messages and appends the user message, the
   * answer and, when the stream failed, one error message.
   */
  lemma TurnShape(prior: seq<Message>, userText: string, snapshot: seq<Attachment>, modelId: ModelId, clock: TurnClock, outcome: StreamOutcome)
    requires forall i :: 0 <= i < |prior| ==> prior[i].id != clock.responseId
    requires clock.userMessageId != clock.responseId
    ensures TurnTranscript(prior, userText, snapshot, modelId, clock, outcome) ==
      prior + [UserMessage(clock.userMessageId, userText, clock.userTimestamp, snapshot), Answer(clock, modelId, outcome)] +
      (if FailureSurfaces(outcome) then [ErrorMessage(clock.errorId, clock.errorTimestamp)] else [])
  {
    var withUser := prior + [UserMessage(clock.userMessageId, userText, clock.userTimestamp, snapshot)];
    var p := Placeholder(clock.responseId, clock.responseTimestamp, modelId);
    var streamed := StreamedMessage(p, outcome.deliveries);
    StreamedLast(withUser, p, outcome.deliveries);
    if !FailureSurfaces(outcome) {
      FinishedLast(withUser, streamed, clock.endTime - clock.startTime);
    }
  }

  /**
   * A turn that ends normally, stopped or not, leaves exactly two new messages, and the answer stops
   * streaming, records the latency, holds the text and sources received before the first stop, names
   * the model variant, and is never an error.
   */
  lemma TurnFinishesAnswer(prior: seq<Message>, userText: string, snapshot: seq<Attachment>, modelId: ModelId, clock: TurnClock, outcome: StreamOutcome)
    requires !FailureSurfaces(outcome)
    requires forall i :: 0 <= i < |prior| ==> prior[i].id != clock.responseId
    requires clock.userMessageId != clock.responseId
    ensures var r := TurnTranscript(prior, userText, snapshot, modelId, clock, outcome); var fs := Received(outcome.deliveries);
      |r| == |prior| + 2 && r[|prior| + 1].id == clock.responseId && r[|prior| + 1].role == Model &&
      r[|prior| + 1].isStreaming == Some(false) && r[|prior| + 1].latency == Some(clock.endTime - clock.startTime) &&
      !IsSet(r[|prior| + 1].isError) && r[|prior| + 1].modelUsed == Some(ModelIdName(modelId)) &&
      r[|prior| + 1].content == StreamText(fs) &&
      r[|prior| + 1].groundingSources == (if fs == [] then None else Some(StreamSources(fs)))
  {
    TurnShape(prior, userText, snapshot, modelId, clock, outcome);
  }

  /**
   * A failed turn appends one error message after the answer and leaves the answer as the stream
   * left it: still marked as streaming and without a latency.
   */
  lemma TurnFailureAppendsError(prior: seq<Message>, userText: string, snapshot: seq<Attachment>, modelId: ModelId, clock: TurnClock, outcome: StreamOutcome)
    requires FailureSurfaces(outcome)
    requires forall i :: 0 <= i < |prior| ==> prior[i].id != clock.responseId
    requires clock.userMessageId != clock.responseId
    ensures var r := TurnTranscript(prior, userText, snapshot, modelId, clock, outcome);
      |r| == |prior| + 3 &&
      r[|prior| + 2] == ErrorMessage(clock.errorId, clock.errorTimestamp) && IsSet(r[|prior| + 2].isError) &&
      r[|prior| + 1].isStreaming == Some(true) && r[|prior| + 1].latency == None &&
      !IsSet(r[|prior| + 1].isError) && !IsSet(r[|prior|].isError) &&
      r[|prior| + 1].content == StreamText(Received(outcome.deliveries))
  {
    TurnShape(prior, userText, snapshot, modelId, clock, outcome);
  }

  /** A stop request, whenever it comes, ends the turn normally: a later stream error is never seen. */
  lemma StopNeverFails(outcome: StreamOutcome, i: nat)
    requires i < |outcome.deliveries| && outcome.deliveries[i].stopRequested
    ensures !FailureSurfaces(outcome)
  {
  }

  predicate StreamingWithLatency(m: Message)
  {
    IsSet(m.isStreaming) && m.latency.Some?
  }

  /** No message of the transcript is streaming while carrying a latency; a turn keeps it so. */
  lemma TurnKeepsLatencyAfterStreaming(prior: seq<Message>, userText: string, snapshot: seq<Attachment>, modelId: ModelId, clock: TurnClock, outcome: StreamOutcome)
    requires forall i :: 0 <= i < |prior| ==> !StreamingWithLatency(prior[i])
    ensures var r := TurnTranscript(prior, userText, snapshot, modelId, clock, outcome);
      forall i :: 0 <= i < |r| ==> !StreamingWithLatency(r[i])
  {
    var base := prior + [UserMessage(clock.userMessageId, userText, clock.userTimestamp, snapshot)]
      + [Placeholder(clock.responseId, clock.responseTimestamp, modelId)];
    assert forall i :: 0 <= i < |base| ==> !StreamingWithLatency(base[i]);
    var streamed := Streamed(base, clock.responseId, outcome.deliveries);
    assert forall i :: 0 <= i < |streamed| ==> !StreamingWithLatency(streamed[i]);
  }

  /** The error message of a failed turn is never replayed to the remote service on a later turn. */
  lemma FailedTurnErrorNotReplayed(prior: seq<Message>, userText: string, snapshot: seq<Attachment>, modelId: ModelId, clock: TurnClock, outcome: StreamOutcome)
    requires FailureSurfaces(outcome)
    requires clock.errorId != Gemini.WelcomeId
    ensures var r := TurnTranscript(prior, userText, snapshot, modelId, clock, outcome);
      Gemini.FormatHistory(Gemini.WithoutWelcome(r)) == Gemini.FormatHistory(Gemini.WithoutWelcome(r[..|r| - 1]))
  {
    var r := TurnTranscript(prior, userText, snapshot, modelId, clock, outcome);
    var e := ErrorMessage(clock.errorId, clock.errorTimestamp);
    var front := r[..|r| - 1];
    assert r == front + [e];
    FilterAppend(front, [e], Gemini.NotWelcome);
    assert Gemini.WithoutWelcome([e]) == [e];
    Gemini.FormatHistorySkipsError(Gemini.WithoutWelcome(front), e, []);
    assert Gemini.WithoutWelcome(front) + [e] + [] == Gemini.WithoutWelcome(r);
    assert Gemini.WithoutWelcome(front) + [] == Gemini.WithoutWelcome(front);
  }

  /**
   * The transcript updates of one accepted turn, in order: the user message, the placeholder, the
   * stream loop, and then the finishing touch on the answer or the appended error message.
   */
  method AnswerTurn(prior: seq<Message>, userText: string, snapshot: seq<Attachment>, modelId: ModelId, clock: TurnClock, outcome: StreamOutcome)
    returns (messages: seq<Message>)
    ensures messages == TurnTranscript(prior, userText, snapshot, modelId, clock, outcome)
  {
    messages := prior + [UserMessage(clock.userMessageId, userText, clock.userTimestamp, snapshot)];
    messages := messages + [Placeholder(clock.responseId, clock.responseTimestamp, modelId)];
    var streamed, fullContent, sources := StreamIntoTranscript(messages, clock.responseId, outcome.deliveries);
    messages := streamed;
    if FailureSurfaces(outcome) {
      messages := messages + [ErrorMessage(clock.errorId, clock.errorTimestamp)];
    } else {
      messages := WithFinished(messages, clock.responseId, clock.endTime - clock.startTime);
    }
  }

  /**
   * The next turn replays this one as two entries, the user's and the answer's text as it stood when
   * the turn ended; an error message adds nothing, while the answer of a failed turn is replayed with
   * whatever text it had received.
   */
  lemma TurnReplay(prior: seq<Message>, userText: string, snapshot: seq<Attachment>, modelId: ModelId, clock: TurnClock, outcome: StreamOutcome)
    requires forall i :: 0 <= i < |prior| ==> prior[i].id != clock.responseId
    requires clock.userMessageId != clock.responseId
    requires clock.userMessageId != Gemini.WelcomeId && clock.responseId != Gemini.WelcomeId
    ensures var r := TurnTranscript(prior, userText, snapshot, modelId, clock, outcome);
      Gemini.FormatHistory(Gemini.WithoutWelcome(r)) ==
        Gemini.FormatHistory(Gemini.WithoutWelcome(prior)) +
        [Gemini.HistoryEntry(UserMessage(clock.userMessageId, userText, clock.userTimestamp, snapshot)),
         Gemini.Content(Model, Gemini.TextParts(StreamText(Received(outcome.deliveries))))]
  {
    var tail := if FailureSurfaces(outcome) then [ErrorMessage(clock.errorId, clock.errorTimestamp)] else [];
    TurnShape(prior, userText, snapshot, modelId, clock, outcome);
    ReplayAppendsTwo(prior, UserMessage(clock.userMessageId, userText, clock.userTimestamp, snapshot), Answer(clock, modelId, outcome), tail);
    AnswerEntry(clock, modelId, outcome);
  }

  /** The answer replays as its received text under the model role, whether or not the stream failed. */
  lemma AnswerEntry(clock: TurnClock, modelId: ModelId, outcome: StreamOutcome)
    ensures Gemini.HistoryEntry(Answer(clock, modelId, outcome)) ==
      Gemini.Content(Model, Gemini.TextParts(StreamText(Received(outcome.deliveries))))
  {
  }

  /** Two replayable messages followed by error messages add exactly two history entries. */
  lemma ReplayAppendsTwo(prior: seq<Message>, u: Message, a: Message, tail: seq<Message>)
    requires Gemini.NotWelcome(u) && Gemini.NotError(u) && Gemini.NotWelcome(a) && Gemini.NotError(a)
    requires forall i :: 0 <= i < |tail| ==> IsSet(tail[i].isError)
    ensures Gemini.FormatHistory(Gemini.WithoutWelcome(prior + [u, a] + tail)) ==
      Gemini.FormatHistory(Gemini.WithoutWelcome(prior)) + [Gemini.HistoryEntry(u), Gemini.HistoryEntry(a)]
  {
    var front := Gemini.WithoutWelcome(prior);
    var back := Gemini.WithoutWelcome(tail);
    calc {
      Gemini.FormatHistory(Gemini.WithoutWelcome(prior + [u, a] + tail));
      { assert prior + [u, a] + tail == prior + [u] + [a] + tail; }
      Gemini.FormatHistory(Gemini.WithoutWelcome(prior + [u] + [a] + tail));
      { FilterKeepsTwo(prior, u, a, tail, Gemini.NotWelcome); }
      Gemini.FormatHistory(front + [u, a] + back);
      { Gemini.FormatHistoryAppend(front + [u, a], back); }
      Gemini.FormatHistory(front + [u, a]) + Gemini.FormatHistory(back);
      { FilterMembers(tail, Gemini.NotWelcome);
        ErrorsReplayNothing(back); }
      Gemini.FormatHistory(front + [u, a]);
      { Gemini.FormatHistoryAppend(front, [u, a]); }
      Gemini.FormatHistory(front) + Gemini.FormatHistory([u, a]);
      { FilterKeepsTwo([], u, a, [], Gemini.NotError);
        assert [] + [u] + [a] + [] == [u, a]; }
      Gemini.FormatHistory(front) + [Gemini.HistoryEntry(u), Gemini.HistoryEntry(a)];
    }
  }

  /** Error messages on their own replay as nothing. */
  lemma ErrorsReplayNothing(ms: seq<Message>)
    requires forall i :: 0 <= i < |ms| ==> IsSet(ms[i].isError)
    ensures Gemini.FormatHistory(ms) == []
  {
    FilterDropsAll(ms, Gemini.NotError);
  }

  /** The remote chat a turn or a session switch creates: the transcript replayed without the greeting, for the variant. */
  function TurnChat(transcript: seq<Message>, modelId: ModelId): Gemini.Chat
  {
    var config := ModelSelector.Models(modelId);
    Gemini.Chat(config.apiModel, Gemini.FormatHistory(Gemini.WithoutWelcome(transcript)), Gemini.ChatConfigFor(config))
  }

  /** What the durable record held when the screen opened. */
  datatype StoredSessions = NoRecord | Unreadable | Parsed(sessions: seq<ChatSession>)

  /** The state of the chat screen, with the service object it talks through. */
  class ChatApp {
    var sessions: seq<ChatSession>
    var currentSessionId: string
    var currentModelId: ModelId
    var messages: seq<Message>
    var inputValue: string
    var isLoading: bool
    var attachments: seq<Attachment>
    var stopGeneration: bool
    const service: Gemini.GeminiService

    /** Opens the screen with the greeting, restoring the saved sessions when the record could be read. */
    constructor (stored: StoredSessions, now: int)
      ensures fresh(service) && service.chat == None && service.currentModelId == None
      ensures sessions == if stored.Parsed? then stored.sessions else []
      ensures currentSessionId == DefaultSessionId && currentModelId == Flash
      ensures messages == [WelcomeMessage(now)]
      ensures inputValue == "" && !isLoading && attachments == [] && !stopGeneration
    {
      sessions := if stored.Parsed? then stored.sessions else [];
      currentSessionId := DefaultSessionId;
      currentModelId := Flash;
      messages := [WelcomeMessage(now)];
      inputValue := "";
      isLoading := false;
      attachments := [];
      stopGeneration := false;
      service := new Gemini.GeminiService();
    }

    /** The session the current transcript is saved as. */
    function CurrentSession(now: int): ChatSession
      reads this
    {
      ChatSession(currentSessionId, Sessions.SessionTitle(messages), messages, now, None)
    }

    /** Saves the current transcript, unless it holds at most the greeting. */
    method SaveCurrentSession(now: int)
      modifies this`sessions
      ensures |messages| <= 1 ==> sessions == old(sessions)
      ensures |messages| > 1 ==> sessions == Sessions.Upserted(old(sessions), CurrentSession(now))
    {
      if |messages| <= 1 {
        return;
      }
      var sessionName := Sessions.SessionTitle(messages);
      var newSession := ChatSession(currentSessionId, sessionName, messages, now, None);
      sessions := Sessions.UpsertSession(sessions, newSession);
    }

    /**
     * Saves the current conversation, stamped `savedAt`, when it has more than the greeting, and
     * starts a fresh one whose greeting is stamped `now`.
     */
    method CreateNewSession(newId: string, savedAt: int, now: int)
      modifies this`sessions, this`currentSessionId, this`messages, this`attachments, this`inputValue
      ensures sessions == if |old(messages)| > 1 then Sessions.Upserted(old(sessions), old(CurrentSession(savedAt))) else old(sessions)
      ensures currentSessionId == newId && messages == [WelcomeMessage(now)]
      ensures attachments == [] && inputValue == ""
    {
      if |messages| > 1 {
        SaveCurrentSession(savedAt);
      }
      currentSessionId := newId;
      messages := [WelcomeMessage(now)];
      attachments := [];
      inputValue := "";
    }

    /**
     * Opens a saved session: the current one is saved first when it has more than the greeting and
     * is a different session; the remote chat is re-created to replay the opened transcript.
     */
    method LoadSession(session: ChatSession, now: int)
      modifies this`sessions, this`currentSessionId, this`messages, this`attachments, this`inputValue, service
      ensures sessions ==
        if |old(messages)| > 1 && old(currentSessionId) != session.id
        then Sessions.Upserted(old(sessions), old(CurrentSession(now)))
        else old(sessions)
      ensures currentSessionId == session.id && messages == session.messages
      ensures attachments == [] && inputValue == ""
      ensures service.chat == Some(TurnChat(session.messages, currentModelId)) &&
        service.currentModelId == Some(TurnChat(session.messages, currentModelId).model)
    {
      if |messages| > 1 && currentSessionId != session.id {
        SaveCurrentSession(now);
      }
      currentSessionId := session.id;
      messages := session.messages;
      attachments := [];
      inputValue := "";
      var config := ModelSelector.Models(currentModelId);
      service.StartChat(session.messages, config);
    }

    /** Adds the attachment made from the first selected file; an unsupported or unreadable file adds nothing. */
    method SelectFile(files: seq<Attachments.SelectedFile>, id: string, read: Attachments.FileRead)
      returns (error: Option<Attachments.SelectError>)
      modifies this`attachments
      ensures files == [] ==> attachments == old(attachments) && error == None
      ensures files != [] ==>
        match Attachments.MakeAttachment(files[0], id, read)
        case Success(a) => attachments == old(attachments) + [a] && error == None
        case Failure(e) => attachments == old(attachments) && error == Some(e)
    {
      if |files| == 0 {
        return None;
      }
      var result := Attachments.MakeAttachment(files[0], id, read);
      match result
      case Success(a) =>
        attachments := attachments + [a];
        error := None;
      case Failure(e) =>
        error := Some(e);
    }

    method RemoveAttachment(id: string)
      modifies this`attachments
      ensures attachments == Attachments.RemoveAttachment(old(attachments), id)
    {
      attachments := Attachments.RemoveAttachment(attachments, id);
    }

    method StopGeneration()
      modifies this`stopGeneration
      ensures stopGeneration
    {
      stopGeneration := true;
    }

    method SetInputValue(value: string)
      modifies this`inputValue
      ensures inputValue == value
    {
      inputValue := value;
    }

    method SelectModel(id: ModelId)
      modifies this`currentModelId
      ensures currentModelId == id
    {
      currentModelId := id;
    }

    /**
     * Submits the input and the pending attachments as one turn. A rejected submission changes
     * nothing; an accepted one is `AcceptTurn`. It returns the chat and the parts that were sent.
     */
    method Submit(clock: TurnClock, outcome: StreamOutcome) returns (sent: Option<(Gemini.Chat, seq<Gemini.Part>)>)
      modifies this`messages, this`inputValue, this`attachments, this`isLoading, this`stopGeneration, service
      ensures !AcceptsSubmission(old(inputValue), old(attachments), old(isLoading)) ==>
        messages == old(messages) && inputValue == old(inputValue) && attachments == old(attachments) &&
        isLoading == old(isLoading) && stopGeneration == old(stopGeneration) &&
        service.chat == old(service.chat) && service.currentModelId == old(service.currentModelId) &&
        sent == None
      ensures AcceptsSubmission(old(inputValue), old(attachments), old(isLoading)) ==>
        var userText := Trim(old(inputValue));
        var chat := TurnChat(old(messages), currentModelId);
        messages == TurnTranscript(old(messages), userText, old(attachments), currentModelId, clock, outcome) &&
        inputValue == "" && attachments == [] && !isLoading && !stopGeneration &&
        service.chat == Some(chat) && service.currentModelId == Some(chat.model) &&
        sent == Some((chat, Gemini.TurnParts(OutboundText(userText, old(attachments)), old(attachments))))
    {
      if (Trim(inputValue) == "" && |attachments| == 0) || isLoading {
        return None;
      }
      var userText := Trim(inputValue);
      var snapshot, chat, parts := TakeTurn(userText, clock, outcome);
      sent := Some((chat, parts));
    }

    /**
     * An accepted submission, given the trimmed input: the input and the pending attachments are
     * cleared, then the turn is sent and answered against the transcript as it was before.
     */
    method TakeTurn(userText: string, clock: TurnClock, outcome: StreamOutcome)
      returns (snapshot: seq<Attachment>, chat: Gemini.Chat, parts: seq<Gemini.Part>)
      modifies this`messages, this`inputValue, this`attachments, this`isLoading, this`stopGeneration, service
      ensures snapshot == old(attachments)
      ensures chat == TurnChat(old(messages), currentModelId) && service.chat == Some(chat) && service.currentModelId == Some(chat.model)
      ensures parts == Gemini.TurnParts(OutboundText(userText, snapshot), snapshot)
      ensures messages == TurnTranscript(old(messages), userText, snapshot, currentModelId, clock, outcome)
      ensures inputValue == "" && attachments == [] && !isLoading && !stopGeneration
    {
      var prior := messages;
      snapshot := attachments;
      inputValue, attachments := "", [];
      isLoading, stopGeneration := true, false;
      chat, parts := AcceptTurn(userText, snapshot, prior, clock, outcome);
    }

    /**
     * An accepted turn, once the input and the pending attachments have been taken: the remote chat
     * is re-created from the transcript as it was before the turn, the turn's parts are sent to it,
     * and the transcript becomes what `TurnTranscript` describes.
     */
    method AcceptTurn(userText: string, snapshot: seq<Attachment>, prior: seq<Message>, clock: TurnClock, outcome: StreamOutcome)
      returns (chat: Gemini.Chat, parts: seq<Gemini.Part>)
      modifies this`messages, this`isLoading, this`stopGeneration, service
      ensures chat == TurnChat(prior, currentModelId) && service.chat == Some(chat) && service.currentModelId == Some(chat.model)
      ensures parts == Gemini.TurnParts(OutboundText(userText, snapshot), snapshot)
      ensures messages == TurnTranscript(prior, userText, snapshot, currentModelId, clock, outcome)
      ensures !isLoading && !stopGeneration && inputValue == old(inputValue) && attachments == old(attachments)
    {
      chat, parts := ReplayAndSend(prior, OutboundText(userText, snapshot), snapshot);
      FinishTurn(prior, userText, snapshot, clock, outcome);
    }

    /** Runs the transcript updates of the turn and clears the in-flight marks. */
    method FinishTurn(prior: seq<Message>, userText: string, snapshot: seq<Attachment>, clock: TurnClock, outcome: StreamOutcome)
      modifies this`messages, this`isLoading, this`stopGeneration
      ensures messages == TurnTranscript(prior, userText, snapshot, currentModelId, clock, outcome)
      ensures !isLoading && !stopGeneration
    {
      messages := AnswerTurn(prior, userText, snapshot, currentModelId, clock, outcome);
      isLoading := false;
      stopGeneration := false;
    }

    /**
     * Re-creates the remote chat for the selected variant from the transcript without its greeting,
     * then sends the turn to it; as the chat was just made for that variant, the send keeps it.
     */
    method ReplayAndSend(prior: seq<Message>, text: string, snapshot: seq<Attachment>) returns (chat: Gemini.Chat, parts: seq<Gemini.Part>)
      modifies service
      ensures chat == TurnChat(prior, currentModelId) && service.chat == Some(chat) && service.currentModelId == Some(chat.model)
      ensures parts == Gemini.TurnParts(text, snapshot)
    {
      var modelConfig := ModelSelector.Models(currentModelId);
      service.StartChat(Gemini.WithoutWelcome(prior), modelConfig);
      FilterIdempotent(prior, Gemini.NotWelcome);
      var reinitialized;
      reinitialized, chat, parts := service.SendMessageStream(text, snapshot, modelConfig);
    }
  }
}
