/**
 * The client's wrapper around the remote chat service: how a transcript is replayed as history,
 * how a model configuration becomes a chat configuration, and how one turn's parts are built.
 * The remote chat itself is an abstract handle that records what it was created with.
 */
module Gemini {

  import opened Types
  import opened Seqs
  import ModelSelector

  /** A content part: plain text, or binary data with its media type. */
  datatype Part = TextPart(text: string) | InlineData(data: string, mimeType: string)

  /** One role-tagged history entry. */
  datatype Content = Content(role: Role, parts: seq<Part>)

  datatype Tool = GoogleSearch

  /** The configuration a chat is created with; absent fields are left undefined. */
  datatype ChatConfig = ChatConfig(systemInstruction: string, tools: Option<seq<Tool>>, thinkingBudget: Option<int>)

  /** A remote chat, identified by the arguments it was created with. */
  datatype Chat = Chat(model: string, history: seq<Content>, config: ChatConfig)

  const SystemInstruction: string :=
    "You are Cortex, an advanced AI assistant. You are helpful, harmless, and honest. Use markdown for formatting, such as headers (##), lists, and bold text. If the user provides a document, analyze its content."

  const ReasoningThinkingBudget: int := 16384

  /** The id of the greeting message, which is never replayed. */
  const WelcomeId: string := "welcome"

  /** How a template literal renders an optional name: an absent one reads "undefined". */
  function DisplayName(name: Option<string>): string
  {
    match name
    case Some(n) => n
    case None => "undefined"
  }

  /** The text part that carries a text attachment. */
  function AttachmentText(a: Attachment): string
  {
    "\n[Attachment: " + DisplayName(a.name) + "]\n" + a.data + "\n"
  }

  /** The part one attachment is sent as. */
  function AttachmentPart(a: Attachment): Part
  {
    if IsSet(a.isText) then TextPart(AttachmentText(a)) else InlineData(a.data, a.mimeType)
  }

  /** Text attachments travel as tagged text, every other attachment as its data and media type unchanged. */
  lemma AttachmentPartEncoding(a: Attachment)
    ensures AttachmentPart(a).TextPart? <==> IsSet(a.isText)
    ensures IsSet(a.isText) ==> AttachmentPart(a).text == "\n[Attachment: " + DisplayName(a.name) + "]\n" + a.data + "\n"
    ensures !IsSet(a.isText) ==> AttachmentPart(a) == InlineData(a.data, a.mimeType)
  {
  }

  function AttachmentParts(atts: seq<Attachment>): seq<Part>
  {
    Map(atts, AttachmentPart)
  }

  /** The leading text part, present only for non-empty text. */
  function TextParts(text: string): seq<Part>
  {
    if text != "" then [TextPart(text)] else []
  }

  /** The history entry of one message; only user messages carry their attachments. */
  function HistoryEntry(m: Message): Content
  {
    Content(m.role, TextParts(m.content) + (if m.role == User && m.attachments.Some? then AttachmentParts(m.attachments.value) else []))
  }

  predicate NotError(m: Message)
  {
    !IsSet(m.isError)
  }

  predicate NotWelcome(m: Message)
  {
    m.id != WelcomeId
  }

  /** The replayed history: error messages dropped, every other message encoded in order. */
  function FormatHistory(ms: seq<Message>): seq<Content>
  {
    Map(Filter(ms, NotError), HistoryEntry)
  }

  /** The transcript without the greeting message. */
  function WithoutWelcome(ms: seq<Message>): seq<Message>
  {
    Filter(ms, NotWelcome)
  }

  /** One history entry per message that is not an error, in order, with the message's role. */
  lemma FormatHistoryShape(ms: seq<Message>)
    ensures |FormatHistory(ms)| == |Filter(ms, NotError)|
    ensures forall i :: 0 <= i < |FormatHistory(ms)| ==>
      FormatHistory(ms)[i] == HistoryEntry(Filter(ms, NotError)[i]) &&
      FormatHistory(ms)[i].role == Filter(ms, NotError)[i].role
  {
  }

  /** Replay is compositional: the history of a concatenation is the concatenation of the histories. */
  lemma FormatHistoryAppend(a: seq<Message>, b: seq<Message>)
    ensures FormatHistory(a + b) == FormatHistory(a) + FormatHistory(b)
  {
    FilterAppend(a, b, NotError);
    MapAppend(Filter(a, NotError), Filter(b, NotError), HistoryEntry);
  }

  /** An error message adds nothing to the history, wherever it stands. */
  lemma FormatHistorySkipsError(a: seq<Message>, e: Message, b: seq<Message>)
    requires IsSet(e.isError)
    ensures FormatHistory(a + [e] + b) == FormatHistory(a + b)
  {
    assert Filter([e], NotError) == [];
    assert FormatHistory([e]) == [];
    FormatHistoryAppend(a, [e]);
    assert FormatHistory(a + [e]) == FormatHistory(a);
    FormatHistoryAppend(a + [e], b);
    FormatHistoryAppend(a, b);
  }

  /** An entry opens with a text part holding the content exactly when the content is non-empty. */
  lemma {:induction false} HistoryEntryLeadingText(m: Message)
    ensures (|HistoryEntry(m).parts| > 0 && HistoryEntry(m).parts[0] == TextPart(m.content)) <==> m.content != ""
  {
    var parts := HistoryEntry(m).parts;
    if m.content == "" && |parts| > 0 {
      assert m.role == User && m.attachments.Some?;
      var a := m.attachments.value[0];
      assert parts[0] == AttachmentPart(a);
      if IsSet(a.isText) {
        assert |AttachmentText(a)| > 0;
      }
    }
  }

  /** Attachment parts follow the text part, one per attachment in order, and only for user messages. */
  lemma HistoryEntryAttachments(m: Message)
    ensures m.role == Model || m.attachments.None? ==> HistoryEntry(m).parts == TextParts(m.content)
    ensures m.role == User && m.attachments.Some? ==>
      var t := |TextParts(m.content)|;
      |HistoryEntry(m).parts| == t + |m.attachments.value| &&
      forall i :: 0 <= i < |m.attachments.value| ==> HistoryEntry(m).parts[t + i] == AttachmentPart(m.attachments.value[i])
  {
  }

  /** `config.useGrounding ? [{googleSearch}] : undefined`. */
  function ToolsFor(config: ModelConfig): (t: Option<seq<Tool>>)
    ensures t.Some? <==> IsSet(config.useGrounding)
    ensures t.Some? ==> t.value == [GoogleSearch]
  {
    var tools := if IsSet(config.useGrounding) then [GoogleSearch] else [];
    if |tools| > 0 then Some(tools) else None
  }

  /** The thinking budget, set for the reasoning variant only. */
  function ThinkingBudgetFor(config: ModelConfig): (b: Option<int>)
    ensures b.Some? <==> config.id == Reasoning
    ensures b.Some? ==> b.value == ReasoningThinkingBudget
  {
    if config.id == Reasoning then Some(ReasoningThinkingBudget) else None
  }

  function ChatConfigFor(config: ModelConfig): ChatConfig
  {
    ChatConfig(SystemInstruction, ToolsFor(config), ThinkingBudgetFor(config))
  }

  /** Of the table's variants, research alone searches the web and reasoning alone thinks. */
  lemma TableChatConfigs(key: ModelId)
    ensures ChatConfigFor(ModelSelector.Models(key)).tools.Some? <==> key == Research
    ensures ChatConfigFor(ModelSelector.Models(key)).thinkingBudget == if key == Reasoning then Some(16384) else None
  {
    ModelSelector.OnlyResearchIsGrounded(key);
  }

  /** A send re-creates the chat when there is none or it was made for another remote model. */
  predicate NeedsReinit(chat: Option<Chat>, currentModelId: Option<string>, config: ModelConfig)
  {
    chat.None? || currentModelId != Some(config.apiModel)
  }

  /**
   * Switching between flash and research does not re-create the chat on its own, although the
   * two want different tools: the check compares remote model names only.
   */
  lemma FlashResearchSwitchKeepsChat(chat: Chat)
    ensures !NeedsReinit(Some(chat), Some(ModelSelector.Models(Flash).apiModel), ModelSelector.Models(Research))
    ensures !NeedsReinit(Some(chat), Some(ModelSelector.Models(Research).apiModel), ModelSelector.Models(Flash))
    ensures ChatConfigFor(ModelSelector.Models(Flash)) != ChatConfigFor(ModelSelector.Models(Research))
  {
    assert ChatConfigFor(ModelSelector.Models(Flash)).tools == None;
  }

  /** The parts of one turn: the message text when non-empty, then one part per attachment. */
  function TurnParts(message: string, atts: seq<Attachment>): seq<Part>
  {
    TextParts(message) + AttachmentParts(atts)
  }

  /** A turn is encoded exactly as a user message with that text and those attachments is replayed. */
  lemma TurnPartsAsHistory(m: Message)
    requires m.role == User && m.attachments.Some?
    ensures TurnParts(m.content, m.attachments.value) == HistoryEntry(m).parts
  {
  }

  /** Builds the turn's parts by pushing one part per attachment. */
  method BuildTurnParts(message: string, attachments: seq<Attachment>) returns (parts: seq<Part>)
    ensures |parts| == |TextParts(message)| + |attachments|
    ensures parts == TurnParts(message, attachments)
  {
    parts := [];
    if message != "" {
      parts := parts + [TextPart(message)];
    }
    var i := 0;
    while i < |attachments|
      invariant 0 <= i <= |attachments|
      invariant parts == TextParts(message) + AttachmentParts(attachments[..i])
    {
      var att := attachments[i];
      var part;
      if IsSet(att.isText) {
        part := TextPart(AttachmentText(att));
      } else {
        part := InlineData(att.data, att.mimeType);
      }
      assert part == AttachmentPart(att);
      assert attachments[..i + 1] == attachments[..i] + [att];
      MapAppend(attachments[..i], [att], AttachmentPart);
      parts := parts + [part];
      i := i + 1;
    }
    assert attachments[..i] == attachments;
  }

  /** The service object: the current remote chat and the remote model it was created for. */
  class GeminiService {
    var chat: Option<Chat>
    var currentModelId: Option<string>

    constructor ()
      ensures chat == None && currentModelId == None
    {
      chat := None;
      currentModelId := None;
    }

    /** Creates a chat that replays `previousMessages` without the greeting, for `config`. */
    method StartChat(previousMessages: seq<Message>, config: ModelConfig)
      modifies this
      ensures currentModelId == Some(config.apiModel)
      ensures chat == Some(Chat(config.apiModel, FormatHistory(WithoutWelcome(previousMessages)), ChatConfigFor(config)))
    {
      var validHistory := WithoutWelcome(previousMessages);
      var history := FormatHistory(validHistory);
      currentModelId := Some(config.apiModel);
      chat := Some(Chat(config.apiModel, history, ChatConfigFor(config)));
    }

    /**
     * Prepares one send: re-creates the chat with an empty history when it is missing or was made
     * for another remote model, and returns the chat the parts go to together with the parts.
     */
    method SendMessageStream(message: string, attachments: seq<Attachment>, config: ModelConfig)
      returns (reinitialized: bool, target: Chat, parts: seq<Part>)
      modifies this
      ensures reinitialized == NeedsReinit(old(chat), old(currentModelId), config)
      ensures reinitialized ==> chat == Some(Chat(config.apiModel, [], ChatConfigFor(config))) && currentModelId == Some(config.apiModel)
      ensures !reinitialized ==> chat == old(chat) && currentModelId == old(currentModelId)
      ensures chat == Some(target)
      ensures parts == TurnParts(message, attachments)
    {
      reinitialized := chat.None? || currentModelId != Some(config.apiModel);
      if reinitialized {
        StartChat([], config);
        assert Filter([], NotWelcome) == [];
        assert Filter([], NotError) == [];
      }
      target := chat.value;
      parts := BuildTurnParts(message, attachments);
    }
  }
}
