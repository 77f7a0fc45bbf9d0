/** The value types of the chat client: roles, attachments, messages, sessions and model configurations. */
module Types {

  datatype Option<T> = None | Some(value: T)

  datatype Result<T, E> = Success(value: T) | Failure(error: E)

  /** Truthiness of an optional boolean field: only a present `true` counts as set. */
  predicate IsSet(flag: Option<bool>)
  {
    flag == Some(true)
  }

  /** Who wrote a transcript entry. */
  datatype Role = User | Model

  /** The wire spelling of a role. */
  function RoleName(r: Role): string
  {
    match r
    case User => "user"
    case Model => "model"
  }

  lemma RoleNameInjective(a: Role, b: Role)
    ensures RoleName(a) == RoleName(b) <==> a == b
  {
  }

  datatype AttachmentType = Image | File

  /** A file the user attached. `data` is base64 for binary files and the text itself when `isText` is set. */
  datatype Attachment = Attachment(
    id: string,
    kind: AttachmentType,
    mimeType: string,
    data: string,
    name: Option<string>,
    isText: Option<bool>)

  /** A web citation shown under a research answer. */
  datatype GroundingSource = GroundingSource(title: string, uri: string)

  /** One transcript entry; `timestamp` and `latency` are milliseconds. */
  datatype Message = Message(
    id: string,
    role: Role,
    content: string,
    timestamp: int,
    isStreaming: Option<bool>,
    isError: Option<bool>,
    attachments: Option<seq<Attachment>>,
    latency: Option<int>,
    groundingSources: Option<seq<GroundingSource>>,
    modelUsed: Option<string>)

  /** A saved conversation. */
  datatype ChatSession = ChatSession(
    id: string,
    title: string,
    messages: seq<Message>,
    createdAt: int,
    lastModelId: Option<string>)

  /** The closed set of model variants the user can pick. */
  datatype ModelId = Flash | Reasoning | Research

  /** The key spelling of a model variant. */
  function ModelIdName(id: ModelId): string
  {
    match id
    case Flash => "flash"
    case Reasoning => "reasoning"
    case Research => "research"
  }

  lemma ModelIdNameInjective(a: ModelId, b: ModelId)
    ensures ModelIdName(a) == ModelIdName(b) <==> a == b
  {
  }

  /** A static model configuration; `apiModel` is the remote model identifier. */
  datatype ModelConfig = ModelConfig(
    id: ModelId,
    name: string,
    description: string,
    apiModel: string,
    useGrounding: Option<bool>)
}
