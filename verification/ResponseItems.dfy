/** The items of a conversation, as the history code of the budgeted builder reads them, and the
    classifiers that decide what part an item plays in a Responses replay run. */
module ResponseItems {
  import opened Options

  // A field of a portable JSON item: absent (or null), a string, or any other value.
  datatype Value = Missing | Text(text: string) | NonText(truthy: bool) {
    // A string that is not empty.
    predicate Named() {
      Text? && text != ""
    }

    predicate Truthy() {
      match this
      case Missing => false
      case Text(s) => s != ""
      case NonText(t) => t
    }
  }

  // The nine kinds of tool interaction. A call of a kind is completed by the output of that kind.
  datatype ToolKind =
    | Program | Function | Custom | Shell | ApplyPatch | Computer | LocalShell | McpApproval | ToolSearch

  datatype ItemType =
    | Call(kind: ToolKind)
    | Output(kind: ToolKind)
    | Reasoning
    | HostedToolCall | FileSearchCall | WebSearchCall | CodeInterpreterCall | ImageGenerationCall
    | McpListTools | McpCall
    | Message | AdditionalTools | Compaction
    | CompactionTrigger | ItemReference
    | OtherType

  datatype Role = Assistant | Tool | System | User | OtherRole

  datatype Status = NoStatus | InProgress | Completed | Incomplete | OtherStatus

  datatype Caller = NotAProgram | ByProgram(callerId: Value)

  datatype ProviderData = NoProviderData | ProviderData(typ: ItemType, id: Value)

  // The "tool_calls" field: absent, null or []; a list of calls, each with its "id"; anything else.
  datatype ToolCalls = NoToolCalls | ToolCalls(ids: seq<Value>) | NotAList

  datatype Item = Item(
    typ: ItemType,
    role: Role,
    id: Value,
    callId: Value,
    approvalRequestId: Value,
    caller: Caller,
    status: Status,
    clientExecuted: bool,
    encryptedContent: bool,
    provider: ProviderData,
    toolCalls: ToolCalls,
    toolCallId: Value,
    content: string)

  // What a call declares and its output repeats.
  datatype Pair = Pair(kind: ToolKind, id: string)

  function CallKind(item: Item): Option<ToolKind> {
    if item.typ.Call? then Some(item.typ.kind)
    else if item.typ == HostedToolCall && item.provider.ProviderData? && item.provider.typ == Call(McpApproval)
    then Some(McpApproval)
    else None
  }

  function OutputKind(item: Item): Option<ToolKind> {
    if item.typ.Output? then Some(item.typ.kind) else None
  }

  function PairOf(kind: ToolKind, id: Value): Option<Pair> {
    if id.Named() then Some(Pair(kind, id.text)) else None
  }

  function CallPair(item: Item): Option<Pair> {
    var kind := CallKind(item);
    if kind.None? then None
    else if item.typ == HostedToolCall then
      var nested := item.provider.id;
      PairOf(McpApproval, if !nested.Missing? then nested else if item.callId.Truthy() then item.callId else item.id)
    else
      PairOf(kind.value, if kind.value == McpApproval then item.id else item.callId)
  }

  function OutputPair(item: Item): Option<Pair> {
    match OutputKind(item)
    case None => None
    case Some(kind) =>
      PairOf(kind,
             match kind
             case LocalShell => if item.id.Missing? then item.callId else item.id
             case McpApproval => item.approvalRequestId
             case _ => item.callId)
  }

  // The program invocation on whose behalf the item was issued.
  function Owner(item: Item): Option<string> {
    if item.caller.ByProgram? && item.caller.callerId.Named() then Some(item.caller.callerId.text) else None
  }

  predicate ActiveChildType(typ: ItemType) {
    typ in {HostedToolCall, FileSearchCall, WebSearchCall, CodeInterpreterCall, ImageGenerationCall,
            McpListTools, McpCall, Call(McpApproval), Output(McpApproval)}
  }

  // A self-contained model output that needs no partner item.
  predicate IsOpaque(item: Item) {
    if CallKind(item).Some? || OutputKind(item).Some? then false
    else
      match item.typ
      case Message => item.role == Assistant && item.id.Named() && item.status in {InProgress, Completed, Incomplete}
      case Compaction => item.id.Named() && item.encryptedContent
      case HostedToolCall => item.id.Named() || (item.provider.ProviderData? && item.provider.id.Named())
      case AdditionalTools => item.id.Named()
      case _ => ActiveChildType(item.typ) && item.id.Named()
  }

  predicate IsModelEmitted(item: Item) {
    CallKind(item).Some? || IsOpaque(item)
  }

  predicate IsProtocolItem(item: Item) {
    || item.typ == Reasoning
    || CallKind(item).Some?
    || OutputKind(item).Some?
    || IsOpaque(item)
    || Owner(item).Some?
  }

  predicate IsInputOnly(item: Item) {
    item.typ == CompactionTrigger || item.typ == ItemReference
  }

  // Whether an owned item of this kind keeps its unfinished program resumable.
  predicate KeepsProgramActive(item: Item) {
    || ActiveChildType(item.typ)
    || (OutputKind(item).Some? && OutputKind(item).value != Program)
    || (item.typ == Call(Shell) && item.status in {NoStatus, InProgress})
  }

  // Whether an owned call may stay without its output.
  predicate MayStayPending(item: Item) {
    var kind := CallKind(item);
    kind == Some(McpApproval) || (kind == Some(Shell) && item.status in {NoStatus, InProgress})
  }

  predicate IsAnonymousCall(item: Item) {
    CallKind(item) == Some(ToolSearch) && !item.callId.Text? && !item.clientExecuted
  }

  predicate IsAnonymousOutput(item: Item) {
    OutputKind(item) == Some(ToolSearch) && !item.callId.Text? && !item.clientExecuted
  }

  // A message with no more than a role and a text.
  function TextMessage(role: Role, content: string): Item {
    Item(OtherType, role, Missing, Missing, Missing, NotAProgram, NoStatus, false, false, NoProviderData, NoToolCalls,
         Missing, content)
  }
}
