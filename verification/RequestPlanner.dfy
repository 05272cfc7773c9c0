/** Planning one provider request under a hard token ceiling: what the caller insists on is reserved first, the
    context is built in what is left, and history is kept newest first in what is left after that. */
module RequestPlanner {
  import opened Options
  import opened ResponseItems
  import opened HistoryGroups
  import opened HistorySelection
  import opened TailDependency
  import opened ContextPlan
  import opened ContextText
  import opened ContextAllocator
  import opened ContextFilling
  import opened ContextBuilder

  datatype Counter = Counter(texts: Texts, countMessages: Cost)

  // A mandatory data lane of the host, rendered as two fixed messages.
  datatype HostPrefix = HostPrefix(lane: string, guard: string, data: string)

  datatype Request = Request(
    input: ContextInput,
    history: seq<Item>,
    userMessage: Option<string>,
    finalMessages: Option<seq<Item>>,
    outputReserve: Option<int>,
    hostPrefix: Option<HostPrefix>)

  datatype Plan = Plan(messages: seq<Item>, context: Built, decisions: seq<Decision>, receipt: Receipt)

  function SystemMessage(content: string): Item {
    TextMessage(System, content)
  }

  function PrefixMessages(prefix: Option<HostPrefix>): seq<Item> {
    match prefix
    case None => []
    case Some(p) => [SystemMessage(p.guard), TextMessage(User, p.data)]
  }

  function TailMessages(req: Request): seq<Item> {
    match req.finalMessages
    case Some(messages) => messages
    case None =>
      if req.userMessage.Some? && req.userMessage.value != "" then [TextMessage(User, req.userMessage.value)] else []
  }

  function SystemMessages(prompt: string): seq<Item> {
    if prompt != "" then [SystemMessage(prompt)] else []
  }

  function ReserveOf(defaultReserve: int, req: Request): int {
    match req.outputReserve case Some(n) => n case None => defaultReserve
  }

  predicate ArgumentsOk(defaultReserve: int, req: Request) {
    !(req.userMessage.Some? && req.finalMessages.Some?) && ReserveOf(defaultReserve, req) >= 0
  }

  // Leading outputs of the final input have their call at the end of the history.
  ghost predicate DependencyOk(history: seq<Item>, tail: seq<Item>) {
    || tail == []
    || (if tail[0].role == Tool then AnswersLastRequest(history, tail)
        else if OutputKind(tail[0]).Some? then ContinuesLastRun(history, tail)
        else true)
  }

  // Where the part of the history begins that the final input depends on.
  ghost function DependencyStart(history: seq<Item>, tail: seq<Item>): (n: nat)
    requires DependencyOk(history, tail)
    ensures n <= |history|
  {
    if tail == [] then |history|
    else if tail[0].role == Tool then |history| - 1
    else if OutputKind(tail[0]).Some? then TrailingRunStart(history)
    else |history|
  }

  // The parts of a request that are settled before history is chosen: what comes before it and what comes after.
  datatype Layout = Layout(prefix: seq<Item>, dependency: seq<Item>, tail: seq<Item>)

  // What the request costs before any context or optional history.
  function Required(counter: Counter, l: Layout, reserve: int): int {
    counter.countMessages(l.prefix) + counter.countMessages(l.tail) + counter.countMessages(l.dependency) + reserve
  }

  function Overhead(counter: Counter): nat {
    counter.countMessages([SystemMessage("")])
  }

  /** A counter that keeps the contract the planner relies on: a list of messages costs what its messages cost, a system
      message costs its text and a fixed overhead, more text never costs less. A text may cost nothing. */
  ghost predicate Conforming(counter: Counter) {
    && Additive(counter.countMessages)
    && (forall text :: counter.countMessages([SystemMessage(text)]) == counter.texts.count(text) + Overhead(counter))
    && MonotoneTexts(counter.texts)
  }

  lemma ConformingAddsUp(counter: Counter)
    requires Conforming(counter)
    ensures Additive(counter.countMessages) && MonotoneTexts(counter.texts) && counter.texts.count("") == 0
  {
    assert counter.countMessages([SystemMessage("")]) == counter.texts.count("") + Overhead(counter);
  }

  /** What the caller insists on is over the ceiling: the reserve, the host lane, the final input, the dependency and,
      if there is one, the system prompt with its framing. */
  function Exceeds(counter: Counter, maxTokens: int, reserve: int, l: Layout, systemPrompt: string): bool {
    var required := Required(counter, l, reserve);
    || reserve > maxTokens
    || required > maxTokens
    || (systemPrompt != "" && required + Overhead(counter) + counter.texts.count(systemPrompt) > maxTokens)
  }

  /** The framing of the context no longer fits, and the context opens all the same: its first text, the system prompt
      or the profile, is one the counter charges nothing for. */
  predicate OpensUnpriced(counter: Counter, maxTokens: int, reserve: int, l: Layout, input: ContextInput) {
    && Required(counter, l, reserve) <= maxTokens < Required(counter, l, reserve) + Overhead(counter)
    && LeadingText(input) != "" && counter.texts.count(LeadingText(input)) == 0
  }

  function ContextBudget(counter: Counter, maxTokens: int, reserve: int, l: Layout): nat {
    var left := maxTokens - Required(counter, l, reserve) - Overhead(counter);
    if left < 0 then 0 else left
  }

  // The section reported when the required input does not fit.
  function RequiredSection(counter: Counter, maxTokens: int, reserve: int, l: Layout, req: Request): Section {
    if req.hostPrefix.Some? && Required(counter, l, reserve) - counter.countMessages(l.prefix) <= maxTokens
    then LedgerSection
    else if l.dependency != [] then DependencySection
    else if req.userMessage.Some? then UserSection
    else NewInputSection
  }

  /* The records of the request beside those of the context */

  function RequestDecisions(
      cost: Cost, lane: Option<HostPrefix>, reserve: int, l: Layout, start: nat, framing: nat): seq<Decision>
  {
    var prefixTokens, tailTokens, dependencyTokens := cost(l.prefix), cost(l.tail), cost(l.dependency);
    (match lane
     case Some(p) => [Decision(DataLaneBlock(p.lane), Included, HostRequired, prefixTokens, Some(prefixTokens))]
     case None => [])
    + [Decision(OutputReserveBlock, Reserved, Configured, reserve, None)]
    + [Decision(NewInputBlock(|l.tail|), if l.tail != [] then Included else Excluded,
                if l.tail != [] then Mandatory else NotProvided, tailTokens, Some(tailTokens))]
    + (if l.dependency != []
       then [Decision(HistoryBlock(start, start + |l.dependency|), Reserved, RequiredToolDependency,
                      dependencyTokens, Some(dependencyTokens))]
       else [])
    + (if framing > 0 then [Decision(FramingBlock, Reserved, ProviderFraming, framing, None)] else [])
  }

  /* What a plan is */

  function Lead(l: Layout, prompt: string): seq<Item> {
    SystemMessages(prompt) + l.prefix
  }

  // What is left for optional history.
  function LeftForHistory(cost: Cost, maxTokens: int, reserve: int, l: Layout, prompt: string): int {
    maxTokens - reserve - (cost(Lead(l, prompt)) + cost(l.dependency) + cost(l.tail))
  }

  // The messages: system prompt, host lane, kept history, dependency, final input, in this order; the kept history is
  // the best choice of complete groups in what the rest leaves over.
  ghost predicate Laid(
      cost: Cost, maxTokens: int, reserve: int, l: Layout, optional: seq<Group>, p: Plan, mask: seq<bool>)
  {
    var remaining := LeftForHistory(cost, maxTokens, reserve, l, p.context.prompt);
    && remaining >= 0
    && Best(optional, remaining, cost, mask)
    && p.messages == Lead(l, p.context.prompt) + KeptItems(optional, mask) + l.dependency + l.tail
  }

  // The receipt: the whole request as counted, and its parts.
  ghost predicate Receipted(
      cost: Cost, maxTokens: int, reserve: int, l: Layout, optional: seq<Group>, p: Plan, mask: seq<bool>)
    requires |mask| == |optional|
  {
    var r := p.receipt;
    && r.Valid()
    && r.maxTokens == maxTokens && r.outputReserveTokens == reserve
    && r.inputTokens == cost(p.messages)
    && r.contextTokens == cost(Lead(l, p.context.prompt))
    && r.finalInputTokens == cost(l.tail)
    && r.historyTokens == if optional != [] then TotalCost(optional, mask, cost) + cost(l.dependency)
                          else if l.dependency != [] then cost(l.dependency)
                          else 0
  }

  // What the provider's framing of the system message adds to the context.
  function Framing(cost: Cost, l: Layout, built: Built): nat {
    var lead := Lead(l, built.prompt);
    if lead != [] && cost(lead) > built.used + cost(l.prefix) then cost(lead) - built.used - cost(l.prefix) else 0
  }

  // The records: those of the context, of the request's fixed parts, and of each group of optional history.
  ghost predicate Explained(
      cost: Cost, reserve: int, lane: Option<HostPrefix>, l: Layout, start: nat, optional: seq<Group>, p: Plan,
      mask: seq<bool>)
    requires |mask| == |optional|
  {
    p.decisions == p.context.decisions + RequestDecisions(cost, lane, reserve, l, start, Framing(cost, l, p.context))
                   + Decisions(optional, mask, cost)
  }

  // The layout of a request whose dependency is there.
  ghost function LayoutOf(req: Request): Layout
    requires DependencyOk(req.history, TailMessages(req))
  {
    var tail := TailMessages(req);
    Layout(PrefixMessages(req.hostPrefix), req.history[DependencyStart(req.history, tail)..], tail)
  }

  // The groups of the history before the dependency.
  ghost function OptionalGroups(req: Request): seq<Group>
    requires DependencyOk(req.history, TailMessages(req))
  {
    GroupsOf(req.history[..DependencyStart(req.history, TailMessages(req))])
  }

  ghost predicate Planned(cost: Cost, maxTokens: int, reserve: int, req: Request, p: Plan, mask: seq<bool>) {
    && DependencyOk(req.history, TailMessages(req))
    && Laid(cost, maxTokens, reserve, LayoutOf(req), OptionalGroups(req), p, mask)
    && Receipted(cost, maxTokens, reserve, LayoutOf(req), OptionalGroups(req), p, mask)
    && Explained(cost, reserve, req.hostPrefix, LayoutOf(req), DependencyStart(req.history, TailMessages(req)),
                 OptionalGroups(req), p, mask)
  }

  // The context is what the builder makes of the room the fixed parts leave.
  ghost predicate InContext(
      counter: Counter, maxTokens: int, reserve: int, priorities: seq<Priority>, req: Request, retrieved: Retrieved,
      p: Plan)
    requires DependencyOk(req.history, TailMessages(req))
  {
    var budget := ContextBudget(counter, maxTokens, reserve, LayoutOf(req));
    && BuiltFrom(counter.texts, priorities, req.input, retrieved, budget, p.context)
    && (Distinct(ActiveLayers(priorities)) ==>
          && RecordsEach(counter.texts, priorities, req.input, retrieved, budget, p.context.decisions)
          && BuiltReads(counter.texts, priorities, req.input, retrieved, budget, p.context))
  }

  /* What a plan reads like, in roles, texts and numbers */

  // A message that is a role and a text and nothing else.
  predicate Reads(item: Item, role: Role, content: string) {
    && item.role == role && item.content == content && item.typ == OtherType
    && item.id == item.callId == item.approvalRequestId == item.toolCallId == Missing
    && item.caller == NotAProgram && item.toolCalls == NoToolCalls && item.provider == NoProviderData
    && item.status == NoStatus && !item.clientExecuted && !item.encryptedContent
  }

  // How many messages stand before the history, and how many are the final input.
  function LeadLength(req: Request, prompt: string): nat {
    (if prompt == "" then 0 else 1) + (if req.hostPrefix == None then 0 else 2)
  }

  function InputLength(req: Request): nat {
    match req.finalMessages
    case Some(messages) => |messages|
    case None => if req.userMessage == None || req.userMessage == Some("") then 0 else 1
  }

  /** The context prompt opens the request as a system message. The host's lane follows it, its guard as a system
      message and then its data as a user message. The messages given as final input, or the user message if it is not
      empty, close the request. Between the two stand the kept groups of the history, and then its last messages. */
  ghost predicate MessagesRead(req: Request, p: Plan, mask: seq<bool>)
    requires DependencyOk(req.history, TailMessages(req)) && |mask| == |OptionalGroups(req)|
  {
    var messages, prompt, start := p.messages, p.context.prompt, DependencyStart(req.history, TailMessages(req));
    var lead, tail := LeadLength(req, prompt), InputLength(req);
    && |messages| >= lead + tail
    && (prompt != "" ==> Reads(messages[0], System, prompt))
    && (req.hostPrefix.Some? ==>
          && Reads(messages[lead - 2], System, req.hostPrefix.value.guard)
          && Reads(messages[lead - 1], User, req.hostPrefix.value.data))
    && (req.finalMessages.Some? ==> messages[|messages| - tail..] == req.finalMessages.value)
    && (req.finalMessages.None? && req.userMessage.Some? && req.userMessage.value != "" ==>
          Reads(messages[|messages| - 1], User, req.userMessage.value))
    && messages[lead..|messages| - tail] == KeptItems(OptionalGroups(req), mask) + req.history[start..]
  }

  /** The receipt counts those parts of the request, and states ceiling and reserve as they were asked for. */
  ghost predicate ReceiptReads(cost: Cost, maxTokens: int, defaultReserve: int, req: Request, p: Plan)
    requires |p.messages| >= LeadLength(req, p.context.prompt) + InputLength(req)
  {
    var r, n := p.receipt, |p.messages|;
    && r.maxTokens == maxTokens
    && (req.outputReserve.None? ==> r.outputReserveTokens == defaultReserve)
    && (req.outputReserve.Some? ==> r.outputReserveTokens == req.outputReserve.value)
    && r.inputTokens == cost(p.messages)
    && r.inputTokens + r.outputReserveTokens + r.remainingTokens == maxTokens
    && r.inputTokens >= 0 && r.outputReserveTokens >= 0 && r.remainingTokens >= 0
    && r.contextTokens >= 0 && r.historyTokens >= 0 && r.finalInputTokens >= 0
    && r.contextTokens == cost(p.messages[..LeadLength(req, p.context.prompt)])
    && r.finalInputTokens == cost(p.messages[n - InputLength(req)..])
  }

  /** The records behind those of the context: the host's lane, the reserve, the final input, the part of the history it
      depends on, what framing adds, and each group of the rest of the history, newest first. */
  ghost predicate RecordsRead(cost: Cost, reserve: int, req: Request, p: Plan, mask: seq<bool>)
    requires DependencyOk(req.history, TailMessages(req)) && |mask| == |OptionalGroups(req)|
    requires |p.messages| >= LeadLength(req, p.context.prompt) + InputLength(req)
  {
    var ds, n, start := p.decisions, |p.messages|, DependencyStart(req.history, TailMessages(req));
    var lead, tail := LeadLength(req, p.context.prompt), InputLength(req);
    var first := |p.context.decisions| + if req.hostPrefix.Some? then 1 else 0;
    var groups, m := OptionalGroups(req), |p.decisions| - |mask|;
    var dependency := if start < |req.history| then 1 else 0;
    && first + 2 + dependency <= m <= first + 3 + dependency && p.context.decisions <= ds
    && (req.hostPrefix.Some? ==>
          var spent := cost(p.messages[lead - 2..lead]);
          ds[first - 1] ==
            Decision(DataLaneBlock(req.hostPrefix.value.lane), Included, HostRequired, spent, Some(spent)))
    && ds[first] == Decision(OutputReserveBlock, Reserved, Configured, reserve, None)
    && ds[first + 1] == (var spent := cost(p.messages[n - tail..]);
                         if tail > 0 then Decision(NewInputBlock(tail), Included, Mandatory, spent, Some(spent))
                         else Decision(NewInputBlock(0), Excluded, NotProvided, spent, Some(spent)))
    && (dependency == 1 ==>
          var spent := cost(req.history[start..]);
          ds[first + 2] ==
            Decision(HistoryBlock(start, |req.history|), Reserved, RequiredToolDependency, spent, Some(spent)))
    && (var lane := if req.hostPrefix.Some? then cost(p.messages[lead - 2..lead]) else cost([]);
        var framing := cost(p.messages[..lead]) - p.context.used - lane;
        if m == first + 3 + dependency
        then lead > 0 && framing > 0 && ds[m - 1] == Decision(FramingBlock, Reserved, ProviderFraming, framing, None)
        else lead == 0 || framing <= 0)
    && (forall k | 0 <= k < |mask| :: Tells(ds[|ds| - 1 - k], groups[k], mask[k], cost))
  }

  lemma {:induction false} MessagesInParts(
      cost: Cost, maxTokens: int, reserve: int, req: Request, p: Plan, mask: seq<bool>)
    requires !(req.userMessage.Some? && req.finalMessages.Some?)
    requires Planned(cost, maxTokens, reserve, req, p, mask)
    ensures DependencyOk(req.history, TailMessages(req)) && |mask| == |OptionalGroups(req)|
    ensures Receipted(cost, maxTokens, reserve, LayoutOf(req), OptionalGroups(req), p, mask)
    ensures Explained(cost, reserve, req.hostPrefix, LayoutOf(req),
                      DependencyStart(req.history, TailMessages(req)), OptionalGroups(req), p, mask)
    ensures var l, n := LayoutOf(req), |p.messages|;
            var lead, tail := LeadLength(req, p.context.prompt), InputLength(req);
            && n >= lead + tail && lead == |Lead(l, p.context.prompt)| && tail == |l.tail|
            && p.messages[..lead] == Lead(l, p.context.prompt)
            && (req.hostPrefix.Some? ==> p.messages[lead - 2..lead] == l.prefix)
            && (req.hostPrefix.None? ==> l.prefix == [])
            && p.messages[n - tail..] == l.tail
            && p.messages[lead..n - tail] == KeptItems(OptionalGroups(req), mask) + l.dependency
  {
    hide DependencyOk, DependencyStart, OptionalGroups, Receipted, Explained, KeptItems, Reads, SystemMessages,
         PrefixMessages, TailMessages, InputLength, LeftForHistory, Best;
    LeadReads(req.hostPrefix, p.context.prompt);
    TailReads(req);
    ChoiceLength(OptionalGroups(req), LeftForHistory(cost, maxTokens, reserve, LayoutOf(req), p.context.prompt), cost,
                 mask);
    var l, optional := LayoutOf(req), OptionalGroups(req);
    var lead := Lead(l, p.context.prompt);
    InThreeParts(p.messages, lead, KeptItems(optional, mask), l.dependency, l.tail);
    assert lead[|SystemMessages(p.context.prompt)|..] == l.prefix;
    if req.hostPrefix.Some? {
      assert p.messages[|lead| - 2..|lead|] == p.messages[..|lead|][|lead| - 2..];
    }
  }

  lemma ChoiceLength(groups: seq<Group>, budget: int, cost: Cost, mask: seq<bool>)
    requires budget >= 0 && Best(groups, budget, cost, mask)
    ensures |mask| == |groups|
  {
  }

  lemma InThreeParts(all: seq<Item>, a: seq<Item>, b: seq<Item>, c: seq<Item>, d: seq<Item>)
    requires all == a + b + c + d
    ensures all[..|a|] == a && all[|all| - |d|..] == d && all[|a|..|all| - |d|] == b + c
  {
  }

  ghost predicate PlanRead(
      cost: Cost, maxTokens: int, defaultReserve: int, req: Request, p: Plan, mask: seq<bool>)
  {
    && DependencyOk(req.history, TailMessages(req)) && |mask| == |OptionalGroups(req)|
    && MessagesRead(req, p, mask)
    && ReceiptReads(cost, maxTokens, defaultReserve, req, p)
    && RecordsRead(cost, ReserveOf(defaultReserve, req), req, p, mask)
  }

  lemma PlanReads(
      cost: Cost, maxTokens: int, defaultReserve: int, req: Request, p: Plan, mask: seq<bool>)
    requires !(req.userMessage.Some? && req.finalMessages.Some?)
    requires Planned(cost, maxTokens, ReserveOf(defaultReserve, req), req, p, mask)
    ensures PlanRead(cost, maxTokens, defaultReserve, req, p, mask)
  {
    hide DependencyOk, OptionalGroups, MessagesRead, ReceiptReads, RecordsRead, Planned, ReserveOf, LayoutOf;
    MessagesInParts(cost, maxTokens, ReserveOf(defaultReserve, req), req, p, mask);
    PartsRead(req, p, mask);
    CountsRead(cost, maxTokens, defaultReserve, req, p, mask);
    DecisionsRead(cost, maxTokens, ReserveOf(defaultReserve, req), req, p, mask);
  }

  lemma {:induction false} PartsRead(req: Request, p: Plan, mask: seq<bool>)
    requires !(req.userMessage.Some? && req.finalMessages.Some?)
    requires DependencyOk(req.history, TailMessages(req)) && |mask| == |OptionalGroups(req)|
    requires var l, n := LayoutOf(req), |p.messages|;
             var lead, tail := LeadLength(req, p.context.prompt), InputLength(req);
             && n >= lead + tail && p.messages[..lead] == Lead(l, p.context.prompt)
             && p.messages[n - tail..] == l.tail
             && p.messages[lead..n - tail] == KeptItems(OptionalGroups(req), mask) + l.dependency
    ensures MessagesRead(req, p, mask)
  {
    hide DependencyOk, DependencyStart, OptionalGroups, KeptItems, Reads, SystemMessages, PrefixMessages, LeadLength,
         TailMessages, InputLength;
    LeadReads(req.hostPrefix, p.context.prompt);
    TailReads(req);
    EndsAre(p.messages, LeadLength(req, p.context.prompt), InputLength(req));
  }

  lemma EndsAre(all: seq<Item>, lead: nat, tail: nat)
    requires |all| >= lead + tail
    ensures lead >= 1 ==> all[0] == all[..lead][0] && all[lead - 1] == all[..lead][lead - 1]
    ensures lead >= 2 ==> all[lead - 2] == all[..lead][lead - 2]
    ensures tail >= 1 ==> all[|all| - 1] == all[|all| - tail..][tail - 1]
  {
  }

  lemma LeadReads(lane: Option<HostPrefix>, prompt: string)
    ensures var lead := SystemMessages(prompt) + PrefixMessages(lane);
            && |lead| == (if prompt == "" then 0 else 1) + |PrefixMessages(lane)|
            && |PrefixMessages(lane)| == (if lane == None then 0 else 2)
            && (lane == None ==> PrefixMessages(lane) == [])
            && (prompt != "" ==> |lead| > 0 && Reads(lead[0], System, prompt))
            && (lane.Some? ==>
                  && |lead| >= 2 && Reads(lead[|lead| - 2], System, lane.value.guard)
                  && Reads(lead[|lead| - 1], User, lane.value.data))
  {
  }

  lemma TailReads(req: Request)
    requires !(req.userMessage.Some? && req.finalMessages.Some?)
    ensures var tail := TailMessages(req);
            && |tail| == InputLength(req)
            && (req.finalMessages.Some? ==> tail == req.finalMessages.value)
            && (req.finalMessages.None? && req.userMessage.Some? && req.userMessage.value != "" ==>
                  tail != [] && Reads(tail[|tail| - 1], User, req.userMessage.value))
  {
  }

  lemma CountsRead(cost: Cost, maxTokens: int, defaultReserve: int, req: Request, p: Plan, mask: seq<bool>)
    requires DependencyOk(req.history, TailMessages(req)) && |mask| == |OptionalGroups(req)|
    requires Receipted(cost, maxTokens, ReserveOf(defaultReserve, req), LayoutOf(req), OptionalGroups(req), p, mask)
    requires var l, n := LayoutOf(req), |p.messages|;
             var lead, tail := LeadLength(req, p.context.prompt), InputLength(req);
             && n >= lead + tail && p.messages[..lead] == Lead(l, p.context.prompt) && p.messages[n - tail..] == l.tail
    ensures ReceiptReads(cost, maxTokens, defaultReserve, req, p)
  {
    hide DependencyOk, DependencyStart, GroupsOf, TotalCost, Lead, PrefixMessages, TailMessages;
  }

  lemma DecisionsRead(cost: Cost, maxTokens: int, reserve: int, req: Request, p: Plan, mask: seq<bool>)
    requires DependencyOk(req.history, TailMessages(req)) && |mask| == |OptionalGroups(req)|
    requires Explained(cost, reserve, req.hostPrefix, LayoutOf(req),
                       DependencyStart(req.history, TailMessages(req)), OptionalGroups(req), p, mask)
    requires var l, n := LayoutOf(req), |p.messages|;
             var lead, tail := LeadLength(req, p.context.prompt), InputLength(req);
             && n >= lead + tail && lead == |Lead(l, p.context.prompt)| && tail == |l.tail|
             && p.messages[..lead] == Lead(l, p.context.prompt)
             && (req.hostPrefix.Some? ==> p.messages[lead - 2..lead] == l.prefix)
             && (req.hostPrefix.None? ==> l.prefix == [])
             && p.messages[n - tail..] == l.tail
    ensures RecordsRead(cost, reserve, req, p, mask)
  {
    hide DependencyOk, DependencyStart, GroupsOf, RequestDecisions, Tells, Decisions, Lead, PrefixMessages,
         TailMessages, InputLength, LeadLength;
    var l, optional := LayoutOf(req), OptionalGroups(req);
    var start, framing := DependencyStart(req.history, TailMessages(req)), Framing(cost, l, p.context);
    RequestRecordsAre(cost, req.hostPrefix, reserve, l, start, framing);
    var ds := p.context.decisions + RequestDecisions(cost, req.hostPrefix, reserve, l, start, framing);
    forall k | 0 <= k < |mask|
      ensures Tells(p.decisions[|p.decisions| - 1 - k], optional[k], mask[k], cost)
    {
      DecisionOfGroup(optional, mask, cost, k);
      assert p.decisions == ds + Decisions(optional, mask, cost);
    }
  }

  lemma RequestRecordsAre(cost: Cost, lane: Option<HostPrefix>, reserve: int, l: Layout, start: nat, framing: nat)
    ensures var ds := RequestDecisions(cost, lane, reserve, l, start, framing);
            var a, d := if lane.Some? then 1 else 0, if l.dependency != [] then 1 else 0;
            && |ds| == a + 2 + d + (if framing > 0 then 1 else 0)
            && (lane.Some? ==> var n := cost(l.prefix);
                               ds[0] == Decision(DataLaneBlock(lane.value.lane), Included, HostRequired, n, Some(n)))
            && ds[a] == Decision(OutputReserveBlock, Reserved, Configured, reserve, None)
            && ds[a + 1] == (var n := cost(l.tail);
                             if l.tail != [] then Decision(NewInputBlock(|l.tail|), Included, Mandatory, n, Some(n))
                             else Decision(NewInputBlock(0), Excluded, NotProvided, n, Some(n)))
            && (l.dependency != [] ==>
                  var n := cost(l.dependency);
                  ds[a + 2] == Decision(HistoryBlock(start, start + |l.dependency|), Reserved, RequiredToolDependency,
                                        n, Some(n)))
            && (framing > 0 ==> ds[a + 2 + d] == Decision(FramingBlock, Reserved, ProviderFraming, framing, None))
  {
  }

  lemma CostOfMessages(cost: Cost, a: seq<Item>, b: seq<Item>, c: seq<Item>, d: seq<Item>)
    requires Additive(cost)
    ensures cost(a + b + c + d) == cost(a) + cost(b) + cost(c) + cost(d)
  {
    assert cost(a + b + c + d) == cost(a + b + c) + cost(d);
    assert cost(a + b + c) == cost(a + b) + cost(c);
  }

  // With a conforming counter the context leaves room for everything else, or there was no room for its framing.
  lemma ContextFits(counter: Counter, maxTokens: int, reserve: int, l: Layout, prompt: string)
    requires Conforming(counter) && Required(counter, l, reserve) <= maxTokens
    requires prompt != "" ==> counter.texts.count(prompt) <= ContextBudget(counter, maxTokens, reserve, l)
    ensures LeftForHistory(counter.countMessages, maxTokens, reserve, l, prompt) < 0 <==>
            prompt != "" && maxTokens < Required(counter, l, reserve) + Overhead(counter)
  {
    assert counter.countMessages(Lead(l, prompt)) ==
           counter.countMessages(SystemMessages(prompt)) + counter.countMessages(l.prefix);
    if prompt != "" {
      assert counter.countMessages([SystemMessage(prompt)]) == counter.texts.count(prompt) + Overhead(counter);
    }
  }

  /** What the context was built of leaves too little exactly if it opens with a text that counts as nothing. */
  lemma ContextLeavesRoom(
      counter: Counter, maxTokens: int, reserve: int, l: Layout, priorities: seq<Priority>, input: ContextInput,
      retrieved: Retrieved, b: Built)
    requires Conforming(counter) && Required(counter, l, reserve) <= maxTokens
    requires SystemCost(counter.texts, input) <= ContextBudget(counter, maxTokens, reserve, l)
    requires BuiltFrom(counter.texts, priorities, input, retrieved, ContextBudget(counter, maxTokens, reserve, l), b)
    requires b.prompt != "" ==> b.used <= ContextBudget(counter, maxTokens, reserve, l)
    ensures LeftForHistory(counter.countMessages, maxTokens, reserve, l, b.prompt) < 0 <==>
            OpensUnpriced(counter, maxTokens, reserve, l, input)
  {
    hide Conforming, Filling, ProfileStart, RequestedProfile, LeftForHistory;
    ContextFits(counter, maxTokens, reserve, l, b.prompt);
    if maxTokens < Required(counter, l, reserve) + Overhead(counter) {
      PromptWithoutRoom(counter.texts, priorities, input, retrieved, b);
    }
  }

  /** Where the required input fits, the context fails exactly if the system prompt with its framing does not fit,
      except that a system prompt the counter charges nothing for is noticed later. */
  lemma SystemFitsExactly(counter: Counter, maxTokens: int, reserve: int, l: Layout, input: ContextInput)
    requires Conforming(counter) && reserve <= maxTokens && Required(counter, l, reserve) <= maxTokens
    ensures SystemCost(counter.texts, input) > ContextBudget(counter, maxTokens, reserve, l) <==>
            Exceeds(counter, maxTokens, reserve, l, input.systemPrompt)
              && !OpensUnpriced(counter, maxTokens, reserve, l, input)
  {
  }

  // Four tokens for a message, none for its text.
  function MessagesOnly(): Counter {
    Counter(Texts((text: string) => 0, (text: string) => [text], ""), (messages: seq<Item>) => 4 * |messages|)
  }

  /** There are such requests: a conforming counter, a reserve that is all of the ceiling, and a context that opens with
      a blank profile. What the caller insists on does not exceed the ceiling, and yet the framing does not fit. */
  lemma BlankProfileOpens(input: ContextInput)
    requires input.systemPrompt == "" && input.includeProfile && input.renderedProfile == Some(" ")
    ensures Conforming(MessagesOnly())
    ensures var l := Layout([], [], []);
            && OpensUnpriced(MessagesOnly(), 10, 10, l, input)
            && !Exceeds(MessagesOnly(), 10, 10, l, input.systemPrompt)
  {
    hide AssemblePrompt;
  }

  // Finding the part of the history the final input depends on.
  method LayOut(req: Request) returns (l: Layout, start: nat, ok: bool)
    ensures ok <==> DependencyOk(req.history, TailMessages(req))
    ensures ok ==> l == LayoutOf(req) && start == DependencyStart(req.history, TailMessages(req))
  {
    var tail := TailMessages(req);
    var dependency, from, valid := TailHistoryDependency(req.history, tail);
    l, start, ok := Layout(PrefixMessages(req.hostPrefix), dependency, tail), if valid then from else 0, valid;
  }

  /* What a refusal says */

  // What an overflow names beside the required input: the guard's section, what was needed and what there was.
  ghost predicate Located(counter: Counter, maxTokens: int, reserve: int, req: Request, e: PlanError)
    requires e.Overflow?
  {
    && e.needed > e.limit && (e.guard != SystemGuard ==> e.limit == maxTokens)
    && match e.guard
       case ReserveGuard => e.section == OutputReserveSection && e.needed == reserve
       case RequiredGuard => e.section in {LedgerSection, DependencySection, UserSection, NewInputSection}
       case SystemGuard =>
         e.section == SystemPromptSection && req.input.systemPrompt != ""
         && e.needed == counter.texts.count(req.input.systemPrompt)
       case FramingGuard => e.section == SystemPromptSection || (e.section == LedgerSection && req.hostPrefix.Some?)
       case MessagesGuard => e.section == MessagesSection
  }

  // For any counter: bad arguments and a missing dependency are reported exactly, an overflow is one, and the required
  // input is reported over the ceiling with its cost: as the host's lane, if without it the rest fits, or else as the
  // dependency, if there is one, or else as the user message or the new input.
  ghost predicate RefusalExplained(
      counter: Counter, maxTokens: int, defaultReserve: int, req: Request, r: Result<Plan, PlanError>)
  {
    var reserve := ReserveOf(defaultReserve, req);
    && (r == Err(InvalidArgument) <==>
          || (req.userMessage.Some? && req.finalMessages.Some?)
          || (req.outputReserve.Some? && req.outputReserve.value < 0)
          || (req.outputReserve.None? && defaultReserve < 0))
    && (r == Err(MissingDependency) <==>
          && ArgumentsOk(defaultReserve, req) && reserve <= maxTokens
          && !DependencyOk(req.history, TailMessages(req)))
    && (r.Err? && r.error.Overflow? ==> Located(counter, maxTokens, reserve, req, r.error))
    && (r.Err? && r.error.Overflow? && r.error.guard == ReserveGuard <==>
          ArgumentsOk(defaultReserve, req) && reserve > maxTokens)
    && (r.Err? && r.error.Overflow? && r.error.guard == RequiredGuard ==>
          && DependencyOk(req.history, TailMessages(req))
          && var l := LayoutOf(req);
          && r.error.needed == Required(counter, l, reserve)
          && (r.error.section == LedgerSection <==>
                req.hostPrefix.Some? && r.error.needed - counter.countMessages(l.prefix) <= maxTokens)
          && (r.error.section == DependencySection ==> l.dependency != [])
          && (r.error.section == UserSection ==> l.dependency == [] && req.userMessage.Some?)
          && (r.error.section == NewInputSection ==> l.dependency == [] && req.userMessage.None?))
  }

  // For a conforming counter: when a request is refused for size, and which guards are reached.
  ghost predicate RefusalExact(
      counter: Counter, maxTokens: int, defaultReserve: int, req: Request, r: Result<Plan, PlanError>)
  {
    var reserve := ReserveOf(defaultReserve, req);
    var laidOut := ArgumentsOk(defaultReserve, req) && reserve <= maxTokens
        && DependencyOk(req.history, TailMessages(req));
    && (ArgumentsOk(defaultReserve, req) ==>
          ((r.Err? && r.error.Overflow?) <==>
             || reserve > maxTokens
             || (laidOut && (Exceeds(counter, maxTokens, reserve, LayoutOf(req), req.input.systemPrompt)
                             || OpensUnpriced(counter, maxTokens, reserve, LayoutOf(req), req.input)))))
    && ((r.Err? && r.error.Overflow? && r.error.guard == FramingGuard) <==>
          laidOut && OpensUnpriced(counter, maxTokens, reserve, LayoutOf(req), req.input))
    && (r.Err? ==> r.error != InvalidRecord && !(r.error.Overflow? && r.error.guard == MessagesGuard))
  }

  // The receipt's parts make up the ceiling, and the records charge what the request uses.
  ghost predicate AddsUp(p: Plan) {
    && p.receipt.Reconciles()
    && Charged(p.decisions) == p.receipt.inputTokens + p.receipt.outputReserveTokens
  }

  /** Planning. For any counter: a plan never exceeds the ceiling and its receipt adds up. For a conforming counter: the
      records charge exactly what the plan uses; a request is refused for size exactly if what the caller insists on
      exceeds the ceiling, or if its context opens with a text that costs nothing and the framing does not fit, which
      is when the framing guard is reached; the last guard and the refusal of records are never reached. */
  method PlanRequest(
      maxTokens: int, defaultReserve: int, priorities: seq<Priority>, counter: Counter, req: Request,
      retrieved: Retrieved)
    returns (r: Result<Plan, PlanError>, ghost mask: seq<bool>)
    ensures RefusalExplained(counter, maxTokens, defaultReserve, req, r)
    ensures r.Ok? ==> Planned(counter.countMessages, maxTokens, ReserveOf(defaultReserve, req), req, r.value, mask)
    ensures r.Ok? ==> InContext(counter, maxTokens, ReserveOf(defaultReserve, req), priorities, req, retrieved, r.value)
    ensures r.Ok? ==> PlanRead(counter.countMessages, maxTokens, defaultReserve, req, r.value, mask)
    ensures Conforming(counter) ==> RefusalExact(counter, maxTokens, defaultReserve, req, r)
    ensures r.Ok? && Conforming(counter) ==> AddsUp(r.value)
  {
    hide Conforming, Additive, MonotoneTexts, Laid, Receipted, Explained, BuiltFrom, RecordsEach, BuiltReads;
    hide DependencyOk, PrefixMessages, TailMessages, GroupsOf, PlanRead;
    mask := [];
    if req.userMessage.Some? && req.finalMessages.Some? {
      return Err(InvalidArgument), mask;
    }
    var reserve := ReserveOf(defaultReserve, req);
    if reserve < 0 {
      return Err(InvalidArgument), mask;
    }
    if reserve > maxTokens {
      return Err(Overflow(reserve, maxTokens, OutputReserveSection, ReserveGuard)), mask;
    }
    var l, start, valid := LayOut(req);
    if !valid {
      return Err(MissingDependency), mask;
    }
    var required := Required(counter, l, reserve);
    if required > maxTokens {
      return Err(Overflow(required, maxTokens, RequiredSection(counter, maxTokens, reserve, l, req), RequiredGuard)),
        mask;
    }
    r, mask := PlanLaidOut(maxTokens, reserve, priorities, counter, req, retrieved, l, start);
    if r.Ok? {
      PlanReads(counter.countMessages, maxTokens, defaultReserve, req, r.value, mask);
    }
  }

  // Planning once the required input is known to fit.
  method PlanLaidOut(
      maxTokens: int, reserve: nat, priorities: seq<Priority>, counter: Counter, req: Request, retrieved: Retrieved,
      l: Layout, start: nat)
    returns (r: Result<Plan, PlanError>, ghost mask: seq<bool>)
    requires DependencyOk(req.history, TailMessages(req))
    requires l == LayoutOf(req) && start == DependencyStart(req.history, TailMessages(req))
    requires reserve <= maxTokens && Required(counter, l, reserve) <= maxTokens
    ensures r.Ok? ==> Planned(counter.countMessages, maxTokens, reserve, req, r.value, mask)
    ensures r.Ok? ==> InContext(counter, maxTokens, reserve, priorities, req, retrieved, r.value)
    ensures r.Ok? && Conforming(counter) ==> AddsUp(r.value)
    ensures r.Err? ==>
              || r.error == InvalidRecord
              || (r.error.Overflow? && r.error.guard in {SystemGuard, FramingGuard, MessagesGuard}
                  && Located(counter, maxTokens, reserve, req, r.error))
    ensures Conforming(counter) ==>
              var unpriced := OpensUnpriced(counter, maxTokens, reserve, l, req.input);
              && (r.Err? <==> Exceeds(counter, maxTokens, reserve, l, req.input.systemPrompt) || unpriced)
              && (r.Err? ==> r.error.Overflow? && r.error.guard == if unpriced then FramingGuard else SystemGuard)
  {
    hide Conforming, Additive, MonotoneTexts, Laid, Receipted, Explained, BuiltFrom, RecordsEach, BuiltReads;
    hide DependencyOk, PrefixMessages, TailMessages, GroupsOf, Exceeds, OpensUnpriced, Filling, LeftForHistory;
    mask := [];
    var budget := ContextBudget(counter, maxTokens, reserve, l);
    var built := Build(counter.texts, priorities, req.input, retrieved, budget);
    if Conforming(counter) {
      ConformingAddsUp(counter);
      SystemFitsExactly(counter, maxTokens, reserve, l, req.input);
      RecordsAreValid(counter.texts, priorities, req.input, retrieved, budget);
    }
    if built.Err? {
      return Err(built.error), mask;
    }
    if Conforming(counter) {
      ContextLeavesRoom(counter, maxTokens, reserve, l, priorities, req.input, retrieved, built.value);
    }
    var groups := GroupHistory(req.history[..start]);
    r, mask := FinishPlan(maxTokens, reserve, counter, req.hostPrefix, l, start, groups, built.value);
    if Conforming(counter) && r.Ok? {
      PlanCharges(counter, maxTokens, reserve, req.hostPrefix, l, start, groups, r.value, mask);
    }
  }

  /* What the records charge */

  lemma {:induction false} HistoryCharges(groups: seq<Group>, mask: seq<bool>, cost: Cost)
    requires |groups| == |mask| && forall k | 0 <= k < |mask| && mask[k] :: groups[k].items != []
    ensures Charged(Decisions(groups, mask, cost)) == TotalCost(groups, mask, cost)
  {
    if groups != [] {
      HistoryCharges(groups[1..], mask[1..], cost);
      var rest := Decisions(groups[1..], mask[1..], cost);
      var last := DecisionFor(groups[0], mask[0], cost);
      assert (rest + [last])[..|rest|] == rest;
    }
  }

  lemma RequestCharges(
      cost: Cost, lane: Option<HostPrefix>, reserve: int, l: Layout, start: nat, framing: nat)
    requires cost([]) == 0 && (lane.None? ==> l.prefix == [])
    ensures Charged(RequestDecisions(cost, lane, reserve, l, start, framing)) ==
            cost(l.prefix) + reserve + cost(l.tail) + cost(l.dependency) + framing
  {
    var ds := RequestDecisions(cost, lane, reserve, l, start, framing);
    var a: seq<Decision> := match lane
      case Some(p) => [Decision(DataLaneBlock(p.lane), Included, HostRequired, cost(l.prefix), Some(cost(l.prefix)))]
      case None => [];
    var b := [Decision(OutputReserveBlock, Reserved, Configured, reserve, None)];
    var c := [Decision(NewInputBlock(|l.tail|), if l.tail != [] then Included else Excluded,
                       if l.tail != [] then Mandatory else NotProvided, cost(l.tail), Some(cost(l.tail)))];
    var d := if l.dependency != []
             then [Decision(HistoryBlock(start, start + |l.dependency|), Reserved, RequiredToolDependency,
                            cost(l.dependency), Some(cost(l.dependency)))]
             else [];
    var e := if framing > 0 then [Decision(FramingBlock, Reserved, ProviderFraming, framing, None)] else [];
    assert ds == a + b + c + d + e;
    ChargedConcat(a + b + c + d, e);
    ChargedConcat(a + b + c, d);
    ChargedConcat(a + b, c);
    ChargedConcat(a, b);
    AtMostOneCharged(a);
    AtMostOneCharged(b);
    AtMostOneCharged(c);
    AtMostOneCharged(d);
    AtMostOneCharged(e);
  }

  lemma {:induction false} AtMostOneCharged(ds: seq<Decision>)
    requires |ds| <= 1
    ensures Charged(ds) == if ds == [] then 0 else ds[0].tokenCost
  {
    if ds != [] {
      assert ds[..0] == [];
    }
  }

  // What the system message costs beyond its text is recorded as framing.
  lemma LeadCharges(counter: Counter, l: Layout, b: Built)
    requires Conforming(counter) && b.used == counter.texts.count(b.prompt)
    ensures b.used + Framing(counter.countMessages, l, b) + counter.countMessages(l.prefix) ==
            counter.countMessages(Lead(l, b.prompt))
  {
    hide MonotoneTexts;
    ConformingAddsUp(counter);
    assert counter.countMessages(Lead(l, b.prompt)) ==
           counter.countMessages(SystemMessages(b.prompt)) + counter.countMessages(l.prefix);
    if b.prompt != "" {
      assert counter.countMessages([SystemMessage(b.prompt)]) == counter.texts.count(b.prompt) + Overhead(counter);
    }
  }

  /** The records of a plan charge what the receipt says the request uses. */
  lemma PlanCharges(
      counter: Counter, maxTokens: int, reserve: int, lane: Option<HostPrefix>, l: Layout, start: nat,
      optional: seq<Group>, p: Plan, mask: seq<bool>)
    requires Conforming(counter) && l.prefix == PrefixMessages(lane)
    requires Laid(counter.countMessages, maxTokens, reserve, l, optional, p, mask)
    requires Receipted(counter.countMessages, maxTokens, reserve, l, optional, p, mask)
    requires Explained(counter.countMessages, reserve, lane, l, start, optional, p, mask)
    requires p.context.used == counter.texts.count(p.context.prompt) == Charged(p.context.decisions)
    ensures Charged(p.decisions) == p.receipt.inputTokens + p.receipt.outputReserveTokens
  {
    hide Conforming, Framing, RequestDecisions, Decisions, Charged, Lead, KeptItems, TotalCost;
    var cost := counter.countMessages;
    var requestDecisions := RequestDecisions(cost, lane, reserve, l, start, Framing(cost, l, p.context));
    ConformingAddsUp(counter);
    ChargedConcat(p.context.decisions + requestDecisions, Decisions(optional, mask, cost));
    ChargedConcat(p.context.decisions, requestDecisions);
    HistoryCharges(optional, mask, cost);
    RequestCharges(cost, lane, reserve, l, start, Framing(cost, l, p.context));
    LeadCharges(counter, l, p.context);
    CostOfMessages(cost, Lead(l, p.context.prompt), KeptItems(optional, mask), l.dependency, l.tail);
    SpentIsCounted(optional, mask, cost);
  }

  // From the context on: optional history is chosen and the request put together.
  method FinishPlan(
      maxTokens: int, reserve: nat, counter: Counter, lane: Option<HostPrefix>, l: Layout, start: nat,
      groups: seq<Group>, built: Built)
    returns (r: Result<Plan, PlanError>, ghost mask: seq<bool>)
    ensures var fitsWithoutLane := LeftForHistory(counter.countMessages, maxTokens, reserve, l.(prefix := []),
                                                  built.prompt) >= 0;
            r.Err? ==>
              && r.error.Overflow? && r.error.guard in {FramingGuard, MessagesGuard}
              && r.error.needed > r.error.limit == maxTokens
              && (r.error.guard == MessagesGuard ==> r.error.section == MessagesSection)
              && (r.error.guard == FramingGuard ==>
                    r.error.section == if lane.Some? && fitsWithoutLane then LedgerSection else SystemPromptSection)
    ensures var cost, left := counter.countMessages,
                              LeftForHistory(counter.countMessages, maxTokens, reserve, l, built.prompt);
            r.Err? ==>
              && (r.error.guard == FramingGuard ==> r.error.needed == maxTokens - left)
              && (r.error.guard == MessagesGuard ==>
                    && left >= 0 && Best(groups, left, cost, mask)
                    && r.error.needed ==
                       cost(Lead(l, built.prompt) + KeptItems(groups, mask) + l.dependency + l.tail) + reserve)
    ensures r.Err? && r.error.guard == FramingGuard <==>
              LeftForHistory(counter.countMessages, maxTokens, reserve, l, built.prompt) < 0
    ensures r.Ok? ==> Laid(counter.countMessages, maxTokens, reserve, l, groups, r.value, mask)
    ensures r.Ok? ==> Receipted(counter.countMessages, maxTokens, reserve, l, groups, r.value, mask)
    ensures r.Ok? ==>
              && Explained(counter.countMessages, reserve, lane, l, start, groups, r.value, mask)
              && r.value.context == built
    ensures Additive(counter.countMessages)
            && LeftForHistory(counter.countMessages, maxTokens, reserve, l, built.prompt) >= 0 ==>
              r.Ok? && r.value.receipt.Reconciles()
  {
    var cost := counter.countMessages;
    var lead := Lead(l, built.prompt);
    var contextTokens := cost(lead);
    var framing := Framing(cost, l, built);
    var decisions := built.decisions + RequestDecisions(cost, lane, reserve, l, start, framing);
    var fixed := contextTokens + cost(l.dependency) + cost(l.tail);
    var remaining := maxTokens - reserve - fixed;
    if remaining < 0 {
      mask := [];
      assert Lead(l.(prefix := []), built.prompt) == SystemMessages(built.prompt);
      var fixedWithoutPrefix := cost(SystemMessages(built.prompt)) + cost(l.dependency) + cost(l.tail);
      var section := if lane.Some? && fixedWithoutPrefix + reserve <= maxTokens then LedgerSection
          else SystemPromptSection;
      return Err(Overflow(fixed + reserve, maxTokens, section, FramingGuard)), mask;
    }
    var kept, spent, historyDecisions, dropped;
    kept, spent, historyDecisions, dropped, mask := SelectHistory(groups, remaining, cost);
    var historyTokens := if groups != [] then spent + cost(l.dependency)
                         else if l.dependency != [] then cost(l.dependency)
                         else 0;
    var messages := lead + kept + l.dependency + l.tail;
    var messageTokens := cost(messages);
    if Additive(cost) {
      CostOfMessages(cost, lead, kept, l.dependency, l.tail);
      SpentIsCounted(groups, mask, cost);
    }
    if messageTokens + reserve > maxTokens {
      return Err(Overflow(messageTokens + reserve, maxTokens, MessagesSection, MessagesGuard)), mask;
    }
    var receipt := Receipt(maxTokens, messageTokens, reserve, maxTokens - (messageTokens + reserve), contextTokens,
                           historyTokens, cost(l.tail));
    r := Ok(Plan(messages, built, decisions + historyDecisions, receipt));
  }
}
