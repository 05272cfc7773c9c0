/** What the system context of one request is filled with. Retrieval is an input: the texts it would return, in its
    order. */
module ContextFilling {
  import opened Options
  import opened ContextPlan
  import opened ContextText
  import opened ContextAllocator

  datatype ContextInput = ContextInput(
    systemPrompt: string,
    includeProfile: bool, renderedProfile: Option<string>, profileText: string, profileHeader: string,
    includeRag: bool, includeSession: bool, hasChat: bool)

  datatype Retrieved = Retrieved(rag: seq<string>, session: seq<string>)

  // Where an overflow was noticed.
  datatype Guard = ReserveGuard | RequiredGuard | SystemGuard | FramingGuard | MessagesGuard

  datatype Section =
    | OutputReserveSection | LedgerSection | DependencySection | UserSection | NewInputSection | SystemPromptSection
    | MessagesSection

  datatype PlanError =
    | InvalidArgument
    | MissingDependency
    | Overflow(needed: int, limit: int, section: Section, guard: Guard)
    | InvalidRecord

  datatype Built = Built(
    prompt: string, rag: seq<string>, session: seq<string>, profileUsed: bool, used: nat, decisions: seq<Decision>)

  function RequestedProfile(inp: ContextInput): string {
    if !inp.includeProfile then ""
    else
      match inp.renderedProfile
      case Some(text) => text
      case None => if inp.profileText != "" then inp.profileHeader + "\n" + inp.profileText else ""
  }

  function ActiveLayers(priorities: seq<Priority>): seq<Layer> {
    if priorities == [] then []
    else (match priorities[0] case RetrievalSection(layer) => [layer] case _ => []) + ActiveLayers(priorities[1..])
  }

  function Candidates(layer: Layer, blocks: seq<string>): (cs: seq<Candidate>)
    ensures |cs| == |blocks|
    ensures forall k | 0 <= k < |cs| :: cs[k] == Candidate(layer, k, blocks[k])
  {
    seq(|blocks|, k requires 0 <= k < |blocks| => Candidate(layer, k, blocks[k]))
  }

  // The candidates in play: none of a layer that was not asked for, none at all without budget left.
  function PoolOf(inp: ContextInput, retrieved: Retrieved, budgetLeft: bool): Pool {
    (layer: Layer) =>
      match layer
      case Rag => if inp.includeRag && budgetLeft then Candidates(Rag, retrieved.rag) else []
      case Session =>
        if inp.includeSession && inp.hasChat && budgetLeft then Candidates(Session, retrieved.session) else []
  }

  lemma PoolIsInOrder(inp: ContextInput, retrieved: Retrieved, budgetLeft: bool)
    ensures PoolInOrder(PoolOf(inp, retrieved, budgetLeft))
  {
  }

  /* Records beside those of the filling */

  function SystemDecision(inp: ContextInput, cost: int): Decision {
    if inp.systemPrompt != "" then Decision(SystemBlock, Included, Mandatory, cost, Some(cost))
    else Decision(SystemBlock, Excluded, NotProvided, cost, Some(cost))
  }

  function NoBudgetDecisions(inp: ContextInput): seq<Decision> {
    (if inp.includeRag then [Decision(RagLayer, Excluded, NoBudget, 0, None)] else [])
    + (if inp.includeSession && inp.hasChat then [Decision(SessionLayer, Excluded, NoBudget, 0, None)] else [])
  }

  function NotRequestedDecisions(inp: ContextInput): seq<Decision> {
    (if !inp.includeRag then [Decision(RagLayer, Excluded, NotRequested, 0, None)] else [])
    + (if !inp.includeSession || !inp.hasChat then [Decision(SessionLayer, Excluded, NotRequested, 0, None)] else [])
  }

  function SystemCost(texts: Texts, inp: ContextInput): nat {
    if inp.systemPrompt != "" then texts.count(inp.systemPrompt) else 0
  }

  // Where the filling starts: the profile is taken whole if it fits beside the system prompt.
  function ProfileStart(texts: Texts, inp: ContextInput, budget: nat): (string, Fill) {
    var system := SystemCost(texts, inp);
    var first := [SystemDecision(inp, system)];
    var profile := RequestedProfile(inp);
    var proposed := texts.count(AssemblePrompt(texts, inp.systemPrompt, profile, [], []));
    if profile == "" then
      var reason := if inp.includeProfile then Empty else NotRequested;
      ("", Fill([], [], system, first + [Decision(ProfileBlock, Excluded, reason, 0, None)], false))
    else if proposed > budget then
      var candidate := if proposed > system then proposed - system else 0;
      ("", Fill([], [], system, first + [Decision(ProfileBlock, Excluded, OverBudget, 0, Some(candidate))], false))
    else
      (profile, Fill([], [], proposed,
                     first + [Decision(ProfileBlock, Included, Requested, proposed - system,
                                       Some(texts.count(profile)))],
                     false))
  }

  // The filling of the context, from the profile on.
  function Filling(
      texts: Texts, priorities: seq<Priority>, inp: ContextInput, retrieved: Retrieved, budget: nat): Fill
  {
    var (profile, start) := ProfileStart(texts, inp, budget);
    var head := if start.used < budget then start.decisions else start.decisions + NoBudgetDecisions(inp);
    FillLayers(PromptFrame(texts, inp.systemPrompt, profile, budget), start.(decisions := head),
               ActiveLayers(priorities), PoolOf(inp, retrieved, start.used < budget))
  }

  // What a context without room opens with.
  function LeadingText(inp: ContextInput): string {
    if inp.systemPrompt != "" then inp.systemPrompt else RequestedProfile(inp)
  }

  function HeadDecisions(texts: Texts, inp: ContextInput, budget: nat): seq<Decision> {
    var start := ProfileStart(texts, inp, budget).1;
    if start.used < budget then start.decisions else start.decisions + NoBudgetDecisions(inp)
  }

  function PoolFor(texts: Texts, inp: ContextInput, retrieved: Retrieved, budget: nat): Pool {
    PoolOf(inp, retrieved, ProfileStart(texts, inp, budget).1.used < budget)
  }

  // The layers the priorities leave out, in the order they are recorded.
  function OmittedLayers(layers: seq<Layer>): seq<Layer> {
    (if Rag !in layers then [Rag] else []) + (if Session !in layers then [Session] else [])
  }

  predicate Distinct(layers: seq<Layer>) {
    |layers| <= 2 && (|layers| == 2 ==> layers[0] != layers[1])
  }

  // The layer whose candidate a record is about.
  function LayerOf(block: BlockId): Option<Layer> {
    match block
    case RagBlock(_) => Some(Rag)
    case SessionBlock(_) => Some(Session)
    case _ => None
  }
}
