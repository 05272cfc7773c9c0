/** What a plan records: one decision per block, and one receipt for the whole request. */
module ContextPlan {
  import opened Options

  datatype BlockId =
    | SystemBlock | ProfileBlock
    | RagLayer | SessionLayer
    | RagBlock(index: nat) | SessionBlock(index: nat)
    | HistoryBlock(start: nat, end: nat)
    | NewInputBlock(size: nat)
    | OutputReserveBlock | FramingBlock
    | DataLaneBlock(lane: string)

  datatype Verdict = Included | Excluded | Truncated | Reserved

  datatype Reason =
    | Mandatory | NotProvided | OverBudget | Requested | Empty | NotRequested | NoBudget
    | Selected | TruncatedToBudget | BudgetExhausted | PolicyExcluded
    | ToolPairIncomplete | Configured | RequiredToolDependency | ProviderFraming | HostRequired

  datatype Decision = Decision(
    block: BlockId, verdict: Verdict, reason: Reason, tokenCost: int, candidateTokens: Option<int>)
  {
    // The checks made when a decision is constructed.
    predicate Valid() {
      tokenCost >= 0 && (candidateTokens.Some? ==> candidateTokens.value >= 0)
    }
  }

  datatype Receipt = Receipt(
    maxTokens: int, inputTokens: int, outputReserveTokens: int, remainingTokens: int,
    contextTokens: int, historyTokens: int, finalInputTokens: int)
  {
    // The checks made when a receipt is constructed.
    predicate Valid() {
      && maxTokens >= 0 && inputTokens >= 0 && outputReserveTokens >= 0 && remainingTokens >= 0
      && contextTokens >= 0 && historyTokens >= 0 && finalInputTokens >= 0
      && inputTokens + outputReserveTokens <= maxTokens
      && inputTokens + outputReserveTokens + remainingTokens == maxTokens
    }

    // The parts of the request add up as well, not only its total.
    predicate Reconciles() {
      contextTokens + historyTokens + finalInputTokens + outputReserveTokens + remainingTokens == maxTokens
    }
  }
}
