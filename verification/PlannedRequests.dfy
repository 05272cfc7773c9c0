/** What every planned request guarantees about tool calls, from its history to the start of its final input; and the
    builder object that plans requests. */
module PlannedRequests {
  import opened Options
  import opened ResponseItems
  import opened RunGraph
  import opened RunLists
  import opened HistoryParts
  import opened HistoryGroups
  import opened HistoryRegrouping
  import opened HistorySelection
  import opened TailDependency
  import opened ContextPlan
  import opened ContextAllocator
  import opened ContextFilling
  import opened RequestPlanner

  // The outputs or tool results the final input begins with.
  function LeadingAnswers(tail: seq<Item>): (n: nat)
    ensures n <= |tail|
  {
    if tail == [] then 0
    else if tail[0].role == Tool then LeadingToolResults(tail)
    else LeadingOutputs(tail)
  }

  lemma {:induction false} KeptAreChosen(parts: seq<seq<Item>>, kept: seq<seq<Item>>, n: nat, mask: seq<bool>)
    requires |parts| == |kept| == |mask|
    requires forall k | 0 <= k < |mask| && mask[k] :: kept[k] == parts[k]
    ensures KeptItems(GroupsAt(parts, kept, n), mask) == Flatten(Chosen(parts, mask))
    decreases |parts|
  {
    if parts != [] {
      KeptAreChosen(parts[1..], kept[1..], n + |parts[0]|, mask[1..]);
      var rest := Chosen(parts[1..], mask[1..]);
      if mask[0] {
        assert ([parts[0]] + rest)[0] == parts[0] && ([parts[0]] + rest)[1..] == rest;
      } else {
        assert [] + rest == rest;
      }
    }
  }

  /** The kept history is a choice of complete parts of the history: grouping it again drops nothing exactly if the runs
      that came to stand together are compatible and no exchange swallows the run behind it, and without ambiguous items
      nothing in it is an orphan. */
  lemma {:induction false} KeptHistoryIsStable(h: seq<Item>, budget: nat, cost: Cost, mask: seq<bool>)
    requires Best(GroupsOf(h), budget, cost, mask)
    ensures var chosen := Chosen(Parts(h), mask);
            && KeptItems(GroupsOf(h), mask) == Flatten(chosen) && AllComplete(chosen)
            && (NothingDropped(Flatten(chosen)) <==> NeighboursCompatible(chosen) && NoneSwallowed(chosen))
            && (Unambiguous(h) ==> NoneSwallowed(chosen) && NoOrphanIn(Flatten(chosen)))
  {
    hide Complete, NothingDropped, NeighboursCompatible, NoneSwallowed, NoOrphanIn, Parts, AllComplete;
    var kept := KeptOf(Parts(h));
    forall k | 0 <= k < |mask| && mask[k]
      ensures kept[k] == Parts(h)[k] && Complete(Parts(h)[k])
    {
      assert GroupsOf(h)[k].items == kept[k];
    }
    KeptAreChosen(Parts(h), kept, 0, mask);
    ChosenAreComplete(Parts(h), mask);
    SelectionIsStable(h, mask);
  }

  // No item is a replay item and at once a chat tool result or a chat tool request.
  predicate Separate(items: seq<Item>) {
    forall k | 0 <= k < |items| && MarkOf(items[k]).kind.InRun? ::
      !MarkOf(items[k]).reply && AssistantToolCallIds(items[k]).None?
  }

  lemma {:induction false} ToolResultsHaveRequest(history: seq<Item>, tail: seq<Item>)
    requires tail != [] && tail[0].role == Tool && AnswersLastRequest(history, tail)
    requires Separate(history) && Separate(tail)
    ensures NoOrphanIn(history[|history| - 1..] + tail[..LeadingToolResults(tail)])
  {
    var n := LeadingToolResults(tail);
    var request := history[|history| - 1];
    var all := history[|history| - 1..] + tail[..n];
    forall j | 0 <= j < |all|
      ensures HasCallBefore(all, j) && HasRequestBefore(all, j)
    {
      OutputShape(all[j]);
      if j == 0 {
        RequestIsNoAnswer(request);
      } else {
        var reply := tail[..n][j - 1];
        assert all[j] == reply == tail[j - 1] && MarkOf(reply).reply;
        assert reply.toolCallId.text in ReplyIds(tail[..n]);
        assert all[0] == request && Declares(request, reply.toolCallId);
      }
    }
  }

  lemma RequestIsNoAnswer(request: Item)
    requires AssistantToolCallIds(request).Some? && !MarkOf(request).kind.InRun?
    ensures !MarkOf(request).reply && OutputKind(request).None?
  {
    OutputShape(request);
  }

  lemma SeparateRunHasNoOrphan(run: seq<Item>)
    requires ValidRun(run) && forall k | 0 <= k < |run| :: IsProtocolItem(run[k])
    ensures NoOrphanIn(run)
  {
    forall j | 0 <= j < |run|
      ensures HasCallBefore(run, j) && HasRequestBefore(run, j)
    {
      RunHasNoOrphan(run, j);
      assert MarkOf(run[j]).kind.InRun?;
    }
  }

  lemma {:induction false} OutputsHaveCall(history: seq<Item>, tail: seq<Item>)
    requires tail != [] && OutputKind(tail[0]).Some? && ContinuesLastRun(history, tail)
    ensures NoOrphanIn(history[TrailingRunStart(history)..] + tail[..LeadingOutputs(tail)])
  {
    var start, n := TrailingRunStart(history), LeadingOutputs(tail);
    assert forall k | 0 <= k < n :: IsProtocolItem(tail[k]);
    SeparateRunHasNoOrphan(history[start..] + tail[..n]);
  }

  lemma PlainMessagesHaveNoOrphan(items: seq<Item>)
    requires forall k | 0 <= k < |items| ::
               items[k] == TextMessage(items[k].role, items[k].content) && items[k].role != Tool
    ensures NoOrphanIn(items)
  {
    forall j | 0 <= j < |items|
      ensures HasCallBefore(items, j) && HasRequestBefore(items, j)
    {
      PlainMessage(items[j]);
    }
  }

  lemma PlainMessage(item: Item)
    requires item == TextMessage(item.role, item.content)
    ensures OutputKind(item).None? && (MarkOf(item).reply ==> item.role == Tool)
  {
  }

  /* A planned request, put together */

  // The dependency and the answers the final input begins with.
  ghost function Answered(history: seq<Item>, tail: seq<Item>): seq<Item>
    requires DependencyOk(history, tail)
  {
    history[DependencyStart(history, tail)..] + tail[..LeadingAnswers(tail)]
  }

  // The history the budget chooses from.
  ghost function BeforeDependency(history: seq<Item>, tail: seq<Item>): seq<Item>
    requires DependencyOk(history, tail)
  {
    history[..DependencyStart(history, tail)]
  }

  lemma RegroupTail(a: seq<Item>, b: seq<Item>, tail: seq<Item>, n: nat)
    requires n <= |tail|
    ensures a + b + tail == a + (b + tail[..n]) + tail[n..]
  {
  }

  lemma TakeFront(a: seq<Item>, b: seq<Item>)
    ensures (a + b)[..|a + b| - |b|] == a
  {
  }

  // System prompt and host lane, kept history, dependency and answers, rest of the final input.
  lemma PlannedMessages(
      cost: Cost, maxTokens: int, reserve: int, req: Request, p: Plan, mask: seq<bool>)
    returns (budget: nat)
    requires Planned(cost, maxTokens, reserve, req, p, mask)
    ensures var tail := TailMessages(req);
            && DependencyOk(req.history, tail)
            && var groups := GroupsOf(BeforeDependency(req.history, tail));
            && |mask| == |groups| && Best(groups, budget, cost, mask)
            && p.messages == Lead(LayoutOf(req), p.context.prompt) + KeptItems(groups, mask) +
               Answered(req.history, tail)
                             + tail[LeadingAnswers(tail)..]
  {
    hide DependencyOk, DependencyStart, LeadingAnswers, GroupsOf, KeptItems, Receipted, Explained, Lead;
    var tail, l := TailMessages(req), LayoutOf(req);
    budget := LeftForHistory(cost, maxTokens, reserve, l, p.context.prompt);
    RegroupTail(Lead(l, p.context.prompt) + KeptItems(OptionalGroups(req), mask), l.dependency, tail,
                LeadingAnswers(tail));
  }

  lemma AnsweredHasNoOrphan(history: seq<Item>, tail: seq<Item>)
    requires DependencyOk(history, tail) && Separate(history) && Separate(tail)
    ensures NoOrphanIn(Answered(history, tail))
  {
    if tail != [] && tail[0].role == Tool {
      ToolResultsHaveRequest(history, tail);
    } else if tail != [] && OutputKind(tail[0]).Some? {
      OutputsHaveCall(history, tail);
    } else {
      assert Answered(history, tail) == [];
    }
  }

  lemma NoOrphanAppend(a: seq<Item>, b: seq<Item>)
    requires NoOrphanIn(a) && NoOrphanIn(b)
    ensures NoOrphanIn(a + b)
  {
    NoOrphanInFlatten([a, b]);
    assert [a, b][1..] == [b] && Flatten([b]) == b + Flatten([b][1..]) == b;
  }

  lemma LeadHasNoOrphan(req: Request, prompt: string)
    requires DependencyOk(req.history, TailMessages(req))
    ensures NoOrphanIn(Lead(LayoutOf(req), prompt))
  {
    PlainMessagesHaveNoOrphan(SystemMessages(prompt) + PrefixMessages(req.hostPrefix));
  }

  lemma {:induction false} KeptHasNoOrphan(
      history: seq<Item>, tail: seq<Item>, budget: nat, cost: Cost, mask: seq<bool>)
    requires DependencyOk(history, tail) && Separate(history)
    requires Best(GroupsOf(BeforeDependency(history, tail)), budget, cost, mask)
    ensures NoOrphanIn(KeptItems(GroupsOf(BeforeDependency(history, tail)), mask))
  {
    hide DependencyOk, DependencyStart, Best, NoOrphanIn;
    var h := BeforeDependency(history, tail);
    assert Unambiguous(h);
    KeptHistoryIsStable(h, budget, cost, mask);
  }

  /** In every planned request, up to the outputs the final input begins with, each output comes after its call and each
      tool result after its request. */
  lemma PlannedRequestHasNoOrphan(
      cost: Cost, maxTokens: int, reserve: int, req: Request, p: Plan, mask: seq<bool>)
    requires Planned(cost, maxTokens, reserve, req, p, mask)
    requires Separate(req.history) && Separate(TailMessages(req))
    ensures var tail := TailMessages(req);
            var rest := tail[LeadingAnswers(tail)..];
            && |p.messages| >= |rest| && p.messages[|p.messages| - |rest|..] == rest
            && NoOrphanIn(p.messages[..|p.messages| - |rest|])
  {
    hide *;
    var tail := TailMessages(req);
    var rest := tail[LeadingAnswers(tail)..];
    var budget := PlannedMessages(cost, maxTokens, reserve, req, p, mask);
    var lead, kept := Lead(LayoutOf(req), p.context.prompt),
        KeptItems(GroupsOf(BeforeDependency(req.history, tail)), mask);
    LeadHasNoOrphan(req, p.context.prompt);
    KeptHasNoOrphan(req.history, tail, budget, cost, mask);
    AnsweredHasNoOrphan(req.history, tail);
    NoOrphanAppend(lead, kept);
    NoOrphanAppend(lead + kept, Answered(req.history, tail));
    TakeFront(lead + kept + Answered(req.history, tail), rest);
  }

  /* Grouping what was planned */

  // The last request, where the final input begins with tool results; it may be what no group holds.
  ghost predicate RequestIsGrouped(history: seq<Item>, tail: seq<Item>)
    requires DependencyOk(history, tail)
  {
    tail != [] && tail[0].role == Tool ==> MarkOf(history[|history| - 1]).kind.Request?
  }

  // The kept parts, and the dependency with its answers as one more.
  ghost function PlannedParts(history: seq<Item>, tail: seq<Item>, mask: seq<bool>): seq<seq<Item>>
    requires DependencyOk(history, tail) && |mask| == |Parts(BeforeDependency(history, tail))|
  {
    var answered := Answered(history, tail);
    Chosen(Parts(BeforeDependency(history, tail)), mask) + if answered == [] then [] else [answered]
  }

  lemma AnsweredIsComplete(history: seq<Item>, tail: seq<Item>)
    requires DependencyOk(history, tail) && RequestIsGrouped(history, tail)
    ensures Answered(history, tail) == [] || Complete(Answered(history, tail))
  {
    hide ValidRun;
    if tail != [] && tail[0].role == Tool {
      ChatDependencyIsOneGroup(history, tail);
    } else if tail != [] && OutputKind(tail[0]).Some? {
      ResponseDependencyIsOneGroup(history, tail);
    } else {
      assert Answered(history, tail) == [];
    }
  }

  // A request that is an input-only item is a part of its own, which is not kept.
  lemma InputOnlyIsDropped(kept: seq<Item>, rest: seq<Item>)
    requires rest != [] && MarkOf(rest[0]).kind.Control? && !MarkOf(rest[0]).reply
    ensures !NothingDropped(kept + rest)
  {
    hide MarkOf;
    CutBefore(kept, rest);
    var first := rest[..1];
    assert Parts(rest)[0] == first && first[0] == rest[0];
    assert Parts(kept + rest)[|Parts(kept)|] == first;
    assert !Complete(first);
  }

  lemma AnsweredIsDropped(kept: seq<Item>, history: seq<Item>, tail: seq<Item>)
    requires DependencyOk(history, tail) && !RequestIsGrouped(history, tail)
    requires !MarkOf(history[|history| - 1]).kind.InRun?
    ensures !NothingDropped(kept + Answered(history, tail))
  {
    InputOnlyIsDropped(kept, Answered(history, tail));
  }

  lemma {:induction false} FlattenOneMore(parts: seq<seq<Item>>, last: seq<Item>)
    ensures Flatten(parts + [last]) == Flatten(parts) + last
  {
    FlattenConcat(parts, [last]);
    assert [last][1..] == [];
    assert Flatten([last]) == last + Flatten([last][1..]) == last;
  }

  lemma {:induction false} PlannedPartsFlatten(history: seq<Item>, tail: seq<Item>, mask: seq<bool>)
    requires DependencyOk(history, tail) && |mask| == |Parts(BeforeDependency(history, tail))|
    ensures Flatten(PlannedParts(history, tail, mask)) ==
            Flatten(Chosen(Parts(BeforeDependency(history, tail)), mask)) + Answered(history, tail)
  {
    hide Parts, DependencyOk, Answered, BeforeDependency;
    var chosen := Chosen(Parts(BeforeDependency(history, tail)), mask);
    if Answered(history, tail) == [] {
      assert chosen + [] == chosen;
    } else {
      FlattenOneMore(chosen, Answered(history, tail));
    }
  }

  lemma {:induction false} CompleteWithAnswers(history: seq<Item>, tail: seq<Item>, mask: seq<bool>)
    requires DependencyOk(history, tail) && |mask| == |Parts(BeforeDependency(history, tail))|
    requires RequestIsGrouped(history, tail) && AllComplete(Chosen(Parts(BeforeDependency(history, tail)), mask))
    ensures AllComplete(PlannedParts(history, tail, mask))
  {
    hide Complete, Parts, DependencyOk, Answered, BeforeDependency, RequestIsGrouped;
    AnsweredIsComplete(history, tail);
  }

  /** The kept history, the dependency and the answers, grouped together: nothing is dropped exactly if neighbouring
      runs are compatible, no exchange swallows the run behind it, and a request the final input answers is no
      input-only item. */
  lemma PlannedHistoryIsStable(
      cost: Cost, maxTokens: int, reserve: int, req: Request, p: Plan, mask: seq<bool>)
    requires Planned(cost, maxTokens, reserve, req, p, mask) && Separate(req.history)
    ensures var tail := TailMessages(req);
            && DependencyOk(req.history, tail) && |mask| == |Parts(BeforeDependency(req.history, tail))|
            && var parts := PlannedParts(req.history, tail, mask);
            && p.messages == Lead(LayoutOf(req), p.context.prompt) + Flatten(parts) + tail[LeadingAnswers(tail)..]
            && (NothingDropped(Flatten(parts)) <==>
                  NeighboursCompatible(parts) && NoneSwallowed(parts) && RequestIsGrouped(req.history, tail))
  {
    hide *;
    var tail := TailMessages(req);
    var budget := PlannedMessages(cost, maxTokens, reserve, req, p, mask);
    var h := BeforeDependency(req.history, tail);
    BestFits(h, budget, cost, mask);
    KeptHistoryIsStable(h, budget, cost, mask);
    PlannedPartsFlatten(req.history, tail, mask);
    JoinInner(Lead(LayoutOf(req), p.context.prompt), Flatten(Chosen(Parts(h), mask)), Answered(req.history, tail));
    if RequestIsGrouped(req.history, tail) {
      CompleteWithAnswers(req.history, tail, mask);
      RegroupingDropsNothing(PlannedParts(req.history, tail, mask));
    } else {
      SeparateRequest(req.history, tail);
      AnsweredIsDropped(Flatten(Chosen(Parts(h), mask)), req.history, tail);
    }
  }

  lemma BestFits(h: seq<Item>, budget: nat, cost: Cost, mask: seq<bool>)
    requires Best(GroupsOf(h), budget, cost, mask)
    ensures |mask| == |Parts(h)|
  {
  }

  lemma JoinInner(a: seq<Item>, b: seq<Item>, c: seq<Item>)
    ensures a + b + c == a + (b + c)
  {
  }

  // A request that no group holds is no replay item either.
  lemma SeparateRequest(history: seq<Item>, tail: seq<Item>)
    requires DependencyOk(history, tail) && !RequestIsGrouped(history, tail) && Separate(history)
    ensures history != [] && !MarkOf(history[|history| - 1]).kind.InRun?
  {
  }

  /** The builder keeps the receipt of its last plan; a request that is refused leaves it as it was. */
  class TokenBudgetedContextBuilder {
    const counter: Counter
    const maxTokens: int
    const priorities: seq<Priority>
    const outputReserve: nat
    var lastReceipt: Option<Receipt>

    constructor (counter: Counter, maxTokens: int, priorities: seq<Priority>, outputReserve: nat)
      ensures this.counter == counter && this.maxTokens == maxTokens && this.priorities == priorities
      ensures this.outputReserve == outputReserve && lastReceipt == None
    {
      this.counter, this.maxTokens := counter, maxTokens;
      this.priorities, this.outputReserve := priorities, outputReserve;
      lastReceipt := None;
    }

    method PlanMessages(req: Request, retrieved: Retrieved) returns (r: Result<Plan, PlanError>, ghost mask: seq<bool>)
      modifies this`lastReceipt
      ensures RefusalExplained(counter, maxTokens, outputReserve, req, r)
      ensures Conforming(counter) ==> RefusalExact(counter, maxTokens, outputReserve, req, r)
      ensures r.Ok? && Conforming(counter) ==> AddsUp(r.value)
      ensures r.Ok? ==> Planned(counter.countMessages, maxTokens, ReserveOf(outputReserve, req), req, r.value, mask)
      ensures r.Ok? ==> InContext(counter, maxTokens, ReserveOf(outputReserve, req), priorities, req, retrieved,
                                  r.value)
      ensures r.Ok? ==> PlanRead(counter.countMessages, maxTokens, outputReserve, req, r.value, mask)
      ensures lastReceipt == if r.Ok? then Some(r.value.receipt) else old(lastReceipt)
    {
      hide *;
      r, mask := PlanRequest(maxTokens, outputReserve, priorities, counter, req, retrieved);
      if r.Ok? {
        lastReceipt := Some(r.value.receipt);
      }
    }
  }
}
