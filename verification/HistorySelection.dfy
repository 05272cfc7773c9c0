/** The newest-first pass over the groups of history: a group is kept if it still fits. */
module HistorySelection {
  import opened Options
  import opened ResponseItems
  import opened HistoryGroups
  import opened ContextPlan

  type Cost = seq<Item> -> nat

  // The items of the chosen groups, in their original order.
  function KeptItems(groups: seq<Group>, mask: seq<bool>): seq<Item>
    requires |groups| == |mask|
  {
    if groups == [] then []
    else (if mask[0] then groups[0].items else []) + KeptItems(groups[1..], mask[1..])
  }

  function TotalCost(groups: seq<Group>, mask: seq<bool>, cost: Cost): nat
    requires |groups| == |mask|
  {
    if groups == [] then 0
    else (if mask[0] then cost(groups[0].items) else 0) + TotalCost(groups[1..], mask[1..], cost)
  }

  // A choice among complete groups that the budget can pay for.
  ghost predicate Feasible(groups: seq<Group>, budget: nat, cost: Cost, mask: seq<bool>) {
    && |mask| == |groups|
    && (forall k | 0 <= k < |mask| && mask[k] :: groups[k].items != [])
    && TotalCost(groups, mask, cost) <= budget
  }

  // At the newest group the two choices differ on, the first one keeps it.
  ghost predicate Prefers(mask: seq<bool>, other: seq<bool>) {
    && |mask| == |other|
    && exists d :: 0 <= d < |mask| && mask[d] && !other[d] && forall k | d < k < |mask| :: mask[k] == other[k]
  }

  // The best choice, newest group first.
  ghost predicate Best(groups: seq<Group>, budget: nat, cost: Cost, mask: seq<bool>) {
    && Feasible(groups, budget, cost, mask)
    && forall other | Feasible(groups, budget, cost, other) :: other == mask || Prefers(mask, other)
  }

  lemma FeasibleStep(groups: seq<Group>, budget: nat, cost: Cost, mask: seq<bool>)
    requires groups != [] && |mask| == |groups|
    ensures Feasible(groups, budget, cost, mask) <==>
            && (mask[0] ==> groups[0].items != [])
            && (forall k | 0 <= k < |mask| - 1 && mask[1..][k] :: groups[1..][k].items != [])
            && (if mask[0] then cost(groups[0].items) else 0) + TotalCost(groups[1..], mask[1..], cost) <= budget
  {
    assert forall k | 1 <= k < |mask| :: mask[k] == mask[1..][k - 1] && groups[k] == groups[1..][k - 1];
    assert forall k | 0 <= k < |mask| - 1 :: mask[1..][k] == mask[k + 1] && groups[1..][k] == groups[k + 1];
  }

  lemma PrefersLonger(b: bool, c: bool, mask: seq<bool>, other: seq<bool>)
    requires Prefers(mask, other)
    ensures Prefers([b] + mask, [c] + other)
  {
    var d :| 0 <= d < |mask| && mask[d] && !other[d] && forall k | d < k < |mask| :: mask[k] == other[k];
    var m, o := [b] + mask, [c] + other;
    assert m[d + 1] && !o[d + 1] && forall k | d + 1 < k < |m| :: m[k] == mask[k - 1] && o[k] == other[k - 1];
  }

  // Keeping an older group whenever it fits beside the best choice of the newer ones is best again.
  lemma {:induction false} BestExtends(groups: seq<Group>, budget: nat, cost: Cost, rest: seq<bool>, take: bool)
    requires groups != [] && Best(groups[1..], budget, cost, rest)
    requires take <==> groups[0].items != [] && TotalCost(groups[1..], rest, cost) + cost(groups[0].items) <= budget
    ensures Best(groups, budget, cost, [take] + rest)
  {
    var mask := [take] + rest;
    assert mask[1..] == rest;
    FeasibleStep(groups, budget, cost, mask);
    forall other | Feasible(groups, budget, cost, other)
      ensures other == mask || Prefers(mask, other)
    {
      FeasibleStep(groups, budget, cost, other);
      assert Feasible(groups[1..], budget, cost, other[1..]);
      assert other == [other[0]] + other[1..];
      if other[1..] != rest {
        PrefersLonger(take, other[0], rest, other[1..]);
      } else if other[0] != take {
        assert mask[0] && !other[0] && forall k | 0 < k < |mask| :: mask[k] == other[k];
      }
    }
  }

  lemma PreferenceIsStrict(a: seq<bool>, b: seq<bool>)
    ensures !(Prefers(a, b) && Prefers(b, a))
  {
  }

  /** There is only one best choice. */
  lemma BestIsUnique(groups: seq<Group>, budget: nat, cost: Cost, a: seq<bool>, b: seq<bool>)
    requires Best(groups, budget, cost, a) && Best(groups, budget, cost, b)
    ensures a == b
  {
    PreferenceIsStrict(a, b);
  }

  // What is recorded about one group.
  function DecisionFor(g: Group, kept: bool, cost: Cost): Decision {
    var block := HistoryBlock(g.start, g.end);
    if g.items == [] then Decision(block, Excluded, ToolPairIncomplete, 0, None)
    else if kept then Decision(block, Included, Selected, cost(g.items), Some(cost(g.items)))
    else Decision(block, Excluded, OverBudget, 0, Some(cost(g.items)))
  }

  // The records of all groups, newest first.
  function Decisions(groups: seq<Group>, mask: seq<bool>, cost: Cost): (ds: seq<Decision>)
    requires |groups| == |mask|
    ensures |ds| == |groups|
  {
    if groups == [] then []
    else Decisions(groups[1..], mask[1..], cost) + [DecisionFor(groups[0], mask[0], cost)]
  }

  // A record names the positions of its group and says why it is kept or not: a group without items is incomplete and
  // never counted, any other is charged what it costs if it is kept and nothing if it is over budget.
  ghost predicate Tells(d: Decision, g: Group, kept: bool, cost: Cost) {
    && d.block == HistoryBlock(g.start, g.end)
    && (d.verdict == Included <==> kept && g.items != []) && (d.verdict == Excluded <==> !kept || g.items == [])
    && (d.reason == Selected <==> d.verdict == Included)
    && (d.reason == ToolPairIncomplete <==> g.items == []) && (d.reason == OverBudget <==> !kept && g.items != [])
    && (d.candidateTokens == None <==> g.items == [])
    && (d.candidateTokens.Some? ==> d.candidateTokens.value == cost(g.items))
    && d.tokenCost == if d.verdict == Included then cost(g.items) else 0
  }

  /** Each group has exactly one record, at its place counted from the newest. */
  lemma {:induction false} DecisionOfGroup(groups: seq<Group>, mask: seq<bool>, cost: Cost, k: nat)
    requires |groups| == |mask| && k < |groups|
    ensures Tells(Decisions(groups, mask, cost)[|groups| - 1 - k], groups[k], mask[k], cost)
  {
    if k > 0 {
      DecisionOfGroup(groups[1..], mask[1..], cost, k - 1);
    }
  }

  function Positions(g: Group): (ps: seq<nat>)
    ensures forall p: nat :: p in ps <==> g.start <= p < g.end
    ensures forall k | 0 <= k < |ps| :: ps[k] == g.start + k
    decreases g.end - g.start
  {
    if g.end <= g.start then [] else [g.start] + Positions(g.(start := g.start + 1))
  }

  // The positions reported as dropped.
  function Dropped(groups: seq<Group>, mask: seq<bool>): seq<nat>
    requires |groups| == |mask|
  {
    if groups == [] then []
    else Dropped(groups[1..], mask[1..]) + if mask[0] then [] else Positions(groups[0])
  }

  /** A position is reported as dropped exactly if a group that was not kept covers it. */
  lemma {:induction false} DroppedPositions(groups: seq<Group>, mask: seq<bool>, p: nat)
    requires |groups| == |mask|
    ensures p in Dropped(groups, mask) <==>
            exists k :: 0 <= k < |groups| && !mask[k] && groups[k].start <= p < groups[k].end
  {
    if groups != [] {
      DroppedPositions(groups[1..], mask[1..], p);
      if k :| 0 <= k < |groups| - 1 && !mask[1..][k] && groups[1..][k].start <= p < groups[1..][k].end {
        assert !mask[k + 1] && groups[k + 1].start <= p < groups[k + 1].end;
      }
      if k :| 1 <= k < |groups| && !mask[k] && groups[k].start <= p < groups[k].end {
        assert !mask[1..][k - 1] && groups[1..][k - 1].start <= p < groups[1..][k - 1].end;
      }
    }
  }

  /** The pass keeps the best choice, pays what the kept groups cost, and records each group once, newest first. */
  method SelectHistory(groups: seq<Group>, remaining: nat, cost: Cost)
    returns (kept: seq<Item>, spent: nat, decisions: seq<Decision>, dropped: seq<nat>, ghost mask: seq<bool>)
    ensures Best(groups, remaining, cost, mask)
    ensures kept == KeptItems(groups, mask) && spent == TotalCost(groups, mask, cost) <= remaining
    ensures decisions == Decisions(groups, mask, cost) && dropped == Dropped(groups, mask)
  {
    kept, spent, decisions, dropped, mask := [], 0, [], [], [];
    var n := |groups|;
    while n > 0
      invariant 0 <= n <= |groups| && |mask| == |groups| - n
      invariant Best(groups[n..], remaining, cost, mask)
      invariant kept == KeptItems(groups[n..], mask) && spent == TotalCost(groups[n..], mask, cost) <= remaining
      invariant decisions == Decisions(groups[n..], mask, cost) && dropped == Dropped(groups[n..], mask)
    {
      n := n - 1;
      var g := groups[n];
      var fits := g.items != [] && spent + cost(g.items) <= remaining;
      assert groups[n..][1..] == groups[n + 1..] && groups[n..][0] == g && ([fits] + mask)[1..] == mask;
      BestExtends(groups[n..], remaining, cost, mask, fits);
      if fits {
        spent := spent + cost(g.items);
        kept := g.items + kept;
      } else {
        dropped := dropped + Positions(g);
      }
      decisions := decisions + [DecisionFor(g, fits, cost)];
      mask := [fits] + mask;
    }
    assert groups[0..] == groups;
  }

  /* Counting the kept items */

  ghost predicate Additive(cost: Cost) {
    cost([]) == 0 && forall a, b :: cost(a + b) == cost(a) + cost(b)
  }

  /** For a counter that adds up, what was spent is the cost of the kept items as one list. */
  lemma {:induction false} SpentIsCounted(groups: seq<Group>, mask: seq<bool>, cost: Cost)
    requires |groups| == |mask| && Additive(cost)
    ensures TotalCost(groups, mask, cost) == cost(KeptItems(groups, mask))
  {
    if groups != [] {
      SpentIsCounted(groups[1..], mask[1..], cost);
      var first := if mask[0] then groups[0].items else [];
      assert cost(first + KeptItems(groups[1..], mask[1..])) == cost(first) + cost(KeptItems(groups[1..], mask[1..]));
    }
  }
}
