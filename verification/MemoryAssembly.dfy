/** Packing the hottest items into the token budget. */
module MemoryAssembly {
  import opened Options
  import opened MemoryItems
  import opened StableSort

  datatype Assembled = Assembled(blocks: seq<Item>, skipped: seq<Id>, usedTokens: int)

  // Highest score first.
  function Hottest(env: Env, now: nat, goal: Option<Vector>): Before<Item> {
    (a: Item, b: Item) => env.score(a, now, goal) > env.score(b, now, goal)
  }

  // The items with the score, in their order.
  function Scored(env: Env, now: nat, goal: Option<Vector>, score: real, items: seq<Item>): seq<Item> {
    if items == [] then []
    else
      var last := items[|items| - 1];
      Scored(env, now, goal, score, items[..|items| - 1]) + if env.score(last, now, goal) == score then [last] else []
  }

  // No item stands before one with a higher score.
  ghost predicate Descends(env: Env, now: nat, goal: Option<Vector>, items: seq<Item>) {
    forall i, j | 0 <= i < j < |items| :: env.score(items[i], now, goal) >= env.score(items[j], now, goal)
  }

  lemma {:induction false} ScoredIsClass(env: Env, now: nat, goal: Option<Vector>, x: Item, items: seq<Item>)
    ensures Scored(env, now, goal, env.score(x, now, goal), items) == Class(Hottest(env, now, goal), x, items)
  {
    if items != [] {
      ScoredIsClass(env, now, goal, x, items[..|items| - 1]);
    }
  }

  lemma {:induction false} NoneScored(env: Env, now: nat, goal: Option<Vector>, score: real, items: seq<Item>)
    requires forall x | x in items :: env.score(x, now, goal) != score
    ensures Scored(env, now, goal, score, items) == []
  {
    if items != [] {
      NoneScored(env, now, goal, score, items[..|items| - 1]);
    }
  }

  /** The hottest items come first; items as hot as each other stay in the order they came in. */
  lemma {:induction false} HottestFirst(env: Env, now: nat, goal: Option<Vector>, items: seq<Item>)
    ensures var sorted := Sorted(Hottest(env, now, goal), items);
            && Descends(env, now, goal, sorted) && multiset(sorted) == multiset(items)
            && forall score :: Scored(env, now, goal, score, sorted) == Scored(env, now, goal, score, items)
  {
    var before := Hottest(env, now, goal);
    var sorted := Sorted(before, items);
    SortedIsStable(before, items);
    assert forall x :: (x in items <==> x in multiset(items)) && (x in sorted <==> x in multiset(sorted));
    forall score
      ensures Scored(env, now, goal, score, sorted) == Scored(env, now, goal, score, items)
    {
      if x :| x in items && env.score(x, now, goal) == score {
        ScoredIsClass(env, now, goal, x, sorted);
        ScoredIsClass(env, now, goal, x, items);
      } else {
        NoneScored(env, now, goal, score, sorted);
        NoneScored(env, now, goal, score, items);
      }
    }
  }

  // Which items are taken, one after the other, each if it fits in what is left.
  function Taken(items: seq<Item>, budget: int): (mask: seq<bool>)
    ensures |mask| == |items|
  {
    if items == [] then []
    else
      var fits := items[0].tokens <= budget;
      [fits] + Taken(items[1..], if fits then budget - items[0].tokens else budget)
  }

  function Masked(items: seq<Item>, mask: seq<bool>, taken: bool): seq<Item>
    requires |items| == |mask|
  {
    if items == [] then [] else (if mask[0] == taken then [items[0]] else []) + Masked(items[1..], mask[1..], taken)
  }

  function Sum(items: seq<Item>, mask: seq<bool>): nat
    requires |items| == |mask|
  {
    if items == [] then 0 else (if mask[0] then items[0].tokens else 0) + Sum(items[1..], mask[1..])
  }

  /** The packing is greedy: an item is left out exactly if it does not fit beside the better items taken, and what is
      taken together fits, if the budget is not negative. */
  lemma {:induction false} PackingIsGreedy(items: seq<Item>, budget: int, i: nat)
    requires i < |items|
    ensures Taken(items, budget)[i] <==> Sum(items[..i], Taken(items, budget)[..i]) + items[i].tokens <= budget
    ensures budget >= 0 ==> Sum(items, Taken(items, budget)) <= budget
  {
    var mask := Taken(items, budget);
    var left := if mask[0] then budget - items[0].tokens else budget;
    PackingFits(items, budget);
    if i > 0 {
      PackingIsGreedy(items[1..], left, i - 1);
      assert items[..i][1..] == items[1..][..i - 1] && mask[..i][1..] == mask[1..][..i - 1];
    }
  }

  lemma {:induction false} PackingFits(items: seq<Item>, budget: int)
    ensures budget >= 0 ==> Sum(items, Taken(items, budget)) <= budget
  {
    if items != [] {
      PackingFits(items[1..], if items[0].tokens <= budget then budget - items[0].tokens else budget);
    }
  }

  lemma {:induction false} TakenFromEnd(items: seq<Item>, item: Item, budget: int)
    ensures var mask := Taken(items, budget);
            var left := budget - Sum(items, mask);
            && Taken(items + [item], budget) == mask + [item.tokens <= left]
            && Sum(items + [item], mask + [item.tokens <= left]) ==
               Sum(items, mask) + if item.tokens <= left then item.tokens else 0
  {
    if items != [] {
      TakenFromEnd(items[1..], item, if items[0].tokens <= budget then budget - items[0].tokens else budget);
      assert (items + [item])[1..] == items[1..] + [item];
      var mask, fits := Taken(items, budget), item.tokens <= budget - Sum(items, Taken(items, budget));
      assert (mask + [fits])[1..] == mask[1..] + [fits];
    } else {
      assert [item][1..] == [];
    }
  }

  lemma {:induction false} MaskedFromEnd(items: seq<Item>, mask: seq<bool>, item: Item, b: bool, taken: bool)
    requires |items| == |mask|
    ensures Masked(items + [item], mask + [b], taken) == Masked(items, mask, taken) + if b == taken then [item] else []
  {
    if items != [] {
      MaskedFromEnd(items[1..], mask[1..], item, b, taken);
      assert (items + [item])[1..] == items[1..] + [item] && (mask + [b])[1..] == mask[1..] + [b];
    } else {
      assert (items + [item])[1..] == [] && (mask + [b])[1..] == [];
    }
  }

  function Ids(items: seq<Item>): (ids: seq<Id>)
    ensures |ids| == |items| && forall i | 0 <= i < |ids| :: ids[i] == items[i].id
  {
    seq(|items|, i requires 0 <= i < |items| => items[i].id)
  }

  function Packed(scored: seq<Item>, maxTokens: int): Assembled {
    var mask := Taken(scored, maxTokens);
    Assembled(Masked(scored, mask, true), Ids(Masked(scored, mask, false)), Sum(scored, mask))
  }

  lemma PackedFromEnd(scored: seq<Item>, item: Item, maxTokens: int)
    ensures var p := Packed(scored, maxTokens);
            Packed(scored + [item], maxTokens) ==
            if item.tokens <= maxTokens - p.usedTokens then
              Assembled(p.blocks + [item], p.skipped, p.usedTokens + item.tokens)
            else Assembled(p.blocks, p.skipped + [item.id], p.usedTokens)
  {
    var mask := Taken(scored, maxTokens);
    var fits := item.tokens <= maxTokens - Sum(scored, mask);
    TakenFromEnd(scored, item, maxTokens);
    MaskedFromEnd(scored, mask, item, fits, true);
    MaskedFromEnd(scored, mask, item, fits, false);
  }

  // Items chosen from a list that descends descend.
  lemma {:induction false} MaskedDescends(
      env: Env, now: nat, goal: Option<Vector>, items: seq<Item>, mask: seq<bool>, taken: bool)
    requires |items| == |mask| && Descends(env, now, goal, items)
    ensures Descends(env, now, goal, Masked(items, mask, taken))
    ensures forall x | x in Masked(items, mask, taken) :: x in items
  {
    if items != [] {
      var rest := Masked(items[1..], mask[1..], taken);
      MaskedDescends(env, now, goal, items[1..], mask[1..], taken);
      forall x | x in rest
        ensures env.score(items[0], now, goal) >= env.score(x, now, goal)
      {
        var k :| 0 <= k < |items| - 1 && items[1..][k] == x;
        assert items[k + 1] == x;
      }
    }
  }

  /** What is packed stands in order of its score, the hottest item first. */
  lemma {:induction false} PackedDescends(env: Env, now: nat, goal: Option<Vector>, items: seq<Item>, maxTokens: int)
    ensures Descends(env, now, goal, Packed(Sorted(Hottest(env, now, goal), items), maxTokens).blocks)
  {
    hide Descends, Masked, Taken, Sum, Ids;
    var sorted := Sorted(Hottest(env, now, goal), items);
    HottestFirst(env, now, goal, items);
    MaskedDescends(env, now, goal, sorted, Taken(sorted, maxTokens), true);
  }

  method Pack(scored: seq<Item>, maxTokens: int) returns (context: Assembled)
    ensures context == Packed(scored, maxTokens)
  {
    hide Packed;
    var remaining := maxTokens;
    var blocks: seq<Item> := [];
    var skipped: seq<Id> := [];
    NothingPacked(maxTokens);
    for i := 0 to |scored|
      invariant Packed(scored[..i], maxTokens) == Assembled(blocks, skipped, maxTokens - remaining)
    {
      var item := scored[i];
      assert scored[..i + 1] == scored[..i] + [item];
      PackedFromEnd(scored[..i], item, maxTokens);
      if item.tokens <= remaining {
        remaining := remaining - item.tokens;
        blocks := blocks + [item];
      } else {
        skipped := skipped + [item.id];
      }
    }
    assert scored[..|scored|] == scored;
    context := Assembled(blocks, skipped, maxTokens - remaining);
  }

  lemma NothingPacked(maxTokens: int)
    ensures Packed([], maxTokens) == Assembled([], [], 0)
  {
  }
}
