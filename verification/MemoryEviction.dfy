/** Eviction as sort and cut: the loop that drops the weakest item again and again drops a prefix of the unpinned
    items in ascending order of score, the shortest one that makes room. */
module MemoryEviction {
  import opened Options
  import opened MemoryItems
  import opened StableSort
  import opened MemoryState

  function ByScore(env: Env, now: nat, goal: Option<Vector>): Before<Item> {
    (a: Item, b: Item) => env.score(a, now, goal) < env.score(b, now, goal)
  }

  lemma ScoresOrder(env: Env, now: nat, goal: Option<Vector>)
    ensures Orders(ByScore(env, now, goal))
  {
  }

  function UnpinnedOf(items: seq<Item>): (r: seq<Item>)
    ensures |r| <= |items|
    ensures forall i | 0 <= i < |r| :: r[i] in items && !r[i].pinned
  {
    if items == [] then []
    else UnpinnedOf(items[..|items| - 1]) + if items[|items| - 1].pinned then [] else [items[|items| - 1]]
  }

  // The order in which items would go: the stable sort of the unpinned ones, lowest score first.
  function Order(env: Env, s: State): seq<Item> {
    Sorted(ByScore(env, s.step, s.goal), UnpinnedOf(s.items))
  }

  function Tokens(items: seq<Item>): nat {
    if items == [] then 0 else items[0].tokens + Tokens(items[1..])
  }

  // How many of them go.
  function CutLength(used: int, order: seq<Item>, limit: int, guard: nat): (m: nat)
    ensures m <= |order| && m <= guard
    decreases |order|
  {
    if guard == 0 || used <= limit || order == [] then 0
    else 1 + CutLength(used - order[0].tokens, order[1..], limit, guard - 1)
  }

  // The victims leave one after the other, until one of them cannot be named.
  function Swept(env: Env, cfg: Config, s: State, victims: seq<Item>, reason: string): State
    decreases |victims|
  {
    if victims == [] || s.raised then s
    else
      match IndexOf(s.items, victims[0].id)
      case None => Swept(env, cfg, s, victims[1..], reason)
      case Some(k) => Swept(env, cfg, Evicted(env, cfg, s, k, reason), victims[1..], reason)
  }

  /* Selecting the first least element again and again is a stable sort. */

  ghost predicate FirstLeast(before: Before<Item>, s: seq<Item>, k: nat) {
    k < |s| && forall i | 0 <= i < |s| :: !before(s[i], s[k]) && (i < k ==> before(s[k], s[i]))
  }

  lemma {:induction false} InsertFirst(before: Before<Item>, x: Item, s: seq<Item>)
    requires forall i | 0 <= i < |s| :: before(x, s[i])
    ensures Insert(before, x, s) == [x] + s
  {
    if s != [] {
      InsertFirst(before, x, s[..|s| - 1]);
      assert s == s[..|s| - 1] + [s[|s| - 1]];
    }
  }

  lemma {:induction false} InsertAfterFirst(before: Before<Item>, x: Item, m: Item, s: seq<Item>)
    requires !before(x, m)
    ensures Insert(before, x, [m] + s) == [m] + Insert(before, x, s)
  {
    var t := [m] + s;
    if s != [] {
      assert t[..|t| - 1] == [m] + s[..|s| - 1] && t[|t| - 1] == s[|s| - 1];
      InsertAfterFirst(before, x, m, s[..|s| - 1]);
    } else {
      assert t == [m];
    }
  }

  lemma {:induction false} FirstLeastSorts(before: Before<Item>, s: seq<Item>, k: nat)
    requires Orders(before) && FirstLeast(before, s, k)
    ensures Sorted(before, s) == [s[k]] + Sorted(before, Without(s, k))
  {
    hide Without;
    var n := |s| - 1;
    var init, x := s[..n], s[n];
    WithoutFromEnd(s, k);
    if k == n {
      SortedIsStable(before, init);
      var r := Sorted(before, init);
      forall i | 0 <= i < |r|
        ensures before(x, r[i])
      {
        assert r[i] in multiset(init);
      }
      InsertFirst(before, x, r);
    } else {
      FirstLeastSorts(before, init, k);
      InsertAfterFirst(before, x, s[k], Sorted(before, Without(init, k)));
    }
  }

  // The weakest item among the unpinned ones alone.
  lemma {:induction false} WeakestIsFirstLeast(env: Env, items: seq<Item>, now: nat, goal: Option<Vector>, k: nat)
    returns (m: nat)
    requires k < |items| && !items[k].pinned
    requires forall i | 0 <= i < |items| && !items[i].pinned ::
               var a, b := env.score(items[k], now, goal), env.score(items[i], now, goal);
               a <= b && (i < k ==> a < b)
    ensures FirstLeast(ByScore(env, now, goal), UnpinnedOf(items), m)
    ensures UnpinnedOf(items)[m] == items[k]
    ensures UnpinnedOf(Without(items, k)) == Without(UnpinnedOf(items), m)
  {
    hide Without, FirstLeast;
    var n := |items| - 1;
    var init := items[..n];
    WithoutFromEnd(items, k);
    if k == n {
      m := LastIsFirstLeast(env, items, now, goal);
    } else {
      m := WeakestIsFirstLeast(env, init, now, goal, k);
      var rest := Without(items, k);
      assert rest[..|rest| - 1] == Without(init, k) && rest[|rest| - 1] == items[n];
      UnpinnedExtends(env, init, items[n], now, goal, m, items[k], Without(init, k));
      AppendedBack(rest, Without(init, k), items[n]);
      AppendedBack(items, init, items[n]);
    }
  }

  lemma {:induction false} UnpinnedExtends(
      env: Env, init: seq<Item>, x: Item, now: nat, goal: Option<Vector>, m: nat, least: Item, rest: seq<Item>)
    requires FirstLeast(ByScore(env, now, goal), UnpinnedOf(init), m) && UnpinnedOf(init)[m] == least
    requires UnpinnedOf(rest) == Without(UnpinnedOf(init), m)
    requires x.pinned || env.score(least, now, goal) <= env.score(x, now, goal)
    ensures FirstLeast(ByScore(env, now, goal), UnpinnedOf(init + [x]), m) && UnpinnedOf(init + [x])[m] == least
    ensures UnpinnedOf(rest + [x]) == Without(UnpinnedOf(init + [x]), m)
  {
    hide Without;
    assert (init + [x])[..|init|] == init && (rest + [x])[..|rest|] == rest;
    if x.pinned {
      assert UnpinnedOf(init + [x]) == UnpinnedOf(init);
    } else {
      var u := UnpinnedOf(init);
      assert UnpinnedOf(init + [x]) == u + [x];
      FirstLeastExtends(ByScore(env, now, goal), u, m, x);
      WithoutFromEnd(u + [x], m);
      assert (u + [x])[..|u|] == u;
      AppendedBack(Without(u + [x], m), Without(u, m), x);
    }
  }

  lemma AppendedBack(s: seq<Item>, init: seq<Item>, x: Item)
    requires |s| == |init| + 1 && s[..|s| - 1] == init && s[|s| - 1] == x
    ensures s == init + [x]
  {
  }

  lemma FirstLeastExtends(before: Before<Item>, s: seq<Item>, k: nat, x: Item)
    requires FirstLeast(before, s, k) && !before(x, s[k])
    ensures FirstLeast(before, s + [x], k)
  {
  }

  lemma LastIsFirstLeast(env: Env, items: seq<Item>, now: nat, goal: Option<Vector>) returns (m: nat)
    requires items != [] && !items[|items| - 1].pinned
    requires forall i | 0 <= i < |items| - 1 && !items[i].pinned ::
               env.score(items[|items| - 1], now, goal) < env.score(items[i], now, goal)
    ensures FirstLeast(ByScore(env, now, goal), UnpinnedOf(items), m)
    ensures UnpinnedOf(items)[m] == items[|items| - 1]
    ensures UnpinnedOf(items[..|items| - 1]) == Without(UnpinnedOf(items), m)
  {
    var rest := UnpinnedOf(items[..|items| - 1]);
    m := |rest|;
    assert UnpinnedOf(items) == rest + [items[|items| - 1]];
    WithoutFromEnd(UnpinnedOf(items), m);
    forall i | 0 <= i < |rest|
      ensures ByScore(env, now, goal)(items[|items| - 1], rest[i])
    {
      assert rest[i] in items[..|items| - 1];
    }
  }

  lemma EvictedShape(env: Env, cfg: Config, s: State, k: nat, reason: string)
    requires k < |s.items|
    ensures var t := Evicted(env, cfg, s, k, reason);
            && t.items == Without(s.items, k) && t.evictions == s.evictions + 1
            && t.step == s.step && t.nextId == s.nextId && t.goal == s.goal
  {
  }

  lemma EvictedRaises(env: Env, cfg: Config, s: State, k: nat, reason: string)
    requires k < |s.items|
    ensures Evicted(env, cfg, s, k, reason).raised <==> s.raised || !HasLabel(env, s.items[k])
  {
  }

  lemma {:induction false} WeakestIsNext(env: Env, cfg: Config, s: State, reason: string, k: nat)
    requires Weakest(env, s.items, s.step, s.goal) == Some(k)
    ensures Order(env, s) == [s.items[k]] + Order(env, Evicted(env, cfg, s, k, reason))
  {
    hide Evicted, Without, Weakest, Sorted;
    EvictedShape(env, cfg, s, k, reason);
    var before := ByScore(env, s.step, s.goal);
    var m := WeakestIsFirstLeast(env, s.items, s.step, s.goal, k);
    ScoresOrder(env, s.step, s.goal);
    FirstLeastSorts(before, UnpinnedOf(s.items), m);
  }

  lemma {:induction false} NoneUnpinned(items: seq<Item>)
    requires forall i | 0 <= i < |items| :: items[i].pinned
    ensures UnpinnedOf(items) == []
  {
    if items != [] {
      NoneUnpinned(items[..|items| - 1]);
    }
  }

  lemma DistinctWithout(items: seq<Item>, k: nat)
    requires DistinctIds(items) && k < |items|
    ensures DistinctIds(Without(items, k))
  {
  }

  lemma NothingToSort(env: Env, s: State)
    requires forall i | 0 <= i < |s.items| :: s.items[i].pinned
    ensures Order(env, s) == []
  {
    NoneUnpinned(s.items);
  }

  lemma EvictedItems(env: Env, cfg: Config, s: State, k: nat, reason: string)
    requires DistinctIds(s.items) && k < |s.items|
    ensures var t := Evicted(env, cfg, s, k, reason);
            && t.items == Without(s.items, k) && DistinctIds(t.items)
            && Used(t.items) == Used(s.items) - s.items[k].tokens
            && t.step == s.step && t.goal == s.goal
  {
    UsedWithout(s.items, k);
    DistinctWithout(s.items, k);
  }

  lemma {:induction false} SweptNone(env: Env, cfg: Config, s: State, reason: string)
    ensures Swept(env, cfg, s, [], reason) == s
  {
  }

  lemma {:induction false} SweptRaised(env: Env, cfg: Config, s: State, victims: seq<Item>, reason: string)
    requires s.raised
    ensures Swept(env, cfg, s, victims, reason) == s
  {
  }

  lemma {:induction false} SweptFirst(env: Env, cfg: Config, s: State, k: nat, victims: seq<Item>, reason: string)
    requires DistinctIds(s.items) && k < |s.items| && victims != [] && victims[0].id == s.items[k].id && !s.raised
    ensures Swept(env, cfg, s, victims, reason) ==
            Swept(env, cfg, Evicted(env, cfg, s, k, reason), victims[1..], reason)
  {
    IndexIsUnique(s.items, k);
  }

  /** The loop evicts the shortest prefix of the order that makes room, or as much as its guard allows. */
  lemma {:induction false} ShrinkIsSortAndCut(env: Env, cfg: Config, s: State, limit: int, reason: string, guard: nat)
    requires DistinctIds(s.items)
    ensures var m := CutLength(Used(s.items), Order(env, s), limit, guard);
            Shrunk(env, cfg, s, limit, reason, guard) == Swept(env, cfg, s, Order(env, s)[..m], reason)
    decreases guard
  {
    hide Without, Order, Swept, Evicted, Used;
    SweptNone(env, cfg, s, reason);
    var order := Order(env, s);
    if s.raised {
      SweptRaised(env, cfg, s, order[..CutLength(Used(s.items), order, limit, guard)], reason);
    } else if guard > 0 && Used(s.items) > limit {
      var weakest := Weakest(env, s.items, s.step, s.goal);
      match weakest {
        case None =>
          NothingToSort(env, s);
        case Some(k) =>
          var t := Evicted(env, cfg, s, k, reason);
          WeakestIsNext(env, cfg, s, reason, k);
          EvictedItems(env, cfg, s, k, reason);
          ShrinkIsSortAndCut(env, cfg, t, limit, reason, guard - 1);
          var m := CutLength(Used(t.items), Order(env, t), limit, guard - 1);
          assert order[1..] == Order(env, t);
          assert order[..m + 1][1..] == Order(env, t)[..m];
          SweptFirst(env, cfg, s, k, order[..m + 1], reason);
      }
    }
  }

  /** The cut: enough goes, or all there is, or as much as the guard allows; one less would not have been enough. */
  lemma {:induction false} CutIsShortest(used: int, order: seq<Item>, limit: int, guard: nat)
    ensures var m := CutLength(used, order, limit, guard);
            && (used - Tokens(order[..m]) <= limit || m == |order| || m == guard)
            && (forall j | 0 <= j < m :: used - Tokens(order[..j]) > limit)
    decreases |order|
  {
    var m := CutLength(used, order, limit, guard);
    if m > 0 {
      CutIsShortest(used - order[0].tokens, order[1..], limit, guard - 1);
      assert order[..m][1..] == order[1..][..m - 1];
      forall j | 0 <= j < m
        ensures used - Tokens(order[..j]) > limit
      {
        if j > 0 {
          assert order[..j][1..] == order[1..][..j - 1];
          assert used - order[0].tokens - Tokens(order[1..][..j - 1]) > limit;
        }
      }
    }
  }

  /* The cap on pinned items */

  function PinnedOf(items: seq<Item>): seq<Item> {
    if items == [] then [] else (if items[0].pinned then [items[0]] else []) + PinnedOf(items[1..])
  }

  // The first m pinned items are pinned no more.
  function UnpinFirst(items: seq<Item>, m: nat): (r: seq<Item>)
    ensures |r| == |items|
  {
    if items == [] || m == 0 then items
    else if items[0].pinned then [items[0].(pinned := false)] + UnpinFirst(items[1..], m - 1)
    else [items[0]] + UnpinFirst(items[1..], m)
  }

  lemma {:induction false} PinnedTokensFromStart(items: seq<Item>)
    requires items != []
    ensures PinnedTokens(items) == (if items[0].pinned then items[0].tokens else 0) + PinnedTokens(items[1..])
  {
    var n := |items| - 1;
    if n > 0 {
      PinnedTokensFromStart(items[..n]);
      assert items[..n][1..] == items[1..][..n - 1];
    } else {
      assert items[..0] == [] && items[1..] == [];
    }
  }

  ghost predicate FirstPinned(items: seq<Item>, k: int) {
    0 <= k < |items| && items[k].pinned && forall i | 0 <= i < k :: !items[i].pinned
  }

  // Unpinning the first pinned item, seen from the start of the list.
  lemma UnpinnedFromStart(items: seq<Item>, k: nat)
    requires FirstPinned(items, k)
    ensures k == 0 ==> Unpinned(items, k) == [items[0].(pinned := false)] + items[1..]
    ensures k > 0 ==> !items[0].pinned && Unpinned(items, k) == [items[0]] + Unpinned(items[1..], k - 1)
    ensures k > 0 ==> FirstPinned(items[1..], k - 1)
  {
  }

  lemma {:induction false} UnpinFirstStep(items: seq<Item>, k: nat, m: nat)
    requires FirstPinned(items, k)
    ensures UnpinFirst(items, m + 1) == UnpinFirst(Unpinned(items, k), m)
  {
    hide Unpinned;
    UnpinnedFromStart(items, k);
    var rest := if k == 0 then items[1..] else Unpinned(items[1..], k - 1);
    var t := Unpinned(items, k);
    assert t[1..] == rest;
    if k > 0 {
      UnpinFirstStep(items[1..], k - 1, m);
    }
  }

  lemma {:induction false} PinnedOfStep(items: seq<Item>, k: nat)
    requires FirstPinned(items, k)
    ensures PinnedOf(items) == [items[k]] + PinnedOf(Unpinned(items, k))
  {
    hide Unpinned;
    UnpinnedFromStart(items, k);
    var t := Unpinned(items, k);
    assert t[1..] == if k == 0 then items[1..] else Unpinned(items[1..], k - 1);
    if k > 0 {
      PinnedOfStep(items[1..], k - 1);
    }
  }

  lemma {:induction false} PinnedTokensStep(items: seq<Item>, k: nat)
    requires FirstPinned(items, k)
    ensures PinnedTokens(Unpinned(items, k)) == PinnedTokens(items) - items[k].tokens
  {
    hide Unpinned;
    UnpinnedFromStart(items, k);
    var t := Unpinned(items, k);
    assert t[1..] == if k == 0 then items[1..] else Unpinned(items[1..], k - 1);
    PinnedTokensFromStart(items);
    PinnedTokensFromStart(t);
    if k > 0 {
      PinnedTokensStep(items[1..], k - 1);
    }
  }

  lemma {:induction false} NonePinned(items: seq<Item>)
    requires forall i | 0 <= i < |items| :: !items[i].pinned
    ensures PinnedOf(items) == []
  {
    if items != [] {
      NonePinned(items[1..]);
    }
  }

  lemma {:induction false} OldestIsFirst(env: Env, items: seq<Item>, now: nat, k: nat)
    requires StepsIncrease(items, now) && OldestPinned(env, items) == Some(k)
    ensures FirstPinned(items, k) && StepsIncrease(Unpinned(items, k), now)
  {
  }

  lemma {:induction false} NothingToUnpin(env: Env, items: seq<Item>)
    requires OldestPinned(env, items) == None
    ensures PinnedOf(items) == []
  {
    NonePinned(items);
  }

  /** The cap unpins the shortest run of oldest pinned items that brings the rest within it. */
  lemma {:induction false} CapUnpinsOldest(env: Env, items: seq<Item>, now: nat, cap: int, guard: nat)
    requires StepsIncrease(items, now)
    ensures Capped(env, items, cap, guard) ==
            UnpinFirst(items, CutLength(PinnedTokens(items), PinnedOf(items), cap, guard))
    decreases guard
  {
    hide PinnedTokens, PinnedOf, StepsIncrease, Unpinned, FirstPinned, OldestPinned, UnpinFirst;
    UnpinNone(items);
    if guard > 0 && PinnedTokens(items) > cap {
      match OldestPinned(env, items) {
        case None =>
          NothingToUnpin(env, items);
        case Some(k) =>
          OldestIsFirst(env, items, now, k);
          CapUnpinsNext(items, now, cap, guard, k);
          CapUnpinsOldest(env, Unpinned(items, k), now, cap, guard - 1);
      }
    }
  }

  lemma {:induction false} UnpinNone(items: seq<Item>)
    ensures UnpinFirst(items, 0) == items
  {
  }

  lemma CapUnpinsNext(items: seq<Item>, now: nat, cap: int, guard: nat, k: nat)
    requires FirstPinned(items, k) && PinnedTokens(items) > cap && guard > 0
    ensures var t := Unpinned(items, k);
            UnpinFirst(items, CutLength(PinnedTokens(items), PinnedOf(items), cap, guard)) ==
            UnpinFirst(t, CutLength(PinnedTokens(t), PinnedOf(t), cap, guard - 1))
  {
    hide PinnedTokens, PinnedOf, UnpinFirst, Unpinned;
    var t := Unpinned(items, k);
    UnpinFirstStep(items, k, CutLength(PinnedTokens(t), PinnedOf(t), cap, guard - 1));
    PinnedOfStep(items, k);
    PinnedTokensStep(items, k);
    assert PinnedOf(items)[1..] == PinnedOf(t);
  }
}
