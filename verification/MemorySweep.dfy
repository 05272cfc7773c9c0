/** What enforcing the budget leaves behind, all of it: the hot set, the index, the manifest and the store. */
module MemorySweep {
  import opened MemoryItems
  import opened ReferenceIndex
  import opened MemoryState
  import opened MemoryEviction

  /* Which victims leave, and which of them are written down */

  // All up to and including the first that cannot be named.
  function Gone(env: Env, victims: seq<Item>): seq<Item> {
    if victims == [] then []
    else if !HasLabel(env, victims[0]) then [victims[0]]
    else [victims[0]] + Gone(env, victims[1..])
  }

  // All before the first that cannot be named.
  function Listed(env: Env, victims: seq<Item>): seq<Item> {
    if victims == [] || !HasLabel(env, victims[0]) then [] else [victims[0]] + Listed(env, victims[1..])
  }

  /** If every victim can be named, all of them leave and are written down; otherwise one more leaves than is. */
  lemma {:induction false} GoneAndListed(env: Env, victims: seq<Item>)
    ensures Labelled(env, victims) ==> Gone(env, victims) == Listed(env, victims) == victims
    ensures !Labelled(env, victims) ==>
              var n := |Listed(env, victims)|;
              && n < |victims| && !HasLabel(env, victims[n]) && Labelled(env, victims[..n])
              && Listed(env, victims) == victims[..n] && Gone(env, victims) == victims[..n + 1]
  {
    if victims != [] && HasLabel(env, victims[0]) {
      hide HasLabel;
      var rest := victims[1..];
      GoneAndListed(env, rest);
      assert forall i | 1 <= i < |victims| :: victims[i] == rest[i - 1];
      assert victims == [victims[0]] + rest;
      if !Labelled(env, rest) {
        var n := |Listed(env, rest)|;
        assert victims[..n + 1] == [victims[0]] + rest[..n] && victims[..n + 2] == [victims[0]] + rest[..n + 1];
      }
    }
  }

  /* The hot set */

  predicate Among(victims: seq<Item>, item: Item) {
    exists i | 0 <= i < |victims| :: victims[i].id == item.id
  }

  // The items that are not among the victims, in their order.
  function Spared(items: seq<Item>, victims: seq<Item>): seq<Item> {
    if items == [] then []
    else Spared(items[..|items| - 1], victims) + if Among(victims, items[|items| - 1]) then [] else [items[|items| - 1]]
  }

  lemma {:induction false} SparedAll(items: seq<Item>, victims: seq<Item>)
    requires forall i | 0 <= i < |items| :: !Among(victims, items[i])
    ensures Spared(items, victims) == items
  {
    if items != [] {
      SparedAll(items[..|items| - 1], victims);
      assert items == items[..|items| - 1] + [items[|items| - 1]];
    }
  }

  lemma {:induction false} SparedHas(items: seq<Item>, victims: seq<Item>, item: Item)
    requires item in items && !Among(victims, item)
    ensures item in Spared(items, victims)
  {
    var n := |items| - 1;
    if items[n] != item {
      assert items == items[..n] + [items[n]];
      SparedHas(items[..n], victims, item);
    }
  }

  lemma AmongRest(victims: seq<Item>, item: Item)
    requires victims != []
    ensures Among(victims, item) <==> victims[0].id == item.id || Among(victims[1..], item)
  {
    if i :| 1 <= i < |victims| && victims[i].id == item.id {
      assert victims[1..][i - 1].id == item.id;
    }
  }

  // A victim that is not there is no victim.
  lemma {:induction false} SameSpared(items: seq<Item>, victims: seq<Item>)
    requires victims != [] && forall i | 0 <= i < |items| :: items[i].id != victims[0].id
    ensures Spared(items, victims) == Spared(items, victims[1..])
  {
    if items != [] {
      SameSpared(items[..|items| - 1], victims);
      AmongRest(victims, items[|items| - 1]);
    }
  }

  lemma {:induction false} SparedStep(items: seq<Item>, victims: seq<Item>, k: nat)
    requires DistinctIds(items) && k < |items| && victims != [] && victims[0].id == items[k].id
    ensures Spared(items, victims) == Spared(Without(items, k), victims[1..])
  {
    hide Without, Among;
    var n := |items| - 1;
    var init := items[..n];
    WithoutFromEnd(items, k);
    AmongRest(victims, items[n]);
    if k == n {
      SameSpared(init, victims);
    } else {
      SparedStep(init, victims, k);
    }
  }

  // The victims are distinct items of the hot set.
  ghost predicate Victims(items: seq<Item>, victims: seq<Item>) {
    && (forall i | 0 <= i < |victims| :: victims[i] in items)
    && (forall i, j | 0 <= i < j < |victims| :: victims[i].id != victims[j].id)
  }

  lemma VictimsStep(items: seq<Item>, victims: seq<Item>, k: nat)
    requires Victims(items, victims) && victims != [] && k < |items| && items[k] == victims[0]
    ensures Victims(Without(items, k), victims[1..])
  {
    forall i | 0 <= i < |victims| - 1
      ensures victims[1..][i] in Without(items, k)
    {
      var v := victims[i + 1];
      var j :| 0 <= j < |items| && items[j] == v;
      assert j != k && Without(items, k)[if j < k then j else j - 1] == v;
    }
  }

  lemma VictimIsHot(items: seq<Item>, victims: seq<Item>) returns (k: nat)
    requires Victims(items, victims) && victims != []
    ensures k < |items| && items[k] == victims[0]
  {
    assert victims[0] in items;
    k :| 0 <= k < |items| && items[k] == victims[0];
  }

  lemma VictimsPrefix(items: seq<Item>, victims: seq<Item>, n: nat)
    requires Victims(items, victims) && n <= |victims|
    ensures Victims(items, victims[..n])
  {
  }

  /** What is spared weighs what all did, less the victims. */
  lemma {:induction false} UsedOfSpared(items: seq<Item>, victims: seq<Item>)
    requires DistinctIds(items) && Victims(items, victims)
    ensures Used(Spared(items, victims)) == Used(items) - Tokens(victims)
    decreases |victims|
  {
    if victims == [] {
      SparedAll(items, victims);
    } else {
      hide Without, Victims, DistinctIds, Spared, Used;
      var k := VictimIsHot(items, victims);
      SparedStep(items, victims, k);
      VictimsStep(items, victims, k);
      DistinctWithout(items, k);
      UsedWithout(items, k);
      UsedOfSpared(Without(items, k), victims[1..]);
    }
  }

  /* The index, the manifest and the store */

  function ForgottenAll(owners: Owners, victims: seq<Item>): Owners
    decreases |victims|
  {
    if victims == [] then owners else ForgottenAll(Forgotten(owners, victims[0].id), victims[1..])
  }

  /** No name is owned by a victim any more, and nothing else has changed. */
  lemma {:induction false} ForgottenEach(owners: Owners, victims: seq<Item>, name: string)
    ensures Lookup(ForgottenAll(owners, victims), name) == Lookup(owners, name) - IdsOf(victims)
    decreases |victims|
  {
    if victims != [] {
      ForgottenEach(Forgotten(owners, victims[0].id), victims[1..], name);
      assert IdsOf(victims) == {victims[0].id} + IdsOf(victims[1..]) by {
        assert forall i | 1 <= i < |victims| :: victims[i] == victims[1..][i - 1];
      }
    }
  }

  function IdsOf(items: seq<Item>): set<Id> {
    set i | 0 <= i < |items| :: items[i].id
  }

  function Entries(env: Env, victims: seq<Item>, now: nat): (r: seq<Entry>)
    ensures |r| == |victims| && forall i | 0 <= i < |r| :: r[i] == EntryOf(env, victims[i], now)
    decreases |victims|
  {
    if victims == [] then [] else [EntryOf(env, victims[0], now)] + Entries(env, victims[1..], now)
  }

  function Stored(
      env: Env, cfg: Config, cold: map<Id, Doc>, victims: seq<Item>, now: nat, reason: string): map<Id, Doc>
    decreases |victims|
  {
    if victims == [] || !cfg.hasStore then cold
    else Stored(env, cfg, cold[LineageOf(victims[0]) := DocOf(env, victims[0], now, reason)], victims[1..], now, reason)
  }

  ghost predicate OfVictim(victims: seq<Item>, lineage: Id) {
    exists i :: 0 <= i < |victims| && LineageOf(victims[i]) == lineage
  }

  /** With a store, each victim's document is under its lineage, and no other document has changed. */
  lemma {:induction false} StoredEach(
      env: Env, cfg: Config, cold: map<Id, Doc>, victims: seq<Item>, now: nat, reason: string)
    requires cfg.hasStore && forall i, j | 0 <= i < j < |victims| :: LineageOf(victims[i]) != LineageOf(victims[j])
    ensures var c := Stored(env, cfg, cold, victims, now, reason);
            && (forall i | 0 <= i < |victims| ::
                  LineageOf(victims[i]) in c && c[LineageOf(victims[i])] == DocOf(env, victims[i], now, reason))
            && (forall lineage | !OfVictim(victims, lineage) ::
                  (lineage in c <==> lineage in cold) && (lineage in c ==> c[lineage] == cold[lineage]))
    decreases |victims|
  {
    hide DocOf;
    if victims != [] {
      var rest, first := victims[1..], LineageOf(victims[0]);
      var doc := DocOf(env, victims[0], now, reason);
      assert forall i | 1 <= i < |victims| :: victims[i] == rest[i - 1];
      StoredEach(env, cfg, cold[first := doc], rest, now, reason);
      assert !OfVictim(rest, first);
      forall lineage | !OfVictim(victims, lineage)
        ensures lineage != first && !OfVictim(rest, lineage)
      {
        LaterVictim(victims, lineage);
      }
    }
  }

  lemma LaterVictim(victims: seq<Item>, lineage: Id)
    requires victims != []
    ensures OfVictim(victims[1..], lineage) ==> OfVictim(victims, lineage)
  {
    if i :| 0 <= i < |victims| - 1 && LineageOf(victims[1..][i]) == lineage {
      assert LineageOf(victims[i + 1]) == lineage;
    }
  }

  /* Sweeping */

  // The state once the victims are swept.
  function After(env: Env, cfg: Config, s: State, victims: seq<Item>, reason: string): State {
    var gone, listed := Gone(env, victims), Listed(env, victims);
    s.(items := Spared(s.items, gone),
       owners := ForgottenAll(s.owners, gone),
       manifest := s.manifest + Entries(env, listed, s.step),
       cold := Stored(env, cfg, s.cold, listed, s.step, reason),
       evictions := s.evictions + |gone|,
       raised := |listed| < |gone|)
  }

  lemma EntriesJoin(a: seq<Entry>, e: Entry, b: seq<Entry>)
    ensures (a + [e]) + b == a + ([e] + b)
  {
  }

  lemma AfterNone(env: Env, cfg: Config, s: State, reason: string)
    requires !s.raised
    ensures After(env, cfg, s, [], reason) == s
  {
    SparedAll(s.items, []);
    assert s.manifest + [] == s.manifest;
  }

  lemma AfterUnnamed(env: Env, cfg: Config, s: State, victims: seq<Item>, k: nat, reason: string)
    requires DistinctIds(s.items) && k < |s.items| && victims != [] && victims[0] == s.items[k]
    requires !HasLabel(env, victims[0])
    ensures After(env, cfg, s, victims, reason) == Evicted(env, cfg, s, k, reason)
  {
    hide Without, Forgotten, Spared;
    var gone := Gone(env, victims);
    assert gone[1..] == [] && gone[0] == victims[0];
    assert ForgottenAll(s.owners, gone) == ForgottenAll(Forgotten(s.owners, gone[0].id), []);
    assert Entries(env, [], s.step) == [];
    SparedStep(s.items, gone, k);
    SparedAll(Without(s.items, k), []);
    assert s.manifest + [] == s.manifest;
  }

  lemma AfterNamed(env: Env, cfg: Config, s: State, victims: seq<Item>, k: nat, reason: string)
    requires DistinctIds(s.items) && k < |s.items| && victims != [] && victims[0] == s.items[k]
    requires HasLabel(env, victims[0]) && !s.raised
    ensures After(env, cfg, s, victims, reason) ==
            After(env, cfg, Evicted(env, cfg, s, k, reason), victims[1..], reason)
  {
    hide Without, Forgotten, Spared, HasLabel, EntryOf, DocOf, DistinctIds;
    var gone, listed := Gone(env, victims), Listed(env, victims);
    assert gone[1..] == Gone(env, victims[1..]) && listed[1..] == Listed(env, victims[1..]);
    SparedStep(s.items, gone, k);
    EntriesJoin(s.manifest, EntryOf(env, s.items[k], s.step), Entries(env, listed[1..], s.step));
  }

  /** Sweeping does to every part of the state what it should. */
  lemma {:induction false} SweptState(env: Env, cfg: Config, s: State, victims: seq<Item>, reason: string)
    requires DistinctIds(s.items) && Victims(s.items, victims) && !s.raised
    ensures Swept(env, cfg, s, victims, reason) == After(env, cfg, s, victims, reason)
    decreases |victims|
  {
    hide Without, Victims, DistinctIds, Swept, After, Evicted;
    if victims == [] {
      SweptNone(env, cfg, s, reason);
      AfterNone(env, cfg, s, reason);
    } else {
      var k := VictimIsHot(s.items, victims);
      var t := Evicted(env, cfg, s, k, reason);
      EvictedItems(env, cfg, s, k, reason);
      EvictedRaises(env, cfg, s, k, reason);
      SweptFirst(env, cfg, s, k, victims, reason);
      if t.raised {
        AfterUnnamed(env, cfg, s, victims, k, reason);
        SweptRaised(env, cfg, t, victims[1..], reason);
      } else {
        AfterNamed(env, cfg, s, victims, k, reason);
        VictimsStep(s.items, victims, k);
        SweptState(env, cfg, t, victims[1..], reason);
      }
    }
  }

  /* Enforcing the budget */

  // In order of eviction the items are distinct, hot and unpinned.
  lemma {:induction false} OrderVictims(env: Env, cfg: Config, s: State)
    requires DistinctIds(s.items)
    ensures Victims(s.items, Order(env, s)) && forall i | 0 <= i < |Order(env, s)| :: !Order(env, s)[i].pinned
    decreases |s.items|
  {
    hide Order, Evicted, Weakest, DistinctIds;
    match Weakest(env, s.items, s.step, s.goal) {
      case None =>
        NothingToSort(env, s);
      case Some(k) =>
        var t := Evicted(env, cfg, s, k, "");
        WeakestIsNext(env, cfg, s, "", k);
        EvictedItems(env, cfg, s, k, "");
        OrderVictims(env, cfg, t);
        OneMoreVictim(s.items, k, Order(env, t));
    }
  }

  lemma OneMoreVictim(items: seq<Item>, k: nat, victims: seq<Item>)
    requires DistinctIds(items) && k < |items| && Victims(Without(items, k), victims)
    ensures Victims(items, [items[k]] + victims)
  {
    forall i | 0 <= i < |victims|
      ensures victims[i] in items && victims[i].id != items[k].id
    {
      var j :| 0 <= j < |items| - 1 && Without(items, k)[j] == victims[i];
      assert victims[i] == items[if j < k then j else j + 1];
    }
  }

  // Who is to go: the shortest prefix of the order that makes room, or as much as the guard allows.
  function Doomed(env: Env, s: State, limit: int, guard: nat): seq<Item> {
    var order := Order(env, s);
    order[..CutLength(Used(s.items), order, limit, guard)]
  }

  /** Enforcing a limit, as one step: those who are to go are swept. */
  lemma {:induction false} ShrinkSweeps(env: Env, cfg: Config, s: State, limit: int, reason: string, guard: nat)
    requires DistinctIds(s.items) && !s.raised
    ensures Shrunk(env, cfg, s, limit, reason, guard) == After(env, cfg, s, Doomed(env, s, limit, guard), reason)
  {
    hide Order, Shrunk, Swept, After, Victims, DistinctIds;
    var order := Order(env, s);
    OrderVictims(env, cfg, s);
    VictimsPrefix(s.items, order, CutLength(Used(s.items), order, limit, guard));
    ShrinkIsSortAndCut(env, cfg, s, limit, reason, guard);
    SweptState(env, cfg, s, Doomed(env, s, limit, guard), reason);
  }

  /** Who goes is distinct, hot and unpinned, and is the shortest prefix of the order that is enough: without it the
      rest is within the limit, unless nobody unpinned is left or the guard has run out; with one less it was not. */
  lemma DoomedIsShortest(env: Env, cfg: Config, s: State, limit: int, guard: nat)
    requires DistinctIds(s.items)
    ensures var doomed := Doomed(env, s, limit, guard);
            && Victims(s.items, doomed) && doomed <= Order(env, s)
            && (forall i | 0 <= i < |doomed| :: !doomed[i].pinned)
            && (|| Used(Spared(s.items, doomed)) <= limit
                || doomed == Order(env, s)
                || |doomed| == guard)
            && (forall j | 0 <= j < |doomed| :: Used(Spared(s.items, doomed[..j])) > limit)
  {
    hide Order, Spared, Victims, DistinctIds, CutLength, Used;
    var order := Order(env, s);
    var doomed := Doomed(env, s, limit, guard);
    OrderVictims(env, cfg, s);
    CutIsShortest(Used(s.items), order, limit, guard);
    VictimsPrefix(s.items, order, |doomed|);
    UsedOfSpared(s.items, doomed);
    forall j | 0 <= j < |doomed|
      ensures Used(Spared(s.items, doomed[..j])) > limit
    {
      VictimsPrefix(s.items, order, j);
      assert doomed[..j] == order[..j];
      UsedOfSpared(s.items, order[..j]);
    }
  }

  /** And no pinned item goes. */
  lemma {:induction false} PinnedAreSpared(
      env: Env, cfg: Config, s: State, limit: int, reason: string, guard: nat, item: Item)
    requires DistinctIds(s.items) && !s.raised && item in s.items && item.pinned
    ensures item in Shrunk(env, cfg, s, limit, reason, guard).items
  {
    hide Order, Shrunk, Spared, Doomed, CutLength;
    var doomed := Doomed(env, s, limit, guard);
    ShrinkSweeps(env, cfg, s, limit, reason, guard);
    DoomedIsShortest(env, cfg, s, limit, guard);
    GoneAndListed(env, doomed);
    assert Gone(env, doomed) <= doomed;
    forall i | 0 <= i < |doomed|
      ensures doomed[i].id != item.id
    {
      assert doomed[i] in s.items;
    }
    SparedHas(s.items, Gone(env, doomed), item);
  }
}
