/** What every operation of a memory keeps, even where it breaks off: ids are distinct, the index is exact, steps
    increase. */
module MemoryCoherence {
  import opened MemoryItems
  import opened ReferenceIndex
  import opened Manifest
  import opened MemoryState
  import opened MemoryEviction
  import opened MemoryRecall
  import opened MemorySnapshots

  lemma EvictCoherent(env: Env, cfg: Config, s: State, k: nat, reason: string)
    requires Coherent(s) && k < |s.items|
    ensures Coherent(Evicted(env, cfg, s, k, reason))
  {
    hide Exact;
    DistinctWithout(s.items, k);
    ExactForgotten(s.owners, s.items, k);
  }

  // A change of the items that touches neither ids, definitions nor steps.
  ghost predicate SameCore(a: seq<Item>, b: seq<Item>) {
    && |a| == |b|
    && forall i | 0 <= i < |a| :: a[i].id == b[i].id && a[i].defs == b[i].defs && a[i].step == b[i].step
  }

  lemma SameCoreExact(owners: Owners, a: seq<Item>, b: seq<Item>)
    requires Exact(owners, a) && SameCore(a, b)
    ensures Exact(owners, b)
  {
    hide Exact;
    ExactFor(owners, a, b);
  }

  lemma SameCoreCoherent(s: State, t: State)
    requires Coherent(s) && SameCore(s.items, t.items) && t.owners == s.owners && t.step >= s.step
    ensures Coherent(t)
  {
    hide Exact;
    SameCoreExact(s.owners, s.items, t.items);
  }

  lemma InsertCoherent(s: State, item: Item, number: nat)
    requires Coherent(s) && !IsHot(s.items, item.id) && item.step == s.step + 1
    ensures Coherent(Inserted(s, item, number))
  {
    hide Exact, Bump, SameCore, DistinctIds, StepsIncrease;
    var bumped := Bump(s.items, s.owners, item.refs, item.step);
    BumpSameCore(s.items, s.owners, item.refs, item.step);
    SameCoreExact(s.owners, s.items, bumped);
    ExactRegistered(s.owners, bumped, item);
    LongerInOrder(s.items, bumped, item, s.step);
  }

  lemma BumpSameCore(items: seq<Item>, owners: Owners, refs: set<string>, step: nat)
    ensures SameCore(items, Bump(items, owners, refs, step))
  {
  }

  lemma LongerInOrder(items: seq<Item>, bumped: seq<Item>, item: Item, now: nat)
    requires DistinctIds(items) && StepsIncrease(items, now) && SameCore(items, bumped)
    requires !IsHot(items, item.id) && item.step == now + 1
    ensures DistinctIds(bumped + [item]) && StepsIncrease(bumped + [item], item.step)
  {
    assert forall i | 0 <= i < |bumped| :: bumped[i].id == items[i].id && bumped[i].step == items[i].step;
  }

  lemma {:induction false} ShrinkCoherent(env: Env, cfg: Config, s: State, limit: int, reason: string, guard: nat)
    requires Coherent(s)
    ensures Coherent(Shrunk(env, cfg, s, limit, reason, guard))
    decreases guard
  {
    hide Coherent, Evicted, Used, Weakest;
    if guard > 0 && !s.raised && Used(s.items) > limit {
      match Weakest(env, s.items, s.step, s.goal) {
        case None =>
        case Some(k) =>
          EvictCoherent(env, cfg, s, k, reason);
          ShrinkCoherent(env, cfg, Evicted(env, cfg, s, k, reason), limit, reason, guard - 1);
      }
    }
  }

  lemma {:induction false} RoomCoherent(env: Env, cfg: Config, s: State, need: int, staged: set<Id>, guard: nat)
    requires Coherent(s)
    ensures Coherent(Roomed(env, cfg, s, need, staged, guard))
    decreases guard
  {
    hide Coherent, Evicted, WeakestOutside;
    if guard > 0 && !s.raised && need > 0 {
      match WeakestOutside(env, s.items, s.step, s.goal, staged) {
        case None =>
        case Some(k) =>
          EvictCoherent(env, cfg, s, k, MAKE_ROOM);
          RoomCoherent(env, cfg, Evicted(env, cfg, s, k, MAKE_ROOM), need - s.items[k].tokens, staged, guard - 1);
      }
    }
  }

  lemma {:induction false} CappedSameCore(env: Env, items: seq<Item>, cap: int, guard: nat)
    ensures SameCore(items, Capped(env, items, cap, guard))
    decreases guard
  {
    hide PinnedTokens, OldestPinned;
    if guard > 0 && PinnedTokens(items) > cap {
      match OldestPinned(env, items) {
        case None =>
        case Some(k) => CappedSameCore(env, Unpinned(items, k), cap, guard - 1);
      }
    }
  }

  lemma AddCoherent(env: Env, cfg: Config, s: State, kind: string, text: string, summary: string, pin: bool)
    requires Coherent(s)
    ensures Coherent(Added(env, cfg, s, kind, text, summary, pin))
  {
    hide Coherent, Inserted, Shrunk, Capped, SameCore, HasLabel;
    var item := NextItem(env, cfg, s, kind, text, summary, pin);
    var t := Inserted(s, item, item.id.n);
    InsertCoherent(s, item, item.id.n);
    NoMatter(t, t.(raised := true));
    if cfg.maxPinned.Some? {
      CappedSameCore(env, t.items, cfg.maxPinned.value, GUARD);
      SameCoreCoherent(t, PinsCapped(env, cfg, t));
    }
    ShrinkCoherent(env, cfg, if pin then PinsCapped(env, cfg, t) else t, cfg.maxTokens, "over_budget", GUARD);
  }

  // Only items, owners and step matter.
  lemma NoMatter(s: State, t: State)
    requires Coherent(s) && t.items == s.items && t.owners == s.owners && t.step == s.step
    ensures Coherent(t)
  {
  }

  lemma NoteCoherent(env: Env, cfg: Config, s: State, text: string, pin: bool)
    requires Coherent(s)
    ensures Coherent(Noted(env, cfg, s, text, pin))
  {
    hide Coherent, Added;
    match Duplicate(env, cfg, s.items, text) {
      case Some(k) => SameCoreCoherent(s, Merged(env, s, k, text));
      case None => AddCoherent(env, cfg, s, "note", text, "", pin);
    }
  }

  lemma CommitCoherent(env: Env, cfg: Config, s: State, p: Pick)
    requires Coherent(s)
    ensures Coherent(Committed(env, cfg, s, p).state)
  {
    hide Coherent, Added;
    AddCoherent(env, cfg, s, "recalled", p.text, "recall: " + p.summary, false);
    var t := Added(env, cfg, s, "recalled", p.text, "recall: " + p.summary, false);
    match IndexOf(t.items, NextId(s)) {
      case None =>
      case Some(k) => SameCoreCoherent(t, Relabelled(t, k, p));
    }
  }

  lemma {:induction false} CommitAllCoherent(env: Env, cfg: Config, s: State, picks: seq<Pick>)
    requires Coherent(s)
    ensures Coherent(CommittedAll(env, cfg, s, picks).state)
    decreases |picks|
  {
    hide Coherent, Committed;
    if picks != [] {
      CommitCoherent(env, cfg, s, picks[0]);
      CommitAllCoherent(env, cfg, Committed(env, cfg, s, picks[0]).state, picks[1..]);
    }
  }

  lemma {:induction false} OfflineCoherent(env: Env, cfg: Config, s: State, entries: seq<Entry>)
    requires Coherent(s)
    ensures Coherent(Offline(env, cfg, s, entries).state)
    decreases |entries|
  {
    hide Coherent, Noted, Restored;
    if entries != [] {
      var t := Noted(env, cfg, s, COLD_PREFIX + entries[0].summary, false);
      var u := t.(manifest := Restored(t.manifest, entries[0].itemId));
      NoteCoherent(env, cfg, s, COLD_PREFIX + entries[0].summary, false);
      NoMatter(t, u);
      OfflineCoherent(env, cfg, u, entries[1..]);
    }
  }

  lemma RecallCoherent(env: Env, cfg: Config, s: State, query: string, topK: nat, hits: seq<Hit>)
    requires Coherent(s)
    ensures Coherent(Recalled(env, cfg, s, query, topK, hits).state)
  {
    hide Coherent, Selected, Trimmed, Roomed, CommittedAll, Offline, Staged;
    var picks := Selected(env, cfg, s, query, topK, hits);
    OfflineCoherent(env, cfg, s, FirstEntries(Searched(env, s.manifest, query), topK));
    var batch := Trimmed(picks, cfg.maxTokens);
    RoomCoherent(env, cfg, s, PickTokens(batch) - (cfg.maxTokens - Used(s.items)), Staged(batch), GUARD);
    CommitAllCoherent(env, cfg, RoomFor(env, cfg, s, batch), batch);
  }

  lemma ForgetCoherent(env: Env, cfg: Config, s: State, id: Id)
    requires Coherent(s)
    ensures Coherent(Forgot(env, cfg, s, id))
  {
    hide Coherent, Evicted;
    match IndexOf(s.items, id) {
      case None =>
      case Some(k) => EvictCoherent(env, cfg, s, k, "manual");
    }
  }

  lemma RestartCoherent(s: State, nextId: nat)
    requires Coherent(s)
    ensures Coherent(Imported(s.(nextId := nextId), Exported(s)))
  {
    hide Exact;
    SnapshotRoundTrip(s, s.(nextId := nextId));
    ReadInOrder(s.items);
  }
}
