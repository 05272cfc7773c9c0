/** Where every text can be named, nothing breaks off: each operation leaves a hot set whose items can all be named. */
module MemoryNames {
  import opened MemoryItems
  import opened Manifest
  import opened MemoryState
  import opened MemoryEviction
  import opened MemoryRecall
  import opened MemorySnapshots

  lemma EvictNamed(env: Env, cfg: Config, s: State, k: nat, reason: string)
    requires Named(env, s) && k < |s.items|
    ensures Named(env, Evicted(env, cfg, s, k, reason))
  {
    hide HasLabel;
    EvictedShape(env, cfg, s, k, reason);
    EvictedRaises(env, cfg, s, k, reason);
  }

  // No item loses its name.
  ghost predicate KeepsNames(env: Env, a: seq<Item>, b: seq<Item>) {
    |a| == |b| && forall i | 0 <= i < |a| && HasLabel(env, a[i]) :: HasLabel(env, b[i])
  }

  lemma KeepsNamed(env: Env, s: State, t: State)
    requires Named(env, s) && KeepsNames(env, s.items, t.items) && t.raised == s.raised
    ensures Named(env, t)
  {
    hide HasLabel;
  }

  lemma {:induction false} ShrinkNamed(env: Env, cfg: Config, s: State, limit: int, reason: string, guard: nat)
    requires Named(env, s)
    ensures Named(env, Shrunk(env, cfg, s, limit, reason, guard))
    decreases guard
  {
    hide Named, Evicted, Used, Weakest;
    if guard > 0 && !s.raised && Used(s.items) > limit {
      match Weakest(env, s.items, s.step, s.goal) {
        case None =>
        case Some(k) =>
          EvictNamed(env, cfg, s, k, reason);
          ShrinkNamed(env, cfg, Evicted(env, cfg, s, k, reason), limit, reason, guard - 1);
      }
    }
  }

  lemma {:induction false} RoomNamed(env: Env, cfg: Config, s: State, need: int, staged: set<Id>, guard: nat)
    requires Named(env, s)
    ensures Named(env, Roomed(env, cfg, s, need, staged, guard))
    decreases guard
  {
    hide Named, Evicted, WeakestOutside;
    if guard > 0 && !s.raised && need > 0 {
      match WeakestOutside(env, s.items, s.step, s.goal, staged) {
        case None =>
        case Some(k) =>
          EvictNamed(env, cfg, s, k, MAKE_ROOM);
          RoomNamed(env, cfg, Evicted(env, cfg, s, k, MAKE_ROOM), need - s.items[k].tokens, staged, guard - 1);
      }
    }
  }

  lemma {:induction false} CappedKeepsNames(env: Env, items: seq<Item>, cap: int, guard: nat)
    ensures KeepsNames(env, items, Capped(env, items, cap, guard))
    decreases guard
  {
    hide PinnedTokens, OldestPinned;
    if guard > 0 && PinnedTokens(items) > cap {
      match OldestPinned(env, items) {
        case None =>
        case Some(k) => CappedKeepsNames(env, Unpinned(items, k), cap, guard - 1);
      }
    }
  }

  lemma InsertNamed(env: Env, s: State, item: Item, number: nat)
    requires Named(env, s) && HasLabel(env, item)
    ensures Named(env, Inserted(s, item, number))
  {
    var t := Inserted(s, item, number);
    forall i | 0 <= i < |t.items|
      ensures HasLabel(env, t.items[i])
    {
      assert i < |s.items| ==> HasLabel(env, s.items[i]);
    }
  }

  lemma AddNamed(env: Env, cfg: Config, s: State, kind: string, text: string, summary: string, pin: bool)
    requires Named(env, s) && (summary != "" || !env.blank(text))
    ensures Named(env, Added(env, cfg, s, kind, text, summary, pin))
  {
    hide Named, Inserted, Shrunk, Capped, KeepsNames;
    var item := NextItem(env, cfg, s, kind, text, summary, pin);
    var t := Inserted(s, item, item.id.n);
    InsertNamed(env, s, item, item.id.n);
    if cfg.maxPinned.Some? {
      CappedKeepsNames(env, t.items, cfg.maxPinned.value, GUARD);
      KeepsNamed(env, t, PinsCapped(env, cfg, t));
    }
    ShrinkNamed(env, cfg, if pin then PinsCapped(env, cfg, t) else t, cfg.maxTokens, "over_budget", GUARD);
  }

  lemma NoteNamed(env: Env, cfg: Config, s: State, text: string, pin: bool)
    requires Named(env, s) && !env.blank(text)
    ensures Named(env, Noted(env, cfg, s, text, pin))
  {
    hide Named, Added;
    match Duplicate(env, cfg, s.items, text) {
      case Some(k) => KeepsNamed(env, s, Merged(env, s, k, text));
      case None => AddNamed(env, cfg, s, "note", text, "", pin);
    }
  }

  lemma CommitNamed(env: Env, cfg: Config, s: State, p: Pick)
    requires Named(env, s)
    ensures Named(env, Committed(env, cfg, s, p).state)
  {
    hide Named, Added;
    AddNamed(env, cfg, s, "recalled", p.text, "recall: " + p.summary, false);
    var t := Added(env, cfg, s, "recalled", p.text, "recall: " + p.summary, false);
    match IndexOf(t.items, NextId(s)) {
      case None =>
      case Some(k) => KeepsNamed(env, t, Relabelled(t, k, p));
    }
  }

  lemma {:induction false} CommitAllNamed(env: Env, cfg: Config, s: State, picks: seq<Pick>)
    requires Named(env, s)
    ensures Named(env, CommittedAll(env, cfg, s, picks).state)
    decreases |picks|
  {
    hide Named, Committed;
    if picks != [] {
      CommitNamed(env, cfg, s, picks[0]);
      CommitAllNamed(env, cfg, Committed(env, cfg, s, picks[0]).state, picks[1..]);
    }
  }

  // A text that starts with the marker of the cold store is not blank.
  ghost predicate MarkerShows(env: Env) {
    forall text :: !env.blank(COLD_PREFIX + text)
  }

  lemma {:induction false} OfflineNamed(env: Env, cfg: Config, s: State, entries: seq<Entry>)
    requires Named(env, s) && MarkerShows(env)
    ensures Named(env, Offline(env, cfg, s, entries).state)
    decreases |entries|
  {
    hide Noted, Restored, HasLabel;
    if entries != [] {
      var t := Noted(env, cfg, s, COLD_PREFIX + entries[0].summary, false);
      NoteNamed(env, cfg, s, COLD_PREFIX + entries[0].summary, false);
      OfflineNamed(env, cfg, t.(manifest := Restored(t.manifest, entries[0].itemId)), entries[1..]);
    }
  }

  lemma RecallNamed(env: Env, cfg: Config, s: State, query: string, topK: nat, hits: seq<Hit>)
    requires Named(env, s) && MarkerShows(env)
    ensures Named(env, Recalled(env, cfg, s, query, topK, hits).state)
  {
    hide Named, Selected, Trimmed, Roomed, CommittedAll, Offline, MarkerShows, Staged;
    var picks := Selected(env, cfg, s, query, topK, hits);
    OfflineNamed(env, cfg, s, FirstEntries(Searched(env, s.manifest, query), topK));
    var batch := Trimmed(picks, cfg.maxTokens);
    RoomNamed(env, cfg, s, PickTokens(batch) - (cfg.maxTokens - Used(s.items)), Staged(batch), GUARD);
    CommitAllNamed(env, cfg, RoomFor(env, cfg, s, batch), batch);
  }

  lemma ForgetNamed(env: Env, cfg: Config, s: State, id: Id)
    requires Named(env, s)
    ensures Named(env, Forgot(env, cfg, s, id))
  {
    hide Named, Evicted;
    match IndexOf(s.items, id) {
      case None =>
      case Some(k) => EvictNamed(env, cfg, s, k, "manual");
    }
  }

  lemma RestartNamed(env: Env, s: State, nextId: nat)
    requires Named(env, s) && DistinctIds(s.items)
    ensures Named(env, Imported(s.(nextId := nextId), Exported(s)))
  {
    ReadInOrder(s.items);
    KeepsNamed(env, s, Imported(s.(nextId := nextId), Exported(s)));
  }
}
