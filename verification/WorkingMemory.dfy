/** The memory object: its methods update the hot set, the index, the manifest and the store in place, and do to the
    state what the functions of the other modules say. */
module WorkingMemory {
  import opened Options
  import opened MemoryItems
  import opened StableSort
  import opened ReferenceIndex
  import opened Manifest
  import opened MemoryState
  import opened MemoryRecall
  import opened MemorySnapshots
  import opened MemoryCoherence
  import opened MemoryRuns
  import opened MemoryAssembly

  // An item without summary and text to name it after; an id that was to be restored and is gone.
  datatype Fault = IndexError | KeyError

  function FaultOf(o: Outcome): Fault {
    if o.state.raised then IndexError else KeyError
  }

  class Memory {
    const env: Env
    const cfg: Config
    const ids: IdSequence
    var items: seq<Item>
    var index: Index
    var manifest: ManifestList
    var cold: map<Id, Doc>
    var step: nat
    var evictions: nat
    var goalText: string
    var goal: Option<Vector>
    ghost var latest: map<Id, string>

    ghost function Now(): State
      reads this, index, manifest, ids
    {
      State(items, index.owners, manifest.entries, cold, step, evictions, ids.next, goalText, goal, latest, false)
    }

    // The state is t, whether or not what led there broke off.
    ghost predicate IsNow(t: State)
      reads this, index, manifest, ids
    {
      Now() == t.(raised := false)
    }

    ghost predicate Valid()
      reads this, index, manifest, ids
    {
      Coherent(Now())
    }

    twostate predicate SameParts()
      reads this
    {
      index == old(index) && manifest == old(manifest)
    }

    constructor (env: Env, cfg: Config, ids: IdSequence)
      ensures this.env == env && this.cfg == cfg && this.ids == ids
      ensures Valid() && fresh(index) && fresh(manifest)
      ensures Now() == State([], map[], [], map[], 0, 0, ids.next, "", None, map[], false)
    {
      this.env, this.cfg, this.ids := env, cfg, ids;
      items, cold, step, evictions, goalText, goal, latest := [], map[], 0, 0, "", None, map[];
      index := new Index();
      manifest := new ManifestList();
    }

    /* Eviction */

    // The item leaves the hot set and the index.
    method TakeOut(k: nat)
      requires k < |items|
      modifies this`items, this`evictions, index
      ensures Now() == Popped(old(Now()), k)
    {
      hide Forgotten;
      index.Forget(items[k].id);
      items := items[..k] + items[k + 1..];
      evictions := evictions + 1;
    }

    method EvictItem(id: Id, reason: string) returns (r: Result<bool, Fault>)
      requires Valid()
      modifies this, index, manifest
      ensures Valid() && SameParts()
      ensures var t := match IndexOf(old(items), id)
                       case None => old(Now())
                       case Some(k) => Evicted(env, cfg, old(Now()), k, reason);
              IsNow(t) && r == if t.raised then Err(IndexError) else Ok(IsHot(old(items), id))
    {
      hide Coherent, Forgotten, DocOf, EntryOf, LineageOf, SummaryOf, Important;
      var at := IndexOf(items, id);
      if at.None? {
        return Ok(false);
      }
      ghost var t := Evicted(env, cfg, Now(), at.value, reason);
      EvictCoherent(env, cfg, Now(), at.value, reason);
      NoMatter(t, t.(raised := false));
      var item := items[at.value];
      TakeOut(at.value);
      var lineage := if item.lineage.Some? then item.lineage.value else item.id;
      var summary := item.summary;
      if summary == "" {
        if env.blank(item.text) {
          return Err(IndexError);
        }
        summary := env.firstLine(item.text);
      }
      var important := item.refcount > 0 || item.kind in {"edit", "note", "recalled"} || item.pinned;
      EntryIs(env, item, step, reason);
      if cfg.hasStore {
        var meta := Meta(item.id, item.kind, summary, step, reason, item.refcount, item.recallCount, item.step, lineage,
                         important, item.defs + (item.refs * item.defs));
        cold := cold - {lineage};
        cold := cold[lineage := Doc(item.text, meta)];
      }
      manifest.Record(Entry(item.id, item.kind, summary, item.tokens, step, item.defs, lineage, important));
      assert Now() == t;
      r := Ok(true);
    }

    method EnforceBudget() returns (raised: bool)
      requires Valid()
      modifies this, index, manifest
      ensures Valid() && SameParts()
      ensures var t := Shrunk(env, cfg, old(Now()), cfg.maxTokens, "over_budget", GUARD); IsNow(t) && raised == t.raised
    {
      raised := false;
      hide Coherent, Evicted, Used, Weakest;
      var guard := 0;
      while Used(items) > cfg.maxTokens && guard < 10_000
        invariant guard <= GUARD && Valid() && SameParts()
        invariant Shrunk(env, cfg, Now(), cfg.maxTokens, "over_budget", GUARD - guard) ==
                  Shrunk(env, cfg, old(Now()), cfg.maxTokens, "over_budget", GUARD)
        decreases GUARD - guard
      {
        guard := guard + 1;
        var victim := Weakest(env, items, step, goal);
        if victim.None? {
          return;
        }
        HotIndex(Now(), victim.value);
        var evicted := EvictItem(items[victim.value].id, "over_budget");
        if evicted.Err? {
          return true;
        }
      }
    }

    /* Pins */

    method EnforcePinCap()
      requires Valid()
      modifies this`items
      ensures Valid() && Now() == PinsCapped(env, cfg, old(Now()))
    {
      if cfg.maxPinned.None? {
        return;
      }
      CappedSameCore(env, items, cfg.maxPinned.value, GUARD);
      SameCoreCoherent(Now(), PinsCapped(env, cfg, Now()));
      var guard := 0;
      while guard < 10_000
        invariant guard <= GUARD
        invariant Capped(env, items, cfg.maxPinned.value, GUARD - guard) ==
                  Capped(env, old(items), cfg.maxPinned.value, GUARD)
      {
        guard := guard + 1;
        var oldest := OldestPinned(env, items);
        if PinnedTokens(items) <= cfg.maxPinned.value || oldest.None? {
          break;
        }
        items := items[oldest.value := items[oldest.value].(pinned := false)];
      }
    }

    method SetPin(id: Id, pinned: bool) returns (found: bool)
      requires Valid()
      modifies this`items
      ensures Valid() && Now() == WithPin(old(Now()), id, pinned) && (found <==> IsHot(old(items), id))
      ensures Now() == Operated(env, cfg, old(Now()), Event.SetPin(id, pinned))
    {
      hide Coherent;
      PlainCoherent(env, cfg, Now(), Event.SetPin(id, pinned));
      var at := IndexOf(items, id);
      found := at.Some?;
      if found {
        items := items[at.value := items[at.value].(pinned := pinned)];
      }
    }

    method Touch(id: Id) returns (found: bool)
      requires Valid()
      modifies this`items, this`step
      ensures Valid() && Now() == TouchedAt(old(Now()), id) && (found <==> IsHot(old(items), id))
      ensures Now() == Operated(env, cfg, old(Now()), Event.Touch(id))
    {
      hide Coherent;
      PlainCoherent(env, cfg, Now(), Event.Touch(id));
      var at := IndexOf(items, id);
      found := at.Some?;
      if found {
        step := step + 1;
        items := items[at.value := items[at.value].(lastTouched := step)];
      }
    }

    method Forget(id: Id) returns (r: Result<bool, Fault>)
      requires Valid()
      modifies this, index, manifest
      ensures Valid() && SameParts()
      ensures IsNow(Operated(env, cfg, old(Now()), Event.Forget(id)))
      ensures var t := Forgot(env, cfg, old(Now()), id);
              IsNow(t) && r == if t.raised then Err(IndexError) else Ok(IsHot(old(items), id))
    {
      r := EvictItem(id, "manual");
    }

    /* Writing */

    // The id of the next item: drawn again while a hot item has it.
    method NextItemId() returns (id: Id)
      modifies ids
      ensures id == Made(FirstFree(items, old(ids.next))) && ids.next == id.n + 1
    {
      id := ids.NewItemId();
      while IsHot(items, id)
        invariant id.Made? && ids.next == id.n + 1 && FirstFree(items, id.n) == FirstFree(items, old(ids.next))
        decreases Ahead(items, id.n)
      {
        AheadShrinks(items, id.n);
        id := ids.NewItemId();
      }
    }

    method Add(kind: string, text: string, summary: string, pin: bool) returns (r: Result<Id, Fault>)
      requires Valid()
      modifies this, index, manifest, ids
      ensures Valid() && SameParts()
      ensures IsNow(Operated(env, cfg, old(Now()), Event.Add(kind, text, summary, pin)))
      ensures var t := Added(env, cfg, old(Now()), kind, text, summary, pin);
              IsNow(t) && r == if t.raised then Err(IndexError) else Ok(NextId(old(Now())))
    {
      hide Coherent, Shrunk, PinsCapped, Inserted, HasLabel, NewItem, FirstFree;
      ghost var now := step + 1;
      var id := Insert(kind, text, summary, pin);
      NewItemIs(env, cfg, id, kind, text, now, summary, pin);
      if summary == "" && env.blank(text) {
        return Err(IndexError);
      }
      if pin {
        EnforcePinCap();
      }
      var raised := EnforceBudget();
      r := if raised then Err(IndexError) else Ok(id);
    }

    // The item is hot and indexed, and those it mentions have counted it.
    method Insert(kind: string, text: string, summary: string, pin: bool) returns (id: Id)
      requires Valid()
      modifies this`items, this`step, this`latest, index, ids
      ensures Valid() && id == NextId(old(Now()))
      ensures Now() == Inserted(old(Now()), NextItem(env, cfg, old(Now()), kind, text, summary, pin), id.n)
    {
      hide Coherent, Bump, Register, Exact, NewItem;
      ghost var before := Now();
      CoherentIds(before);
      step := step + 1;
      id := NextItemId();
      var vector := if cfg.hasLlm then Some(env.embed(text)) else None;
      NewItemIs(env, cfg, id, kind, text, step, summary, pin);
      var item := Item(id, kind, text, step, env.count(text), env.refs(text), env.defs(text), pin, summary, 0, -1, 0,
                       None, vector);
      var bumped, touched := index.OnAdd(item, items);
      items := bumped + [item];
      latest := latest[id := text];
      assert Now() == Inserted(before, item, id.n);
      InsertCoherent(before, item, id.n);
    }

    method FindDuplicateNote(text: string) returns (k: Option<nat>)
      ensures cfg.hasLlm ==> k == Duplicate(env, cfg, items, text)
    {
      if cfg.dedupThreshold <= 0.0 {
        return None;
      }
      var vector := env.embed(text);
      var best: Option<nat>, bestSim := None, 0.0;
      for i := 0 to |items|
        invariant best == MostSimilar(env, items[..i], vector)
        invariant bestSim == if best.None? then 0.0 else Similarity(env, vector, items[best.value])
      {
        assert items[..i + 1][..i] == items[..i];
        if items[i].kind == "note" && items[i].vector.Some? {
          var sim := env.cosine(vector, items[i].vector.value);
          if sim > bestSim {
            best, bestSim := Some(i), sim;
          }
        }
      }
      assert items[..|items|] == items;
      k := if best.Some? && bestSim >= cfg.dedupThreshold then best else None;
    }

    method Note(text: string, pin: bool) returns (r: Result<Id, Fault>)
      requires Valid()
      modifies this, index, manifest, ids
      ensures Valid() && SameParts()
      ensures IsNow(Operated(env, cfg, old(Now()), Event.Note(text, pin)))
      ensures var t := Noted(env, cfg, old(Now()), text, pin);
              IsNow(t) && r == if t.raised then Err(IndexError) else Ok(NotedId(env, cfg, old(Now()), text))
    {
      hide Coherent, Added, Duplicate;
      if cfg.hasLlm {
        var dup := FindDuplicateNote(text);
        if dup.Some? {
          NoteCoherent(env, cfg, Now(), text, pin);
          var k := dup.value;
          var note := items[k];
          step := step + 1;
          note := note.(lastTouched := step);
          if |text| > |note.text| {
            note := note.(text := text, tokens := env.count(text));
          }
          items := items[k := note];
          latest := latest[if note.lineage.Some? then note.lineage.value else note.id := note.text];
          return Ok(note.id);
        }
      } else {
        NoDuplicate(env, cfg, items, text);
      }
      r := Add("note", text, "", pin);
    }

    method SetGoal(text: string)
      requires Valid()
      modifies this`goalText, this`goal
      ensures Valid() && Now() == WithGoal(env, cfg, old(Now()), text)
      ensures Now() == Operated(env, cfg, old(Now()), Event.SetGoal(text))
    {
      hide Coherent;
      PlainCoherent(env, cfg, Now(), Event.SetGoal(text));
      goalText, goal := text, None;
      if cfg.hasLlm && text != "" {
        goal := Some(env.embed(text));
      }
    }

    /* Reading */

    method FillMissingVectors()
      requires Valid()
      modifies this`items
      ensures Valid() && Now() == Filled(env, cfg, old(Now()))
      ensures Now() == Operated(env, cfg, old(Now()), Event.FillVectors)
    {
      hide Coherent;
      PlainCoherent(env, cfg, Now(), Event.FillVectors);
      if !cfg.hasLlm {
        return;
      }
      for i := 0 to |items|
        invariant |items| == |old(items)|
        invariant forall j | 0 <= j < |items| ::
                    items[j] == if j < i && old(items)[j].vector.None?
                                then old(items)[j].(vector := Some(env.embed(old(items)[j].text))) else old(items)[j]
      {
        if items[i].vector.None? {
          items := items[i := items[i].(vector := Some(env.embed(items[i].text)))];
        }
      }
      assert items == Filled(env, cfg, old(Now())).items;
    }

    method Assemble() returns (context: Assembled)
      requires Valid()
      modifies this`items
      ensures Valid() && Now() == Filled(env, cfg, old(Now()))
      ensures context == Packed(Sorted(Hottest(env, step, goal), items), cfg.maxTokens)
      ensures forall i, j | 0 <= i < j < |context.blocks| ::
                env.score(context.blocks[i], step, goal) >= env.score(context.blocks[j], step, goal)
    {
      hide Packed;
      FillMissingVectors();
      PackedDescends(env, step, goal, items, cfg.maxTokens);
      context := Pack(Sorted(Hottest(env, step, goal), items), cfg.maxTokens);
    }

    /* Recall */

    method PickBySymbols(query: string, topK: nat) returns (picks: seq<Pick>, ghost sources: seq<Entry>)
      ensures |sources| == |picks| && PickedInOrder(env, cfg, Now(), query, picks, sources)
      ensures picks == SymbolPicks(env, cfg, Now(), BySymbols(manifest.entries, env.refs(query)), topK, [])
    {
      hide BySymbols, Known, DocFor, PickedInOrder, Ranked;
      var entries := manifest.FindBySymbols(env.refs(query));
      sources := SymbolSources(env, cfg, Now(), query, topK);
      picks := [];
      for i := 0 to |entries|
        invariant SymbolPicks(env, cfg, Now(), entries[i..], topK, picks) ==
                  SymbolPicks(env, cfg, Now(), entries, topK, [])
      {
        if |picks| >= topK {
          return;
        }
        var entry := entries[i];
        assert entries[i..][1..] == entries[i + 1..];
        if !Known(items, picks, entry.lineage) {
          var doc := ReadCold(entry);
          if doc.None? {
            var text := "(холодный запасник) " + entry.summary;
            picks := picks + [Pick(text, env.count(text), entry.summary, 0, 0, entry.itemId, entry.itemId,
                                   entry.lineage)];
          } else if env.count(doc.value.text) <= cfg.maxTokens {
            var meta := doc.value.meta;
            picks := picks + [Pick(doc.value.text, env.count(doc.value.text), meta.summary, meta.refcount,
                                   meta.recallCount, meta.origId, meta.lineage, entry.lineage)];
          }
        }
      }
    }

    // The document of the entry's lineage, or of the item it was made of.
    method ReadCold(entry: Entry) returns (doc: Option<Doc>)
      ensures doc == DocFor(cfg, Now(), entry)
    {
      doc := None;
      if cfg.hasStore && cfg.hasGet {
        if entry.lineage in cold {
          doc := Some(cold[entry.lineage]);
        }
        if doc.None? && entry.itemId != entry.lineage && entry.itemId in cold {
          doc := Some(cold[entry.itemId]);
        }
      }
    }

    method PickByMeaning(hits: seq<Hit>, topK: nat, picks0: seq<Pick>) returns (picks: seq<Pick>)
      ensures picks == SemanticPicks(env, cfg, Now(), hits, topK, picks0)
    {
      hide Known;
      picks := picks0;
      for i := 0 to |hits|
        invariant SemanticPicks(env, cfg, Now(), hits[i..], topK, picks) ==
                  SemanticPicks(env, cfg, Now(), hits, topK, picks0)
      {
        if |picks| >= topK {
          return;
        }
        var doc := hits[i].doc;
        assert hits[i..][1..] == hits[i + 1..];
        var meta := doc.meta;
        var underCooldown := cfg.cooldown > 0 && step - meta.evictedAt < cfg.cooldown;
        var strong := cfg.bypass.Some? && hits[i].sim >= cfg.bypass.value;
        if (!underCooldown || meta.important || strong) && doc.text != "" {
          if env.count(doc.text) <= cfg.maxTokens && !Known(items, picks, meta.lineage) {
            picks := picks + [Pick(doc.text, env.count(doc.text), meta.summary, meta.refcount, meta.recallCount,
                                   meta.origId, meta.lineage, meta.lineage)];
          }
        }
      }
    }

    method TrimBatch(picks: seq<Pick>) returns (batch: seq<Pick>)
      ensures batch == Trimmed(picks, cfg.maxTokens)
    {
      batch := picks;
      var total := PickTokens(batch);
      while total > cfg.maxTokens && |batch| > 1
        invariant total == PickTokens(batch) && Trimmed(batch, cfg.maxTokens) == Trimmed(picks, cfg.maxTokens)
      {
        total := total - batch[|batch| - 1].tok;
        batch := batch[..|batch| - 1];
      }
    }

    method MakeRoom(batch: seq<Pick>) returns (raised: bool)
      requires Valid()
      modifies this, index, manifest
      ensures Valid() && SameParts()
      ensures var t := RoomFor(env, cfg, old(Now()), batch); IsNow(t) && raised == t.raised
    {
      hide Coherent, Evicted, Staged, WeakestOutside, Roomed, PickTokens, Used;
      var staged := set i: nat | i < |batch| :: batch[i].lineage;
      assert staged == Staged(batch) by {
        StagedAre(batch);
      }
      var need := PickTokens(batch) - (cfg.maxTokens - Used(items));
      ghost var all := need;
      raised := false;
      var guard := 0;
      while need > 0 && guard < 10_000
        invariant guard <= GUARD && Valid() && SameParts()
        invariant Roomed(env, cfg, Now(), need, staged, GUARD - guard) ==
                  Roomed(env, cfg, old(Now()), all, staged, GUARD)
        decreases GUARD - guard
      {
        RoomedStep(env, cfg, Now(), need, staged, GUARD - guard);
        guard := guard + 1;
        var victim := WeakestOutside(env, items, step, goal, staged);
        if victim.None? {
          return;
        }
        need := need - items[victim.value].tokens;
        HotIndex(Now(), victim.value);
        ghost var t := Evicted(env, cfg, Now(), victim.value, MAKE_ROOM);
        var evicted := EvictItem(items[victim.value].id, MAKE_ROOM);
        if evicted.Err? {
          RoomedStep(env, cfg, t, need, staged, GUARD - guard);
          return true;
        }
      }
      RoomedStep(env, cfg, Now(), need, staged, GUARD - guard);
    }

    method CommitPick(pick: Pick) returns (r: Result<Id, Fault>)
      requires Valid()
      modifies this, index, manifest, ids
      ensures Valid() && SameParts()
      ensures var one := Committed(env, cfg, old(Now()), pick);
              IsNow(one.state) && r == if one.failed then Err(FaultOf(one)) else Ok(one.restored[0])
    {
      hide Coherent, Added, Restored;
      ghost var one := Committed(env, cfg, Now(), pick);
      CommitCoherent(env, cfg, Now(), pick);
      NoMatter(one.state, one.state.(raised := false));
      var added := Add("recalled", pick.text, "recall: " + pick.summary, false);
      if added.Err? {
        return Err(added.error);
      }
      var newId := added.value;
      var at := IndexOf(items, newId);
      if at.None? {
        return Err(KeyError);
      }
      var item := items[at.value];
      items := items[at.value := item.(refcount := pick.refcount, recallCount := pick.recallCount + 1,
                                       lastTouched := step,
                                       lineage := Some(pick.family))];
      latest := latest - {newId};
      var entry := manifest.Restore(pick.origId);
      r := Ok(newId);
    }

    method CommitBatch(batch: seq<Pick>) returns (r: Result<seq<Id>, Fault>)
      requires Valid()
      modifies this, index, manifest, ids
      ensures Valid() && SameParts()
      ensures var all := CommittedAll(env, cfg, old(Now()), batch);
              IsNow(all.state) && r == if all.failed then Err(FaultOf(all)) else Ok(all.restored)
    {
      hide Coherent, Committed;
      var restored: seq<Id> := [];
      ghost var all := CommittedAll(env, cfg, Now(), batch);
      for i := 0 to |batch|
        invariant Valid() && SameParts()
        invariant var rest := CommittedAll(env, cfg, Now(), batch[i..]);
                  all == Outcome(rest.state, restored + rest.restored, rest.failed)
      {
        assert batch[i..][1..] == batch[i + 1..];
        CommittedShape(env, cfg, Now(), batch[i]);
        var id := CommitPick(batch[i]);
        if id.Err? {
          return Err(id.error);
        }
        restored := restored + [id.value];
      }
      assert batch[|batch|..] == [] && restored + [] == restored;
      r := Ok(restored);
    }

    method RecallOffline(entries: seq<Entry>) returns (r: Result<seq<Id>, Fault>)
      requires Valid()
      modifies this, index, manifest, ids
      ensures Valid() && SameParts()
      ensures var all := Offline(env, cfg, old(Now()), entries);
              IsNow(all.state) && r == if all.failed then Err(FaultOf(all)) else Ok(all.restored)
    {
      hide Coherent, Noted, NotedId, Restored, Offline;
      var restored: seq<Id> := [];
      OfflineNone(env, cfg, Now());
      ghost var all := Offline(env, cfg, Now(), entries);
      for i := 0 to |entries|
        invariant Valid() && SameParts()
        invariant var rest := Offline(env, cfg, Now(), entries[i..]);
                  all == Outcome(rest.state, restored + rest.restored, rest.failed)
      {
        assert entries[i..][1..] == entries[i + 1..];
        OfflineStep(env, cfg, Now(), entries[i..], restored);
        var id := Note("(холодный запасник) " + entries[i].summary, false);
        if id.Err? {
          return Err(id.error);
        }
        ghost var noted := Now();
        var entry := manifest.Restore(entries[i].itemId);
        NoMatter(noted, Now());
        restored := restored + [id.value];
      }
      OfflineNone(env, cfg, Now());
      assert entries[|entries|..] == [] && restored + [] == restored;
      r := Ok(restored);
    }

    /** Recall. The hits are what a search of the store returned; they are looked at only if there is a model and a
        store and the symbols did not find enough. */
    method Recall(query: string, topK: nat, hits: seq<Hit>) returns (r: Result<seq<Id>, Fault>)
      requires Valid()
      modifies this, index, manifest, ids
      ensures Valid() && SameParts()
      ensures IsNow(Operated(env, cfg, old(Now()), Event.Recall(query, topK, hits)))
      ensures var all := Recalled(env, cfg, old(Now()), query, topK, hits);
              IsNow(all.state) && r == if all.failed then Err(FaultOf(all)) else Ok(all.restored)
    {
      hide Coherent, SymbolPicks, SemanticPicks, Trimmed, RoomFor, CommittedAll, Offline;
      var picks, sources := PickBySymbols(query, topK);
      if (!cfg.hasLlm || !cfg.hasStore) && picks == [] {
        var found := manifest.Search(env, query);
        r := RecallOffline(if |found| > topK then found[..topK] else found);
        return;
      }
      if cfg.hasLlm && cfg.hasStore {
        picks := PickByMeaning(hits, topK, picks);
      }
      if picks == [] {
        return Ok([]);
      }
      var batch := TrimBatch(picks);
      var raised := MakeRoom(batch);
      if raised {
        return Err(IndexError);
      }
      r := CommitBatch(batch);
    }

    /* Snapshots */

    method ExportState() returns (snapshot: Snapshot)
      ensures snapshot == Exported(Now())
    {
      snapshot := Snapshot(step, evictions, goalText, goal, items, manifest.entries);
    }

    /** Reading back a snapshot; the index and the manifest are made anew. */
    method ImportState(snapshot: Snapshot)
      modifies this
      ensures fresh(index) && fresh(manifest)
      ensures Now() == Imported(old(Now()), snapshot)
      ensures index.owners == ReadOwners(snapshot.items)
    {
      hide ReadItems, ReadOwners;
      step, evictions := snapshot.step, snapshot.evictions;
      goalText, goal := snapshot.goalText, ReadVector(snapshot.goal);
      items := [];
      index := new Index();
      manifest := new ManifestList();
      ImportItems(snapshot.items);
      ImportManifest(snapshot.manifest);
    }

    method ImportItems(raw: seq<Item>)
      requires items == [] && index.owners == map[]
      modifies this`items, index
      ensures items == ReadItems(raw) && index.owners == ReadOwners(raw)
    {
      for i := 0 to |raw|
        invariant items == ReadItems(raw[..i]) && index.owners == ReadOwners(raw[..i])
      {
        assert raw[..i + 1][..i] == raw[..i];
        var item := ReadItem(raw[i]);
        items := Put(items, item);
        index.RegisterDefs(item.id, item.defs);
      }
      assert raw[..|raw|] == raw;
    }

    method ImportManifest(raw: seq<Entry>)
      requires manifest.entries == []
      modifies manifest
      ensures manifest.entries == raw
    {
      for i := 0 to |raw|
        invariant manifest.entries == raw[..i]
      {
        manifest.Record(raw[i]);
      }
    }
  }

  lemma HotIndex(s: State, k: nat)
    requires Coherent(s) && k < |s.items|
    ensures IndexOf(s.items, s.items[k].id) == Some(k)
  {
    IndexIsUnique(s.items, k);
  }

  // What is written down of an item, field by field.
  lemma EntryIs(env: Env, item: Item, now: nat, reason: string)
    ensures var lineage := if item.lineage.Some? then item.lineage.value else item.id;
            var summary := if item.summary == "" then env.firstLine(item.text) else item.summary;
            var important := item.refcount > 0 || item.kind in {"edit", "note", "recalled"} || item.pinned;
            var meta := Meta(item.id, item.kind, summary, now, reason, item.refcount, item.recallCount, item.step,
                             lineage,
                             important, item.defs + (item.refs * item.defs));
            && LineageOf(item) == lineage
            && EntryOf(env, item, now) ==
               Entry(item.id, item.kind, summary, item.tokens, now, item.defs, lineage, important)
            && DocOf(env, item, now, reason) == Doc(item.text, meta)
  {
  }

  // A new item, field by field.
  lemma NewItemIs(env: Env, cfg: Config, id: Id, kind: string, text: string, step: nat, summary: string, pin: bool)
    ensures var item := NewItem(env, cfg, id, kind, text, step, summary, pin);
            var vector := if cfg.hasLlm then Some(env.embed(text)) else None;
            && item == Item(id, kind, text, step, env.count(text), env.refs(text), env.defs(text), pin, summary, 0, -1,
                            0,
                            None, vector)
            && (HasLabel(env, item) <==> summary != "" || !env.blank(text))
  {
  }

  lemma StagedAre(batch: seq<Pick>)
    ensures Staged(batch) == set i: nat | i < |batch| :: batch[i].lineage
  {
  }

  lemma RoomedStep(env: Env, cfg: Config, s: State, need: int, staged: set<Id>, guard: nat)
    ensures Roomed(env, cfg, s, need, staged, guard) ==
            if guard == 0 || s.raised || need <= 0 then s
            else
              match WeakestOutside(env, s.items, s.step, s.goal, staged)
              case None => s
              case Some(k) =>
                Roomed(env, cfg, Evicted(env, cfg, s, k, MAKE_ROOM), need - s.items[k].tokens, staged, guard - 1)
  {
  }

  lemma CoherentIds(s: State)
    requires Coherent(s)
    ensures DistinctIds(s.items)
  {
  }

  lemma NoDuplicate(env: Env, cfg: Config, items: seq<Item>, text: string)
    requires !cfg.hasLlm
    ensures Duplicate(env, cfg, items, text) == None
  {
  }

  lemma CommittedShape(env: Env, cfg: Config, s: State, pick: Pick)
    ensures var one := Committed(env, cfg, s, pick);
            |one.restored| == (if one.failed then 0 else 1) && (!one.failed ==> !one.state.raised)
  {
    hide Added;
  }

  lemma {:induction false} OfflineNone(env: Env, cfg: Config, s: State)
    ensures Offline(env, cfg, s, []) == Outcome(s, [], false)
  {
  }

  // One summary comes back, after those restored so far.
  lemma {:induction false} OfflineStep(env: Env, cfg: Config, s: State, entries: seq<Entry>, restored: seq<Id>)
    requires entries != []
    ensures var text := COLD_PREFIX + entries[0].summary;
            var t := Noted(env, cfg, s, text, false);
            var all := Offline(env, cfg, s, entries);
            if t.raised then all.state == t && all.failed
            else
              var rest := Offline(env, cfg, t.(manifest := Restored(t.manifest, entries[0].itemId)), entries[1..]);
              && all.state == rest.state && all.failed == rest.failed
              && restored + all.restored == (restored + [NotedId(env, cfg, s, text)]) + rest.restored
  {
    hide Noted, NotedId, Restored;
  }
}
