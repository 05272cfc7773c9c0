/** Recall loses nothing but what cannot be named, even where committing its batch evicts or breaks off. */
module RecallNoLoss {
  import opened Options
  import opened MemoryItems
  import opened ReferenceIndex
  import opened Manifest
  import opened MemoryState
  import opened MemoryRecall
  import opened MemoryNoLoss

  /* What is chosen */

  // The pick stands for a listed lineage and brings back its latest text.
  ghost predicate Faithful(s: State, p: Pick) {
    && p.lineage in s.latest && p.text == s.latest[p.lineage] && p.family == p.lineage
    && exists j :: 0 <= j < |s.manifest| && s.manifest[j].lineage == p.lineage && s.manifest[j].itemId == p.origId
  }

  ghost predicate AllFaithful(s: State, picks: seq<Pick>) {
    && (forall i | 0 <= i < |picks| :: Faithful(s, picks[i]))
    && (forall i, j | 0 <= i < j < |picks| :: picks[i].lineage != picks[j].lineage)
  }

  lemma ListedIsFaithful(env: Env, s: State, e: Entry)
    requires Sound(s) && e in s.manifest
    ensures e.lineage in s.cold && Faithful(s, DocPick(env, s.cold[e.lineage], e.lineage))
  {
    var j :| 0 <= j < |s.manifest| && s.manifest[j] == e;
    assert Recoverable(s.manifest[j], s.cold, s.latest);
  }

  lemma {:induction false} SymbolsFaithful(
      env: Env, cfg: Config, s: State, entries: seq<Entry>, topK: nat, picks: seq<Pick>)
    requires Sound(s) && cfg.hasStore && cfg.hasGet
    requires forall i | 0 <= i < |entries| :: entries[i] in s.manifest
    requires forall i | 0 <= i < |picks| :: Faithful(s, picks[i])
    ensures forall i | 0 <= i < |SymbolPicks(env, cfg, s, entries, topK, picks)| ::
              Faithful(s, SymbolPicks(env, cfg, s, entries, topK, picks)[i])
    decreases |entries|
  {
    hide Sound, Faithful, Known;
    if entries != [] && |picks| < topK {
      var e := entries[0];
      ListedIsFaithful(env, s, e);
      SymbolsFaithful(env, cfg, s, entries[1..], topK, picks);
      SymbolsFaithful(env, cfg, s, entries[1..], topK, picks + [DocPick(env, s.cold[e.lineage], e.lineage)]);
    }
  }

  // Hits are documents of the store.
  ghost predicate FromStore(s: State, hits: seq<Hit>) {
    forall i | 0 <= i < |hits| :: hits[i].doc.meta.lineage in s.cold && s.cold[hits[i].doc.meta.lineage] == hits[i].doc
  }

  lemma ColdIsListed(s: State, lineage: Id) returns (e: Entry)
    requires Sound(s) && lineage in s.cold && !IsHotLineage(s.items, lineage)
    ensures e in s.manifest && e.lineage == lineage
  {
    assert IsHeld(s.items, s.manifest, lineage);
    var j :| 0 <= j < |s.manifest| && s.manifest[j].lineage == lineage;
    e := s.manifest[j];
  }

  lemma {:induction false} HitsFaithful(env: Env, cfg: Config, s: State, hits: seq<Hit>, topK: nat, picks: seq<Pick>)
    requires Sound(s) && FromStore(s, hits)
    requires forall i | 0 <= i < |picks| :: Faithful(s, picks[i])
    ensures forall i | 0 <= i < |SemanticPicks(env, cfg, s, hits, topK, picks)| ::
              Faithful(s, SemanticPicks(env, cfg, s, hits, topK, picks)[i])
    decreases |hits|
  {
    hide Sound, Faithful, IsPicked, Quarantined;
    if hits != [] && |picks| < topK {
      HitsFaithful(env, cfg, s, hits[1..], topK, picks);
      if Admissible(env, cfg, s, picks, hits[0]) {
        var lineage := hits[0].doc.meta.lineage;
        var e := ColdIsListed(s, lineage);
        ListedIsFaithful(env, s, e);
        HitsFaithful(env, cfg, s, hits[1..], topK, picks + [DocPick(env, hits[0].doc, lineage)]);
      }
    }
  }

  lemma SelectedIsFaithful(env: Env, cfg: Config, s: State, query: string, topK: nat, hits: seq<Hit>)
    requires Sound(s) && cfg.hasStore && cfg.hasGet && FromStore(s, hits)
    ensures AllFaithful(s, Trimmed(Selected(env, cfg, s, query, topK, hits), cfg.maxTokens))
  {
    hide Sound, Faithful, FromStore;
    var entries := BySymbols(s.manifest, env.refs(query));
    BySymbolsIsRanked(s.manifest, env.refs(query));
    assert forall i | 0 <= i < |entries| :: entries[i] in entries;
    SymbolsFaithful(env, cfg, s, entries, topK, []);
    HitsFaithful(env, cfg, s, hits, topK, SymbolPicks(env, cfg, s, entries, topK, []));
    SelectedIsChosen(env, cfg, s, query, topK, hits);
    var picks := Selected(env, cfg, s, query, topK, hits);
    var batch := Trimmed(picks, cfg.maxTokens);
    assert forall i | 0 <= i < |batch| :: batch[i] == picks[i];
  }

  // The manifest only grows and no text is replaced.
  ghost predicate Grows(s: State, t: State) {
    && s.manifest <= t.manifest
    && forall id | id in s.latest :: id in t.latest && t.latest[id] == s.latest[id]
  }

  lemma GrowsKeepsFaithful(s: State, t: State, picks: seq<Pick>)
    requires AllFaithful(s, picks) && Grows(s, t)
    ensures AllFaithful(t, picks)
  {
    forall i | 0 <= i < |picks|
      ensures Faithful(t, picks[i])
    {
      assert Faithful(s, picks[i]);
      var j :| 0 <= j < |s.manifest| && s.manifest[j].lineage == picks[i].lineage
          && s.manifest[j].itemId == picks[i].origId;
      assert t.manifest[j] == s.manifest[j];
    }
  }

  lemma {:induction false} ShrinkGrows(env: Env, cfg: Config, s: State, limit: int, reason: string, guard: nat)
    ensures Grows(s, Shrunk(env, cfg, s, limit, reason, guard))
    decreases guard
  {
    hide Used, Weakest, Without, HasLabel;
    if guard > 0 && !s.raised && Used(s.items) > limit {
      match Weakest(env, s.items, s.step, s.goal) {
        case None =>
        case Some(k) =>
          ShrinkGrows(env, cfg, Evicted(env, cfg, s, k, reason), limit, reason, guard - 1);
      }
    }
  }

  lemma {:induction false} RoomGrows(env: Env, cfg: Config, s: State, need: int, staged: set<Id>, guard: nat)
    ensures Grows(s, Roomed(env, cfg, s, need, staged, guard))
    decreases guard
  {
    hide WeakestOutside, Without, HasLabel;
    if guard > 0 && !s.raised && need > 0 {
      match WeakestOutside(env, s.items, s.step, s.goal, staged) {
        case None =>
        case Some(k) =>
          RoomGrows(env, cfg, Evicted(env, cfg, s, k, MAKE_ROOM), need - s.items[k].tokens, staged, guard - 1);
      }
    }
  }

  // A newcomer: hot under its own id, or gone; never in the store while it is hot.
  ghost predicate Newcomer(s: State, id: Id) {
    IsHot(s.items, id) ==>
      && id !in s.cold
      && exists i :: 0 <= i < |s.items| && s.items[i].id == id && s.items[i].lineage == None
  }

  lemma EvictSparesNewcomer(env: Env, cfg: Config, s: State, k: nat, reason: string, id: Id)
    requires HotOk(s.items, s.latest) && Newcomer(s, id) && k < |s.items|
    ensures Newcomer(Evicted(env, cfg, s, k, reason), id)
  {
    hide DocOf, EntryOf, Forgotten, HasLabel;
    var t := Evicted(env, cfg, s, k, reason);
    if IsHot(t.items, id) {
      NewcomerStays(s.items, s.latest, k, id);
    }
  }

  lemma NewcomerStays(items: seq<Item>, latest: map<Id, string>, k: nat, id: Id)
    requires HotOk(items, latest) && k < |items| && IsHot(Without(items, k), id)
    ensures IsHot(items, id)
    ensures (exists i :: 0 <= i < |items| && items[i].id == id && items[i].lineage == None) ==>
              && LineageOf(items[k]) != id
              && exists i ::
                   0 <= i < |items| - 1 && Without(items, k)[i].id == id && Without(items, k)[i].lineage == None
  {
    var rest := Without(items, k);
    var i :| 0 <= i < |rest| && rest[i].id == id;
    var i' := if i < k then i else i + 1;
    assert rest[i] == items[i'] && i' != k;
    forall j | 0 <= j < |items| && items[j].id == id
      ensures j == i'
    {
    }
    assert items[i'].lineage == None ==> LineageOf(items[i']) == id;
  }

  lemma {:induction false} ShrinkSparesNewcomer(
      env: Env, cfg: Config, s: State, limit: int, reason: string, guard: nat, id: Id)
    requires Sound(s) && cfg.hasStore && Newcomer(s, id)
    ensures Newcomer(Shrunk(env, cfg, s, limit, reason, guard), id)
    decreases guard
  {
    hide HotOk, ManifestOk, Apart, ColdHeld, StoreOk, Numbered, Evicted, Used, Weakest, Newcomer;
    if guard > 0 && !s.raised && Used(s.items) > limit {
      match Weakest(env, s.items, s.step, s.goal) {
        case None =>
        case Some(k) =>
          EvictSound(env, cfg, s, k, reason);
          EvictSparesNewcomer(env, cfg, s, k, reason, id);
          ShrinkSparesNewcomer(env, cfg, Evicted(env, cfg, s, k, reason), limit, reason, guard - 1, id);
      }
    }
  }

  /* Taking over the past of a lineage: the entry leaves, the newcomer takes its place. */

  lemma {:induction false} EntryTaken(manifest: seq<Entry>, itemId: Id, j: nat)
    requires j < |manifest| && manifest[j].itemId == itemId
    requires forall i, l | 0 <= i < l < |manifest| :: manifest[i].itemId != manifest[l].itemId
    ensures var rest := Restored(manifest, itemId);
            && |rest| == |manifest| - 1
            && forall i | 0 <= i < |rest| :: rest[i] == manifest[if i < j then i else i + 1]
  {
    RestoredAt(manifest, itemId, j);
  }

  // One entry less, and the newcomer's own id no lineage any more.
  lemma ManifestWithout(s: State, rest: seq<Entry>, j: nat, id: Id)
    requires ManifestOk(s.manifest, s.cold, s.latest) && j < |s.manifest| == |rest| + 1
    requires forall i | 0 <= i < |rest| :: rest[i] == s.manifest[if i < j then i else i + 1]
    requires forall i | 0 <= i < |s.manifest| :: s.manifest[i].lineage != id
    ensures ManifestOk(rest, s.cold, s.latest - {id})
    ensures forall i | 0 <= i < |rest| :: rest[i].lineage != s.manifest[j].lineage
  {
    forall i | 0 <= i < |rest|
      ensures Recoverable(rest[i], s.cold, s.latest - {id}) && rest[i].lineage != s.manifest[j].lineage
    {
      assert Recoverable(s.manifest[if i < j then i else i + 1], s.cold, s.latest);
    }
  }

  ghost predicate Renamed(a: seq<Item>, b: seq<Item>, k: nat, lineage: Id) {
    && k < |a| == |b|
    && b[k].id == a[k].id && b[k].text == a[k].text && b[k].summary == a[k].summary && b[k].lineage == Some(lineage)
    && forall i | 0 <= i < |a| && i != k :: b[i] == a[i]
  }

  lemma RenamedIsHot(s: State, items: seq<Item>, rest: seq<Entry>, k: nat, j: nat)
    requires HotOk(s.items, s.latest) && Apart(s.items, s.manifest) && j < |s.manifest| == |rest| + 1
    requires k < |s.items| && s.items[k].lineage == None && Renamed(s.items, items, k, s.manifest[j].lineage)
    requires s.manifest[j].lineage in s.latest && s.latest[s.manifest[j].lineage] == s.items[k].text
    requires forall i | 0 <= i < |rest| :: rest[i] == s.manifest[if i < j then i else i + 1]
    requires forall i | 0 <= i < |rest| :: rest[i].lineage != s.manifest[j].lineage
    ensures HotOk(items, s.latest - {s.items[k].id}) && Apart(items, rest)
  {
    assert forall i | 0 <= i < |items| && i != k ::
             LineageOf(items[i]) == LineageOf(s.items[i]) && items[i].id == s.items[i].id;
    assert LineageOf(items[k]) == s.manifest[j].lineage && LineageOf(s.items[k]) == s.items[k].id;
  }

  // The newcomer holds the lineage of the entry instead of its own id; all others are held as before.
  lemma RenamedHolds(s: State, items: seq<Item>, rest: seq<Entry>, k: nat, j: nat, lineage: Id)
    requires j < |s.manifest| == |rest| + 1 && k < |s.items|
    requires s.items[k].lineage == None && Renamed(s.items, items, k, s.manifest[j].lineage)
    requires forall i | 0 <= i < |rest| :: rest[i] == s.manifest[if i < j then i else i + 1]
    ensures lineage != s.items[k].id ==> (IsHeld(items, rest, lineage) <==> IsHeld(s.items, s.manifest, lineage))
  {
    if i :| 0 <= i < |s.items| && LineageOf(s.items[i]) == lineage && i != k {
      assert LineageOf(items[i]) == lineage;
    }
    if i :| 0 <= i < |s.manifest| && s.manifest[i].lineage == lineage {
      if i == j {
        assert LineageOf(items[k]) == lineage;
      } else {
        assert rest[if i < j then i else i - 1] == s.manifest[i];
      }
    }
    if i :| 0 <= i < |items| && LineageOf(items[i]) == lineage {
      assert i != k ==> LineageOf(s.items[i]) == lineage;
      assert i == k ==> s.manifest[j].lineage == lineage;
    }
    if i :| 0 <= i < |rest| && rest[i].lineage == lineage {
      assert rest[i] == s.manifest[if i < j then i else i + 1];
    }
  }

  lemma RenamedKeepsCold(s: State, items: seq<Item>, rest: seq<Entry>, k: nat, j: nat)
    requires ColdHeld(s.items, s.manifest, s.cold) && j < |s.manifest| == |rest| + 1 && k < |s.items|
    requires s.items[k].lineage == None && s.items[k].summary != "" && s.items[k].id !in s.cold
    requires Renamed(s.items, items, k, s.manifest[j].lineage)
    requires forall i | 0 <= i < |rest| :: rest[i] == s.manifest[if i < j then i else i + 1]
    ensures ColdHeld(items, rest, s.cold)
  {
    hide IsHeld;
    forall lineage | lineage in s.cold
      ensures IsHeld(items, rest, lineage)
    {
      RenamedHolds(s, items, rest, k, j, lineage);
    }
    assert forall i | 0 <= i < |items| && i != k :: items[i] == s.items[i];
  }

  lemma RelabelSound(s: State, k: nat, p: Pick, j: nat)
    requires Sound(s) && Faithful(s, p) && k < |s.items|
    requires s.items[k].lineage == None && s.items[k].text == p.text && s.items[k].summary != ""
             && s.items[k].id !in s.cold
    requires j < |s.manifest| && s.manifest[j].lineage == p.lineage && s.manifest[j].itemId == p.origId
    ensures Sound(Relabelled(s, k, p))
    ensures var rest := Relabelled(s, k, p).manifest;
            |rest| == |s.manifest| - 1 && forall i | 0 <= i < |rest| ::
              rest[i] == s.manifest[if i < j then i else i + 1]
  {
    hide HotOk, ManifestOk, Apart, ColdHeld;
    var t := Relabelled(s, k, p);
    var j' := FaithfulEntry(s, p);
    EntryTaken(s.manifest, p.origId, j);
    NewcomerUnlisted(s, k);
    ManifestWithout(s, t.manifest, j, s.items[k].id);
    RenamedIsHot(s, t.items, t.manifest, k, j);
    RenamedKeepsCold(s, t.items, t.manifest, k, j);
  }

  lemma RelabelKeeps(env: Env, s: State, k: nat, p: Pick)
    requires Sound(s) && Faithful(s, p) && k < |s.items|
    requires s.items[k].lineage == None && s.items[k].text == p.text && s.items[k].summary != ""
             && s.items[k].id !in s.cold
    ensures Keeps(env, s, Relabelled(s, k, p), false)
  {
    hide HotOk, ManifestOk, Apart, ColdHeld, StoreOk, Numbered, IsHeld, Faithful;
    var t := Relabelled(s, k, p);
    var j := FaithfulEntry(s, p);
    RelabelSound(s, k, p, j);
    HeldItself(s, k);
    FamilyIsLineage(s, p);
    forall lineage
      ensures lineage != s.items[k].id ==>
                (IsHeld(t.items, t.manifest, lineage) <==> IsHeld(s.items, s.manifest, lineage))
    {
      RenamedHolds(s, t.items, t.manifest, k, j, lineage);
    }
  }

  lemma FamilyIsLineage(s: State, p: Pick)
    requires Faithful(s, p)
    ensures p.family == p.lineage
  {
  }

  lemma FaithfulEntry(s: State, p: Pick) returns (j: nat)
    requires Sound(s) && Faithful(s, p)
    ensures j < |s.manifest| && s.manifest[j].lineage == p.lineage && s.manifest[j].itemId == p.origId
    ensures forall i, l | 0 <= i < l < |s.manifest| :: s.manifest[i].itemId != s.manifest[l].itemId
  {
    j :| 0 <= j < |s.manifest| && s.manifest[j].lineage == p.lineage && s.manifest[j].itemId == p.origId;
  }

  lemma NewcomerUnlisted(s: State, k: nat)
    requires Sound(s) && k < |s.items| && s.items[k].lineage == None
    ensures forall i | 0 <= i < |s.manifest| :: s.manifest[i].lineage != s.items[k].id
  {
    assert LineageOf(s.items[k]) == s.items[k].id;
  }

  // The other picks stand for other entries, which stay.
  lemma RelabelKeepsFaithful(s: State, k: nat, p: Pick, picks: seq<Pick>)
    requires Sound(s) && k < |s.items| && s.items[k].lineage == None && Faithful(s, p) && AllFaithful(s, picks)
    requires forall i | 0 <= i < |picks| :: picks[i].lineage != p.lineage
    ensures AllFaithful(Relabelled(s, k, p), picks)
  {
    hide Sound, Faithful, Relabelled;
    forall i | 0 <= i < |picks|
      ensures Faithful(Relabelled(s, k, p), picks[i])
    {
      OtherStaysFaithful(s, k, p, picks[i]);
    }
  }

  lemma OtherStaysFaithful(s: State, k: nat, p: Pick, other: Pick)
    requires Sound(s) && k < |s.items| && s.items[k].lineage == None && Faithful(s, p) && Faithful(s, other)
    requires other.lineage != p.lineage
    ensures Faithful(Relabelled(s, k, p), other)
  {
    hide Sound;
    var t := Relabelled(s, k, p);
    var j := FaithfulEntry(s, p);
    var l := FaithfulEntry(s, other);
    EntryTaken(s.manifest, p.origId, j);
    NewcomerUnlisted(s, k);
    assert t.manifest[if l < j then l else l - 1] == s.manifest[l];
  }

  // The state of a commit after the text was added.
  function PickAdded(env: Env, cfg: Config, s: State, p: Pick): State {
    Added(env, cfg, s, "recalled", p.text, "recall: " + p.summary, false)
  }

  lemma InsertedIsNewcomer(s: State, item: Item, number: nat)
    requires Sound(s) && item.id == Made(number) && number >= s.nextId && item.lineage == None
    ensures Newcomer(Inserted(s, item, number), item.id) && Grows(s, Inserted(s, item, number))
    ensures forall i | 0 <= i < |Inserted(s, item, number).items| && Inserted(s, item, number).items[i].id == item.id ::
              Inserted(s, item, number).items[i] == item
  {
    var t := Inserted(s, item, number);
    assert Fresh(s, item.id);
    assert t.items[|s.items|] == item;
  }

  lemma GrowsOn(s: State, t: State, u: State)
    requires Grows(s, t) && Grows(t, u)
    ensures Grows(s, u)
  {
  }

  // Shrinking leaves items as they are.
  lemma {:induction false} ShrinkSubset(env: Env, cfg: Config, s: State, limit: int, reason: string, guard: nat)
    ensures forall i | 0 <= i < |Shrunk(env, cfg, s, limit, reason, guard).items| ::
              Shrunk(env, cfg, s, limit, reason, guard).items[i] in s.items
    decreases guard
  {
    hide Used, Weakest, HasLabel;
    if guard > 0 && !s.raised && Used(s.items) > limit {
      match Weakest(env, s.items, s.step, s.goal) {
        case None =>
        case Some(k) =>
          ShrinkSubset(env, cfg, Evicted(env, cfg, s, k, reason), limit, reason, guard - 1);
      }
    }
  }

  lemma PickAddedIsNewcomer(env: Env, cfg: Config, s: State, p: Pick)
    requires Sound(s) && cfg.hasStore && !s.raised
    ensures var t := PickAdded(env, cfg, s, p);
            && Keeps(env, s, t, t.raised) && Grows(s, t)
            && (forall k: nat | IndexOf(t.items, NextId(s)) == Some(k) ::
                  && k < |t.items| && t.items[k].lineage == None && t.items[k].text == p.text
                  && t.items[k].summary != "" && t.items[k].id !in t.cold)
  {
    hide Sound, Keeps, Inserted, Shrunk, Grows;
    var item := NextItem(env, cfg, s, "recalled", p.text, "recall: " + p.summary, false);
    var u := Inserted(s, item, item.id.n);
    var t := PickAdded(env, cfg, s, p);
    AddKeeps(env, cfg, s, "recalled", p.text, "recall: " + p.summary, false);
    InsertSound(s, item, item.id.n);
    InsertedIsNewcomer(s, item, item.id.n);
    ShrinkGrows(env, cfg, u, cfg.maxTokens, "over_budget", GUARD);
    GrowsOn(s, u, t);
    ShrinkSparesNewcomer(env, cfg, u, cfg.maxTokens, "over_budget", GUARD, item.id);
    ShrinkSubset(env, cfg, u, cfg.maxTokens, "over_budget", GUARD);
    forall k: nat | IndexOf(t.items, NextId(s)) == Some(k)
      ensures k < |t.items| && t.items[k] == item && t.items[k].id !in t.cold
    {
      assert t.items[k] in u.items && IsHot(t.items, item.id);
    }
  }

  /** Committing a pick loses something exactly if it breaks off for want of a name; if it succeeds, the other picks
      still stand for what they did. */
  lemma CommitKeeps(env: Env, cfg: Config, s: State, picks: seq<Pick>)
    requires Sound(s) && cfg.hasStore && !s.raised && AllFaithful(s, picks) && picks != []
    ensures var one := Committed(env, cfg, s, picks[0]);
            && Keeps(env, s, one.state, one.state.raised)
            && (!one.failed ==> !one.state.raised && AllFaithful(one.state, picks[1..]))
  {
    hide Sound, Keeps, Relabelled, Added, Grows;
    var p, id := picks[0], NextId(s);
    var t := PickAdded(env, cfg, s, p);
    PickAddedIsNewcomer(env, cfg, s, p);
    if !t.raised {
      SoundAfter(env, s, t, false);
      GrowsKeepsFaithful(s, t, picks);
      match IndexOf(t.items, id) {
        case None =>
        case Some(k) =>
          assert Faithful(t, picks[0]);
          RestFaithful(t, picks);
          RelabelKeeps(env, t, k, p);
          KeepsOn(env, s, t, Relabelled(t, k, p), false, false);
          RelabelKeepsFaithful(t, k, p, picks[1..]);
          RelabelRaisesNothing(t, k, p);
      }
    }
  }

  lemma RelabelRaisesNothing(s: State, k: nat, p: Pick)
    requires k < |s.items|
    ensures Relabelled(s, k, p).raised == s.raised
  {
  }

  lemma RestFaithful(s: State, picks: seq<Pick>)
    requires AllFaithful(s, picks) && picks != []
    ensures AllFaithful(s, picks[1..]) && forall i | 0 <= i < |picks| - 1 :: picks[1..][i].lineage != picks[0].lineage
  {
    assert forall i | 0 <= i < |picks| - 1 :: picks[1..][i] == picks[i + 1];
  }

  lemma {:induction false} CommitAllKeeps(env: Env, cfg: Config, s: State, picks: seq<Pick>)
    requires Sound(s) && cfg.hasStore && !s.raised && AllFaithful(s, picks)
    ensures var t := CommittedAll(env, cfg, s, picks).state; Keeps(env, s, t, t.raised)
    decreases |picks|
  {
    hide Sound, Keeps, Committed, AllFaithful;
    FlagKeeps(env, s, false);
    if picks != [] {
      var one := Committed(env, cfg, s, picks[0]);
      CommitKeeps(env, cfg, s, picks);
      if !one.failed {
        var rest := CommittedAll(env, cfg, one.state, picks[1..]);
        SoundAfter(env, s, one.state, false);
        CommitAllKeeps(env, cfg, one.state, picks[1..]);
        KeepsOn(env, s, one.state, rest.state, false, rest.state.raised);
      }
    }
  }

  /** Recall loses something exactly if it breaks off for want of a name; not finding an id again loses nothing. */
  lemma RecallKeeps(env: Env, cfg: Config, s: State, query: string, topK: nat, hits: seq<Hit>)
    requires Sound(s) && cfg.hasStore && cfg.hasLlm && cfg.hasGet && FromStore(s, hits) && !s.raised
    ensures var t := Recalled(env, cfg, s, query, topK, hits).state; Keeps(env, s, t, t.raised)
  {
    hide Sound, Keeps, AllFaithful, Selected, Trimmed, Roomed, CommittedAll, FromStore, Staged;
    FlagKeeps(env, s, false);
    var picks := Selected(env, cfg, s, query, topK, hits);
    if picks != [] {
      var batch := Trimmed(picks, cfg.maxTokens);
      var room := RoomFor(env, cfg, s, batch);
      SelectedIsFaithful(env, cfg, s, query, topK, hits);
      var need := PickTokens(batch) - (cfg.maxTokens - Used(s.items));
      RoomKeeps(env, cfg, s, need, Staged(batch), GUARD);
      RoomGrows(env, cfg, s, need, Staged(batch), GUARD);
      GrowsKeepsFaithful(s, room, batch);
      if !room.raised {
        var all := CommittedAll(env, cfg, room, batch);
        SoundAfter(env, s, room, false);
        CommitAllKeeps(env, cfg, room, batch);
        KeepsOn(env, s, room, all.state, false, all.state.raised);
      }
    }
  }
}
