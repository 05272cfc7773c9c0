/** Nothing is ever lost: the text last given to a lineage is in the hot set or in the cold store, and the manifest says
    so. What an operation of a memory with a store can lose is what cannot be named, and it loses that exactly where it
    breaks off. */
module MemoryNoLoss {
  import opened Options
  import opened MemoryItems
  import opened ReferenceIndex
  import opened MemoryState
  import opened MemoryEviction
  import opened MemoryRecall

  /* The invariant */

  // Each hot item is the only one of its lineage and has its latest text.
  ghost predicate HotOk(items: seq<Item>, latest: map<Id, string>) {
    && (forall i | 0 <= i < |items| :: LineageOf(items[i]) in latest && latest[LineageOf(items[i])] == items[i].text)
    && (forall i, j | 0 <= i < j < |items| :: LineageOf(items[i]) != LineageOf(items[j]))
    && DistinctIds(items)
  }

  // The document of the entry's lineage has its latest text and names the entry.
  ghost predicate Recoverable(e: Entry, cold: map<Id, Doc>, latest: map<Id, string>) {
    && e.lineage in latest && e.lineage in cold
    && cold[e.lineage].text == latest[e.lineage] && cold[e.lineage].meta.origId == e.itemId
  }

  ghost predicate ManifestOk(manifest: seq<Entry>, cold: map<Id, Doc>, latest: map<Id, string>) {
    && (forall j | 0 <= j < |manifest| :: Recoverable(manifest[j], cold, latest))
    && (forall i, j | 0 <= i < j < |manifest| ::
          manifest[i].lineage != manifest[j].lineage && manifest[i].itemId != manifest[j].itemId)
  }

  ghost predicate Apart(items: seq<Item>, manifest: seq<Entry>) {
    forall i, j | 0 <= i < |items| && 0 <= j < |manifest| ::
      LineageOf(items[i]) != manifest[j].lineage && items[i].id != manifest[j].itemId
  }

  predicate IsListed(manifest: seq<Entry>, lineage: Id) {
    exists j | 0 <= j < |manifest| :: manifest[j].lineage == lineage
  }

  // The lineage is hot or listed.
  predicate IsHeld(items: seq<Item>, manifest: seq<Entry>, lineage: Id) {
    IsHotLineage(items, lineage) || IsListed(manifest, lineage)
  }

  ghost predicate StoreOk(cold: map<Id, Doc>, latest: map<Id, string>) {
    forall lineage | lineage in cold :: lineage in latest && cold[lineage].meta.lineage == lineage
  }

  // What the store has is held, and what came without a summary has never been stored.
  ghost predicate ColdHeld(items: seq<Item>, manifest: seq<Entry>, cold: map<Id, Doc>) {
    && (forall lineage | lineage in cold :: IsHeld(items, manifest, lineage))
    && (forall i | 0 <= i < |items| && items[i].summary == "" :: LineageOf(items[i]) !in cold)
  }

  predicate Below(id: Id, n: nat) {
    id.Made? ==> id.n < n
  }

  // The counter is past every id in use.
  ghost predicate Numbered(s: State) {
    && (forall id | id in s.latest :: Below(id, s.nextId))
    && (forall i | 0 <= i < |s.items| :: Below(s.items[i].id, s.nextId))
    && (forall j | 0 <= j < |s.manifest| :: Below(s.manifest[j].itemId, s.nextId))
  }

  /** Each lineage that is hot or listed is so in one place only; a hot one has its latest text in the item, a listed
      one in the document the entry leads to. */
  ghost predicate Sound(s: State) {
    && HotOk(s.items, s.latest)
    && ManifestOk(s.manifest, s.cold, s.latest)
    && Apart(s.items, s.manifest)
    && StoreOk(s.cold, s.latest)
    && ColdHeld(s.items, s.manifest, s.cold)
    && Numbered(s)
  }

  // The lineages that are neither.
  ghost function Lost(s: State): set<Id> {
    set lineage | lineage in s.latest && !IsHeld(s.items, s.manifest, lineage)
  }

  ghost predicate Covered(items: seq<Item>, manifest: seq<Entry>, latest: map<Id, string>) {
    forall lineage | lineage in latest :: IsHeld(items, manifest, lineage)
  }

  /** And every lineage is hot or listed. */
  ghost predicate NoLoss(s: State) {
    Sound(s) && Covered(s.items, s.manifest, s.latest)
  }

  lemma NothingLost(s: State)
    ensures Covered(s.items, s.manifest, s.latest) <==> Lost(s) == {}
  {
    if lineage :| lineage in s.latest && !IsHeld(s.items, s.manifest, lineage) {
      assert lineage in Lost(s);
    }
  }

  /** What was lost stays lost, with its text; what is lost now could not be named; and something is lost now if and
      only if `loses` says so. */
  ghost predicate Keeps(env: Env, s: State, t: State, loses: bool) {
    && Sound(t)
    && (forall lineage | lineage in Lost(s) :: lineage in Lost(t) && t.latest[lineage] == s.latest[lineage])
    && (forall lineage | lineage in Lost(t) && lineage !in Lost(s) :: env.blank(t.latest[lineage]))
    && (Lost(t) == Lost(s) <==> !loses)
  }

  lemma KeepsOn(env: Env, s: State, t: State, u: State, first: bool, second: bool)
    requires Keeps(env, s, t, first) && Keeps(env, t, u, second)
    ensures Keeps(env, s, u, first || second)
  {
    hide Sound, Lost;
    if Lost(u) == Lost(s) {
      assert Lost(t) == Lost(s);
    }
  }

  /** Where nothing had been lost before, nothing is lost exactly if the step loses nothing. */
  lemma KeepsNoLoss(env: Env, s: State, t: State, loses: bool)
    requires NoLoss(s) && Keeps(env, s, t, loses)
    ensures NoLoss(t) <==> !loses
  {
    hide Sound;
    NothingLost(s);
    NothingLost(t);
  }

  // The same is held, under the same texts.
  lemma SameHeldKeep(env: Env, s: State, t: State)
    requires Sound(t) && t.latest == s.latest
    requires forall lineage | lineage in s.latest ::
               IsHeld(t.items, t.manifest, lineage) <==> IsHeld(s.items, s.manifest, lineage)
    ensures Keeps(env, s, t, false)
  {
    hide Sound, IsHeld;
  }

  // Only the mark that something broke off differs.
  lemma FlagKeeps(env: Env, s: State, flag: bool)
    requires Sound(s)
    ensures Keeps(env, s, s.(raised := flag), false)
  {
    SameHeldKeep(env, s, s.(raised := flag));
  }

  /* Eviction */

  lemma ListedMore(manifest: seq<Entry>, e: Entry, lineage: Id)
    ensures IsListed(manifest + [e], lineage) <==> IsListed(manifest, lineage) || e.lineage == lineage
  {
    if j :| 0 <= j < |manifest| && manifest[j].lineage == lineage {
      assert (manifest + [e])[j] == manifest[j];
    }
    assert (manifest + [e])[|manifest|] == e;
  }

  lemma HotWithout(items: seq<Item>, k: nat, lineage: Id)
    requires k < |items| && forall i | 0 <= i < |items| && i != k :: LineageOf(items[i]) != LineageOf(items[k])
    ensures IsHotLineage(Without(items, k), lineage) <==> IsHotLineage(items, lineage) && lineage != LineageOf(items[k])
  {
    var rest := Without(items, k);
    if i :| 0 <= i < |items| && LineageOf(items[i]) == lineage && i != k {
      assert rest[if i < k then i else i - 1] == items[i];
    }
    if i :| 0 <= i < |rest| && LineageOf(rest[i]) == lineage {
      assert rest[i] == items[if i < k then i else i + 1];
    }
  }

  lemma EvictRecords(
      manifest: seq<Entry>, cold: map<Id, Doc>, latest: map<Id, string>, e: Entry, doc: Doc)
    requires ManifestOk(manifest, cold, latest) && e.lineage in latest
    requires doc.text == latest[e.lineage] && doc.meta.origId == e.itemId
    requires forall j | 0 <= j < |manifest| :: manifest[j].lineage != e.lineage && manifest[j].itemId != e.itemId
    ensures ManifestOk(manifest + [e], cold[e.lineage := doc], latest)
  {
    var m, c := manifest + [e], cold[e.lineage := doc];
    forall j | 0 <= j < |m|
      ensures Recoverable(m[j], c, latest)
    {
      if j < |manifest| {
        assert Recoverable(manifest[j], cold, latest);
      }
    }
  }

  lemma EvictKeepsHot(s: State, k: nat)
    requires k < |s.items| && HotOk(s.items, s.latest) && Apart(s.items, s.manifest)
    ensures HotOk(Without(s.items, k), s.latest) && Apart(Without(s.items, k), s.manifest)
  {
    DistinctWithout(s.items, k);
    var rest := Without(s.items, k);
    assert forall i | 0 <= i < |rest| :: rest[i] == s.items[if i < k then i else i + 1];
  }

  lemma EvictKeepsApart(s: State, k: nat, e: Entry)
    requires k < |s.items| && e.lineage == LineageOf(s.items[k]) && e.itemId == s.items[k].id
    requires HotOk(s.items, s.latest) && Apart(s.items, s.manifest)
    ensures HotOk(Without(s.items, k), s.latest) && Apart(Without(s.items, k), s.manifest + [e])
  {
    DistinctWithout(s.items, k);
    var rest := Without(s.items, k);
    forall i, j | 0 <= i < |rest| && 0 <= j < |s.manifest + [e]|
      ensures LineageOf(rest[i]) != (s.manifest + [e])[j].lineage && rest[i].id != (s.manifest + [e])[j].itemId
    {
      var i' := if i < k then i else i + 1;
      assert rest[i] == s.items[i'] && i' != k;
      if j == |s.manifest| {
        assert i' < k || k < i';
      }
    }
  }

  lemma EvictedIsCurrent(s: State, k: nat)
    requires HotOk(s.items, s.latest) && Apart(s.items, s.manifest) && k < |s.items|
    ensures var item := s.items[k];
            && LineageOf(item) in s.latest && s.latest[LineageOf(item)] == item.text
            && forall j | 0 <= j < |s.manifest| ::
                 s.manifest[j].lineage != LineageOf(item) && s.manifest[j].itemId != item.id
  {
  }

  // Of the lineages, the item's own is held no more, unless it has been listed.
  lemma EvictHolds(env: Env, cfg: Config, s: State, k: nat, reason: string, lineage: Id)
    requires HotOk(s.items, s.latest) && Apart(s.items, s.manifest) && k < |s.items|
    ensures var t, item := Evicted(env, cfg, s, k, reason), s.items[k];
            IsHeld(t.items, t.manifest, lineage) <==>
            IsHeld(s.items, s.manifest, lineage) && (HasLabel(env, item) || lineage != LineageOf(item))
  {
    hide Without, IsHotLineage, IsListed, HasLabel;
    EvictedIsCurrent(s, k);
    HotWithout(s.items, k, lineage);
    ListedMore(s.manifest, EntryOf(env, s.items[k], s.step), lineage);
    NotListed(s, k);
    HotItself(s.items, k);
  }

  lemma NotListed(s: State, k: nat)
    requires Apart(s.items, s.manifest) && k < |s.items|
    ensures !IsListed(s.manifest, LineageOf(s.items[k]))
  {
  }

  lemma HotItself(items: seq<Item>, k: nat)
    requires k < |items|
    ensures IsHotLineage(items, LineageOf(items[k]))
  {
  }

  lemma EvictKeepsCold(env: Env, cfg: Config, s: State, k: nat, reason: string)
    requires HotOk(s.items, s.latest) && Apart(s.items, s.manifest) && ColdHeld(s.items, s.manifest, s.cold)
             && k < |s.items|
    ensures var t := Evicted(env, cfg, s, k, reason); ColdHeld(t.items, t.manifest, t.cold)
  {
    hide IsHeld;
    var t := Evicted(env, cfg, s, k, reason);
    HeldItself(s, k);
    forall lineage | lineage in t.cold
      ensures IsHeld(t.items, t.manifest, lineage)
    {
      EvictHolds(env, cfg, s, k, reason, lineage);
    }
    forall i | 0 <= i < |t.items| && t.items[i].summary == ""
      ensures LineageOf(t.items[i]) !in t.cold
    {
      assert t.items[i] == s.items[if i < k then i else i + 1];
    }
  }

  lemma HeldItself(s: State, k: nat)
    requires k < |s.items|
    ensures IsHeld(s.items, s.manifest, LineageOf(s.items[k]))
  {
    HotItself(s.items, k);
  }

  lemma EvictSound(env: Env, cfg: Config, s: State, k: nat, reason: string)
    requires Sound(s) && cfg.hasStore && k < |s.items|
    ensures Sound(Evicted(env, cfg, s, k, reason))
  {
    hide ManifestOk, Apart, HotOk, ColdHeld, HasLabel;
    var item := s.items[k];
    var e, doc := EntryOf(env, item, s.step), DocOf(env, item, s.step, reason);
    EvictedIsCurrent(s, k);
    EvictKeepsCold(env, cfg, s, k, reason);
    EvictKeepsHot(s, k);
    if HasLabel(env, item) {
      EvictRecords(s.manifest, s.cold, s.latest, e, doc);
      EvictKeepsApart(s, k, e);
    }
  }

  /** Eviction into a store keeps everything exactly if the item can be named; otherwise its lineage is lost. */
  lemma EvictKeeps(env: Env, cfg: Config, s: State, k: nat, reason: string)
    requires Sound(s) && cfg.hasStore && k < |s.items|
    ensures Keeps(env, s, Evicted(env, cfg, s, k, reason), !HasLabel(env, s.items[k]))
    ensures !HasLabel(env, s.items[k]) ==> LineageOf(s.items[k]) in Lost(Evicted(env, cfg, s, k, reason))
  {
    hide ManifestOk, Apart, ColdHeld, HotOk, StoreOk, Numbered, IsHeld;
    var t := Evicted(env, cfg, s, k, reason);
    EvictSound(env, cfg, s, k, reason);
    EvictedIsCurrent(s, k);
    HeldItself(s, k);
    forall lineage
      ensures IsHeld(t.items, t.manifest, lineage) <==>
              IsHeld(s.items, s.manifest, lineage) && (HasLabel(env, s.items[k]) || lineage != LineageOf(s.items[k]))
    {
      EvictHolds(env, cfg, s, k, reason, lineage);
    }
    assert LineageOf(s.items[k]) in Lost(t) <==> !HasLabel(env, s.items[k]);
  }

  /** Enforcing a limit loses something exactly if it breaks off. */
  lemma {:induction false} ShrinkKeeps(env: Env, cfg: Config, s: State, limit: int, reason: string, guard: nat)
    requires Sound(s) && cfg.hasStore && !s.raised
    ensures var t := Shrunk(env, cfg, s, limit, reason, guard); Keeps(env, s, t, t.raised)
    decreases guard
  {
    hide Sound, Keeps, Evicted, Used, Weakest, HasLabel;
    FlagKeeps(env, s, false);
    if guard > 0 && Used(s.items) > limit {
      match Weakest(env, s.items, s.step, s.goal) {
        case None =>
        case Some(k) =>
          var t := Evicted(env, cfg, s, k, reason);
          EvictKeeps(env, cfg, s, k, reason);
          EvictedRaises(env, cfg, s, k, reason);
          if !t.raised {
            SoundAfter(env, s, t, false);
            ShrinkKeeps(env, cfg, t, limit, reason, guard - 1);
            var u := Shrunk(env, cfg, t, limit, reason, guard - 1);
            KeepsOn(env, s, t, u, false, u.raised);
          }
      }
    }
  }

  lemma SoundAfter(env: Env, s: State, t: State, loses: bool)
    requires Keeps(env, s, t, loses)
    ensures Sound(t)
  {
  }

  /** Making room likewise. */
  lemma {:induction false} RoomKeeps(env: Env, cfg: Config, s: State, need: int, staged: set<Id>, guard: nat)
    requires Sound(s) && cfg.hasStore && !s.raised
    ensures var t := Roomed(env, cfg, s, need, staged, guard); Keeps(env, s, t, t.raised)
    decreases guard
  {
    hide Sound, Keeps, Evicted, WeakestOutside, HasLabel;
    FlagKeeps(env, s, false);
    if guard > 0 && need > 0 {
      match WeakestOutside(env, s.items, s.step, s.goal, staged) {
        case None =>
        case Some(k) =>
          var t := Evicted(env, cfg, s, k, MAKE_ROOM);
          EvictKeeps(env, cfg, s, k, MAKE_ROOM);
          EvictedRaises(env, cfg, s, k, MAKE_ROOM);
          if !t.raised {
            var u := Roomed(env, cfg, t, need - s.items[k].tokens, staged, guard - 1);
            SoundAfter(env, s, t, false);
            RoomKeeps(env, cfg, t, need - s.items[k].tokens, staged, guard - 1);
            KeepsOn(env, s, t, u, false, u.raised);
          }
      }
    }
  }

  /* Changes that touch neither texts nor lineages */

  ghost predicate SameTexts(a: seq<Item>, b: seq<Item>) {
    && |a| == |b|
    && forall i | 0 <= i < |a| ::
         a[i].id == b[i].id && a[i].lineage == b[i].lineage && a[i].text == b[i].text && a[i].summary == b[i].summary
  }

  lemma SameTextsHold(a: seq<Item>, b: seq<Item>, lineage: Id)
    requires |a| == |b| && forall i | 0 <= i < |a| :: LineageOf(b[i]) == LineageOf(a[i])
    ensures IsHotLineage(a, lineage) <==> IsHotLineage(b, lineage)
  {
    if i :| 0 <= i < |a| && LineageOf(a[i]) == lineage {
      assert LineageOf(b[i]) == lineage;
    }
  }

  lemma SameTextsKeep(env: Env, s: State, t: State)
    requires Sound(s) && SameTexts(s.items, t.items)
    requires t.manifest == s.manifest && t.cold == s.cold && t.latest == s.latest && t.nextId >= s.nextId
    ensures Keeps(env, s, t, false)
  {
    hide ManifestOk, StoreOk, IsHotLineage, IsListed;
    assert forall i | 0 <= i < |s.items| :: LineageOf(t.items[i]) == LineageOf(s.items[i]);
    forall lineage
      ensures IsHotLineage(s.items, lineage) <==> IsHotLineage(t.items, lineage)
    {
      SameTextsHold(s.items, t.items, lineage);
    }
    SameHeldKeep(env, s, t);
  }

  lemma {:induction false} CappedSameTexts(env: Env, items: seq<Item>, cap: int, guard: nat)
    ensures SameTexts(items, Capped(env, items, cap, guard))
    decreases guard
  {
    hide PinnedTokens, OldestPinned;
    if guard > 0 && PinnedTokens(items) > cap {
      match OldestPinned(env, items) {
        case None =>
        case Some(k) =>
          CappedSameTexts(env, Unpinned(items, k), cap, guard - 1);
      }
    }
  }

  /* Writing */

  // A fresh item is in nobody's way.
  ghost predicate Fresh(s: State, id: Id) {
    && id !in s.latest
    && (forall i | 0 <= i < |s.items| :: s.items[i].id != id)
    && (forall j | 0 <= j < |s.manifest| :: s.manifest[j].itemId != id)
  }

  lemma InsertSound(s: State, item: Item, number: nat)
    requires Sound(s) && item.id == Made(number) && number >= s.nextId && item.lineage == None
    ensures Sound(Inserted(s, item, number))
  {
    hide ManifestOk, StoreOk, HotOk, Apart, SameTexts, IsHeld, ColdHeld;
    var bumped := Bump(s.items, s.owners, item.refs, item.step);
    BumpKeepsTexts(s.items, s.owners, item.refs, item.step);
    assert Fresh(s, item.id);
    NumberedMore(s, bumped, item, number);
    LongerLatest(s.manifest, s.cold, s.latest, item.id, item.text);
    InsertIsHot(s, bumped, item);
    InsertKeepsCold(s, bumped, item);
  }

  // A new item holds its own id besides what was held.
  lemma InsertHolds(items: seq<Item>, bumped: seq<Item>, item: Item, lineage: Id)
    requires SameTexts(items, bumped) && item.lineage == None
    ensures IsHotLineage(bumped + [item], lineage) <==> IsHotLineage(items, lineage) || lineage == item.id
  {
    var all := bumped + [item];
    assert LineageOf(all[|bumped|]) == item.id;
    if i :| 0 <= i < |items| && LineageOf(items[i]) == lineage {
      assert LineageOf(all[i]) == lineage;
    }
    if i :| 0 <= i < |all| && LineageOf(all[i]) == lineage && i < |bumped| {
      assert LineageOf(items[i]) == lineage;
    }
  }

  lemma InsertKeepsCold(s: State, bumped: seq<Item>, item: Item)
    requires ColdHeld(s.items, s.manifest, s.cold) && StoreOk(s.cold, s.latest)
    requires SameTexts(s.items, bumped) && Fresh(s, item.id) && item.lineage == None
    ensures ColdHeld(bumped + [item], s.manifest, s.cold)
  {
    hide IsHotLineage, IsListed;
    var all := bumped + [item];
    forall lineage | lineage in s.cold
      ensures IsHeld(all, s.manifest, lineage)
    {
      InsertHolds(s.items, bumped, item, lineage);
    }
    assert forall i | 0 <= i < |bumped| ::
             all[i].summary == s.items[i].summary && LineageOf(all[i]) == LineageOf(s.items[i]);
  }

  lemma InsertKeeps(env: Env, s: State, item: Item, number: nat)
    requires Sound(s) && item.id == Made(number) && number >= s.nextId && item.lineage == None
    ensures Keeps(env, s, Inserted(s, item, number), false)
  {
    hide HotOk, ManifestOk, Apart, StoreOk, ColdHeld, IsHotLineage, IsListed, SameTexts, Bump;
    var t := Inserted(s, item, number);
    InsertSound(s, item, number);
    BumpKeepsTexts(s.items, s.owners, item.refs, item.step);
    forall lineage
      ensures IsHeld(t.items, t.manifest, lineage) <==> IsHeld(s.items, s.manifest, lineage) || lineage == item.id
    {
      InsertHolds(s.items, Bump(s.items, s.owners, item.refs, item.step), item, lineage);
    }
    assert item.id !in s.latest;
  }

  lemma BumpKeepsTexts(items: seq<Item>, owners: Owners, refs: set<string>, step: nat)
    ensures SameTexts(items, Bump(items, owners, refs, step))
  {
  }

  lemma NumberedMore(s: State, bumped: seq<Item>, item: Item, number: nat)
    requires Numbered(s) && SameTexts(s.items, bumped) && item.id == Made(number) && number >= s.nextId
    ensures Numbered(s.(items := bumped + [item], latest := s.latest[item.id := item.text], nextId := number + 1))
  {
    var all := bumped + [item];
    forall i | 0 <= i < |all|
      ensures Below(all[i].id, number + 1)
    {
      if i < |bumped| {
        assert all[i].id == s.items[i].id && Below(s.items[i].id, s.nextId);
      }
    }
  }

  lemma LongerLatest(manifest: seq<Entry>, cold: map<Id, Doc>, latest: map<Id, string>, id: Id, text: string)
    requires ManifestOk(manifest, cold, latest) && StoreOk(cold, latest) && id !in latest
    ensures ManifestOk(manifest, cold, latest[id := text]) && StoreOk(cold, latest[id := text])
    ensures forall j | 0 <= j < |manifest| :: manifest[j].lineage in latest
  {
    forall j | 0 <= j < |manifest|
      ensures Recoverable(manifest[j], cold, latest[id := text])
    {
      assert Recoverable(manifest[j], cold, latest);
    }
  }

  lemma InsertIsHot(s: State, bumped: seq<Item>, item: Item)
    requires HotOk(s.items, s.latest) && Apart(s.items, s.manifest) && SameTexts(s.items, bumped)
    requires Fresh(s, item.id) && item.lineage == None
    requires forall j | 0 <= j < |s.manifest| :: s.manifest[j].lineage in s.latest
    ensures HotOk(bumped + [item], s.latest[item.id := item.text]) && Apart(bumped + [item], s.manifest)
  {
    var all := bumped + [item];
    assert forall i | 0 <= i < |bumped| ::
        all[i] == bumped[i] && LineageOf(all[i]) == LineageOf(s.items[i]) && all[i].id == s.items[i].id;
  }

  /** Adding loses something exactly if it breaks off and not for want of a name for the new text. */
  lemma AddKeeps(env: Env, cfg: Config, s: State, kind: string, text: string, summary: string, pin: bool)
    requires Sound(s) && cfg.hasStore && !s.raised
    ensures var t := Added(env, cfg, s, kind, text, summary, pin);
            Keeps(env, s, t, t.raised && (summary != "" || !env.blank(text)))
  {
    hide Sound, Keeps, Inserted, Shrunk, Capped, SameTexts;
    var item := NextItem(env, cfg, s, kind, text, summary, pin);
    var t := Inserted(s, item, item.id.n);
    InsertKeeps(env, s, item, item.id.n);
    SoundAfter(env, s, t, false);
    InsertedRaisesNothing(s, item, item.id.n);
    if !HasLabel(env, item) {
      FlagKeeps(env, t, true);
      KeepsOn(env, s, t, t.(raised := true), false, false);
    } else {
      var u := if pin then PinsCapped(env, cfg, t) else t;
      CapKeeps(env, cfg, t);
      FlagKeeps(env, t, false);
      SoundAfter(env, t, u, false);
      KeepsOn(env, s, t, u, false, false);
      ShrinkKeeps(env, cfg, u, cfg.maxTokens, "over_budget", GUARD);
      var v := Shrunk(env, cfg, u, cfg.maxTokens, "over_budget", GUARD);
      KeepsOn(env, s, u, v, false, v.raised);
    }
  }

  lemma InsertedRaisesNothing(s: State, item: Item, number: nat)
    ensures Inserted(s, item, number).raised == s.raised
  {
  }

  lemma CapKeeps(env: Env, cfg: Config, s: State)
    requires Sound(s)
    ensures Keeps(env, s, PinsCapped(env, cfg, s), false) && PinsCapped(env, cfg, s).raised == s.raised
  {
    hide Sound, Capped, SameTexts, Keeps;
    FlagKeeps(env, s, s.raised);
    if cfg.maxPinned.Some? {
      CappedSameTexts(env, s.items, cfg.maxPinned.value, GUARD);
      SameTextsKeep(env, s, PinsCapped(env, cfg, s));
    }
  }

  lemma MergeKeeps(env: Env, s: State, k: nat, text: string)
    requires Sound(s) && k < |s.items|
    ensures Keeps(env, s, Merged(env, s, k, text), false)
  {
    hide HotOk, ManifestOk, IsHotLineage, IsListed;
    var t := Merged(env, s, k, text);
    assert forall i | 0 <= i < |s.items| ::
        LineageOf(t.items[i]) == LineageOf(s.items[i]) && t.items[i].id == s.items[i].id
          && t.items[i].summary == s.items[i].summary;
    MergeIsHot(s.items, t.items, s.latest, k);
    MergeKeepsListed(s, k, t.items[k].text);
    forall lineage
      ensures IsHotLineage(s.items, lineage) <==> IsHotLineage(t.items, lineage)
    {
      SameTextsHold(s.items, t.items, lineage);
    }
    HotItself(s.items, k);
  }

  lemma MergeKeepsListed(s: State, k: nat, text: string)
    requires ManifestOk(s.manifest, s.cold, s.latest) && HotOk(s.items, s.latest) && Apart(s.items, s.manifest)
             && k < |s.items|
    ensures ManifestOk(s.manifest, s.cold, s.latest[LineageOf(s.items[k]) := text])
    ensures LineageOf(s.items[k]) in s.latest
  {
    forall j | 0 <= j < |s.manifest|
      ensures Recoverable(s.manifest[j], s.cold, s.latest[LineageOf(s.items[k]) := text])
    {
      assert Recoverable(s.manifest[j], s.cold, s.latest);
    }
  }

  lemma MergeIsHot(a: seq<Item>, b: seq<Item>, latest: map<Id, string>, k: nat)
    requires HotOk(a, latest) && k < |a| == |b|
    requires forall i | 0 <= i < |a| ::
               LineageOf(b[i]) == LineageOf(a[i]) && b[i].id == a[i].id && (i != k ==> b[i] == a[i])
    ensures HotOk(b, latest[LineageOf(b[k]) := b[k].text])
  {
  }

  /** So does noting; merging loses nothing. */
  lemma NoteKeeps(env: Env, cfg: Config, s: State, text: string, pin: bool)
    requires Sound(s) && cfg.hasStore && !s.raised
    ensures var t := Noted(env, cfg, s, text, pin); Keeps(env, s, t, t.raised && !env.blank(text))
  {
    hide Sound, Keeps, Added;
    match Duplicate(env, cfg, s.items, text) {
      case Some(k) => MergeKeeps(env, s, k, text);
      case None => AddKeeps(env, cfg, s, "note", text, "", pin);
    }
  }

  /** Forgetting loses something exactly if it breaks off. */
  lemma ForgetKeeps(env: Env, cfg: Config, s: State, id: Id)
    requires Sound(s) && cfg.hasStore && !s.raised
    ensures var t := Forgot(env, cfg, s, id); Keeps(env, s, t, t.raised)
  {
    hide Sound, Keeps, Evicted, HasLabel;
    FlagKeeps(env, s, false);
    match IndexOf(s.items, id) {
      case None =>
      case Some(k) =>
        EvictKeeps(env, cfg, s, k, "manual");
        EvictedRaises(env, cfg, s, k, "manual");
    }
  }
}
