/** The batch of a recall: when the room made beforehand is enough for all of it. */
module RecallBatch {
  import opened Options
  import opened MemoryItems
  import opened ReferenceIndex
  import opened MemoryState
  import opened MemoryEviction
  import opened MemoryRecall

  /* Pinned and unpinned tokens */

  lemma {:induction false} UsedSplits(items: seq<Item>)
    ensures Used(items) >= PinnedTokens(items)
    ensures UnpinnedOf(items) == [] ==> Used(items) == PinnedTokens(items)
  {
    if items != [] {
      UsedSplits(items[..|items| - 1]);
    }
  }

  lemma {:induction false} UnpinnedWithout(items: seq<Item>, k: nat)
    requires k < |items| && !items[k].pinned
    ensures PinnedTokens(Without(items, k)) == PinnedTokens(items)
    ensures |UnpinnedOf(Without(items, k))| == |UnpinnedOf(items)| - 1
  {
    hide Without;
    WithoutFromEnd(items, k);
    if k < |items| - 1 {
      UnpinnedWithout(items[..|items| - 1], k);
    }
  }

  // Each item of a is still there in b, with what matters of it.
  ghost predicate Extends(a: seq<Item>, b: seq<Item>) {
    && |a| <= |b|
    && forall i | 0 <= i < |a| ::
         && b[i].id == a[i].id && b[i].text == a[i].text && b[i].lineage == a[i].lineage
         && b[i].pinned == a[i].pinned && b[i].tokens == a[i].tokens
  }

  // The pinned items of a are all in b.
  ghost predicate PinnedKept(a: seq<Item>, b: seq<Item>) {
    forall i | 0 <= i < |a| && a[i].pinned :: exists j :: 0 <= j < |b| && b[j].id == a[i].id && b[j].pinned
  }

  lemma PinnedKeptWithout(items: seq<Item>, k: nat, b: seq<Item>)
    requires k < |items| && !items[k].pinned && PinnedKept(Without(items, k), b)
    ensures PinnedKept(items, b)
  {
    var rest := Without(items, k);
    forall i | 0 <= i < |items| && items[i].pinned
      ensures exists j :: 0 <= j < |b| && b[j].id == items[i].id && b[j].pinned
    {
      var i' := if i < k then i else i - 1;
      assert rest[i'] == items[i];
    }
  }

  lemma PinnedKeptExtends(a: seq<Item>, b: seq<Item>, c: seq<Item>)
    requires PinnedKept(a, b) && Extends(b, c)
    ensures PinnedKept(a, c)
  {
    forall i | 0 <= i < |a| && a[i].pinned
      ensures exists j :: 0 <= j < |c| && c[j].id == a[i].id && c[j].pinned
    {
      var j :| 0 <= j < |b| && b[j].id == a[i].id && b[j].pinned;
      assert c[j].id == b[j].id;
    }
  }

  lemma {:induction false} ShrinkCounts(env: Env, cfg: Config, s: State, limit: int, reason: string, guard: nat)
    ensures var t := Shrunk(env, cfg, s, limit, reason, guard);
            && t.evictions >= s.evictions && (t.evictions == s.evictions ==> t == s)
            && t.step == s.step && t.nextId == s.nextId
    decreases guard
  {
    hide Evicted, Used;
    if guard > 0 && !s.raised && Used(s.items) > limit {
      match Weakest(env, s.items, s.step, s.goal) {
        case None =>
        case Some(k) =>
          EvictedShape(env, cfg, s, k, reason);
          ShrinkCounts(env, cfg, Evicted(env, cfg, s, k, reason), limit, reason, guard - 1);
      }
    }
  }

  lemma {:induction false} ShrinkKeepsPinned(env: Env, cfg: Config, s: State, limit: int, reason: string, guard: nat)
    ensures var t := Shrunk(env, cfg, s, limit, reason, guard);
            PinnedTokens(t.items) == PinnedTokens(s.items) && PinnedKept(s.items, t.items)
    decreases guard
  {
    hide Evicted, Used, Without, PinnedTokens, PinnedKept, Weakest;
    AllKept(s.items);
    if guard > 0 && !s.raised && Used(s.items) > limit {
      match Weakest(env, s.items, s.step, s.goal) {
        case None =>
        case Some(k) =>
          var t := Evicted(env, cfg, s, k, reason);
          EvictedShape(env, cfg, s, k, reason);
          ShrinkKeepsPinned(env, cfg, t, limit, reason, guard - 1);
          UnpinnedWithout(s.items, k);
          PinnedKeptWithout(s.items, k, Shrunk(env, cfg, t, limit, reason, guard - 1).items);
      }
    }
  }

  lemma {:induction false} ShrinkMeets(env: Env, cfg: Config, s: State, limit: int, reason: string, guard: nat)
    requires |UnpinnedOf(s.items)| <= guard
    ensures var t := Shrunk(env, cfg, s, limit, reason, guard);
            t.raised || Used(t.items) <= limit || UnpinnedOf(t.items) == []
    decreases guard
  {
    hide Evicted, Used, Without, UnpinnedOf;
    if Used(s.items) > limit && !s.raised && guard > 0 {
      match Weakest(env, s.items, s.step, s.goal) {
        case None =>
          NoneUnpinned(s.items);
        case Some(k) =>
          EvictedShape(env, cfg, s, k, reason);
          UnpinnedWithout(s.items, k);
          ShrinkMeets(env, cfg, Evicted(env, cfg, s, k, reason), limit, reason, guard - 1);
      }
    }
  }

  /** What shrinking achieves: it meets the limit or leaves pinned items only, unless it breaks off; and no pinned item
      goes. */
  lemma {:induction false} ShrinkBound(env: Env, cfg: Config, s: State, limit: int, reason: string, guard: nat)
    ensures var t := Shrunk(env, cfg, s, limit, reason, guard);
            && (|UnpinnedOf(s.items)| <= guard ==> t.raised || Used(t.items) <= limit || UnpinnedOf(t.items) == [])
            && PinnedTokens(t.items) == PinnedTokens(s.items) && PinnedKept(s.items, t.items)
            && t.evictions >= s.evictions && (t.evictions == s.evictions ==> t == s)
  {
    hide Shrunk, Used, PinnedTokens, UnpinnedOf, PinnedKept;
    ShrinkCounts(env, cfg, s, limit, reason, guard);
    ShrinkKeepsPinned(env, cfg, s, limit, reason, guard);
    if |UnpinnedOf(s.items)| <= guard {
      ShrinkMeets(env, cfg, s, limit, reason, guard);
    }
  }

  lemma AllKept(items: seq<Item>)
    ensures PinnedKept(items, items)
  {
  }

  // A shrink that evicts nobody had nothing to do, or nobody to evict.
  lemma {:induction false} QuietShrink(env: Env, cfg: Config, s: State, limit: int, reason: string, guard: nat, k: nat)
    requires Shrunk(env, cfg, s, limit, reason, guard).evictions == s.evictions
    requires guard > 0 && k < |s.items| && !s.items[k].pinned && !s.raised
    ensures Used(s.items) <= limit
  {
    hide Evicted, Used;
    if Used(s.items) > limit {
      var weakest := Weakest(env, s.items, s.step, s.goal);
      EvictedShape(env, cfg, s, weakest.value, reason);
      ShrinkCounts(env, cfg, Evicted(env, cfg, s, weakest.value, reason), limit, reason, guard - 1);
    }
  }

  /* Adding an unpinned item */

  lemma {:induction false} SameUsed(a: seq<Item>, b: seq<Item>)
    requires |a| == |b| && forall i | 0 <= i < |a| :: a[i].tokens == b[i].tokens && a[i].pinned == b[i].pinned
    ensures Used(a) == Used(b) && PinnedTokens(a) == PinnedTokens(b)
  {
    if a != [] {
      SameUsed(a[..|a| - 1], b[..|b| - 1]);
    }
  }

  lemma InsertedItems(s: State, item: Item, number: nat)
    ensures var t := Inserted(s, item, number);
            && |t.items| == |s.items| + 1 && t.items[|s.items|] == item && Extends(s.items, t.items)
            && Used(t.items) == Used(s.items) + item.tokens && t.evictions == s.evictions && t.raised == s.raised
  {
    var bumped := Bump(s.items, s.owners, item.refs, item.step);
    SameUsed(s.items, bumped);
    assert (bumped + [item])[..|bumped|] == bumped;
  }

  // The state right after a recalled text has been inserted.
  function PickInserted(env: Env, cfg: Config, s: State, pick: Pick): State {
    var item := NextItem(env, cfg, s, "recalled", pick.text, "recall: " + pick.summary, false);
    Inserted(s, item, item.id.n)
  }

  lemma {:induction false} CommitShrinks(env: Env, cfg: Config, s: State, pick: Pick)
    requires pick.tok == env.count(pick.text)
    ensures var t := PickInserted(env, cfg, s, pick);
            && |t.items| == |s.items| + 1 && Extends(s.items, t.items)
            && Used(t.items) == Used(s.items) + pick.tok && t.evictions == s.evictions && t.raised == s.raised
            && t.items[|s.items|].id == NextId(s) && t.items[|s.items|].text == pick.text && !t.items[|s.items|].pinned
            && Added(env, cfg, s, "recalled", pick.text, "recall: " + pick.summary, false) ==
               Shrunk(env, cfg, t, cfg.maxTokens, "over_budget", GUARD)
  {
    var item := NextItem(env, cfg, s, "recalled", pick.text, "recall: " + pick.summary, false);
    InsertedItems(s, item, item.id.n);
  }

  // A pick that is back in the hot set, with the text and the lineage it was chosen for.
  ghost predicate Live(items: seq<Item>, id: Id, pick: Pick) {
    exists j :: 0 <= j < |items| && items[j].id == id && items[j].text == pick.text
      && items[j].lineage == Some(pick.family)
  }

  lemma LiveExtends(a: seq<Item>, b: seq<Item>, id: Id, pick: Pick)
    requires Live(a, id, pick) && Extends(a, b)
    ensures Live(b, id, pick)
  {
    var j :| 0 <= j < |a| && a[j].id == id && a[j].text == pick.text && a[j].lineage == Some(pick.family);
    assert b[j].id == id;
  }

  lemma {:induction false} LastIndex(items: seq<Item>, id: Id)
    requires items != [] && items[|items| - 1].id == id
    ensures IndexOf(items, id) == Some(|items| - 1)
  {
  }

  lemma RelabelledLast(s: State, pick: Pick, before: seq<Item>)
    requires |s.items| == |before| + 1 && Extends(before, s.items) && s.items[|before|].text == pick.text
    ensures var t := Relabelled(s, |before|, pick);
            && Extends(before, t.items) && Live(t.items, s.items[|before|].id, pick)
            && Used(t.items) == Used(s.items) && t.evictions == s.evictions && t.raised == s.raised
  {
    var t := Relabelled(s, |before|, pick);
    SameUsed(s.items, t.items);
    assert t.items[|before|].id == s.items[|before|].id;
  }

  // A commit that evicts nobody succeeds and adds exactly its item.
  ghost predicate QuietStep(env: Env, cfg: Config, s: State, pick: Pick, one: Outcome) {
    && !one.failed && one.restored == [NextId(s)]
    && Extends(s.items, one.state.items) && Live(one.state.items, NextId(s), pick)
    && Used(one.state.items) == Used(s.items) + pick.tok && one.state.evictions == s.evictions
    && Used(one.state.items) <= cfg.maxTokens && !one.state.raised
  }

  /** Committing one pick evicts nobody exactly if it fits; then it is in. */
  lemma CommitOne(env: Env, cfg: Config, s: State, pick: Pick)
    requires pick.tok == env.count(pick.text) && !s.raised
    ensures var one := Committed(env, cfg, s, pick);
            && one.state.evictions >= s.evictions
            && (one.state.evictions == s.evictions <==> Used(s.items) + pick.tok <= cfg.maxTokens)
            && (one.state.evictions == s.evictions ==> QuietStep(env, cfg, s, pick, one))
  {
    hide Extends, Live, Used, PinnedTokens, PinnedKept, UnpinnedOf, PickInserted, Relabelled, Added, Shrunk, Committed;
    hide NextId, IndexOf;
    var t := PickInserted(env, cfg, s, pick);
    var u := Shrunk(env, cfg, t, cfg.maxTokens, "over_budget", GUARD);
    CommitShrinks(env, cfg, s, pick);
    ShrinkBound(env, cfg, t, cfg.maxTokens, "over_budget", GUARD);
    CommittedFrom(env, cfg, s, pick, u);
    NothingToShrink(env, cfg, t, cfg.maxTokens, "over_budget", GUARD);
    if u.evictions == t.evictions {
      QuietShrink(env, cfg, t, cfg.maxTokens, "over_budget", GUARD, |s.items|);
      LastIndex(t.items, NextId(s));
      RelabelledLast(t, pick, s.items);
    }
  }

  lemma {:induction false} NothingToShrink(env: Env, cfg: Config, s: State, limit: int, reason: string, guard: nat)
    ensures Used(s.items) <= limit ==> Shrunk(env, cfg, s, limit, reason, guard) == s
  {
  }

  lemma CommittedFrom(env: Env, cfg: Config, s: State, pick: Pick, u: State)
    requires u == Added(env, cfg, s, "recalled", pick.text, "recall: " + pick.summary, false)
    ensures var one := Committed(env, cfg, s, pick);
            && one.state.evictions == u.evictions
            && (!u.raised ==> forall k: nat | IndexOf(u.items, NextId(s)) == Some(k) ::
                  k < |u.items| && one == Outcome(Relabelled(u, k, pick), [NextId(s)], false))
  {
    hide Added;
  }

  lemma ExtendsOn(a: seq<Item>, b: seq<Item>, c: seq<Item>)
    requires Extends(a, b) && Extends(b, c)
    ensures Extends(a, c)
  {
  }

  lemma {:induction false} PickTokensFromStart(picks: seq<Pick>)
    requires picks != []
    ensures PickTokens(picks) == picks[0].tok + PickTokens(picks[1..])
  {
    var n := |picks| - 1;
    if n > 0 {
      PickTokensFromStart(picks[..n]);
      assert picks[..n][1..] == picks[1..][..n - 1];
    } else {
      assert picks[..0] == [] && picks[1..] == [];
    }
  }

  ghost predicate AllLive(items: seq<Item>, ids: seq<Id>, picks: seq<Pick>) {
    |ids| == |picks| && forall i | 0 <= i < |ids| :: Live(items, ids[i], picks[i])
  }

  lemma AllLiveStep(before: seq<Item>, items: seq<Item>, id: Id, ids: seq<Id>, picks: seq<Pick>)
    requires picks != [] && Live(before, id, picks[0]) && Extends(before, items) && AllLive(items, ids, picks[1..])
    ensures AllLive(items, [id] + ids, picks)
  {
    hide Live;
    LiveExtends(before, items, id, picks[0]);
  }

  /** A batch is committed without eviction exactly if it fits as a whole; then every pick is live at the end. */
  lemma {:induction false} CommitAll(env: Env, cfg: Config, s: State, picks: seq<Pick>)
    requires !s.raised && forall i | 0 <= i < |picks| :: picks[i].tok == env.count(picks[i].text)
    ensures var all := CommittedAll(env, cfg, s, picks);
            && all.state.evictions >= s.evictions
            && (picks != [] ==>
                  (all.state.evictions == s.evictions <==> Used(s.items) + PickTokens(picks) <= cfg.maxTokens))
            && (all.state.evictions == s.evictions ==>
                  && !all.failed && AllLive(all.state.items, all.restored, picks) && Extends(s.items, all.state.items)
                  && Used(all.state.items) == Used(s.items) + PickTokens(picks))
    decreases |picks|
  {
    hide Extends, Live, AllLive, Used, Committed, PickTokens;
    if picks == [] {
      EmptyBatch(s.items);
    } else {
      var one := Committed(env, cfg, s, picks[0]);
      CommitOne(env, cfg, s, picks[0]);
      PickTokensFromStart(picks);
      if !one.failed {
        CommittedQuietly(env, cfg, s, picks[0]);
        CommitAll(env, cfg, one.state, picks[1..]);
        var rest := CommittedAll(env, cfg, one.state, picks[1..]);
        if rest.state.evictions == s.evictions {
          ExtendsOn(s.items, one.state.items, rest.state.items);
          AllLiveStep(one.state.items, rest.state.items, NextId(s), rest.restored, picks);
        }
      }
    }
  }

  lemma CommittedQuietly(env: Env, cfg: Config, s: State, pick: Pick)
    ensures var one := Committed(env, cfg, s, pick); !one.failed ==> !one.state.raised
  {
    hide Added;
  }

  lemma EmptyBatch(items: seq<Item>)
    ensures Extends(items, items) && AllLive(items, [], []) && PickTokens([]) == 0
  {
  }

  // The outcome of a recall whose batch stays: every pick is live, the budget holds, no pinned item is gone.
  ghost predicate BatchIn(cfg: Config, s: State, batch: seq<Pick>, all: Outcome) {
    && !all.failed && AllLive(all.state.items, all.restored, batch)
    && Used(all.state.items) <= cfg.maxTokens && PinnedKept(s.items, all.state.items)
  }

  /** With at most GUARD unpinned items and once room was made: committing the batch evicts nobody exactly if it fits
      beside the pinned items. Then every chosen item is live on return, the budget holds and no pinned item is gone. */
  lemma {:induction false} BatchStays(env: Env, cfg: Config, s: State, batch: seq<Pick>)
    requires Chosen(env, s, batch) && batch != [] && |UnpinnedOf(s.items)| <= GUARD
             && !RoomFor(env, cfg, s, batch).raised
    ensures var room := RoomFor(env, cfg, s, batch);
            var all := CommittedAll(env, cfg, room, batch);
            && (all.state.evictions == room.evictions <==> PinnedTokens(s.items) + PickTokens(batch) <= cfg.maxTokens)
            && (all.state.evictions == room.evictions ==> BatchIn(cfg, s, batch, all))
  {
    hide Used, PinnedTokens, UnpinnedOf, PinnedKept, PickTokens, AllLive, Extends, Shrunk, Roomed, Staged, NoneStaged,
         CommittedAll;
    var room := RoomFor(env, cfg, s, batch);
    var all := CommittedAll(env, cfg, room, batch);
    StagedIsNotHot(env, s, batch);
    MakingRoomIsShrinking(env, cfg, s, PickTokens(batch), Staged(batch), GUARD);
    ShrinkBound(env, cfg, s, cfg.maxTokens - PickTokens(batch), MAKE_ROOM, GUARD);
    UsedSplits(room.items);
    CommitAll(env, cfg, room, batch);
    if all.state.evictions == room.evictions {
      PinnedKeptExtends(s.items, room.items, all.state.items);
    }
  }

  /** The same for a whole recall, whatever it chose. */
  lemma RecallRestoresBatch(env: Env, cfg: Config, s: State, query: string, topK: nat, hits: seq<Hit>)
    requires |UnpinnedOf(s.items)| <= GUARD && Selected(env, cfg, s, query, topK, hits) != []
    ensures var batch := Trimmed(Selected(env, cfg, s, query, topK, hits), cfg.maxTokens);
            var room, r := RoomFor(env, cfg, s, batch), Recalled(env, cfg, s, query, topK, hits);
            if room.raised then r == Outcome(room, [], true)
            else
            && (r.state.evictions == room.evictions <==> PinnedTokens(s.items) + PickTokens(batch) <= cfg.maxTokens)
            && (r.state.evictions == room.evictions ==> BatchIn(cfg, s, batch, r))
  {
    hide Selected, Trimmed, RoomFor, CommittedAll, BatchIn, PinnedTokens, PickTokens, UnpinnedOf, Chosen;
    SelectedIsChosen(env, cfg, s, query, topK, hits);
    var batch := Trimmed(Selected(env, cfg, s, query, topK, hits), cfg.maxTokens);
    if !RoomFor(env, cfg, s, batch).raised {
      BatchStays(env, cfg, s, batch);
    }
  }

  /** Then what comes back first is what the symbols picked, what shares more symbols with the query before what shares
      fewer: with the text and the lineage of the entry's document, or with its summary. */
  lemma RecalledInOrder(env: Env, cfg: Config, s: State, query: string, topK: nat, hits: seq<Hit>)
    returns (sources: seq<Entry>)
    requires |UnpinnedOf(s.items)| <= GUARD && Selected(env, cfg, s, query, topK, hits) != []
    ensures var batch := Trimmed(Selected(env, cfg, s, query, topK, hits), cfg.maxTokens);
            var room, r := RoomFor(env, cfg, s, batch), Recalled(env, cfg, s, query, topK, hits);
            && PickedInOrder(env, cfg, s, query, Selected(env, cfg, s, query, topK, hits), sources)
            && (!room.raised && r.state.evictions == room.evictions ==>
                  forall i | 0 <= i < |r.restored| && i < |sources| ::
                    CameBack(cfg, s, r.state.items, r.restored[i], sources[i]))
  {
    hide Selected, Trimmed, RoomFor, Recalled, BatchIn, PinnedTokens, PickTokens, UnpinnedOf, Chosen, CameBack,
         FromEntry, FromHit, AllLive;
    sources := SelectedInOrder(env, cfg, s, query, topK, hits);
    RecallRestoresBatch(env, cfg, s, query, topK, hits);
    var picks := Selected(env, cfg, s, query, topK, hits);
    var batch, r := Trimmed(picks, cfg.maxTokens), Recalled(env, cfg, s, query, topK, hits);
    if !RoomFor(env, cfg, s, batch).raised && r.state.evictions == RoomFor(env, cfg, s, batch).evictions {
      forall i | 0 <= i < |r.restored| && i < |sources|
        ensures CameBack(cfg, s, r.state.items, r.restored[i], sources[i])
      {
        LiveInBatch(cfg, s, batch, r, i);
        assert batch[i] == picks[i];
        LiveComesFrom(env, cfg, s, r.state.items, r.restored[i], picks[i], sources[i]);
      }
    }
  }

  // The item has the text and the lineage of the entry's document, or the entry's summary and the lineage of its item.
  predicate ComesFrom(cfg: Config, s: State, item: Item, e: Entry) {
    if IsReadable(cfg, s, e) then
      item.text == Readable(cfg, s, e).text && item.lineage == Some(Readable(cfg, s, e).meta.lineage)
    else
      item.text == "(холодный запасник) " + e.summary && item.lineage == Some(e.itemId)
  }

  predicate CameBack(cfg: Config, s: State, items: seq<Item>, id: Id, e: Entry) {
    exists j | 0 <= j < |items| :: items[j].id == id && ComesFrom(cfg, s, items[j], e)
  }

  lemma LiveInBatch(cfg: Config, s: State, batch: seq<Pick>, r: Outcome, i: nat)
    requires BatchIn(cfg, s, batch, r) && i < |r.restored|
    ensures i < |batch| && Live(r.state.items, r.restored[i], batch[i])
  {
  }

  lemma LiveComesFrom(env: Env, cfg: Config, s: State, items: seq<Item>, id: Id, pick: Pick, e: Entry)
    requires Live(items, id, pick) && FromEntry(env, cfg, s, pick, e)
    ensures CameBack(cfg, s, items, id, e)
  {
    var j :| 0 <= j < |items| && items[j].id == id && items[j].text == pick.text
             && items[j].lineage == Some(pick.family);
    assert ComesFrom(cfg, s, items[j], e);
  }
}
