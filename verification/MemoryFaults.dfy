/** When an operation breaks off for want of a name, said of the state before it. */
module MemoryFaults {
  import opened MemoryItems
  import opened MemoryState
  import opened MemoryEviction
  import opened MemorySweep
  import opened MemoryRecall
  import opened MemoryCoherence
  import opened RecallBatch

  /** Enforcing a limit breaks off exactly if somebody who is to go cannot be named. */
  lemma {:induction false} ShrinkBreaksOff(env: Env, cfg: Config, s: State, limit: int, reason: string, guard: nat)
    requires DistinctIds(s.items) && !s.raised
    ensures Shrunk(env, cfg, s, limit, reason, guard).raised <==> !Labelled(env, Doomed(env, s, limit, guard))
  {
    hide Shrunk, Doomed, DistinctIds;
    ShrinkSweeps(env, cfg, s, limit, reason, guard);
    GoneAndListed(env, Doomed(env, s, limit, guard));
  }

  // The state in which an added item meets the budget.
  function AtBudget(env: Env, cfg: Config, s: State, kind: string, text: string, summary: string, pin: bool): State {
    var item := NextItem(env, cfg, s, kind, text, summary, pin);
    var t := Inserted(s, item, item.id.n);
    if pin then PinsCapped(env, cfg, t) else t
  }

  lemma AtBudgetIsCoherent(env: Env, cfg: Config, s: State, kind: string, text: string, summary: string, pin: bool)
    requires Coherent(s)
    ensures var t := AtBudget(env, cfg, s, kind, text, summary, pin); Coherent(t) && t.raised == s.raised
  {
    hide Coherent, Capped, SameCore;
    var item := NextItem(env, cfg, s, kind, text, summary, pin);
    var t := Inserted(s, item, item.id.n);
    InsertCoherent(s, item, item.id.n);
    if cfg.maxPinned.Some? {
      CappedSameCore(env, t.items, cfg.maxPinned.value, GUARD);
      SameCoreCoherent(t, PinsCapped(env, cfg, t));
    }
  }

  lemma CoherentIsDistinct(s: State)
    requires Coherent(s)
    ensures DistinctIds(s.items)
  {
  }

  /** Adding breaks off exactly if the new item cannot be named, or somebody who is to go for it cannot. */
  lemma AddBreaksOff(env: Env, cfg: Config, s: State, kind: string, text: string, summary: string, pin: bool)
    requires Coherent(s) && !s.raised
    ensures Added(env, cfg, s, kind, text, summary, pin).raised <==>
            || (summary == "" && env.blank(text))
            || !Labelled(env, Doomed(env, AtBudget(env, cfg, s, kind, text, summary, pin), cfg.maxTokens, GUARD))
  {
    hide Coherent, Shrunk, Labelled, Doomed, Capped, Inserted;
    var t := AtBudget(env, cfg, s, kind, text, summary, pin);
    AtBudgetIsCoherent(env, cfg, s, kind, text, summary, pin);
    CoherentIsDistinct(t);
    ShrinkBreaksOff(env, cfg, t, cfg.maxTokens, "over_budget", GUARD);
  }

  /** Forgetting breaks off exactly if the item is there and cannot be named. */
  lemma ForgetBreaksOff(env: Env, cfg: Config, s: State, id: Id)
    requires DistinctIds(s.items) && !s.raised
    ensures Forgot(env, cfg, s, id).raised <==>
            exists k :: 0 <= k < |s.items| && s.items[k].id == id && !HasLabel(env, s.items[k])
  {
    if k :| 0 <= k < |s.items| && s.items[k].id == id && !HasLabel(env, s.items[k]) {
      IndexIsUnique(s.items, k);
    }
  }

  /** Making room for a batch breaks off exactly if somebody who is to go for it cannot be named. */
  lemma {:induction false} RoomBreaksOff(env: Env, cfg: Config, s: State, batch: seq<Pick>)
    requires Chosen(env, s, batch) && DistinctIds(s.items) && !s.raised
    ensures RoomFor(env, cfg, s, batch).raised <==>
            !Labelled(env, Doomed(env, s, cfg.maxTokens - PickTokens(batch), GUARD))
  {
    hide Chosen, NoneStaged, Roomed, Shrunk, Labelled, Doomed, DistinctIds, Staged;
    StagedIsNotHot(env, s, batch);
    MakingRoomIsShrinking(env, cfg, s, PickTokens(batch), Staged(batch), GUARD);
    ShrinkBreaksOff(env, cfg, s, cfg.maxTokens - PickTokens(batch), MAKE_ROOM, GUARD);
  }

  /** Committing a pick breaks off exactly if somebody who is to go for it cannot be named. */
  lemma CommitBreaksOff(env: Env, cfg: Config, s: State, pick: Pick)
    requires Coherent(s) && !s.raised
    ensures var t := AtBudget(env, cfg, s, "recalled", pick.text, "recall: " + pick.summary, false);
            Committed(env, cfg, s, pick).state.raised <==> !Labelled(env, Doomed(env, t, cfg.maxTokens, GUARD))
  {
    hide Added, Labelled, Doomed, AtBudget, Coherent;
    AddBreaksOff(env, cfg, s, "recalled", pick.text, "recall: " + pick.summary, false);
  }

  lemma {:induction false} CommitFailsIfRaised(env: Env, cfg: Config, s: State, picks: seq<Pick>)
    requires !s.raised
    ensures CommittedAll(env, cfg, s, picks).state.raised ==> CommittedAll(env, cfg, s, picks).failed
    decreases |picks|
  {
    hide Committed;
    if picks != [] {
      CommittedQuietly(env, cfg, s, picks[0]);
      var one := Committed(env, cfg, s, picks[0]);
      if !one.failed {
        CommitFailsIfRaised(env, cfg, one.state, picks[1..]);
      }
    }
  }

  /** With at most GUARD unpinned items, a recall whose batch fits beside the pinned ones breaks off exactly if somebody
      who is to make room for it cannot be named. */
  lemma RecallBreaksOff(env: Env, cfg: Config, s: State, query: string, topK: nat, hits: seq<Hit>)
    requires DistinctIds(s.items) && !s.raised && |UnpinnedOf(s.items)| <= GUARD
    requires Selected(env, cfg, s, query, topK, hits) != []
    requires var batch := Trimmed(Selected(env, cfg, s, query, topK, hits), cfg.maxTokens);
             PinnedTokens(s.items) + PickTokens(batch) <= cfg.maxTokens
    ensures var batch := Trimmed(Selected(env, cfg, s, query, topK, hits), cfg.maxTokens);
            Recalled(env, cfg, s, query, topK, hits).state.raised <==>
            !Labelled(env, Doomed(env, s, cfg.maxTokens - PickTokens(batch), GUARD))
  {
    hide Selected, Trimmed, RoomFor, CommittedAll, PinnedTokens, PickTokens, UnpinnedOf, Chosen, Labelled, Doomed;
    hide DistinctIds, AllLive, PinnedKept, Used;
    var batch := Trimmed(Selected(env, cfg, s, query, topK, hits), cfg.maxTokens);
    var room := RoomFor(env, cfg, s, batch);
    SelectedIsChosen(env, cfg, s, query, topK, hits);
    RoomBreaksOff(env, cfg, s, batch);
    RecallRestoresBatch(env, cfg, s, query, topK, hits);
    if !room.raised {
      CommitFailsIfRaised(env, cfg, room, batch);
    }
  }
}
