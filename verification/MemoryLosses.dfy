/** What the conditions of the no-loss theorem shut out: each of them, taken away, loses something. */
module MemoryLosses {
  import opened Options
  import opened MemoryItems
  import opened Manifest
  import opened MemoryState
  import opened MemoryRecall
  import opened MemoryNoLoss
  import opened RecallNoLoss
  import opened MemoryRuns

  /** An eviction keeps everything exactly if there is a store and the item can be named. */
  lemma EvictionNeedsStore(env: Env, cfg: Config, s: State, k: nat, reason: string)
    requires NoLoss(s) && k < |s.items| && (!cfg.hasStore ==> s.cold == map[])
    ensures NoLoss(Evicted(env, cfg, s, k, reason)) <==> cfg.hasStore && HasLabel(env, s.items[k])
  {
    hide HasLabel;
    if !HasLabel(env, s.items[k]) {
      UnnamedIsLost(env, cfg, s, k, reason);
    } else if cfg.hasStore {
      EvictKeeps(env, cfg, s, k, reason);
      KeepsNoLoss(env, s, Evicted(env, cfg, s, k, reason), false);
    } else {
      var t := Evicted(env, cfg, s, k, reason);
      assert !Recoverable(t.manifest[|s.manifest|], t.cold, t.latest);
    }
  }

  /** An item that cannot be named is lost when it is evicted: the summary is asked for after the item has left the hot
      set and before anything is written down, and asking breaks off. */
  lemma UnnamedIsLost(env: Env, cfg: Config, s: State, k: nat, reason: string)
    requires NoLoss(s) && k < |s.items| && !HasLabel(env, s.items[k])
    ensures var t := Evicted(env, cfg, s, k, reason);
            && t.raised && LineageOf(s.items[k]) in t.latest
            && !IsHotLineage(t.items, LineageOf(s.items[k])) && !IsListed(t.manifest, LineageOf(s.items[k]))
  {
    var t, lineage := Evicted(env, cfg, s, k, reason), LineageOf(s.items[k]);
    forall i | 0 <= i < |t.items|
      ensures LineageOf(t.items[i]) != lineage
    {
      assert t.items[i] == s.items[if i < k then i else i + 1];
    }
  }

  /** An empty text without a summary is in when adding it breaks off, and nothing is lost yet; forgetting it breaks off
      too, and then it is lost. */
  lemma NamelessItem(env: Env, cfg: Config, s: State)
    requires Empty(s) && cfg.hasStore && env.blank("")
    ensures var t := Step(env, cfg, s, Add("tool_output", "", "", false));
            var u := Step(env, cfg, t, Forget(Made(s.nextId)));
            && t.raised && NoLoss(t) && |t.items| == 1
            && u.raised && !NoLoss(u) && u.items == [] && u.manifest == []
  {
    hide Sound, Keeps;
    var add := Add("tool_output", "", "", false);
    var s' := s.(raised := false);
    var t, t' := Step(env, cfg, s, add), Step(env, cfg, s, add).(raised := false);
    EmptyIsFine(env, s');
    AddKeeps(env, cfg, s', "tool_output", "", "", false);
    KeepsNoLoss(env, s', t, false);
    assert t.items == [NextItem(env, cfg, s', "tool_output", "", "", false)];
    FlagKeeps(env, t, false);
    KeepsNoLoss(env, t, t', false);
    EvictKeeps(env, cfg, t', 0, "manual");
    KeepsNoLoss(env, t', Evicted(env, cfg, t', 0, "manual"), true);
    assert IndexOf(t'.items, Made(s.nextId)) == Some(0);
  }

  /** Merging can take a name away, without breaking off: a longer duplicate that is blank replaces the text. */
  lemma BlankDuplicateUnnames(env: Env, s: State, k: nat, text: string)
    requires k < |s.items| && s.items[k].summary == "" && |text| > |s.items[k].text| && env.blank(text)
    ensures !HasLabel(env, Merged(env, s, k, text).items[k]) && Merged(env, s, k, text).raised == s.raised
  {
  }

  /** A counter that repeats the id of a listed lineage gives the new item that lineage too. */
  lemma StaleCounterClashes(s: State, item: Item, number: nat, j: nat)
    requires item.id == Made(number) && item.lineage == None
    requires j < |s.manifest| && s.manifest[j].lineage == Made(number)
    ensures !NoLoss(Inserted(s, item, number))
  {
    var t := Inserted(s, item, number);
    assert LineageOf(t.items[|s.items|]) == t.manifest[j].lineage;
  }

  // An entry whose lineage does not come back with it.
  lemma EntryDropped(s: State, items: seq<Item>, j: nat, e: Entry, latest: map<Id, string>)
    requires NoLoss(s) && j < |s.manifest| && s.manifest[j] == e && e.lineage in latest
    requires |items| == |s.items|
    requires forall i | 0 <= i < |items| ::
               LineageOf(items[i]) == LineageOf(s.items[i]) || LineageOf(items[i]) != e.lineage
    ensures !Covered(items, Restored(s.manifest, e.itemId), latest)
  {
    EntryTaken(s.manifest, e.itemId, j);
    assert !IsHotLineage(items, e.lineage);
    assert !IsListed(Restored(s.manifest, e.itemId), e.lineage);
  }

  /** Where the store cannot be read by id, what comes back is a summary under the lineage of the entry's item: unless
      the summary is all there was, something is lost. */
  lemma RecallNeedsText(env: Env, s: State, k: nat, e: Entry)
    requires NoLoss(s) && e in s.manifest && k < |s.items| && s.items[k].lineage == None
    requires s.items[k].text == SummaryPick(env, e).text != s.latest[e.lineage]
    ensures !NoLoss(Relabelled(s, k, SummaryPick(env, e)))
  {
    var p := SummaryPick(env, e);
    var t := Relabelled(s, k, p);
    var j: nat :| j < |s.manifest| && s.manifest[j] == e;
    NewcomerUnlisted(s, k);
    assert t.items[k].text == p.text && LineageOf(t.items[k]) == e.itemId;
    assert Recoverable(s.manifest[j], s.cold, s.latest);
    if e.itemId != e.lineage {
      assert forall i | 0 <= i < |t.items| && i != k :: t.items[i] == s.items[i];
      EntryDropped(s, t.items, j, e, t.latest);
    }
  }

  /** Without a model, a summary comes back as a note of its own, and the lineage of its entry is nowhere any more. */
  lemma {:induction false} OfflineRecallLoses(env: Env, cfg: Config, s: State, e: Entry)
    requires NoLoss(s) && cfg.hasStore && !cfg.hasLlm && e in s.manifest
    ensures var t := Offline(env, cfg, s, [e]).state; !t.raised ==> !NoLoss(t)
  {
    hide Added;
    var j: nat :| j < |s.manifest| && s.manifest[j] == e;
    var text := COLD_PREFIX + e.summary;
    var t := Added(env, cfg, s, "note", text, "", false);
    RaisedStays(env, cfg, s, "note", text, "", false);
    if t.raised {
      return;
    }
    AddKeeps(env, cfg, s, "note", text, "", false);
    KeepsNoLoss(env, s, t, false);
    NoteGrows(env, cfg, s, text);
    assert [e][1..] == [] && Offline(env, cfg, s, [e]).state == t.(manifest := Restored(t.manifest, e.itemId));
    assert t.manifest[j] == e && Recoverable(t.manifest[j], t.cold, t.latest);
    EntryDropped(t, t.items, j, e, t.latest);
  }

  lemma RaisedStays(env: Env, cfg: Config, s: State, kind: string, text: string, summary: string, pin: bool)
    ensures s.raised ==> Added(env, cfg, s, kind, text, summary, pin).raised
  {
    hide HasLabel, Capped, Used;
  }

  lemma NoteGrows(env: Env, cfg: Config, s: State, text: string)
    ensures s.manifest <= Added(env, cfg, s, "note", text, "", false).manifest
  {
    hide Shrunk, Inserted, HasLabel;
    var item := NextItem(env, cfg, s, "note", text, "", false);
    InsertedManifest(s, item, item.id.n);
    ShrinkGrows(env, cfg, Inserted(s, item, item.id.n), cfg.maxTokens, "over_budget", GUARD);
  }

  lemma InsertedManifest(s: State, item: Item, number: nat)
    ensures Inserted(s, item, number).manifest == s.manifest
  {
  }

  /** A longer duplicate can push a memory over its budget, and noting it does nothing about that. */
  lemma MergeIgnoresBudget(env: Env, s: State, k: nat, text: string)
    requires k < |s.items| && |text| > |s.items[k].text|
    ensures Used(Merged(env, s, k, text).items) == Used(s.items) - s.items[k].tokens + env.count(text)
    ensures Merged(env, s, k, text).evictions == s.evictions
  {
    var t := Merged(env, s, k, text);
    UsedOfUpdate(s.items, t.items, k);
  }

  lemma {:induction false} UsedOfUpdate(a: seq<Item>, b: seq<Item>, k: nat)
    requires k < |a| == |b| && forall i | 0 <= i < |a| && i != k :: b[i] == a[i]
    ensures Used(b) == Used(a) - a[k].tokens + b[k].tokens
  {
    var n := |a| - 1;
    if k == n {
      assert a[..n] == b[..n];
    } else {
      UsedOfUpdate(a[..n], b[..n], k);
    }
  }
}
