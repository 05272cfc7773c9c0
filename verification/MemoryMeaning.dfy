/** What adding and evicting mean, field by field: what a new item is, who counts it, who owns which name, and what is
    written down of an item that goes. */
module MemoryMeaning {
  import opened Options
  import opened MemoryItems
  import opened ReferenceIndex
  import opened Manifest
  import opened MemoryState

  // The names the index holds the id for.
  predicate Owns(s: State, id: Id, name: string) {
    name in s.owners && id in s.owners[name]
  }

  /** The new item stands last, with the names its text mentions and defines. It owns exactly the names it defines. Each
      earlier item counts one reference for each name that is mentioned and that it defines, and owns what it owned. */
  lemma InsertedReads(env: Env, cfg: Config, s: State, kind: string, text: string, summary: string, pin: bool)
    requires Coherent(s)
    ensures var item := NextItem(env, cfg, s, kind, text, summary, pin);
            var t := Inserted(s, item, item.id.n);
            var n := |s.items|;
            && |t.items| == n + 1 && t.step == s.step + 1 && t.latest == s.latest[t.items[n].id := text]
            && (var x := t.items[n];
                && x.kind == kind && x.text == text && x.summary == summary && x.pinned == pin && x.step == s.step + 1
                && x.tokens == env.count(text) && x.refs == env.refs(text) && x.defs == env.defs(text)
                && x.refcount == x.recallCount == 0 && x.lastTouched == -1 && x.lineage == None
                && (x.vector == if cfg.hasLlm then Some(env.embed(text)) else None)
                && (forall i | 0 <= i < n :: s.items[i].id != x.id)
                && (forall name :: Owns(t, x.id, name) <==> name in env.defs(text))
                && (forall name, id | id != x.id :: Owns(t, id, name) <==> Owns(s, id, name)))
            && forall i | 0 <= i < n ::
                 var hits := |env.refs(text) * s.items[i].defs|;
                 && t.items[i].refcount == s.items[i].refcount + hits
                 && t.items[i].lastTouched == (if hits > 0 then s.step + 1 else s.items[i].lastTouched)
                 && t.items[i] == s.items[i].(refcount := t.items[i].refcount, lastTouched := t.items[i].lastTouched)
  {
    hide FirstFree, Bump, Register;
    var item := NextItem(env, cfg, s, kind, text, summary, pin);
    NewcomerOwnsNothing(s, item.id);
    OwnsIsLookup(s);
    OwnsIsLookup(Inserted(s, item, item.id.n));
    forall i | 0 <= i < |s.items| {
      BumpIsNaiveScan(s.items, s.owners, item.refs, item.step, i);
    }
  }

  lemma OwnsIsLookup(s: State)
    ensures forall id, name :: Owns(s, id, name) <==> id in Lookup(s.owners, name)
  {
  }

  lemma NewcomerOwnsNothing(s: State, id: Id)
    requires Exact(s.owners, s.items) && !IsHot(s.items, id)
    ensures forall name :: id !in Lookup(s.owners, name)
  {
  }

  // The item has neither a summary nor a line to be named after.
  predicate IsNameless(env: Env, item: Item) {
    item.summary == "" && env.blank(item.text)
  }

  // What the entry says of the item.
  predicate EntryReads(env: Env, item: Item, now: nat, e: Entry) {
    && e.itemId == item.id && e.kind == item.kind && e.tokens == item.tokens && e.evictedAt == now
    && e.symbols == item.defs
    && e.summary == (if item.summary == "" then env.firstLine(item.text) else item.summary)
    && (item.lineage == Some(e.lineage) || (item.lineage == None && e.lineage == item.id))
    && (e.important <==> item.refcount > 0 || item.pinned || item.kind in {"edit", "note", "recalled"})
  }

  // What the document says of it beside.
  predicate DocReads(item: Item, reason: string, e: Entry, doc: Doc) {
    && doc.text == item.text
    && doc.meta == Meta(e.itemId, e.kind, e.summary, e.evictedAt, reason, item.refcount, item.recallCount, item.step,
                        e.lineage, e.important, item.defs)
  }

  /** The item is gone, with every name it owned; the others are what they were. If it can be named, it is written down
      last in the manifest and, if there is a store, under its lineage; if not, the operation breaks off. */
  lemma EvictedReads(env: Env, cfg: Config, s: State, k: nat, reason: string)
    requires k < |s.items|
    ensures var t, item := Evicted(env, cfg, s, k, reason), s.items[k];
            && t.items == s.items[..k] + s.items[k + 1..] && t.evictions == s.evictions + 1
            && (forall id, name :: Owns(t, id, name) <==> Owns(s, id, name) && id != item.id)
            && (t.raised <==> s.raised || IsNameless(env, item))
            && t.step == s.step && t.nextId == s.nextId && t.latest == s.latest
            && if IsNameless(env, item) then t.manifest == s.manifest && t.cold == s.cold
               else
                 var n := |s.manifest|;
                 && |t.manifest| == n + 1 && t.manifest[..n] == s.manifest
                 && var e := t.manifest[n];
                    && EntryReads(env, item, s.step, e)
                    && (!cfg.hasStore ==> t.cold == s.cold)
                    && (cfg.hasStore ==>
                          && e.lineage in t.cold && DocReads(item, reason, e, t.cold[e.lineage])
                          && t.cold - {e.lineage} == s.cold - {e.lineage})
  {
    hide Forgotten;
    var t, item := Evicted(env, cfg, s, k, reason), s.items[k];
    OwnsIsLookup(s);
    OwnsIsLookup(t);
    assert t.items == s.items[..k] + s.items[k + 1..];
    assert item.defs + (item.refs * item.defs) == item.defs;
  }

  /** By names the item is found exactly if it defines one of them: mentioning a name is not enough. */
  lemma EvictedIsFound(env: Env, cfg: Config, s: State, k: nat, reason: string, wanted: set<string>)
    requires k < |s.items| && !IsNameless(env, s.items[k])
    ensures var t := Evicted(env, cfg, s, k, reason);
            t.manifest[|s.manifest|] in BySymbols(t.manifest, wanted) <==> wanted * s.items[k].defs != {}
  {
    hide Ranked;
    EvictedReads(env, cfg, s, k, reason);
    BySymbolsIsRanked(Evicted(env, cfg, s, k, reason).manifest, wanted);
  }
}
