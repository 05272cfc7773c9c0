/** Recall: what is chosen from the manifest and the store, and how the chosen batch comes back to the hot set. */
module MemoryRecall {
  import opened Options
  import opened MemoryItems
  import opened Manifest
  import opened MemoryState

  // What a search of the store returned: a document and how similar it is to the query.
  datatype Hit = Hit(doc: Doc, sim: real)

  // A candidate for the hot set. `lineage` is what it is told apart by, `family` what the recalled item will carry.
  datatype Pick = Pick(
    text: string, tok: nat, summary: string, refcount: nat, recallCount: nat, origId: Id, family: Id, lineage: Id)

  // What a step of recall leads to; if it failed, an item could not be named or the id just restored was not found.
  datatype Outcome = Outcome(state: State, restored: seq<Id>, failed: bool)

  const COLD_PREFIX := "(холодный запасник) "
  const MAKE_ROOM := "make_room_for_recall"

  predicate IsHotLineage(items: seq<Item>, lineage: Id) {
    exists i | 0 <= i < |items| :: LineageOf(items[i]) == lineage
  }

  predicate IsPicked(picks: seq<Pick>, lineage: Id) {
    exists i | 0 <= i < |picks| :: picks[i].lineage == lineage
  }

  predicate Known(items: seq<Item>, picks: seq<Pick>, lineage: Id) {
    IsPicked(picks, lineage) || IsHotLineage(items, lineage)
  }

  function DocPick(env: Env, doc: Doc, lineage: Id): Pick {
    Pick(doc.text, env.count(doc.text), doc.meta.summary, doc.meta.refcount, doc.meta.recallCount, doc.meta.origId,
         doc.meta.lineage, lineage)
  }

  // Where the text cannot be had, its summary comes back.
  function SummaryPick(env: Env, entry: Entry): Pick {
    var text := COLD_PREFIX + entry.summary;
    Pick(text, env.count(text), entry.summary, 0, 0, entry.itemId, entry.itemId, entry.lineage)
  }

  function DocFor(cfg: Config, s: State, entry: Entry): Option<Doc> {
    if !cfg.hasStore || !cfg.hasGet then None
    else if entry.lineage in s.cold then Some(s.cold[entry.lineage])
    else if entry.itemId in s.cold then Some(s.cold[entry.itemId])
    else None
  }

  // The symbol channel.
  function SymbolPicks(env: Env, cfg: Config, s: State, entries: seq<Entry>, topK: nat, picks: seq<Pick>): seq<Pick>
    decreases |entries|
  {
    if entries == [] || |picks| >= topK then picks
    else
      var e, rest := entries[0], entries[1..];
      if Known(s.items, picks, e.lineage) then SymbolPicks(env, cfg, s, rest, topK, picks)
      else
        match DocFor(cfg, s, e)
        case None => SymbolPicks(env, cfg, s, rest, topK, picks + [SummaryPick(env, e)])
        case Some(doc) =>
          if env.count(doc.text) > cfg.maxTokens then SymbolPicks(env, cfg, s, rest, topK, picks)
          else SymbolPicks(env, cfg, s, rest, topK, picks + [DocPick(env, doc, e.lineage)])
  }

  // What was evicted a short while ago stays out, unless it is important or very similar to the query.
  predicate Quarantined(cfg: Config, now: nat, hit: Hit) {
    && cfg.cooldown > 0 && now - hit.doc.meta.evictedAt < cfg.cooldown
    && !hit.doc.meta.important
    && !(cfg.bypass.Some? && hit.sim >= cfg.bypass.value)
  }

  predicate Admissible(env: Env, cfg: Config, s: State, picks: seq<Pick>, hit: Hit) {
    && !Quarantined(cfg, s.step, hit)
    && hit.doc.text != ""
    && env.count(hit.doc.text) <= cfg.maxTokens
    && !Known(s.items, picks, hit.doc.meta.lineage)
  }

  // The semantic channel.
  function SemanticPicks(env: Env, cfg: Config, s: State, hits: seq<Hit>, topK: nat, picks: seq<Pick>): seq<Pick>
    decreases |hits|
  {
    if hits == [] || |picks| >= topK then picks
    else if Admissible(env, cfg, s, picks, hits[0]) then
      SemanticPicks(env, cfg, s, hits[1..], topK, picks + [DocPick(env, hits[0].doc, hits[0].doc.meta.lineage)])
    else SemanticPicks(env, cfg, s, hits[1..], topK, picks)
  }

  function Selected(env: Env, cfg: Config, s: State, query: string, topK: nat, hits: seq<Hit>): seq<Pick> {
    var symbols := SymbolPicks(env, cfg, s, BySymbols(s.manifest, env.refs(query)), topK, []);
    if cfg.hasLlm && cfg.hasStore then SemanticPicks(env, cfg, s, hits, topK, symbols) else symbols
  }

  function PickTokens(picks: seq<Pick>): nat {
    if picks == [] then 0 else PickTokens(picks[..|picks| - 1]) + picks[|picks| - 1].tok
  }

  // A batch cannot be larger than the budget: the last picks are given up first, one stays.
  function Trimmed(picks: seq<Pick>, limit: int): (r: seq<Pick>)
    ensures r <= picks && (picks != [] ==> r != [])
  {
    if PickTokens(picks) > limit && |picks| > 1 then Trimmed(picks[..|picks| - 1], limit) else picks
  }

  function Staged(picks: seq<Pick>): (staged: set<Id>)
    ensures forall id :: id in staged <==> exists i :: 0 <= i < |picks| && picks[i].lineage == id
  {
    set i: nat | i < |picks| :: picks[i].lineage
  }

  // The weakest unpinned item of a lineage that is not about to come back.
  function WeakestOutside(env: Env, items: seq<Item>, now: nat, goal: Option<Vector>, staged: set<Id>): (k: Option<nat>)
    ensures k.Some? ==> k.value < |items| && !items[k.value].pinned && LineageOf(items[k.value]) !in staged
  {
    if items == [] then None
    else
      var n := |items| - 1;
      var best := WeakestOutside(env, items[..n], now, goal, staged);
      if items[n].pinned || LineageOf(items[n]) in staged then best
      else if best.None? || env.score(items[n], now, goal) < env.score(items[best.value], now, goal) then Some(n)
      else best
  }

  // Room for the batch is made before any of it comes back, unless it breaks off.
  function Roomed(env: Env, cfg: Config, s: State, need: int, staged: set<Id>, guard: nat): State
    decreases guard
  {
    if guard == 0 || s.raised || need <= 0 then s
    else
      match WeakestOutside(env, s.items, s.step, s.goal, staged)
      case None => s
      case Some(k) =>
        Roomed(env, cfg, Evicted(env, cfg, s, k, MAKE_ROOM), need - s.items[k].tokens, staged, guard - 1)
  }

  // The item takes over the past of what it came from, and the entry of its origin leaves the manifest.
  function Relabelled(s: State, k: nat, pick: Pick): State
    requires k < |s.items|
  {
    var item := s.items[k];
    s.(items := s.items[k := item.(refcount := pick.refcount, recallCount := pick.recallCount + 1,
                                   lastTouched := s.step, lineage := Some(pick.family))],
       manifest := Restored(s.manifest, pick.origId),
       latest := s.latest - {item.id})
  }

  function NextId(s: State): Id {
    Made(FirstFree(s.items, s.nextId))
  }

  // A pick is added like any item; if adding it evicted it at once, the look-up of its id fails.
  function Committed(env: Env, cfg: Config, s: State, pick: Pick): Outcome {
    var id := NextId(s);
    var t := Added(env, cfg, s, "recalled", pick.text, "recall: " + pick.summary, false);
    if t.raised then Outcome(t, [], true)
    else
      match IndexOf(t.items, id)
      case None => Outcome(t, [], true)
      case Some(k) => Outcome(Relabelled(t, k, pick), [id], false)
  }

  function CommittedAll(env: Env, cfg: Config, s: State, picks: seq<Pick>): Outcome
    decreases |picks|
  {
    if picks == [] then Outcome(s, [], false)
    else
      var one := Committed(env, cfg, s, picks[0]);
      if one.failed then one
      else
        var rest := CommittedAll(env, cfg, one.state, picks[1..]);
        Outcome(rest.state, one.restored + rest.restored, rest.failed)
  }

  function RoomFor(env: Env, cfg: Config, s: State, batch: seq<Pick>): State {
    Roomed(env, cfg, s, PickTokens(batch) - (cfg.maxTokens - Used(s.items)), Staged(batch), GUARD)
  }

  function NotedId(env: Env, cfg: Config, s: State, text: string): Id {
    match Duplicate(env, cfg, s.items, text)
    case Some(k) => s.items[k].id
    case None => NextId(s)
  }

  // Without a model or a store, summaries come back as notes of their own.
  function Offline(env: Env, cfg: Config, s: State, entries: seq<Entry>): Outcome
    decreases |entries|
  {
    if entries == [] then Outcome(s, [], false)
    else
      var text := COLD_PREFIX + entries[0].summary;
      var t := Noted(env, cfg, s, text, false);
      if t.raised then Outcome(t, [], true)
      else
        var rest := Offline(env, cfg, t.(manifest := Restored(t.manifest, entries[0].itemId)), entries[1..]);
        Outcome(rest.state, [NotedId(env, cfg, s, text)] + rest.restored, rest.failed)
  }

  function FirstEntries(entries: seq<Entry>, n: nat): (first: seq<Entry>)
    ensures first <= entries && |first| <= n && (|first| == n || first == entries)
  {
    if |entries| <= n then entries else entries[..n]
  }

  function Recalled(env: Env, cfg: Config, s: State, query: string, topK: nat, hits: seq<Hit>): Outcome {
    var picks := Selected(env, cfg, s, query, topK, hits);
    if (!cfg.hasLlm || !cfg.hasStore) && picks == [] then
      Offline(env, cfg, s, FirstEntries(Searched(env, s.manifest, query), topK))
    else if picks == [] then Outcome(s, [], false)
    else
      var batch := Trimmed(picks, cfg.maxTokens);
      var room := RoomFor(env, cfg, s, batch);
      if room.raised then Outcome(room, [], true) else CommittedAll(env, cfg, room, batch)
  }

  /* What is chosen */

  // Picks are told apart by lineages none of which is hot, and are counted.
  ghost predicate Chosen(env: Env, s: State, picks: seq<Pick>) {
    && (forall i | 0 <= i < |picks| ::
          !IsHotLineage(s.items, picks[i].lineage) && picks[i].tok == env.count(picks[i].text))
    && (forall i, j | 0 <= i < j < |picks| :: picks[i].lineage != picks[j].lineage)
  }

  lemma ChosenMore(env: Env, s: State, picks: seq<Pick>, p: Pick)
    requires Chosen(env, s, picks) && !Known(s.items, picks, p.lineage) && p.tok == env.count(p.text)
    ensures Chosen(env, s, picks + [p])
  {
  }

  lemma {:induction false} SymbolsChosen(
      env: Env, cfg: Config, s: State, entries: seq<Entry>, topK: nat, picks: seq<Pick>)
    requires Chosen(env, s, picks)
    ensures Chosen(env, s, SymbolPicks(env, cfg, s, entries, topK, picks))
    decreases |entries|
  {
    hide Chosen;
    if entries != [] && |picks| < topK {
      var e, rest := entries[0], entries[1..];
      if Known(s.items, picks, e.lineage) {
        SymbolsChosen(env, cfg, s, rest, topK, picks);
      } else {
        match DocFor(cfg, s, e) {
          case None =>
            ChosenMore(env, s, picks, SummaryPick(env, e));
            SymbolsChosen(env, cfg, s, rest, topK, picks + [SummaryPick(env, e)]);
          case Some(doc) =>
            ChosenMore(env, s, picks, DocPick(env, doc, e.lineage));
            SymbolsChosen(env, cfg, s, rest, topK, picks + [DocPick(env, doc, e.lineage)]);
            SymbolsChosen(env, cfg, s, rest, topK, picks);
        }
      }
    }
  }

  lemma {:induction false} HitsChosen(env: Env, cfg: Config, s: State, hits: seq<Hit>, topK: nat, picks: seq<Pick>)
    requires Chosen(env, s, picks)
    ensures Chosen(env, s, SemanticPicks(env, cfg, s, hits, topK, picks))
    decreases |hits|
  {
    hide Chosen;
    if hits != [] && |picks| < topK {
      if Admissible(env, cfg, s, picks, hits[0]) {
        var p := DocPick(env, hits[0].doc, hits[0].doc.meta.lineage);
        ChosenMore(env, s, picks, p);
        HitsChosen(env, cfg, s, hits[1..], topK, picks + [p]);
      } else {
        HitsChosen(env, cfg, s, hits[1..], topK, picks);
      }
    }
  }

  lemma SelectedIsChosen(env: Env, cfg: Config, s: State, query: string, topK: nat, hits: seq<Hit>)
    ensures Chosen(env, s, Selected(env, cfg, s, query, topK, hits))
    ensures Chosen(env, s, Trimmed(Selected(env, cfg, s, query, topK, hits), cfg.maxTokens))
  {
    var entries := BySymbols(s.manifest, env.refs(query));
    SymbolsChosen(env, cfg, s, entries, topK, []);
    HitsChosen(env, cfg, s, hits, topK, SymbolPicks(env, cfg, s, entries, topK, []));
    var picks := Selected(env, cfg, s, query, topK, hits);
    var batch := Trimmed(picks, cfg.maxTokens);
    assert forall i | 0 <= i < |batch| :: batch[i] == picks[i];
  }

  // The lineage is picked or hot; an item without a lineage is its own.
  predicate IsThere(items: seq<Item>, picks: seq<Pick>, lineage: Id) {
    || (exists i | 0 <= i < |picks| :: picks[i].lineage == lineage)
    || (exists i | 0 <= i < |items| ::
          items[i].lineage == Some(lineage) || (items[i].lineage == None && items[i].id == lineage))
  }

  lemma KnownIsThere(items: seq<Item>, picks: seq<Pick>, lineage: Id)
    ensures Known(items, picks, lineage) <==> IsThere(items, picks, lineage)
  {
  }

  // The store can be read by id and has a document of the entry's lineage, or of the item it was made of.
  predicate IsReadable(cfg: Config, s: State, e: Entry) {
    cfg.hasStore && cfg.hasGet && (e.lineage in s.cold || e.itemId in s.cold)
  }

  function Readable(cfg: Config, s: State, e: Entry): Doc
    requires IsReadable(cfg, s, e)
  {
    if e.lineage in s.cold then s.cold[e.lineage] else s.cold[e.itemId]
  }

  // The pick is the document, with what is on record of it.
  predicate Carries(p: Pick, doc: Doc) {
    && p.text == doc.text && p.summary == doc.meta.summary
    && p.refcount == doc.meta.refcount && p.recallCount == doc.meta.recallCount
    && p.origId == doc.meta.origId && p.family == doc.meta.lineage
  }

  // The pick comes from the entry: its document if that can be read and fits, its summary if it cannot be read.
  predicate FromEntry(env: Env, cfg: Config, s: State, p: Pick, e: Entry) {
    && p.lineage == e.lineage && p.tok == env.count(p.text)
    && if IsReadable(cfg, s, e) then Carries(p, Readable(cfg, s, e)) && p.tok <= cfg.maxTokens
       else
         && p.text == "(холодный запасник) " + e.summary && p.summary == e.summary
         && p.refcount == p.recallCount == 0 && p.origId == p.family == e.itemId
  }

  ghost predicate FromSome(env: Env, cfg: Config, s: State, p: Pick, entries: seq<Entry>) {
    exists i :: 0 <= i < |entries| && FromEntry(env, cfg, s, p, entries[i])
  }

  // Nothing is left behind but for a reason: enough was found, the document does not fit, or the lineage is there
  // already.
  predicate EntrySettled(env: Env, cfg: Config, s: State, topK: nat, picks: seq<Pick>, e: Entry) {
    || |picks| >= topK
    || (IsReadable(cfg, s, e) && env.count(Readable(cfg, s, e).text) > cfg.maxTokens)
    || IsThere(s.items, picks, e.lineage)
  }

  lemma MorePicksKnown(items: seq<Item>, picks: seq<Pick>, more: seq<Pick>, lineage: Id)
    requires picks <= more && Known(items, picks, lineage)
    ensures Known(items, more, lineage)
  {
  }

  lemma {:induction false} SymbolsGrow(
      env: Env, cfg: Config, s: State, entries: seq<Entry>, topK: nat, picks: seq<Pick>)
    ensures picks <= SymbolPicks(env, cfg, s, entries, topK, picks)
    ensures |picks| <= topK ==> |SymbolPicks(env, cfg, s, entries, topK, picks)| <= topK
    decreases |entries|
  {
    hide Known, DocFor;
    if entries != [] && |picks| < topK {
      var e, rest := entries[0], entries[1..];
      SymbolsGrow(env, cfg, s, rest, topK, picks);
      SymbolsGrow(env, cfg, s, rest, topK, picks + [SummaryPick(env, e)]);
      if DocFor(cfg, s, e).Some? {
        SymbolsGrow(env, cfg, s, rest, topK, picks + [DocPick(env, DocFor(cfg, s, e).value, e.lineage)]);
      }
    }
  }

  // What the head of the entries adds.
  function FirstSymbol(env: Env, cfg: Config, s: State, picks: seq<Pick>, e: Entry): seq<Pick> {
    if Known(s.items, picks, e.lineage) then picks
    else
      match DocFor(cfg, s, e)
      case None => picks + [SummaryPick(env, e)]
      case Some(doc) => if env.count(doc.text) > cfg.maxTokens then picks else picks + [DocPick(env, doc, e.lineage)]
  }

  lemma FirstSymbolSettles(
      env: Env, cfg: Config, s: State, topK: nat, picks: seq<Pick>, more: seq<Pick>, e: Entry)
    requires FirstSymbol(env, cfg, s, picks, e) <= more
    ensures EntrySettled(env, cfg, s, topK, more, e)
  {
    var first := FirstSymbol(env, cfg, s, picks, e);
    KnownIsThere(s.items, more, e.lineage);
    if Known(s.items, picks, e.lineage) {
      MorePicksKnown(s.items, picks, more, e.lineage);
    } else if |first| > |picks| {
      assert more[|picks|] == first[|picks|] && more[|picks|].lineage == e.lineage;
    }
  }

  /** The symbol channel goes through the ranked entries and leaves none behind without a reason; what it adds comes
      from them, and there are no more than asked for. */
  lemma {:induction false} SymbolsExplained(
      env: Env, cfg: Config, s: State, entries: seq<Entry>, topK: nat, picks: seq<Pick>, i: nat)
    requires i < |entries|
    ensures EntrySettled(env, cfg, s, topK, SymbolPicks(env, cfg, s, entries, topK, picks), entries[i])
    decreases |entries|
  {
    hide Known, DocFor;
    if |picks| < topK {
      var first := FirstSymbol(env, cfg, s, picks, entries[0]);
      assert SymbolPicks(env, cfg, s, entries, topK, picks) == SymbolPicks(env, cfg, s, entries[1..], topK, first);
      if i == 0 {
        SymbolsGrow(env, cfg, s, entries[1..], topK, first);
        FirstSymbolSettles(env, cfg, s, topK, picks, SymbolPicks(env, cfg, s, entries[1..], topK, first), entries[0]);
      } else {
        SymbolsExplained(env, cfg, s, entries[1..], topK, first, i - 1);
      }
    }
  }

  lemma {:induction false} SymbolsFromEntries(
      env: Env, cfg: Config, s: State, entries: seq<Entry>, topK: nat, picks: seq<Pick>, all: seq<Entry>)
    requires forall i | 0 <= i < |entries| :: entries[i] in all
    requires forall i | 0 <= i < |picks| :: FromSome(env, cfg, s, picks[i], all)
    ensures forall i | 0 <= i < |SymbolPicks(env, cfg, s, entries, topK, picks)| ::
              FromSome(env, cfg, s, SymbolPicks(env, cfg, s, entries, topK, picks)[i], all)
    decreases |entries|
  {
    if entries != [] && |picks| < topK {
      var e := entries[0];
      var first := FirstSymbol(env, cfg, s, picks, e);
      assert SymbolPicks(env, cfg, s, entries, topK, picks) == SymbolPicks(env, cfg, s, entries[1..], topK, first);
      if |first| > |picks| {
        FromThisEntry(env, cfg, s, picks, e, all);
      }
      SymbolsFromEntries(env, cfg, s, entries[1..], topK, first, all);
    }
  }

  lemma FromThisEntry(env: Env, cfg: Config, s: State, picks: seq<Pick>, e: Entry, all: seq<Entry>)
    requires e in all && |FirstSymbol(env, cfg, s, picks, e)| > |picks|
    ensures FromSome(env, cfg, s, FirstSymbol(env, cfg, s, picks, e)[|picks|], all)
  {
    var j :| 0 <= j < |all| && all[j] == e;
    assert FromEntry(env, cfg, s, FirstSymbol(env, cfg, s, picks, e)[|picks|], all[j]);
  }

  // Evicted long enough ago, or important, or similar enough to the query to be let through.
  predicate OutOfQuarantine(cfg: Config, now: nat, hit: Hit) {
    || cfg.cooldown <= 0 || now >= hit.doc.meta.evictedAt + cfg.cooldown
    || hit.doc.meta.important
    || (cfg.bypass.Some? && hit.sim >= cfg.bypass.value)
  }

  lemma RankedWithout(wanted: set<string>, a: seq<Entry>, e: Entry, b: seq<Entry>)
    requires Ranked(wanted, a + [e] + b)
    ensures Ranked(wanted, a + b)
  {
    var all := a + [e] + b;
    assert forall k | 0 <= k < |a + b| :: (a + b)[k] == all[if k < |a| then k else k + 1];
  }

  /** The symbols pick ranked entries in their order, so that no pick stands before one whose entry shares more of the
      wanted symbols. */
  lemma {:induction false} SymbolsInOrder(
      env: Env, cfg: Config, s: State, entries: seq<Entry>, topK: nat, picks: seq<Pick>, wanted: set<string>,
      sources0: seq<Entry>)
    returns (sources: seq<Entry>)
    requires |sources0| == |picks| && Ranked(wanted, sources0 + entries)
    requires forall i | 0 <= i < |picks| :: FromEntry(env, cfg, s, picks[i], sources0[i])
    ensures var symbols := SymbolPicks(env, cfg, s, entries, topK, picks);
            && |sources| == |symbols| && Ranked(wanted, sources)
            && forall i | 0 <= i < |symbols| ::
                 FromEntry(env, cfg, s, symbols[i], sources[i]) && sources[i] in sources0 + entries
    decreases |entries|
  {
    hide Ranked, FromEntry, FirstSymbol;
    if entries == [] || |picks| >= topK {
      sources := sources0;
      RankedPrefix(wanted, sources0, entries);
    } else {
      var e, rest := entries[0], entries[1..];
      var first := FirstSymbol(env, cfg, s, picks, e);
      NextSymbol(env, cfg, s, entries, topK, picks);
      assert entries == [e] + rest && sources0 + entries == sources0 + [e] + rest;
      if |first| > |picks| {
        sources := SymbolsInOrder(env, cfg, s, rest, topK, first, wanted, sources0 + [e]);
      } else {
        RankedWithout(wanted, sources0, e, rest);
        sources := SymbolsInOrder(env, cfg, s, rest, topK, first, wanted, sources0);
      }
    }
  }

  lemma RankedPrefix(wanted: set<string>, a: seq<Entry>, b: seq<Entry>)
    requires Ranked(wanted, a + b)
    ensures Ranked(wanted, a)
  {
    assert forall k | 0 <= k < |a| :: (a + b)[k] == a[k];
  }

  lemma {:induction false} NextSymbol(env: Env, cfg: Config, s: State, entries: seq<Entry>, topK: nat, picks: seq<Pick>)
    requires entries != [] && |picks| < topK
    ensures var first := FirstSymbol(env, cfg, s, picks, entries[0]);
            && SymbolPicks(env, cfg, s, entries, topK, picks) == SymbolPicks(env, cfg, s, entries[1..], topK, first)
            && (first == picks
                || (|first| == |picks| + 1 && first[..|picks|] == picks
                    && FromEntry(env, cfg, s, first[|picks|], entries[0])))
  {
  }

  // A hit that was not taken was not needed or not admissible.
  predicate HitSettled(env: Env, cfg: Config, s: State, topK: nat, picks: seq<Pick>, hit: Hit) {
    || |picks| >= topK
    || !OutOfQuarantine(cfg, s.step, hit) || hit.doc.text == "" || env.count(hit.doc.text) > cfg.maxTokens
    || IsThere(s.items, picks, hit.doc.meta.lineage)
  }

  ghost predicate FromHit(env: Env, cfg: Config, s: State, p: Pick, hits: seq<Hit>) {
    && p.tok == env.count(p.text) <= cfg.maxTokens && p.text != ""
    && exists i :: 0 <= i < |hits| && Carries(p, hits[i].doc) && p.lineage == hits[i].doc.meta.lineage
                   && OutOfQuarantine(cfg, s.step, hits[i])
  }

  /** The semantic channel keeps what the symbols found, adds only hits that are out of quarantine, not empty and within
      the budget, and leaves none of those behind unless enough was found or the lineage is there already. */
  lemma {:induction false} HitsExplained(env: Env, cfg: Config, s: State, hits: seq<Hit>, topK: nat, picks: seq<Pick>)
    ensures var r := SemanticPicks(env, cfg, s, hits, topK, picks);
            && picks <= r && (|picks| <= topK ==> |r| <= topK)
            && (forall i | 0 <= i < |hits| :: HitSettled(env, cfg, s, topK, r, hits[i]))
            && (forall i | |picks| <= i < |r| :: FromHit(env, cfg, s, r[i], hits))
    decreases |hits|
  {
    hide Quarantined;
    if hits != [] && |picks| < topK {
      var first := if Admissible(env, cfg, s, picks, hits[0])
                   then picks + [DocPick(env, hits[0].doc, hits[0].doc.meta.lineage)] else picks;
      var r := SemanticPicks(env, cfg, s, hits[1..], topK, first);
      assert SemanticPicks(env, cfg, s, hits, topK, picks) == r;
      HitsExplained(env, cfg, s, hits[1..], topK, first);
      FirstHitSettled(env, cfg, s, topK, picks, first, r, hits[0]);
      forall i | 0 <= i < |hits|
        ensures HitSettled(env, cfg, s, topK, r, hits[i])
      {
        assert i > 0 ==> hits[i] == hits[1..][i - 1];
      }
      forall i | |picks| <= i < |r|
        ensures FromHit(env, cfg, s, r[i], hits)
      {
        if i == |picks| && |first| > |picks| {
          FirstHitTaken(env, cfg, s, picks, hits);
        } else {
          LaterHit(env, cfg, s, r[i], hits);
        }
      }
    }
  }

  lemma FirstHitTaken(env: Env, cfg: Config, s: State, picks: seq<Pick>, hits: seq<Hit>)
    requires hits != [] && Admissible(env, cfg, s, picks, hits[0])
    ensures FromHit(env, cfg, s, DocPick(env, hits[0].doc, hits[0].doc.meta.lineage), hits)
  {
  }

  lemma LaterHit(env: Env, cfg: Config, s: State, p: Pick, hits: seq<Hit>)
    requires hits != [] && FromHit(env, cfg, s, p, hits[1..])
    ensures FromHit(env, cfg, s, p, hits)
  {
    var i :| 0 <= i < |hits| - 1 && Carries(p, hits[1..][i].doc) && p.lineage == hits[1..][i].doc.meta.lineage
             && OutOfQuarantine(cfg, s.step, hits[1..][i]);
    assert hits[i + 1] == hits[1..][i];
  }

  lemma FirstHitSettled(
      env: Env, cfg: Config, s: State, topK: nat, picks: seq<Pick>, first: seq<Pick>, r: seq<Pick>, hit: Hit)
    requires picks <= first <= r
    requires first == if Admissible(env, cfg, s, picks, hit) then picks + [DocPick(env, hit.doc, hit.doc.meta.lineage)]
             else picks
    ensures HitSettled(env, cfg, s, topK, r, hit)
  {
    KnownIsThere(s.items, r, hit.doc.meta.lineage);
    if Known(s.items, picks, hit.doc.meta.lineage) {
      MorePicksKnown(s.items, picks, r, hit.doc.meta.lineage);
    } else if |first| > |picks| {
      assert r[|picks|] == first[|picks|];
    }
  }

  lemma MoreEntriesSettled(
      env: Env, cfg: Config, s: State, topK: nat, picks: seq<Pick>, more: seq<Pick>, e: Entry)
    requires EntrySettled(env, cfg, s, topK, picks, e) && picks <= more
    ensures EntrySettled(env, cfg, s, topK, more, e)
  {
    KnownIsThere(s.items, picks, e.lineage);
    KnownIsThere(s.items, more, e.lineage);
    if Known(s.items, picks, e.lineage) {
      MorePicksKnown(s.items, picks, more, e.lineage);
    }
  }

  /** What recall selects, as a whole: no more than asked for; no listed entry with a symbol of the query, and no hit,
      is left behind without a reason. */
  lemma SelectionExplained(env: Env, cfg: Config, s: State, query: string, topK: nat, hits: seq<Hit>)
    ensures var picks := Selected(env, cfg, s, query, topK, hits);
            && |picks| <= topK
            && (forall e | e in s.manifest && env.refs(query) * e.symbols != {} ::
                EntrySettled(env, cfg, s, topK, picks, e))
            && (cfg.hasLlm && cfg.hasStore ==> forall i | 0 <= i < |hits| ::
                HitSettled(env, cfg, s, topK, picks, hits[i]))
  {
    hide EntrySettled, HitSettled, BySymbols, SymbolPicks, SemanticPicks, FromHit;
    var entries := BySymbols(s.manifest, env.refs(query));
    var symbols := SymbolPicks(env, cfg, s, entries, topK, []);
    var picks := Selected(env, cfg, s, query, topK, hits);
    BySymbolsIsRanked(s.manifest, env.refs(query));
    SymbolsGrow(env, cfg, s, entries, topK, []);
    HitsExplained(env, cfg, s, hits, topK, symbols);
    assert symbols <= picks;
    forall e | e in s.manifest && env.refs(query) * e.symbols != {}
      ensures EntrySettled(env, cfg, s, topK, picks, e)
    {
      assert e in entries;
      var i :| 0 <= i < |entries| && entries[i] == e;
      SymbolsExplained(env, cfg, s, entries, topK, [], i);
      MoreEntriesSettled(env, cfg, s, topK, symbols, picks, e);
    }
  }

  // The picks come from listed entries with a symbol of the query, and those stand in order of how many they share.
  ghost predicate PickedInOrder(
      env: Env, cfg: Config, s: State, query: string, picks: seq<Pick>, sources: seq<Entry>)
  {
    && |sources| <= |picks| && Ranked(env.refs(query), sources)
    && forall i | 0 <= i < |sources| ::
         && sources[i] in s.manifest && env.refs(query) * sources[i].symbols != {}
         && FromEntry(env, cfg, s, picks[i], sources[i])
  }

  /** What the symbols pick comes first, and of an entry that shares more symbols with the query before one of an entry
      that shares fewer; each comes from a listed entry with a symbol of the query, and what follows comes from hits. */
  lemma SelectedInOrder(env: Env, cfg: Config, s: State, query: string, topK: nat, hits: seq<Hit>)
    returns (sources: seq<Entry>)
    ensures var picks := Selected(env, cfg, s, query, topK, hits);
            && |sources| == |SymbolPicks(env, cfg, s, BySymbols(s.manifest, env.refs(query)), topK, [])|
            && PickedInOrder(env, cfg, s, query, picks, sources)
            && (forall i | |sources| <= i < |picks| :: FromHit(env, cfg, s, picks[i], hits))
  {
    hide Ranked, FromEntry, FromHit, SymbolPicks, SemanticPicks, BySymbols;
    var entries := BySymbols(s.manifest, env.refs(query));
    sources := SymbolSources(env, cfg, s, query, topK);
    HitsExplained(env, cfg, s, hits, topK, SymbolPicks(env, cfg, s, entries, topK, []));
  }

  lemma SymbolSources(env: Env, cfg: Config, s: State, query: string, topK: nat) returns (sources: seq<Entry>)
    ensures var picks := SymbolPicks(env, cfg, s, BySymbols(s.manifest, env.refs(query)), topK, []);
            |sources| == |picks| && PickedInOrder(env, cfg, s, query, picks, sources)
  {
    hide Ranked, FromEntry, SymbolPicks, BySymbols;
    var entries := BySymbols(s.manifest, env.refs(query));
    BySymbolsIsRanked(s.manifest, env.refs(query));
    assert [] + entries == entries;
    sources := SymbolsInOrder(env, cfg, s, entries, topK, [], env.refs(query), []);
  }

  /** The batch is the longest part of the choice, from its start, that fits the budget, or its first pick alone. */
  lemma {:induction false} TrimmedIsLongest(picks: seq<Pick>, limit: int)
    ensures var r := Trimmed(picks, limit);
            && (PickTokens(r) <= limit || |r| <= 1)
            && (forall n | |r| < n <= |picks| :: PickTokens(picks[..n]) > limit)
  {
    assert picks[..|picks|] == picks;
    if PickTokens(picks) > limit && |picks| > 1 {
      var rest := picks[..|picks| - 1];
      TrimmedIsLongest(rest, limit);
      forall n | |Trimmed(picks, limit)| < n <= |picks|
        ensures PickTokens(picks[..n]) > limit
      {
        assert n < |picks| ==> picks[..n] == rest[..n];
      }
    }
  }

  /** Recall undoes eviction: what was evicted can be read back from its entry, and an item that takes over from it has
      its text, its lineage and its references, and one recall more. */
  lemma RecallUndoesEviction(env: Env, cfg: Config, s: State, k: nat, reason: string, u: State, j: nat)
    requires k < |s.items| && HasLabel(env, s.items[k]) && cfg.hasStore && cfg.hasGet
    requires j < |u.items| && u.items[j].text == s.items[k].text
    ensures var t := Evicted(env, cfg, s, k, reason);
            var entry := t.manifest[|s.manifest|];
            && DocFor(cfg, t, entry).Some?
            && var pick := DocPick(env, DocFor(cfg, t, entry).value, entry.lineage);
            var item, back := s.items[k], Relabelled(u, j, pick).items[j];
            && back.text == item.text && LineageOf(back) == LineageOf(item)
            && back.refcount == item.refcount && back.recallCount == item.recallCount + 1
  {
  }

  /* Making room */

  ghost predicate NoneStaged(items: seq<Item>, staged: set<Id>) {
    forall i | 0 <= i < |items| :: LineageOf(items[i]) !in staged
  }

  lemma {:induction false} NobodyStaged(env: Env, items: seq<Item>, now: nat, goal: Option<Vector>, staged: set<Id>)
    requires NoneStaged(items, staged)
    ensures WeakestOutside(env, items, now, goal, staged) == Weakest(env, items, now, goal)
  {
    if items != [] {
      NobodyStaged(env, items[..|items| - 1], now, goal, staged);
    }
  }

  lemma OneLess(env: Env, cfg: Config, s: State, k: nat, staged: set<Id>)
    requires k < |s.items| && NoneStaged(s.items, staged)
    ensures var t := Evicted(env, cfg, s, k, MAKE_ROOM);
            Used(t.items) == Used(s.items) - s.items[k].tokens && NoneStaged(t.items, staged)
  {
    UsedWithout(s.items, k);
  }

  /** No chosen lineage is hot, so the filter on lineages excludes nobody: making room for a batch is enforcing a budget
      that is smaller by the batch. */
  lemma {:induction false} MakingRoomIsShrinking(
      env: Env, cfg: Config, s: State, batch: int, staged: set<Id>, guard: nat)
    requires NoneStaged(s.items, staged)
    ensures Roomed(env, cfg, s, batch - (cfg.maxTokens - Used(s.items)), staged, guard) ==
            Shrunk(env, cfg, s, cfg.maxTokens - batch, MAKE_ROOM, guard)
    decreases guard
  {
    hide Without, Used, Evicted, NoneStaged;
    NobodyStaged(env, s.items, s.step, s.goal, staged);
    if guard > 0 && !s.raised && Used(s.items) > cfg.maxTokens - batch {
      match Weakest(env, s.items, s.step, s.goal) {
        case None =>
        case Some(k) =>
          OneLess(env, cfg, s, k, staged);
          MakingRoomIsShrinking(env, cfg, Evicted(env, cfg, s, k, MAKE_ROOM), batch, staged, guard - 1);
      }
    }
  }

  lemma StagedIsNotHot(env: Env, s: State, picks: seq<Pick>)
    requires Chosen(env, s, picks)
    ensures NoneStaged(s.items, Staged(picks))
  {
  }
}
