/** The state of a working memory and what its operations make of it. */
module MemoryState {
  import opened Options
  import opened MemoryItems
  import opened ReferenceIndex

  datatype State = State(
    items: seq<Item>,          // the hot set, in insertion order
    owners: Owners,
    manifest: seq<Entry>,
    cold: map<Id, Doc>,        // the store, by lineage
    step: nat,
    evictions: nat,
    nextId: nat,
    goalText: string,
    goal: Option<Vector>,
    latest: map<Id, string>,   // not kept by the program: the text last given to each lineage
    raised: bool)              // not kept by the program: the operation under way broke off, for want of a name

  /* Eviction */

  // The item is out of the hot set and of the index; nothing else is recorded of it yet.
  function Popped(s: State, k: nat): State
    requires k < |s.items|
  {
    s.(items := Without(s.items, k), owners := Forgotten(s.owners, s.items[k].id), evictions := s.evictions + 1)
  }

  // Naming the item comes after it has left the hot set and before anything is written down.
  function Evicted(env: Env, cfg: Config, s: State, k: nat, reason: string): State
    requires k < |s.items|
  {
    var item := s.items[k];
    if !HasLabel(env, item) then Popped(s, k).(raised := true)
    else Popped(s, k).(
      cold := if cfg.hasStore then s.cold[LineageOf(item) := DocOf(env, item, s.step, reason)] else s.cold,
      manifest := s.manifest + [EntryOf(env, item, s.step)])
  }

  // The unpinned item with the lowest score, the first such.
  function Weakest(env: Env, items: seq<Item>, now: nat, goal: Option<Vector>): (k: Option<nat>)
    ensures k.None? ==> forall i | 0 <= i < |items| :: items[i].pinned
    ensures k.Some? ==> k.value < |items| && !items[k.value].pinned
    ensures k.Some? ==> forall i | 0 <= i < |items| && !items[i].pinned ::
              var a, b := env.score(items[k.value], now, goal), env.score(items[i], now, goal);
              a <= b && (i < k.value ==> a < b)
  {
    if items == [] then None
    else
      var n := |items| - 1;
      var best := Weakest(env, items[..n], now, goal);
      if items[n].pinned then best
      else if best.None? || env.score(items[n], now, goal) < env.score(items[best.value], now, goal) then Some(n)
      else best
  }

  // The weakest items are evicted until the rest is within the limit, or until one cannot be named.
  function Shrunk(env: Env, cfg: Config, s: State, limit: int, reason: string, guard: nat): State
    decreases guard
  {
    if guard == 0 || s.raised || Used(s.items) <= limit then s
    else
      match Weakest(env, s.items, s.step, s.goal)
      case None => s
      case Some(k) => Shrunk(env, cfg, Evicted(env, cfg, s, k, reason), limit, reason, guard - 1)
  }

  /* Pins */

  function PinnedTokens(items: seq<Item>): nat {
    if items == [] then 0
    else PinnedTokens(items[..|items| - 1]) + if items[|items| - 1].pinned then items[|items| - 1].tokens else 0
  }

  // Earlier step, and among items of one step the smaller id.
  predicate Older(env: Env, a: Item, b: Item) {
    a.step < b.step || (a.step == b.step && env.idBefore(a.id, b.id))
  }

  // The oldest pinned item.
  function OldestPinned(env: Env, items: seq<Item>): (k: Option<nat>)
    ensures k.None? ==> forall i | 0 <= i < |items| :: !items[i].pinned
    ensures k.Some? ==> k.value < |items| && items[k.value].pinned
    ensures k.Some? ==> forall i | 0 <= i < |items| && items[i].pinned :: items[k.value].step <= items[i].step
  {
    if items == [] then None
    else
      var n := |items| - 1;
      var best := OldestPinned(env, items[..n]);
      if !items[n].pinned then best
      else if best.None? || Older(env, items[n], items[best.value]) then Some(n)
      else best
  }

  ghost predicate IdsOrdered(env: Env) {
    && (forall a, b, c | env.idBefore(a, b) && env.idBefore(b, c) :: env.idBefore(a, c))
    && (forall a, b | a != b :: env.idBefore(a, b) <==> !env.idBefore(b, a))
    && (forall a :: !env.idBefore(a, a))
  }

  /** Where ids are ordered, as strings are, no pinned item comes before it by step and id. */
  lemma {:induction false} OldestIsLeast(env: Env, items: seq<Item>, i: nat)
    requires IdsOrdered(env) && i < |items| && items[i].pinned
    ensures var k := OldestPinned(env, items);
            && k.Some?
            && var oldest := items[k.value];
               || oldest.step < items[i].step || oldest.id == items[i].id
               || (oldest.step == items[i].step && env.idBefore(oldest.id, items[i].id))
  {
    var n := |items| - 1;
    if i < n {
      OldestIsLeast(env, items[..n], i);
    }
  }

  function Unpinned(items: seq<Item>, k: nat): (r: seq<Item>)
    requires k < |items|
    ensures |r| == |items|
  {
    items[k := items[k].(pinned := false)]
  }

  function Capped(env: Env, items: seq<Item>, cap: int, guard: nat): (r: seq<Item>)
    ensures |r| == |items|
    decreases guard
  {
    if guard == 0 || PinnedTokens(items) <= cap then items
    else
      match OldestPinned(env, items)
      case None => items
      case Some(k) => Capped(env, Unpinned(items, k), cap, guard - 1)
  }

  function PinsCapped(env: Env, cfg: Config, s: State): State {
    match cfg.maxPinned
    case None => s
    case Some(cap) => s.(items := Capped(env, s.items, cap, GUARD))
  }

  /* Writing */

  function NewItem(
      env: Env, cfg: Config, id: Id, kind: string, text: string, step: nat, summary: string, pin: bool): Item
  {
    Item(id, kind, text, step, env.count(text), env.refs(text), env.defs(text), pin, summary, 0, -1, 0, None,
         if cfg.hasLlm then Some(env.embed(text)) else None)
  }

  function NextItem(env: Env, cfg: Config, s: State, kind: string, text: string, summary: string, pin: bool): Item {
    NewItem(env, cfg, Made(FirstFree(s.items, s.nextId)), kind, text, s.step + 1, summary, pin)
  }

  function Inserted(s: State, item: Item, number: nat): State {
    s.(items := Bump(s.items, s.owners, item.refs, item.step) + [item],
       owners := Register(s.owners, item.id, item.defs),
       step := item.step,
       nextId := number + 1,
       latest := s.latest[item.id := item.text])
  }

  // Adding names the new item, once it is in and before pins and budget are looked at.
  function Added(env: Env, cfg: Config, s: State, kind: string, text: string, summary: string, pin: bool): State {
    var item := NextItem(env, cfg, s, kind, text, summary, pin);
    var t := Inserted(s, item, item.id.n);
    if !HasLabel(env, item) then t.(raised := true)
    else Shrunk(env, cfg, if pin then PinsCapped(env, cfg, t) else t, cfg.maxTokens, "over_budget", GUARD)
  }

  function Similarity(env: Env, vector: Vector, item: Item): real {
    if item.kind == "note" && item.vector.Some? then env.cosine(vector, item.vector.value) else 0.0
  }

  // The live note most similar to the vector, the first such; a similarity of 0 or less does not count.
  function MostSimilar(env: Env, items: seq<Item>, vector: Vector): (k: Option<nat>)
    ensures k.None? ==> forall i | 0 <= i < |items| :: Similarity(env, vector, items[i]) <= 0.0
    ensures k.Some? ==> k.value < |items| && Similarity(env, vector, items[k.value]) > 0.0
    ensures k.Some? ==> forall i | 0 <= i < |items| ::
              var a, b := Similarity(env, vector, items[k.value]), Similarity(env, vector, items[i]);
              a >= b && (i < k.value ==> a > b)
  {
    if items == [] then None
    else
      var n := |items| - 1;
      var best := MostSimilar(env, items[..n], vector);
      var bar := if best.None? then 0.0 else Similarity(env, vector, items[best.value]);
      if Similarity(env, vector, items[n]) > bar then Some(n) else best
  }

  function Duplicate(env: Env, cfg: Config, items: seq<Item>, text: string): (k: Option<nat>)
    ensures k.Some? ==> cfg.hasLlm && cfg.dedupThreshold > 0.0
    ensures k.Some? ==> k.value < |items| && items[k.value].kind == "note" && items[k.value].vector.Some?
    ensures k.Some? ==> env.cosine(env.embed(text), items[k.value].vector.value) >= cfg.dedupThreshold
    ensures k.Some? ==> forall i | 0 <= i < |items| && items[i].kind == "note" && items[i].vector.Some? ::
              var a, b := env.cosine(env.embed(text), items[k.value].vector.value),
                          env.cosine(env.embed(text), items[i].vector.value);
              a >= b && (i < k.value ==> a > b)
    ensures cfg.hasLlm && cfg.dedupThreshold > 0.0 && k.None? ==>
              forall i | 0 <= i < |items| && items[i].kind == "note" && items[i].vector.Some? ::
                env.cosine(env.embed(text), items[i].vector.value) < cfg.dedupThreshold
  {
    if !cfg.hasLlm || cfg.dedupThreshold <= 0.0 then None
    else
      match MostSimilar(env, items, env.embed(text))
      case None => None
      case Some(k) => if Similarity(env, env.embed(text), items[k]) >= cfg.dedupThreshold then Some(k) else None
  }

  // A near duplicate: the note is touched and keeps the longer text, the older one on a tie. The budget is not looked
  // at.
  function Merged(env: Env, s: State, k: nat, text: string): (t: State)
    requires k < |s.items|
    ensures |t.items| == |s.items| && forall i | 0 <= i < |s.items| && i != k :: t.items[i] == s.items[i]
    ensures t.items[k].id == s.items[k].id && LineageOf(t.items[k]) == LineageOf(s.items[k])
    ensures |t.items[k].text| >= |text| && |t.items[k].text| >= |s.items[k].text|
    ensures t.items[k].text in {text, s.items[k].text}
            && (|text| == |s.items[k].text| ==> t.items[k].text == s.items[k].text)
  {
    var dup := s.items[k].(lastTouched := s.step + 1);
    var merged := if |text| > |dup.text| then dup.(text := text, tokens := env.count(text)) else dup;
    s.(step := s.step + 1, items := s.items[k := merged], latest := s.latest[LineageOf(merged) := merged.text])
  }

  function Noted(env: Env, cfg: Config, s: State, text: string, pin: bool): State {
    match Duplicate(env, cfg, s.items, text)
    case Some(k) => Merged(env, s, k, text)
    case None => Added(env, cfg, s, "note", text, "", pin)
  }

  function Forgot(env: Env, cfg: Config, s: State, id: Id): State {
    match IndexOf(s.items, id)
    case None => s
    case Some(k) => Evicted(env, cfg, s, k, "manual")
  }

  function WithPin(s: State, id: Id, pinned: bool): State {
    match IndexOf(s.items, id)
    case None => s
    case Some(k) => s.(items := s.items[k := s.items[k].(pinned := pinned)])
  }

  function TouchedAt(s: State, id: Id): State {
    match IndexOf(s.items, id)
    case None => s
    case Some(k) => s.(step := s.step + 1, items := s.items[k := s.items[k].(lastTouched := s.step + 1)])
  }

  function WithGoal(env: Env, cfg: Config, s: State, text: string): State {
    s.(goalText := text, goal := if cfg.hasLlm && text != "" then Some(env.embed(text)) else None)
  }

  // The vectors that are missing.
  function Filled(env: Env, cfg: Config, s: State): State {
    if !cfg.hasLlm then s
    else s.(items := seq(|s.items|, i requires 0 <= i < |s.items| =>
                       if s.items[i].vector.None? then s.items[i].(vector := Some(env.embed(s.items[i].text)))
                         else s.items[i]))
  }

  /* What every operation keeps */

  // Steps of hot items increase in insertion order.
  predicate StepsIncrease(items: seq<Item>, now: nat) {
    && (forall i, j | 0 <= i < j < |items| :: items[i].step < items[j].step)
    && (forall i | 0 <= i < |items| :: items[i].step <= now)
  }

  // The hot set and its index.
  ghost predicate Coherent(s: State) {
    && DistinctIds(s.items)
    && Exact(s.owners, s.items)
    && StepsIncrease(s.items, s.step)
  }

  predicate Labelled(env: Env, items: seq<Item>) {
    forall i | 0 <= i < |items| :: HasLabel(env, items[i])
  }

  // Every hot item can be named, and nothing has broken off.
  predicate Named(env: Env, s: State) {
    Labelled(env, s.items) && !s.raised
  }
}
