/** Runs of a working memory: what holds after any sequence of operations. */
module MemoryRuns {
  import opened MemoryItems
  import opened ReferenceIndex
  import opened MemoryState
  import opened MemoryRecall
  import opened MemoryNoLoss
  import opened RecallNoLoss
  import opened MemorySnapshots
  import opened MemoryCoherence
  import opened MemoryNames

  datatype Event =
    | Add(kind: string, text: string, summary: string, pin: bool)
    | Note(text: string, pin: bool)
    | Forget(id: Id)
    | SetPin(id: Id, pinned: bool)
    | Touch(id: Id)
    | SetGoal(text: string)
    | FillVectors
    | Recall(query: string, topK: nat, hits: seq<Hit>)
    | Restart(nextId: nat)   // a snapshot is read back by a process whose counter stands here

  // What an operation makes of the state, if none is under way.
  function Operated(env: Env, cfg: Config, s: State, e: Event): State {
    match e
    case Add(kind, text, summary, pin) => Added(env, cfg, s, kind, text, summary, pin)
    case Note(text, pin) => Noted(env, cfg, s, text, pin)
    case Forget(id) => Forgot(env, cfg, s, id)
    case SetPin(id, pinned) => WithPin(s, id, pinned)
    case Touch(id) => TouchedAt(s, id)
    case SetGoal(text) => WithGoal(env, cfg, s, text)
    case FillVectors => Filled(env, cfg, s)
    case Recall(query, topK, hits) => Recalled(env, cfg, s, query, topK, hits).state
    case Restart(nextId) => Imported(s.(nextId := nextId), Exported(s))
  }

  // The next operation goes on from whatever the last one left, even if that broke off.
  function Step(env: Env, cfg: Config, s: State, e: Event): State {
    Operated(env, cfg, s.(raised := false), e)
  }

  function Run(env: Env, cfg: Config, s: State, events: seq<Event>): State
    decreases |events|
  {
    if events == [] then s else Run(env, cfg, Step(env, cfg, s, events[0]), events[1..])
  }

  // A search returns what is stored, and a restarted process does not repeat ids.
  ghost predicate Allowed(s: State, e: Event) {
    match e
    case Recall(_, _, hits) => FromStore(s, hits)
    case Restart(nextId) => nextId >= s.nextId
    case _ => true
  }

  ghost predicate AllAllowed(env: Env, cfg: Config, s: State, events: seq<Event>)
    decreases |events|
  {
    events == [] || (Allowed(s, events[0]) && AllAllowed(env, cfg, Step(env, cfg, s, events[0]), events[1..]))
  }

  // No operation breaks off for want of a name.
  ghost predicate AllQuiet(env: Env, cfg: Config, s: State, events: seq<Event>)
    decreases |events|
  {
    || events == []
    || (!Step(env, cfg, s, events[0]).raised && AllQuiet(env, cfg, Step(env, cfg, s, events[0]), events[1..]))
  }

  // The text of the event can be named.
  predicate Nameable(env: Env, e: Event) {
    match e
    case Add(_, text, summary, _) => summary != "" || !env.blank(text)
    case Note(text, _) => !env.blank(text)
    case _ => true
  }

  ghost predicate AllNameable(env: Env, events: seq<Event>) {
    forall i | 0 <= i < |events| :: Nameable(env, events[i])
  }

  // A memory with a store that can be read by id, and a model.
  predicate Equipped(cfg: Config) {
    cfg.hasStore && cfg.hasGet && cfg.hasLlm
  }

  ghost predicate Empty(s: State) {
    s.items == [] && s.owners == map[] && s.manifest == [] && s.cold == map[] && s.latest == map[]
  }

  lemma EmptyIsFine(env: Env, s: State)
    requires Empty(s)
    ensures NoLoss(s) && Coherent(s) && Labelled(env, s.items)
  {
  }

  /* What is lost */

  // The operation breaks off, and not for want of a name for its own text.
  predicate Loses(env: Env, cfg: Config, s: State, e: Event) {
    Step(env, cfg, s, e).raised && Nameable(env, e)
  }

  predicate LosesNothing(env: Env, cfg: Config, s: State, events: seq<Event>)
    decreases |events|
  {
    || events == []
    || (!Loses(env, cfg, s, events[0]) && LosesNothing(env, cfg, Step(env, cfg, s, events[0]), events[1..]))
  }

  lemma RestartKeeps(env: Env, s: State, nextId: nat)
    requires Sound(s) && nextId >= s.nextId
    ensures Keeps(env, s, Imported(s.(nextId := nextId), Exported(s)), false)
  {
    hide ManifestOk, Apart, StoreOk, ColdHeld;
    ReadInOrder(s.items);
    SameTextsKeep(env, s, Imported(s.(nextId := nextId), Exported(s)));
  }

  predicate IsPlain(e: Event) {
    e.SetPin? || e.Touch? || e.SetGoal? || e.FillVectors?
  }

  // At most pins, touches and vectors of the items differ.
  ghost predicate Alike(a: seq<Item>, b: seq<Item>) {
    && |a| == |b|
    && forall i | 0 <= i < |a| ::
         b[i] == a[i].(pinned := b[i].pinned, lastTouched := b[i].lastTouched, vector := b[i].vector)
  }

  lemma PlainAlike(env: Env, cfg: Config, s: State, e: Event)
    requires IsPlain(e)
    ensures var t := Operated(env, cfg, s, e);
            && Alike(s.items, t.items) && t.step >= s.step
            && t == s.(items := t.items, step := t.step, goal := t.goal, goalText := t.goalText)
  {
    hide Added, Noted, Forgot, Recalled, Imported, IndexOf, Alike;
    AlikeItself(s.items);
    match e {
      case SetPin(id, pinned) =>
        var at := IndexOf(s.items, id);
        if at.Some? {
          AlikeAt(s.items, at.value, s.items[at.value].(pinned := pinned));
        }
      case Touch(id) =>
        var at := IndexOf(s.items, id);
        if at.Some? {
          AlikeAt(s.items, at.value, s.items[at.value].(lastTouched := s.step + 1));
        }
      case FillVectors =>
        FilledIsAlike(env, cfg, s);
      case _ =>
    }
  }

  lemma AlikeItself(items: seq<Item>)
    ensures Alike(items, items)
  {
  }

  lemma AlikeAt(items: seq<Item>, k: nat, item: Item)
    requires k < |items| && item == items[k].(pinned := item.pinned, lastTouched := item.lastTouched)
    ensures Alike(items, items[k := item])
  {
  }

  lemma FilledIsAlike(env: Env, cfg: Config, s: State)
    ensures Alike(s.items, Filled(env, cfg, s).items)
  {
  }

  lemma PlainKeeps(env: Env, cfg: Config, s: State, e: Event)
    requires Sound(s) && IsPlain(e)
    ensures Keeps(env, s, Operated(env, cfg, s, e), false) && Operated(env, cfg, s, e).raised == s.raised
  {
    hide Sound, Keeps, Operated;
    PlainAlike(env, cfg, s, e);
    SameTextsKeep(env, s, Operated(env, cfg, s, e));
  }

  lemma RestartRaisesNothing(s: State, nextId: nat)
    ensures Imported(s.(nextId := nextId), Exported(s)).raised == s.raised
  {
    hide ReadItems, ReadOwners;
  }

  /** An operation of an equipped memory loses something exactly if it breaks off, and not for want of a name for its
      own text. */
  lemma StepKeeps(env: Env, cfg: Config, s0: State, e: Event)
    requires Sound(s0) && Equipped(cfg) && Allowed(s0, e)
    ensures Keeps(env, s0, Step(env, cfg, s0, e), Loses(env, cfg, s0, e))
  {
    hide Sound, Keeps, Added, Noted, Forgot, Recalled, Imported, WithPin, TouchedAt, WithGoal, Filled;
    var s := s0.(raised := false);
    FlagKeeps(env, s0, false);
    SoundAfter(env, s0, s, false);
    match e {
      case Add(kind, text, summary, pin) => AddKeeps(env, cfg, s, kind, text, summary, pin);
      case Note(text, pin) => NoteKeeps(env, cfg, s, text, pin);
      case Forget(id) => ForgetKeeps(env, cfg, s, id);
      case Recall(query, topK, hits) => RecallKeeps(env, cfg, s, query, topK, hits);
      case Restart(nextId) =>
        RestartKeeps(env, s, nextId);
        RestartRaisesNothing(s, nextId);
      case _ => PlainKeeps(env, cfg, s, e);
    }
    KeepsOn(env, s0, s, Step(env, cfg, s0, e), false, Loses(env, cfg, s0, e));
  }

  /** Over every run of an equipped memory, broken off or not: what is held is held in one place and with its latest
      text, what is lost could not be named, and something is lost exactly if some operation loses something. */
  lemma {:induction false} RunKeeps(env: Env, cfg: Config, s: State, events: seq<Event>)
    requires Sound(s) && Equipped(cfg) && AllAllowed(env, cfg, s, events)
    ensures Keeps(env, s, Run(env, cfg, s, events), !LosesNothing(env, cfg, s, events))
    decreases |events|
  {
    hide Sound, Keeps, Step, Allowed, Loses;
    if events == [] {
      FlagKeeps(env, s, s.raised);
    } else {
      var t := Step(env, cfg, s, events[0]);
      StepKeeps(env, cfg, s, events[0]);
      SoundAfter(env, s, t, Loses(env, cfg, s, events[0]));
      RunKeeps(env, cfg, t, events[1..]);
      KeepsOn(env, s, t, Run(env, cfg, t, events[1..]), Loses(env, cfg, s, events[0]),
              !LosesNothing(env, cfg, t, events[1..]));
    }
  }

  /** Nothing is lost over a run exactly if no operation of it loses something. */
  lemma {:induction false} RunLosesNothing(env: Env, cfg: Config, s: State, events: seq<Event>)
    requires NoLoss(s) && Equipped(cfg) && AllAllowed(env, cfg, s, events)
    ensures NoLoss(Run(env, cfg, s, events)) <==> LosesNothing(env, cfg, s, events)
  {
    hide Sound, Keeps, Run, AllAllowed, LosesNothing, Covered;
    RunKeeps(env, cfg, s, events);
    KeepsNoLoss(env, s, Run(env, cfg, s, events), !LosesNothing(env, cfg, s, events));
  }

  // The latest text of the lineage is in a hot item.
  ghost predicate InHotSet(s: State, lineage: Id) {
    && lineage in s.latest
    && exists i :: 0 <= i < |s.items| && LineageOf(s.items[i]) == lineage && s.items[i].text == s.latest[lineage]
  }

  // It is in the document that an entry of the lineage leads to.
  ghost predicate InStore(s: State, lineage: Id) {
    && lineage in s.latest && lineage in s.cold && s.cold[lineage].text == s.latest[lineage]
    && exists j :: 0 <= j < |s.manifest| && s.manifest[j].lineage == lineage
  }

  // Each lineage whose latest text can be named is in the hot set or in the store, and not in both.
  ghost predicate NamedIsHeld(env: Env, s: State) {
    forall lineage | lineage in s.latest && !env.blank(s.latest[lineage]) :: InHotSet(s, lineage) != InStore(s, lineage)
  }

  lemma SoundHolds(env: Env, s: State)
    requires Sound(s) && forall lineage | lineage in Lost(s) :: env.blank(s.latest[lineage])
    ensures NamedIsHeld(env, s)
  {
    hide StoreOk, ColdHeld, Numbered;
    forall lineage | lineage in s.latest && !env.blank(s.latest[lineage])
      ensures InHotSet(s, lineage) != InStore(s, lineage)
    {
      assert IsHeld(s.items, s.manifest, lineage);
      if i :| 0 <= i < |s.items| && LineageOf(s.items[i]) == lineage {
        assert InHotSet(s, lineage);
      } else {
        var j :| 0 <= j < |s.manifest| && s.manifest[j].lineage == lineage;
        assert Recoverable(s.manifest[j], s.cold, s.latest);
      }
    }
  }

  /* The hot set and its index */

  lemma PlainCoherent(env: Env, cfg: Config, s: State, e: Event)
    requires Coherent(s) && IsPlain(e)
    ensures Coherent(Operated(env, cfg, s, e))
  {
    hide Coherent, Operated;
    PlainAlike(env, cfg, s, e);
    SameCoreCoherent(s, Operated(env, cfg, s, e));
  }

  lemma StepCoherent(env: Env, cfg: Config, s0: State, e: Event)
    requires Coherent(s0)
    ensures Coherent(Step(env, cfg, s0, e))
  {
    hide Coherent, Added, Noted, Forgot, Recalled, Imported, WithPin, TouchedAt, WithGoal, Filled;
    var s := s0.(raised := false);
    NoMatter(s0, s);
    match e {
      case Add(kind, text, summary, pin) => AddCoherent(env, cfg, s, kind, text, summary, pin);
      case Note(text, pin) => NoteCoherent(env, cfg, s, text, pin);
      case Forget(id) => ForgetCoherent(env, cfg, s, id);
      case Recall(query, topK, hits) => RecallCoherent(env, cfg, s, query, topK, hits);
      case Restart(nextId) => RestartCoherent(s, nextId);
      case _ => PlainCoherent(env, cfg, s, e);
    }
  }

  /** After any sequence of operations at all, with operations that broke off among them: the index is exact, ids are
      distinct and steps increase. */
  lemma {:induction false} RunCoherent(env: Env, cfg: Config, s: State, events: seq<Event>)
    requires Coherent(s)
    ensures Coherent(Run(env, cfg, s, events))
    decreases |events|
  {
    hide Coherent, Step;
    if events != [] {
      StepCoherent(env, cfg, s, events[0]);
      RunCoherent(env, cfg, Step(env, cfg, s, events[0]), events[1..]);
    }
  }

  /* Nothing breaks off */

  lemma PlainNamed(env: Env, cfg: Config, s: State, e: Event)
    requires Named(env, s) && IsPlain(e)
    ensures Named(env, Operated(env, cfg, s, e))
  {
    hide Named, Operated;
    PlainAlike(env, cfg, s, e);
    KeepsNamed(env, s, Operated(env, cfg, s, e));
  }

  lemma StepNamed(env: Env, cfg: Config, s0: State, e: Event)
    requires Labelled(env, s0.items) && DistinctIds(s0.items) && MarkerShows(env) && Nameable(env, e)
    ensures Named(env, Step(env, cfg, s0, e))
  {
    hide Labelled, Added, Noted, Forgot, Recalled, Imported, MarkerShows, WithPin, TouchedAt, WithGoal, Filled,
         DistinctIds;
    var s := s0.(raised := false);
    match e {
      case Add(kind, text, summary, pin) => AddNamed(env, cfg, s, kind, text, summary, pin);
      case Note(text, pin) => NoteNamed(env, cfg, s, text, pin);
      case Forget(id) => ForgetNamed(env, cfg, s, id);
      case Recall(query, topK, hits) => RecallNamed(env, cfg, s, query, topK, hits);
      case Restart(nextId) => RestartNamed(env, s, nextId);
      case _ => PlainNamed(env, cfg, s, e);
    }
  }

  /** Where every text written can be named, no operation of any memory ever breaks off for want of a name, and every
      hot item can be named. */
  lemma {:induction false} RunNamed(env: Env, cfg: Config, s: State, events: seq<Event>)
    requires Coherent(s) && Labelled(env, s.items) && MarkerShows(env) && AllNameable(env, events)
    ensures Labelled(env, Run(env, cfg, s, events).items) && AllQuiet(env, cfg, s, events)
    decreases |events|
  {
    hide Step, Nameable, MarkerShows, Exact, StepsIncrease, HasLabel;
    if events != [] {
      StepNamed(env, cfg, s, events[0]);
      StepCoherent(env, cfg, s, events[0]);
      RunNamed(env, cfg, Step(env, cfg, s, events[0]), events[1..]);
    }
  }

  lemma {:induction false} QuietLosesNothing(env: Env, cfg: Config, s: State, events: seq<Event>)
    requires AllQuiet(env, cfg, s, events)
    ensures LosesNothing(env, cfg, s, events)
    decreases |events|
  {
    hide Step;
    if events != [] {
      QuietLosesNothing(env, cfg, Step(env, cfg, s, events[0]), events[1..]);
    }
  }

  /** From an empty memory on, over every run: the hot set and its index are coherent; with a store and a model, every
      lineage whose latest text can be named is in the hot set or in the store with that text, and nothing at all is
      lost exactly if no operation loses something. */
  lemma {:induction false} RunFromEmpty(env: Env, cfg: Config, s: State, events: seq<Event>)
    requires Empty(s) && AllAllowed(env, cfg, s, events)
    ensures Coherent(Run(env, cfg, s, events))
    ensures Equipped(cfg) ==>
              && NamedIsHeld(env, Run(env, cfg, s, events))
              && (NoLoss(Run(env, cfg, s, events)) <==> LosesNothing(env, cfg, s, events))
  {
    hide Coherent, Sound, Covered, AllAllowed, Run, Labelled, LosesNothing;
    EmptyIsFine(env, s);
    RunCoherent(env, cfg, s, events);
    if Equipped(cfg) {
      NothingLost(s);
      RunKeeps(env, cfg, s, events);
      RunLosesNothing(env, cfg, s, events);
      SoundHolds(env, Run(env, cfg, s, events));
    }
  }

  /** Where every text written can be named, that is everything. */
  lemma {:induction false} NamedRunFromEmpty(env: Env, cfg: Config, s: State, events: seq<Event>)
    requires Empty(s) && MarkerShows(env) && AllAllowed(env, cfg, s, events) && AllNameable(env, events)
             && Equipped(cfg)
    ensures AllQuiet(env, cfg, s, events) && NoLoss(Run(env, cfg, s, events))
  {
    hide Coherent, NoLoss, MarkerShows, AllAllowed, AllQuiet, AllNameable, Run, Labelled, LosesNothing;
    EmptyIsFine(env, s);
    RunNamed(env, cfg, s, events);
    QuietLosesNothing(env, cfg, s, events);
    RunLosesNothing(env, cfg, s, events);
  }
}
