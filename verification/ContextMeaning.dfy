/** What a context reads like: which texts the prompt is made of, which blocks were taken and how far, and what each
    record says. Nothing here mentions the functions that fill the context. */
module ContextMeaning {
  import opened Options
  import opened ContextPlan
  import opened ContextText
  import opened ContextAllocator
  import opened ContextFilling

  // What the context opens with: the profile that was asked for, the cost of the system prompt alone, and the cost of
  // both.
  datatype Opening = Opening(profile: string, system: nat, both: nat)

  // The profile as it is rendered, or else its text under a header, or nothing.
  ghost predicate ProfileReads(inp: ContextInput, text: string) {
    && (!inp.includeProfile ==> text == "")
    && (inp.includeProfile && inp.renderedProfile.Some? ==> text == inp.renderedProfile.value)
    && (inp.includeProfile && inp.renderedProfile.None? ==>
          if inp.profileText == "" then text == "" else
            var n := |inp.profileHeader|;
            && |text| > n && text[..n] == inp.profileHeader && text[n] == '\n' && text[n + 1..] == inp.profileText)
  }

  ghost predicate Opens(texts: Texts, inp: ContextInput, o: Opening) {
    && ProfileReads(inp, o.profile)
    && (inp.systemPrompt == "" ==> o.system == 0)
    && (inp.systemPrompt != "" ==> o.system == texts.count(inp.systemPrompt))
    && exists text :: PromptReads(text, texts, inp.systemPrompt, o.profile, [], []) && o.both == texts.count(text)
  }

  // The profile is taken if there is one and it fits whole.
  predicate TakesProfile(o: Opening, budget: nat) {
    o.profile != "" && o.both <= budget
  }

  predicate HasRoom(o: Opening, budget: nat) {
    (if TakesProfile(o, budget) then o.both else o.system) < budget
  }

  predicate Asked(inp: ContextInput, layer: Layer) {
    && (layer == Rag ==> inp.includeRag)
    && (layer == Session ==> inp.includeSession && inp.hasChat)
  }

  function FoundFor(retrieved: Retrieved, layer: Layer): seq<string> {
    if layer == Rag then retrieved.rag else retrieved.session
  }

  function TakenOf(b: Built, layer: Layer): seq<string> {
    if layer == Rag then b.rag else b.session
  }

  predicate Precedes(priorities: seq<Priority>, a: Layer, b: Layer) {
    exists i, j ::
      0 <= i < j < |priorities| && priorities[i] == RetrievalSection(a) && priorities[j] == RetrievalSection(b)
  }

  // The first of the blocks found, whole but for the last, of which a cut may be taken instead.
  ghost predicate FirstBlocks(texts: Texts, found: seq<string>, taken: seq<string>) {
    && |taken| <= |found|
    && (forall k | 0 <= k < |taken| - 1 :: taken[k] == found[k])
    && (taken != [] ==>
          var n := |taken| - 1;
          taken[n] == found[n] || exists m :: IsCutOf(taken[n], texts.split(found[n]), m))
  }

  /** The prompt is made of the system prompt, of the profile if it is taken, and of the blocks. Blocks are taken of a
      layer that is named and asked for, and only if there is room; they are the first ones found, and at most one of
      all of them is cut. */
  ghost predicate ContextReads(
      texts: Texts, priorities: seq<Priority>, inp: ContextInput, retrieved: Retrieved, budget: nat, o: Opening,
      b: Built)
  {
    && Opens(texts, inp, o) && (b.profileUsed <==> TakesProfile(o, budget))
    && PromptReads(b.prompt, texts, inp.systemPrompt, if b.profileUsed then o.profile else "", b.rag, b.session)
    && b.used == texts.count(b.prompt)
    && (forall layer | TakenOf(b, layer) != [] ::
          RetrievalSection(layer) in priorities && Asked(inp, layer) && HasRoom(o, budget))
    && (forall layer :: FirstBlocks(texts, FoundFor(retrieved, layer), TakenOf(b, layer)))
    && (b.rag <= retrieved.rag || b.session <= retrieved.session)
  }

  // Why nothing is taken of a block: its layer is not named, or a block of it or of a layer before it was cut, or it
  // does not fit.
  ghost predicate Reasoned(reason: Reason, priorities: seq<Priority>, retrieved: Retrieved, b: Built, layer: Layer) {
    var other := if layer == Rag then Session else Rag;
    var exhausted := || !(TakenOf(b, layer) <= FoundFor(retrieved, layer))
        || (Precedes(priorities, other, layer) && !(TakenOf(b, other) <= FoundFor(retrieved, other)));
    if RetrievalSection(layer) !in priorities then reason == PolicyExcluded
    else reason == if exhausted then BudgetExhausted else OverBudget
  }

  ghost predicate BlockRecordReads(
      texts: Texts, priorities: seq<Priority>, retrieved: Retrieved, b: Built, layer: Layer, i: nat, d: Decision)
  {
    var found, taken := FoundFor(retrieved, layer), TakenOf(b, layer);
    && i < |found| && d.candidateTokens == Some(texts.count(found[i]))
    && if i < |taken| then
         if taken[i] == found[i] then d.verdict == Included && d.reason == Selected
         else d.verdict == Truncated && d.reason == TruncatedToBudget
       else d.verdict == Excluded && d.tokenCost == 0 && Reasoned(d.reason, priorities, retrieved, b, layer)
  }

  /** Each record says what happened to what it is about. */
  ghost predicate RecordReads(
      texts: Texts, priorities: seq<Priority>, inp: ContextInput, retrieved: Retrieved, budget: nat, o: Opening,
      b: Built, d: Decision)
  {
    match d.block
    case SystemBlock =>
      && d.tokenCost == o.system && d.candidateTokens == Some(o.system)
      && if inp.systemPrompt == "" then d.verdict == Excluded && d.reason == NotProvided
         else d.verdict == Included && d.reason == Mandatory
    case ProfileBlock =>
      if o.profile == "" then
        && d.verdict == Excluded && d.reason == (if inp.includeProfile then Empty else NotRequested)
        && d.tokenCost == 0 && d.candidateTokens == None
      else if o.both <= budget then
        && d.verdict == Included && d.reason == Requested
        && d.tokenCost == o.both - o.system && d.candidateTokens == Some(texts.count(o.profile))
      else
        && d.verdict == Excluded && d.reason == OverBudget && d.tokenCost == 0
        && d.candidateTokens == Some(if o.both < o.system then 0 else o.both - o.system)
    case RagLayer => d == Decision(RagLayer, Excluded, if inp.includeRag then NoBudget else NotRequested, 0, None)
    case SessionLayer =>
      d == Decision(SessionLayer, Excluded, if inp.includeSession && inp.hasChat then NoBudget else NotRequested, 0,
                    None)
    case RagBlock(i) => BlockRecordReads(texts, priorities, retrieved, b, Rag, i, d)
    case SessionBlock(i) => BlockRecordReads(texts, priorities, retrieved, b, Session, i, d)
    case _ => false
  }

  /* Where the filling starts */

  lemma ProfileIs(inp: ContextInput)
    ensures ProfileReads(inp, RequestedProfile(inp))
  {
    var header := inp.profileHeader;
    assert (header + "\n" + inp.profileText)[..|header|] == header;
    assert (header + "\n" + inp.profileText)[|header| + 1..] == inp.profileText;
  }

  lemma OpeningIs(texts: Texts, inp: ContextInput, budget: nat) returns (o: Opening)
    ensures Opens(texts, inp, o) && o.system == SystemCost(texts, inp)
    ensures var (profile, start) := ProfileStart(texts, inp, budget);
            && profile == (if TakesProfile(o, budget) then o.profile else "")
            && (start.used < budget <==> HasRoom(o, budget))
            && |start.decisions| == 2
            && start.decisions[0].block == SystemBlock && start.decisions[1].block == ProfileBlock
    ensures forall priorities, retrieved, b, k | 0 <= k < 2 ::
              RecordReads(texts, priorities, inp, retrieved, budget, o, b,
                          ProfileStart(texts, inp, budget).1.decisions[k])
  {
    hide AssemblePrompt, RequestedProfile, PromptReads, ProfileReads;
    var profile := RequestedProfile(inp);
    var text := AssemblePrompt(texts, inp.systemPrompt, profile, [], []);
    ProfileIs(inp);
    AssembledReads(texts, inp.systemPrompt, profile, [], []);
    o := Opening(profile, SystemCost(texts, inp), texts.count(text));
  }

  /* Which layers are filled, and with what */

  lemma {:induction false} NamedAreActive(priorities: seq<Priority>)
    ensures forall layer :: layer in ActiveLayers(priorities) <==> RetrievalSection(layer) in priorities
  {
    if priorities != [] {
      NamedAreActive(priorities[1..]);
      assert priorities == [priorities[0]] + priorities[1..];
    }
  }

  // A section that names no layer in front changes nothing.
  lemma PrecedesBehind(priorities: seq<Priority>, a: Layer, b: Layer)
    requires priorities != [] && !priorities[0].RetrievalSection?
    ensures Precedes(priorities, a, b) <==> Precedes(priorities[1..], a, b)
  {
    var rest := priorities[1..];
    if Precedes(priorities, a, b) {
      var i, j :| 0 <= i < j < |priorities| && priorities[i] == RetrievalSection(a)
                  && priorities[j] == RetrievalSection(b);
      assert rest[i - 1] == RetrievalSection(a) && rest[j - 1] == RetrievalSection(b);
    }
    if i, j :| 0 <= i < j < |rest| && rest[i] == RetrievalSection(a) && rest[j] == RetrievalSection(b) {
      assert priorities[i + 1] == RetrievalSection(a) && priorities[j + 1] == RetrievalSection(b);
    }
  }

  lemma FirstPrecedes(priorities: seq<Priority>, a: Layer, b: Layer)
    requires priorities != [] && priorities[0] == RetrievalSection(a)
    requires RetrievalSection(b) in priorities[1..] && RetrievalSection(a) !in priorities[1..]
    ensures Precedes(priorities, a, b) && !Precedes(priorities, b, a)
  {
    var rest := priorities[1..];
    var j :| 0 <= j < |rest| && rest[j] == RetrievalSection(b);
    assert priorities[j + 1] == RetrievalSection(b);
    assert forall k | 0 < k < |priorities| :: priorities[k] == rest[k - 1];
  }

  lemma {:induction false} ActiveInOrder(priorities: seq<Priority>, a: Layer, b: Layer)
    requires ActiveLayers(priorities) == [a, b] && a != b
    ensures Precedes(priorities, a, b) && !Precedes(priorities, b, a)
  {
    hide Precedes;
    var rest := priorities[1..];
    NamedAreActive(rest);
    if priorities[0].RetrievalSection? {
      assert [a, b][1..] == [b] && ActiveLayers(rest) == [b];
      assert RetrievalSection(b) in rest;
      FirstPrecedes(priorities, a, b);
    } else {
      ActiveInOrder(rest, a, b);
      PrecedesBehind(priorities, a, b);
      PrecedesBehind(priorities, b, a);
    }
  }

  lemma PoolReads(texts: Texts, inp: ContextInput, retrieved: Retrieved, budget: nat, o: Opening, layer: Layer)
    requires ProfileStart(texts, inp, budget).1.used < budget <==> HasRoom(o, budget)
    ensures var cs := PoolFor(texts, inp, retrieved, budget)(layer);
            var found := if Asked(inp, layer) && HasRoom(o, budget) then FoundFor(retrieved, layer) else [];
            |cs| == |found| && forall k | 0 <= k < |cs| :: cs[k] == Candidate(layer, k, found[k])
  {
    hide ProfileStart, HasRoom;
  }

  /* Which blocks are taken */

  lemma TakenAreFirst(
      frame: Frame, texts: Texts, layer: Layer, cs: seq<Candidate>, others: seq<string>, n: nat, cut: bool,
      taken: seq<string>, found: seq<string>)
    requires TakesWhatFits(frame, layer, cs, others, n, cut, taken) && frame.split == texts.split
    requires |cs| <= |found| && forall k | 0 <= k < |cs| :: cs[k].layer == layer && cs[k].text == found[k]
    ensures FirstBlocks(texts, found, taken) && (cut <==> !(taken <= found))
    ensures |taken| <= |cs| && (cut <==> IsCut(taken, cs))
  {
    hide IsCutOf, LongestCut, AllFit;
    CutShows(frame, layer, cs, others, n, cut, taken);
    if n < |cs| {
      var f := Beside(layer, TextsOf(cs[..n]), others);
      var m: nat :| LongestCut(frame, f, cs[n], m) && (cut <==> m > 0) && EndsWithCut(frame, cs, n, m, taken);
    }
  }

  // What was taken of a layer, and whether a block of it is cut.
  ghost predicate LayerReads(
      texts: Texts, pool: Pool, layers: seq<Layer>, g: Fill, layer: Layer, found: seq<string>, cut: bool)
  {
    && (Taken(g, layer) != [] ==> layer in layers && pool(layer) != [])
    && FirstBlocks(texts, found, Taken(g, layer))
    && (cut <==> !(Taken(g, layer) <= found)) && (cut <==> IsCut(Taken(g, layer), pool(layer)))
  }

  ghost predicate Offered(pool: Pool, layer: Layer, found: seq<string>) {
    && |pool(layer)| <= |found|
    && forall k | 0 <= k < |pool(layer)| :: pool(layer)[k] == Candidate(layer, k, found[k])
  }

  lemma FilledReads(
      frame: Frame, texts: Texts, pool: Pool, layers: seq<Layer>, g: Fill, layer: Layer, others: seq<string>, cut: bool,
      found: seq<string>)
    requires LayerFilled(frame, pool, layer, others, cut, g) && frame.split == texts.split
    requires layer in layers && Offered(pool, layer, found)
    ensures LayerReads(texts, pool, layers, g, layer, found, cut)
  {
    hide FirstBlocks, IsCut, TakesWhatFits;
    var n: nat :| TakesWhatFits(frame, layer, pool(layer), others, n, cut, Taken(g, layer));
    TakenAreFirst(frame, texts, layer, pool(layer), others, n, cut, Taken(g, layer), found);
  }

  lemma UntakenReads(
      texts: Texts, pool: Pool, layers: seq<Layer>, g: Fill, layer: Layer, found: seq<string>)
    requires Taken(g, layer) == []
    ensures LayerReads(texts, pool, layers, g, layer, found, false)
  {
  }

  lemma LayersRead(
      frame: Frame, texts: Texts, pool: Pool, layers: seq<Layer>, g: Fill, cutFirst: bool, cutSecond: bool,
      retrieved: Retrieved)
    returns (cutRag: bool, cutSession: bool)
    requires Distinct(layers) && PrefixesTaken(frame, layers, pool, g, cutFirst, cutSecond)
    requires frame.split == texts.split
    requires Offered(pool, Rag, retrieved.rag) && Offered(pool, Session, retrieved.session)
    ensures LayerReads(texts, pool, layers, g, Rag, retrieved.rag, cutRag)
    ensures LayerReads(texts, pool, layers, g, Session, retrieved.session, cutSession)
    ensures !(cutRag && cutSession)
  {
    hide FirstBlocks, IsCut, LayerFilled, Offered, LayerReads;
    cutRag, cutSession := false, false;
    if layers != [] {
      var a, b := layers[0], Other(layers[0]);
      FilledReads(frame, texts, pool, layers, g, a, [], cutFirst, FoundFor(retrieved, a));
      if |layers| == 2 && !cutFirst {
        FilledReads(frame, texts, pool, layers, g, b, Taken(g, a), cutSecond, FoundFor(retrieved, b));
      } else {
        UntakenReads(texts, pool, layers, g, b, FoundFor(retrieved, b));
      }
      cutRag, cutSession := if a == Rag then cutFirst else cutSecond, if a == Rag then cutSecond else cutFirst;
    } else {
      UntakenReads(texts, pool, layers, g, Rag, retrieved.rag);
      UntakenReads(texts, pool, layers, g, Session, retrieved.session);
    }
  }

  /* What the records say */

  lemma {:induction false} ReasonsAre(priorities: seq<Priority>, retrieved: Retrieved, b: Built)
    requires Distinct(ActiveLayers(priorities))
    ensures var layers := ActiveLayers(priorities);
            && (forall layer | layer !in layers :: Reasoned(PolicyExcluded, priorities, retrieved, b, layer))
            && (layers != [] ==>
                  var cut := !(TakenOf(b, layers[0]) <= FoundFor(retrieved, layers[0]));
                  && Reasoned(if cut then BudgetExhausted else OverBudget, priorities, retrieved, b, layers[0])
                  && (|layers| == 2 ==>
                        var cut' := cut || !(TakenOf(b, layers[1]) <= FoundFor(retrieved, layers[1]));
                        Reasoned(if cut' then BudgetExhausted else OverBudget, priorities, retrieved, b, layers[1])))
  {
    var layers := ActiveLayers(priorities);
    NamedAreActive(priorities);
    if |layers| == 2 {
      ActiveInOrder(priorities, layers[0], layers[1]);
    } else {
      OnlyOneNamed(priorities, Rag, Session);
      OnlyOneNamed(priorities, Session, Rag);
    }
  }

  lemma OnlyOneNamed(priorities: seq<Priority>, a: Layer, b: Layer)
    requires RetrievalSection(a) !in priorities || RetrievalSection(b) !in priorities
    ensures !Precedes(priorities, a, b)
  {
  }

  lemma LayerRecordsRead(
      texts: Texts, priorities: seq<Priority>, inp: ContextInput, retrieved: Retrieved, budget: nat, o: Opening,
      b: Built,
      layer: Layer, pool: Pool, ds: seq<Decision>, from: nat, reason: Reason)
    requires LayerTold(ds, from, pool(layer), texts.count, TakenOf(b, layer), reason)
    requires Offered(pool, layer, FoundFor(retrieved, layer))
    requires Reasoned(reason, priorities, retrieved, b, layer)
    ensures forall k | from <= k < from + |pool(layer)| ::
              RecordReads(texts, priorities, inp, retrieved, budget, o, b, ds[k])
  {
    hide Reasoned, BlockRecordReads, Told;
    forall k | from <= k < from + |pool(layer)|
      ensures RecordReads(texts, priorities, inp, retrieved, budget, o, b, ds[k])
    {
      var i := k - from;
      var taken := TakenOf(b, layer);
      assert Told(ds[from + i], pool(layer)[i], texts.count, if i < |taken| then Some(taken[i]) else None, reason);
      ToldReads(texts, priorities, retrieved, b, layer, i, ds[k], pool(layer)[i], reason);
    }
  }

  lemma ToldReads(
      texts: Texts, priorities: seq<Priority>, retrieved: Retrieved, b: Built, layer: Layer, i: nat, d: Decision,
      c: Candidate, reason: Reason)
    requires i < |FoundFor(retrieved, layer)| && c == Candidate(layer, i, FoundFor(retrieved, layer)[i])
    requires var taken := TakenOf(b, layer);
             Told(d, c, texts.count, if i < |taken| then Some(taken[i]) else None, reason)
    requires Reasoned(reason, priorities, retrieved, b, layer)
    ensures d.block == (if layer == Rag then RagBlock(i) else SessionBlock(i))
    ensures BlockRecordReads(texts, priorities, retrieved, b, layer, i, d)
  {
    hide Reasoned;
  }

  lemma OmittedRecordReads(
      texts: Texts, priorities: seq<Priority>, inp: ContextInput, retrieved: Retrieved, budget: nat, o: Opening,
      b: Built,
      layer: Layer, pool: Pool, d: Decision, i: nat)
    requires i < |pool(layer)| && Told(d, pool(layer)[i], texts.count, None, PolicyExcluded)
    requires Offered(pool, layer, FoundFor(retrieved, layer)) && TakenOf(b, layer) == []
    requires Reasoned(PolicyExcluded, priorities, retrieved, b, layer)
    ensures RecordReads(texts, priorities, inp, retrieved, budget, o, b, d)
  {
    hide Reasoned;
  }
}
