/** Building the system context of one request. */
module ContextBuilder {
  import opened Options
  import opened ContextPlan
  import opened ContextText
  import opened ContextAllocator
  import opened ContextFilling
  import opened ContextMeaning

  predicate Recorded(ds: seq<Decision>, c: Candidate) {
    exists k | 0 <= k < |ds| :: ds[k].block == LabelOf(c)
  }

  lemma RecordIsFree(frame: Frame, f: Fill, c: Candidate, reason: Reason)
    ensures Charged(Record(frame, f, c, Excluded, reason, 0).decisions) == Charged(f.decisions)
  {
    var g := Record(frame, f, c, Excluded, reason, 0);
    assert g.decisions[..|g.decisions| - 1] == f.decisions;
  }

  lemma RecordIsTold(frame: Frame, f: Fill, c: Candidate, reason: Reason)
    ensures var g := Record(frame, f, c, Excluded, reason, 0);
            && g.decisions == f.decisions + [g.decisions[|f.decisions|]]
            && Told(g.decisions[|f.decisions|], c, frame.count, None, reason)
            && g.decisions[|f.decisions|].block == LabelOf(c)
  {
  }

  // Candidates of a layer the priorities leave out are still recorded.
  method RecordPolicyExcluded(frame: Frame, f: Fill, cs: seq<Candidate>) returns (g: Fill)
    ensures g == f.(decisions := g.decisions)
    ensures Unrecorded(f.decisions, cs) ==> Labels(g.decisions) == Labels(f.decisions) + LabelsOf(cs)
    ensures (forall k | 0 <= k < |cs| :: Recorded(f.decisions, cs[k])) ==> g == f
    ensures f.decisions <= g.decisions && Charged(g.decisions) == Charged(f.decisions)
    ensures forall k | |f.decisions| <= k < |g.decisions| ::
              exists i :: 0 <= i < |cs| && Told(g.decisions[k], cs[i], frame.count, None, PolicyExcluded)
  {
    hide Charged, Told, LabelOf;
    g := f;
    for i := 0 to |cs|
      invariant g == f.(decisions := g.decisions)
      invariant f.decisions <= g.decisions && Charged(g.decisions) == Charged(f.decisions)
      invariant forall k | |f.decisions| <= k < |g.decisions| ::
                  exists i :: 0 <= i < |cs| && Told(g.decisions[k], cs[i], frame.count, None, PolicyExcluded)
      invariant Unrecorded(f.decisions, cs) ==> Labels(g.decisions) == Labels(f.decisions) + LabelsOf(cs[..i])
      invariant (forall k | 0 <= k < |cs| :: Recorded(f.decisions, cs[k])) ==> g == f
    {
      assert LabelsOf(cs[..i + 1]) == LabelsOf(cs[..i]) + [LabelOf(cs[i])];
      if !Recorded(f.decisions, cs[i]) {
        RecordIsFree(frame, g, cs[i], PolicyExcluded);
        RecordIsTold(frame, g, cs[i], PolicyExcluded);
        g := Record(frame, g, cs[i], Excluded, PolicyExcluded, 0);
      }
    }
    assert cs[..|cs|] == cs;
  }

  /* Building */

  lemma AssembleAlone(texts: Texts, system: string)
    ensures AssemblePrompt(texts, system, "", [], []) == system
  {
    if system != "" {
      assert Join("\n\n", [system]) == system;
    }
  }

  /** The prompt of the filling exceeds no budget, whatever the counter: it is empty or its count fits. */
  lemma PromptWithinBudget(
      texts: Texts, priorities: seq<Priority>, inp: ContextInput, retrieved: Retrieved, budget: nat)
    requires SystemCost(texts, inp) <= budget
    ensures var f := Filling(texts, priorities, inp, retrieved, budget);
            var prompt := AssemblePrompt(texts, inp.systemPrompt, ProfileStart(texts, inp, budget).0, f.rag, f.session);
            && (prompt != "" ==> texts.count(prompt) <= budget && texts.count(prompt) == f.used)
            && (prompt == "" && texts.count("") == 0 ==> f.used == 0)
  {
    hide FillLayers, RequestedProfile, PoolOf, AssemblePrompt;
    var (profile, start) := ProfileStart(texts, inp, budget);
    var head := if start.used < budget then start.decisions else start.decisions + NoBudgetDecisions(inp);
    var frame := PromptFrame(texts, inp.systemPrompt, profile, budget);
    AssembleAlone(texts, inp.systemPrompt);
    OpensWithSystem(texts, inp.systemPrompt, profile);
    FillLayersWithinBudget(frame, start.(decisions := head), ActiveLayers(priorities),
                           PoolOf(inp, retrieved, start.used < budget));
    FillUsed(frame, start.(decisions := head), ActiveLayers(priorities), PoolOf(inp, retrieved, start.used < budget));
  }

  lemma OpensWithSystem(texts: Texts, system: string, profile: string)
    ensures AssemblePrompt(texts, system, profile, [], []) == "" <==> system == "" && profile == ""
    ensures AssemblePrompt(texts, "", profile, [], []) == profile
  {
    assert Join("\n\n", [profile]) == profile;
    if system != "" {
      var parts := [system] + (if profile != "" then [profile] else []);
      assert parts[0] == system && Join("\n\n", parts) != "";
    }
  }

  lemma {:induction false} NothingToFill(frame: Frame, f: Fill, layers: seq<Layer>, pool: Pool)
    requires !f.cut && forall layer :: pool(layer) == []
    ensures FillLayers(frame, f, layers, pool) == f
  {
    if layers != [] {
      NothingToFill(frame, f, layers[1..], pool);
    }
  }

  /** Without room nothing is retrieved; the prompt is empty unless what it opens with costs nothing. */
  lemma PromptWithoutRoom(
      texts: Texts, priorities: seq<Priority>, inp: ContextInput, retrieved: Retrieved, b: Built)
    requires BuiltFrom(texts, priorities, inp, retrieved, 0, b) && SystemCost(texts, inp) == 0
    ensures b.prompt != "" <==> LeadingText(inp) != "" && texts.count(LeadingText(inp)) == 0
  {
    hide AssemblePrompt, RequestedProfile;
    var (profile, start) := ProfileStart(texts, inp, 0);
    var head := start.decisions + NoBudgetDecisions(inp);
    NothingToFill(PromptFrame(texts, inp.systemPrompt, profile, 0), start.(decisions := head), ActiveLayers(priorities),
                  PoolOf(inp, retrieved, false));
    OpensWithSystem(texts, inp.systemPrompt, profile);
    OpensWithSystem(texts, inp.systemPrompt, RequestedProfile(inp));
  }

  // With no block taken the cost is what it was.
  lemma {:induction false} FillLayerUsed(frame: Frame, f: Fill, cs: seq<Candidate>)
    ensures var g := FillLayer(frame, f, cs);
            |g.rag| >= |f.rag| && |g.session| >= |f.session|
            && (g.rag == f.rag && g.session == f.session ==> g.used == f.used)
    decreases |cs|
  {
    if cs != [] {
      if ProposedTotal(frame, f, cs[0].layer, cs[0].text) <= frame.budget {
        FillLayerUsed(frame, Accept(frame, f, cs[0], cs[0].text), cs[1..]);
      } else {
        DropKeepsBlocks(frame, Accept(frame, f, cs[0], Trimmed(frame, f, cs[0])).(cut := true), cs[1..],
                        BudgetExhausted);
        DropKeepsBlocks(frame, f, cs, OverBudget);
      }
    }
  }

  lemma {:induction false} FillUsed(frame: Frame, f: Fill, layers: seq<Layer>, pool: Pool)
    ensures var g := FillLayers(frame, f, layers, pool);
            |g.rag| >= |f.rag| && |g.session| >= |f.session|
            && (g.rag == f.rag == [] && g.session == f.session == [] ==> g.used == f.used)
    decreases |layers|
  {
    if layers != [] {
      FillLayerUsed(frame, f, pool(layers[0]));
      var g := FillLayer(frame, f, pool(layers[0]));
      if g.cut {
        DropLayersKeepsBlocks(frame, g, layers[1..], pool);
      } else {
        FillUsed(frame, g, layers[1..], pool);
      }
    }
  }

  // What was built is the filling, rendered.
  ghost predicate BuiltFrom(
      texts: Texts, priorities: seq<Priority>, inp: ContextInput, retrieved: Retrieved, budget: nat, b: Built)
  {
    var f := Filling(texts, priorities, inp, retrieved, budget);
    var profile := ProfileStart(texts, inp, budget).0;
    && b.rag == f.rag && b.session == f.session && (b.profileUsed <==> profile != "")
    && b.prompt == AssemblePrompt(texts, inp.systemPrompt, profile, f.rag, f.session)
    && b.used == texts.count(b.prompt)
    && f.decisions <= b.decisions
  }

  // The records are, in this order: of the system prompt and the profile; without room, of each layer asked for; of
  // every candidate exactly once, those of the layers filled and then those of the layers left out; of each layer not
  // asked for.
  ghost predicate RecordsEach(
      texts: Texts, priorities: seq<Priority>, inp: ContextInput, retrieved: Retrieved, budget: nat, ds: seq<Decision>)
  {
    var layers, pool := ActiveLayers(priorities), PoolFor(texts, inp, retrieved, budget);
    var room := ProfileStart(texts, inp, budget).1.used < budget;
    Labels(ds) == [SystemBlock, ProfileBlock] + (if room then [] else LayerBlocks(inp, true))
                  + (PoolLabels(layers, pool) + PoolLabels(OmittedLayers(layers), pool)) + LayerBlocks(inp, false)
  }

  // The layers that were asked for, or those that were not.
  function LayerBlocks(inp: ContextInput, asked: bool): seq<BlockId> {
    (if Asked(inp, Rag) == asked then [RagLayer] else []) +
      (if Asked(inp, Session) == asked then [SessionLayer] else [])
  }

  lemma LayerBlocksAre(texts: Texts, inp: ContextInput, budget: nat)
    ensures Labels(NotRequestedDecisions(inp)) == LayerBlocks(inp, false)
    ensures var room := ProfileStart(texts, inp, budget).1.used < budget;
            Labels(HeadDecisions(texts, inp, budget)) ==
              [SystemBlock, ProfileBlock] + (if room then [] else LayerBlocks(inp, true))
  {
    hide AssemblePrompt, RequestedProfile;
    var start := ProfileStart(texts, inp, budget).1;
    assert Labels(start.decisions) == [SystemBlock, ProfileBlock];
    assert Labels(NoBudgetDecisions(inp)) == LayerBlocks(inp, true);
    LabelsOfConcat(start.decisions, NoBudgetDecisions(inp));
  }

  lemma LabelsAre(ds: seq<Decision>)
    requires forall k | 0 <= k < |ds| :: LayerOf(ds[k].block).None?
    ensures forall b | b in Labels(ds) :: LayerOf(b).None?
  {
  }

  lemma HeadHasNoBlocks(texts: Texts, inp: ContextInput, budget: nat)
    ensures var start := ProfileStart(texts, inp, budget).1;
            && start.rag == [] && start.session == [] && !start.cut
            && (SystemCost(texts, inp) <= budget ==> start.used <= budget)
            && (forall b | b in Labels(start.decisions) :: LayerOf(b).None?)
            && (forall b | b in Labels(start.decisions + NoBudgetDecisions(inp)) :: LayerOf(b).None?)
  {
    hide AssemblePrompt, RequestedProfile;
    var start := ProfileStart(texts, inp, budget).1;
    assert forall k | 0 <= k < |start.decisions| :: LayerOf(start.decisions[k].block).None?;
    LabelsAre(start.decisions);
    LabelsAre(start.decisions + NoBudgetDecisions(inp));
  }

  lemma {:induction false} PoolLabelsByLayer(layers: seq<Layer>, pool: Pool)
    requires PoolInOrder(pool)
    ensures forall b | b in PoolLabels(layers, pool) :: LayerOf(b).Some? && LayerOf(b).value in layers
    ensures forall layer, x: nat | layer in layers && x < |pool(layer)| ::
            LabelOf(pool(layer)[x]) in PoolLabels(layers, pool)
  {
    if layers != [] {
      PoolLabelsByLayer(layers[1..], pool);
      var first := LabelsOf(pool(layers[0]));
      forall layer, x: nat | layer in layers && x < |pool(layer)|
        ensures LabelOf(pool(layer)[x]) in PoolLabels(layers, pool)
      {
        if layer == layers[0] {
          assert first[x] in first;
        } else {
          assert layer in layers[1..];
        }
      }
    }
  }

  // A layer filled has all its candidates recorded, a layer left out none.
  ghost predicate LayersRecorded(ds: seq<Decision>, layers: seq<Layer>, pool: Pool) {
    && (forall k | 0 <= k < |ds| && LayerOf(ds[k].block).Some? :: LayerOf(ds[k].block).value in layers)
    && (forall layer, x: nat | layer in layers && x < |pool(layer)| :: Recorded(ds, pool(layer)[x]))
  }

  lemma {:induction false} FillingRecordsLayers(ds: seq<Decision>, head: seq<BlockId>, layers: seq<Layer>, pool: Pool)
    requires PoolInOrder(pool) && Labels(ds) == head + PoolLabels(layers, pool)
    requires forall b | b in head :: LayerOf(b).None?
    ensures LayersRecorded(ds, layers, pool)
  {
    PoolLabelsByLayer(layers, pool);
    forall k | 0 <= k < |ds| && LayerOf(ds[k].block).Some?
      ensures LayerOf(ds[k].block).value in layers
    {
      assert Labels(ds)[k] == ds[k].block;
      assert Labels(ds)[k] in head || Labels(ds)[k] in PoolLabels(layers, pool);
    }
    forall layer, x: nat | layer in layers && x < |pool(layer)|
      ensures Recorded(ds, pool(layer)[x])
    {
      var b := LabelOf(pool(layer)[x]);
      assert b in Labels(ds);
      var k :| 0 <= k < |Labels(ds)| && Labels(ds)[k] == b;
      assert ds[k].block == b;
    }
  }

  // The record of a candidate of a layer the priorities leave out.
  ghost predicate OmittedTold(d: Decision, frame: Frame, layers: seq<Layer>, pool: Pool) {
    exists layer, i: nat :: layer !in layers && i < |pool(layer)|
                            && Told(d, pool(layer)[i], frame.count, None, PolicyExcluded)
  }

  // The candidates of one layer, recorded if the layer was left out.
  method RecordOmittedLayer(frame: Frame, f: Fill, layers: seq<Layer>, pool: Pool, layer: Layer) returns (g: Fill)
    requires PoolInOrder(pool)
    ensures g == f.(decisions := g.decisions) && f.decisions <= g.decisions
    ensures Charged(g.decisions) == Charged(f.decisions)
    ensures LayersRecorded(f.decisions, layers, pool) ==>
              forall k | |f.decisions| <= k < |g.decisions| :: OmittedTold(g.decisions[k], frame, layers, pool)
    ensures LayersRecorded(f.decisions, layers, pool) ==>
              var added := if layer in layers then [] else [layer];
              && Labels(g.decisions) == Labels(f.decisions) + PoolLabels(added, pool)
              && LayersRecorded(g.decisions, layers + added, pool)
  {
    g := RecordPolicyExcluded(frame, f, pool(layer));
    if LayersRecorded(f.decisions, layers, pool) {
      OmittedLayerRecorded(f.decisions, g.decisions, layers, pool, layer);
    }
  }

  lemma OmittedLayerRecorded(
      ds: seq<Decision>, ds': seq<Decision>, layers: seq<Layer>, pool: Pool, layer: Layer)
    requires PoolInOrder(pool) && LayersRecorded(ds, layers, pool) && ds <= ds'
    requires Unrecorded(ds, pool(layer)) ==> Labels(ds') == Labels(ds) + LabelsOf(pool(layer))
    requires (forall k | 0 <= k < |pool(layer)| :: Recorded(ds, pool(layer)[k])) ==> ds' == ds
    ensures var added := if layer in layers then [] else [layer];
            && Labels(ds') == Labels(ds) + PoolLabels(added, pool)
            && LayersRecorded(ds', layers + added, pool)
  {
    if layer in layers {
      assert layers + [] == layers;
    } else {
      forall k, l | 0 <= k < |ds| && 0 <= l < |pool(layer)|
        ensures ds[k].block != LabelOf(pool(layer)[l])
      {
        assert LayerOf(LabelOf(pool(layer)[l])) == Some(layer);
      }
      assert PoolLabels([layer], pool) == LabelsOf(pool(layer)) + PoolLabels([layer][1..], pool);
      NewLayerRecorded(ds, ds', layers, pool, layer);
    }
  }

  lemma LabelsExtended(ds: seq<Decision>, ds': seq<Decision>, cs: seq<Candidate>)
    requires Labels(ds') == Labels(ds) + LabelsOf(cs)
    ensures |ds'| == |ds| + |cs|
    ensures forall k | 0 <= k < |ds| :: ds'[k].block == ds[k].block
    ensures forall k | 0 <= k < |cs| :: ds'[|ds| + k].block == LabelOf(cs[k])
  {
    assert |Labels(ds')| == |Labels(ds)| + |LabelsOf(cs)|;
    assert forall k | 0 <= k < |ds| :: ds'[k].block == Labels(ds')[k] == Labels(ds)[k];
    assert forall k | 0 <= k < |cs| :: ds'[|ds| + k].block == Labels(ds')[|ds| + k] == LabelsOf(cs)[k];
  }

  lemma StaysRecorded(ds: seq<Decision>, ds': seq<Decision>, c: Candidate)
    requires |ds| <= |ds'| && forall k | 0 <= k < |ds| :: ds'[k].block == ds[k].block
    requires Recorded(ds, c)
    ensures Recorded(ds', c)
  {
    var k :| 0 <= k < |ds| && ds[k].block == LabelOf(c);
    assert ds'[k].block == LabelOf(c);
  }

  lemma NewLayerRecorded(
      ds: seq<Decision>, ds': seq<Decision>, layers: seq<Layer>, pool: Pool, layer: Layer)
    requires PoolInOrder(pool) && LayersRecorded(ds, layers, pool)
    requires Labels(ds') == Labels(ds) + LabelsOf(pool(layer))
    ensures LayersRecorded(ds', layers + [layer], pool)
  {
    hide Labels, LabelsOf, PoolInOrder, Recorded, LabelOf;
    LabelsExtended(ds, ds', pool(layer));
    forall l, x: nat | l in layers + [layer] && x < |pool(l)|
      ensures Recorded(ds', pool(l)[x])
    {
      CandidateRecorded(ds, ds', layers, pool, layer, l, x);
    }
    forall k | 0 <= k < |ds'| && LayerOf(ds'[k].block).Some?
      ensures LayerOf(ds'[k].block).value in layers + [layer]
    {
      if k >= |ds| {
        AddedIsOfLayer(ds', |ds|, pool, layer, k - |ds|);
      }
    }
  }

  lemma CandidateRecorded(
      ds: seq<Decision>, ds': seq<Decision>, layers: seq<Layer>, pool: Pool, layer: Layer, l: Layer, x: nat)
    requires LayersRecorded(ds, layers, pool) && l in layers + [layer] && x < |pool(l)|
    requires |ds'| == |ds| + |pool(layer)|
    requires forall k | 0 <= k < |ds| :: ds'[k].block == ds[k].block
    requires forall k | 0 <= k < |pool(layer)| :: ds'[|ds| + k].block == LabelOf(pool(layer)[k])
    ensures Recorded(ds', pool(l)[x])
  {
    hide Recorded, LabelOf;
    if l in layers {
      StaysRecorded(ds, ds', pool(l)[x]);
    } else {
      AddedIsRecorded(ds', |ds|, pool(layer), x);
    }
  }

  lemma AddedIsRecorded(ds: seq<Decision>, n: nat, cs: seq<Candidate>, x: nat)
    requires |ds| == n + |cs| && x < |cs| && ds[n + x].block == LabelOf(cs[x])
    ensures Recorded(ds, cs[x])
  {
  }

  lemma AddedIsOfLayer(ds: seq<Decision>, n: nat, pool: Pool, layer: Layer, x: nat)
    requires PoolInOrder(pool) && |ds| == n + |pool(layer)| && x < |pool(layer)|
    requires ds[n + x].block == LabelOf(pool(layer)[x])
    ensures LayerOf(ds[n + x].block) == Some(layer)
  {
  }

  lemma NothingRecordedYet(ds: seq<Decision>, layers: seq<Layer>, pool: Pool)
    requires PoolInOrder(pool) && Distinct(layers)
    requires forall b | b in Labels(ds) :: LayerOf(b).None?
    ensures NoBlockRecorded(ds, layers, pool)
  {
    forall k, layer | 0 <= k < |ds| && layer in layers
      ensures ds[k].block !in LabelsOf(pool(layer))
    {
      assert Labels(ds)[k] == ds[k].block;
      forall x | 0 <= x < |pool(layer)|
        ensures LabelsOf(pool(layer))[x] != ds[k].block
      {
        assert LayerOf(LabelOf(pool(layer)[x])) == Some(layer);
      }
    }
  }

  lemma Bracket(a: seq<BlockId>, b: seq<BlockId>, c: seq<BlockId>, d: seq<BlockId>, e: seq<BlockId>)
    ensures (((a + b) + c) + d) + e == (a + (b + (c + d))) + e
  {
  }

  lemma OmittedLabels(layers: seq<Layer>, pool: Pool)
    ensures PoolLabels(OmittedLayers(layers), pool) ==
            PoolLabels(if Rag in layers then [] else [Rag], pool) +
              PoolLabels(if Session in layers then [] else [Session], pool)
  {
    var omitted := OmittedLayers(layers);
    if Rag !in layers {
      assert omitted[1..] == if Session in layers then [] else [Session];
      assert [Rag][1..] == [];
    }
  }

  lemma {:induction false} FillingIsRecorded(
      texts: Texts, priorities: seq<Priority>, inp: ContextInput, retrieved: Retrieved, budget: nat)
    requires Distinct(ActiveLayers(priorities))
    ensures var ds := Filling(texts, priorities, inp, retrieved, budget).decisions;
            var layers, pool := ActiveLayers(priorities), PoolFor(texts, inp, retrieved, budget);
            && Labels(ds) == Labels(HeadDecisions(texts, inp, budget)) + PoolLabels(layers, pool)
            && LayersRecorded(ds, layers, pool)
            && forall b | b in Labels(HeadDecisions(texts, inp, budget)) :: LayerOf(b).None?
  {
    hide ProfileStart, PoolOf, Labels, PoolLabels, LayersRecorded, NoBlockRecorded, FillLayers, ActiveLayers;
    var (profile, start) := ProfileStart(texts, inp, budget);
    var head := HeadDecisions(texts, inp, budget);
    var layers, pool := ActiveLayers(priorities), PoolFor(texts, inp, retrieved, budget);
    var frame := PromptFrame(texts, inp.systemPrompt, profile, budget);
    PoolIsInOrder(inp, retrieved, start.used < budget);
    HeadHasNoBlocks(texts, inp, budget);
    NothingRecordedYet(head, layers, pool);
    FillRecordsAll(frame, start.(decisions := head), layers, pool);
    FillingRecordsLayers(FillLayers(frame, start.(decisions := head), layers, pool).decisions, Labels(head), layers,
                         pool);
  }

  method RecordOmitted(frame: Frame, f: Fill, layers: seq<Layer>, pool: Pool) returns (ds: seq<Decision>)
    requires PoolInOrder(pool)
    ensures f.decisions <= ds && Charged(ds) == Charged(f.decisions)
    ensures LayersRecorded(f.decisions, layers, pool) ==>
              Labels(ds) == Labels(f.decisions) + PoolLabels(if Rag in layers then [] else [Rag], pool)
                            + PoolLabels(if Session in layers then [] else [Session], pool)
    ensures LayersRecorded(f.decisions, layers, pool) ==>
              forall k | |f.decisions| <= k < |ds| :: OmittedTold(ds[k], frame, layers, pool)
  {
    hide LayersRecorded, Charged, Labels, PoolLabels, PoolInOrder;
    assert layers + [] == layers;
    var g := RecordOmittedLayer(frame, f, layers, pool, Rag);
    var h := RecordOmittedLayer(frame, g, if Rag in layers then layers else layers + [Rag], pool, Session);
    ds := h.decisions;
  }

  lemma {:induction false} EachRecorded(
      texts: Texts, priorities: seq<Priority>, inp: ContextInput, retrieved: Retrieved, budget: nat,
      filled: seq<Decision>, recorded: seq<Decision>)
    requires Distinct(ActiveLayers(priorities))
    requires filled == Filling(texts, priorities, inp, retrieved, budget).decisions
    requires var layers, pool := ActiveLayers(priorities), PoolFor(texts, inp, retrieved, budget);
             Labels(recorded) == Labels(filled) + PoolLabels(if Rag in layers then [] else [Rag], pool)
                                 + PoolLabels(if Session in layers then [] else [Session], pool)
    ensures RecordsEach(texts, priorities, inp, retrieved, budget, recorded + NotRequestedDecisions(inp))
  {
    hide ActiveLayers, PoolFor, Filling, HeadDecisions, PoolLabels, LayersRecorded;
    var layers, pool := ActiveLayers(priorities), PoolFor(texts, inp, retrieved, budget);
    FillingIsRecorded(texts, priorities, inp, retrieved, budget);
    OmittedLabels(layers, pool);
    var last := Labels(NotRequestedDecisions(inp));
    LayerBlocksAre(texts, inp, budget);
    LabelsOfConcat(recorded, NotRequestedDecisions(inp));
    Bracket(Labels(HeadDecisions(texts, inp, budget)), PoolLabels(layers, pool),
            PoolLabels(if Rag in layers then [] else [Rag], pool),
            PoolLabels(if Session in layers then [] else [Session], pool), last);
  }

  lemma LabelsOfConcat(a: seq<Decision>, b: seq<Decision>)
    ensures Labels(a + b) == Labels(a) + Labels(b)
  {
  }

  // From a place on the records are of candidates of layers left out, and of layers not asked for.
  ghost predicate RestTold(
      texts: Texts, layers: seq<Layer>, pool: Pool, inp: ContextInput, from: nat, ds: seq<Decision>)
  {
    forall k | from <= k < |ds| ::
      || ds[k] in NotRequestedDecisions(inp)
      || exists layer, i: nat :: layer !in layers && i < |pool(layer)|
                                 && Told(ds[k], pool(layer)[i], texts.count, None, PolicyExcluded)
  }

  // The records of a context: those of the filling, those of the layers left out, those of layers not asked for.
  method RecordRest(
      texts: Texts, priorities: seq<Priority>, inp: ContextInput, retrieved: Retrieved, budget: nat, f: Fill)
    returns (ds: seq<Decision>)
    requires f == Filling(texts, priorities, inp, retrieved, budget)
    ensures f.decisions <= ds && Charged(ds) == Charged(f.decisions)
    ensures Distinct(ActiveLayers(priorities)) ==> RecordsEach(texts, priorities, inp, retrieved, budget, ds)
    ensures Distinct(ActiveLayers(priorities)) ==>
              RestTold(texts, ActiveLayers(priorities), PoolFor(texts, inp, retrieved, budget), inp, |f.decisions|, ds)
  {
    hide Charged, Labels, RecordsEach, Filling, NotRequestedDecisions, PoolOf;
    var (profile, start) := ProfileStart(texts, inp, budget);
    var pool := PoolOf(inp, retrieved, start.used < budget);
    PoolIsInOrder(inp, retrieved, start.used < budget);
    var recorded := RecordOmitted(PromptFrame(texts, inp.systemPrompt, profile, budget), f, ActiveLayers(priorities),
                                  pool);
    ds := recorded + NotRequestedDecisions(inp);
    LayerRecordsAreFree(inp);
    ChargedConcat(recorded, NotRequestedDecisions(inp));
    if Distinct(ActiveLayers(priorities)) {
      FillingIsRecorded(texts, priorities, inp, retrieved, budget);
      EachRecorded(texts, priorities, inp, retrieved, budget, f.decisions, recorded);
    }
  }

  // Records about a whole layer charge nothing.
  lemma LayerRecordsAreFree(inp: ContextInput)
    ensures Charged(NoBudgetDecisions(inp)) == Charged(NotRequestedDecisions(inp)) == 0
  {
    FreeOfCharge(NoBudgetDecisions(inp));
    FreeOfCharge(NotRequestedDecisions(inp));
  }

  lemma {:induction false} FreeOfCharge(ds: seq<Decision>)
    requires forall k | 0 <= k < |ds| :: ds[k].tokenCost == 0
    ensures Charged(ds) == 0
  {
    if ds != [] {
      FreeOfCharge(ds[..|ds| - 1]);
    }
  }

  lemma StartCharges(texts: Texts, inp: ContextInput, budget: nat)
    ensures var start := ProfileStart(texts, inp, budget).1; Charged(start.decisions) == start.used
  {
    hide AssemblePrompt, RequestedProfile;
    var start := ProfileStart(texts, inp, budget).1;
    var first, second := start.decisions[0], start.decisions[1];
    assert start.decisions == [first] + [second];
    ChargedConcat([first], [second]);
    ChargedOne(first);
    ChargedOne(second);
  }

  /** The records of the filling charge, together, what the prompt costs. */
  lemma FillingCharges(
      texts: Texts, priorities: seq<Priority>, inp: ContextInput, retrieved: Retrieved, budget: nat)
    ensures var f := Filling(texts, priorities, inp, retrieved, budget); Charged(f.decisions) == f.used
  {
    hide ProfileStart, PoolOf, Charged, NoBudgetDecisions;
    var (profile, start) := ProfileStart(texts, inp, budget);
    var head := if start.used < budget then start.decisions else start.decisions + NoBudgetDecisions(inp);
    StartCharges(texts, inp, budget);
    LayerRecordsAreFree(inp);
    ChargedConcat(start.decisions, NoBudgetDecisions(inp));
    MarginalCostsAddUp(PromptFrame(texts, inp.systemPrompt, profile, budget), start.(decisions := head),
                       ActiveLayers(priorities), PoolOf(inp, retrieved, start.used < budget));
  }

  /** Of each retrieved layer the context holds the first blocks, in retrieval order; at most one block is cut. */
  lemma ContextTakesPrefixes(
      texts: Texts, priorities: seq<Priority>, inp: ContextInput, retrieved: Retrieved, budget: nat)
    returns (cutFirst: bool, cutSecond: bool)
    requires Distinct(ActiveLayers(priorities))
    ensures PrefixesTaken(PromptFrame(texts, inp.systemPrompt, ProfileStart(texts, inp, budget).0, budget),
                          ActiveLayers(priorities), PoolFor(texts, inp, retrieved, budget),
                          Filling(texts, priorities, inp, retrieved, budget), cutFirst, cutSecond)
    ensures var layers := ActiveLayers(priorities);
            && (forall layer :: layer in layers <==> RetrievalSection(layer) in priorities)
            && (|layers| == 2 ==> Precedes(priorities, layers[0], layers[1]))
  {
    NamedAreActive(priorities);
    if |ActiveLayers(priorities)| == 2 {
      ActiveInOrder(priorities, ActiveLayers(priorities)[0], ActiveLayers(priorities)[1]);
    }
    var (profile, start) := ProfileStart(texts, inp, budget);
    PoolIsInOrder(inp, retrieved, start.used < budget);
    HeadHasNoBlocks(texts, inp, budget);
    cutFirst, cutSecond := FillTakesPrefixes(
      PromptFrame(texts, inp.systemPrompt, profile, budget), start.(decisions := HeadDecisions(texts, inp, budget)),
      ActiveLayers(priorities), PoolFor(texts, inp, retrieved, budget));
  }

  /* What the context reads like */

  // The context and all its records, read.
  ghost predicate BuiltReads(
      texts: Texts, priorities: seq<Priority>, inp: ContextInput, retrieved: Retrieved, budget: nat, b: Built)
  {
    exists o ::
      && ContextReads(texts, priorities, inp, retrieved, budget, o, b)
      && forall k | 0 <= k < |b.decisions| ::
           RecordReads(texts, priorities, inp, retrieved, budget, o, b, b.decisions[k])
  }

  lemma {:induction false} ContextIsRead(
      texts: Texts, priorities: seq<Priority>, inp: ContextInput, retrieved: Retrieved, budget: nat, o: Opening,
      b: Built)
    requires Distinct(ActiveLayers(priorities)) && BuiltFrom(texts, priorities, inp, retrieved, budget, b)
    requires Opens(texts, inp, o)
    requires ProfileStart(texts, inp, budget).0 == if TakesProfile(o, budget) then o.profile else ""
    requires ProfileStart(texts, inp, budget).1.used < budget <==> HasRoom(o, budget)
    ensures ContextReads(texts, priorities, inp, retrieved, budget, o, b)
    ensures forall layer :: IsCut(TakenOf(b, layer), PoolFor(texts, inp, retrieved, budget)(layer)) <==>
                            !(TakenOf(b, layer) <= FoundFor(retrieved, layer))
    ensures forall layer | layer !in ActiveLayers(priorities) :: TakenOf(b, layer) == []
  {
    hide ProfileStart, PoolFor, Filling, AssemblePrompt, PromptReads, PrefixesTaken, FirstBlocks, IsCut, Opens,
         HasRoom, ActiveLayers;
    var f, profile := Filling(texts, priorities, inp, retrieved, budget), ProfileStart(texts, inp, budget).0;
    var pool, layers := PoolFor(texts, inp, retrieved, budget), ActiveLayers(priorities);
    var cutFirst, cutSecond := ContextTakesPrefixes(texts, priorities, inp, retrieved, budget);
    PoolReads(texts, inp, retrieved, budget, o, Rag);
    PoolReads(texts, inp, retrieved, budget, o, Session);
    var cutRag, cutSession := LayersRead(PromptFrame(texts, inp.systemPrompt, profile, budget), texts, pool, layers, f,
                                         cutFirst, cutSecond, retrieved);
    AssembledReads(texts, inp.systemPrompt, profile, f.rag, f.session);
    NamedAreActive(priorities);
  }

  lemma HeadIsRead(
      texts: Texts, priorities: seq<Priority>, inp: ContextInput, retrieved: Retrieved, budget: nat, o: Opening,
      b: Built)
    requires |ProfileStart(texts, inp, budget).1.decisions| == 2
    requires forall k | 0 <= k < 2 ::
               RecordReads(texts, priorities, inp, retrieved, budget, o, b,
                           ProfileStart(texts, inp, budget).1.decisions[k])
    ensures forall k | 0 <= k < |HeadDecisions(texts, inp, budget)| ::
              RecordReads(texts, priorities, inp, retrieved, budget, o, b, HeadDecisions(texts, inp, budget)[k])
  {
    hide ProfileStart;
    var start, rest := ProfileStart(texts, inp, budget).1.decisions, NoBudgetDecisions(inp);
    forall k | 0 <= k < |rest|
      ensures RecordReads(texts, priorities, inp, retrieved, budget, o, b, rest[k])
    {
    }
    forall k | 0 <= k < |HeadDecisions(texts, inp, budget)|
      ensures RecordReads(texts, priorities, inp, retrieved, budget, o, b, HeadDecisions(texts, inp, budget)[k])
    {
      if k >= 2 {
        assert HeadDecisions(texts, inp, budget)[k] == rest[k - 2];
      }
    }
  }

  lemma {:induction false} FillingTold(
      texts: Texts, priorities: seq<Priority>, inp: ContextInput, retrieved: Retrieved, budget: nat)
    requires Distinct(ActiveLayers(priorities))
    ensures var f, head := Filling(texts, priorities, inp, retrieved, budget), HeadDecisions(texts, inp, budget);
            && head <= f.decisions
            && LayersTold(PromptFrame(texts, inp.systemPrompt, ProfileStart(texts, inp, budget).0, budget),
                          ActiveLayers(priorities), PoolFor(texts, inp, retrieved, budget), |head|, f)
  {
    hide ProfileStart, PoolOf, AssemblePrompt, FillLayers, ActiveLayers, LayersTold, NoBlockRecorded, PoolInOrder;
    var (profile, start) := ProfileStart(texts, inp, budget);
    var head := HeadDecisions(texts, inp, budget);
    var pool, layers := PoolFor(texts, inp, retrieved, budget), ActiveLayers(priorities);
    PoolIsInOrder(inp, retrieved, start.used < budget);
    HeadHasNoBlocks(texts, inp, budget);
    NothingRecordedYet(head, layers, pool);
    FillTold(PromptFrame(texts, inp.systemPrompt, profile, budget), start.(decisions := head), layers, pool);
  }

  lemma {:induction false} FillingIsRead(
      texts: Texts, priorities: seq<Priority>, inp: ContextInput, retrieved: Retrieved, budget: nat, o: Opening,
      b: Built)
    requires Distinct(ActiveLayers(priorities)) && BuiltFrom(texts, priorities, inp, retrieved, budget, b)
    requires forall layer :: IsCut(TakenOf(b, layer), PoolFor(texts, inp, retrieved, budget)(layer)) <==>
                             !(TakenOf(b, layer) <= FoundFor(retrieved, layer))
    requires ProfileStart(texts, inp, budget).1.used < budget <==> HasRoom(o, budget)
    requires forall k | 0 <= k < |HeadDecisions(texts, inp, budget)| ::
               RecordReads(texts, priorities, inp, retrieved, budget, o, b, HeadDecisions(texts, inp, budget)[k])
    ensures var ds := Filling(texts, priorities, inp, retrieved, budget).decisions;
            forall k | 0 <= k < |ds| :: RecordReads(texts, priorities, inp, retrieved, budget, o, b, ds[k])
  {
    hide ProfileStart, PoolFor, HeadDecisions, ActiveLayers, IsCut, HasRoom, RecordReads,
         Reasoned, LayerTold, Filling, AssemblePrompt;
    var head := HeadDecisions(texts, inp, budget);
    var pool, layers := PoolFor(texts, inp, retrieved, budget), ActiveLayers(priorities);
    var f := Filling(texts, priorities, inp, retrieved, budget);
    FillingTold(texts, priorities, inp, retrieved, budget);
    PoolReads(texts, inp, retrieved, budget, o, Rag);
    PoolReads(texts, inp, retrieved, budget, o, Session);
    ReasonsAre(priorities, retrieved, b);
    forall k | 0 <= k < |f.decisions|
      ensures RecordReads(texts, priorities, inp, retrieved, budget, o, b, f.decisions[k])
    {
      if k < |head| {
        assert f.decisions[k] == head[k];
      } else if k < |head| + |pool(layers[0])| {
        var reason := if IsCut(TakenOf(b, layers[0]), pool(layers[0])) then BudgetExhausted else OverBudget;
        LayerRecordsRead(texts, priorities, inp, retrieved, budget, o, b, layers[0], pool, f.decisions, |head|, reason);
      } else {
        var cut := IsCut(TakenOf(b, layers[0]), pool(layers[0])) || IsCut(TakenOf(b, layers[1]), pool(layers[1]));
        LayerRecordsRead(texts, priorities, inp, retrieved, budget, o, b, layers[1], pool, f.decisions,
                         |head| + |pool(layers[0])|, if cut then BudgetExhausted else OverBudget);
      }
    }
  }

  lemma {:induction false} RestIsRead(
      texts: Texts, priorities: seq<Priority>, inp: ContextInput, retrieved: Retrieved, budget: nat, o: Opening,
      b: Built, from: nat)
    requires Distinct(ActiveLayers(priorities))
    requires RestTold(texts, ActiveLayers(priorities), PoolFor(texts, inp, retrieved, budget), inp, from, b.decisions)
    requires forall layer | layer !in ActiveLayers(priorities) :: TakenOf(b, layer) == []
    requires ProfileStart(texts, inp, budget).1.used < budget <==> HasRoom(o, budget)
    ensures forall k | from <= k < |b.decisions| ::
              RecordReads(texts, priorities, inp, retrieved, budget, o, b, b.decisions[k])
  {
    hide ProfileStart, PoolFor, ActiveLayers, HasRoom, RecordReads, Reasoned, Told;
    var pool, layers := PoolFor(texts, inp, retrieved, budget), ActiveLayers(priorities);
    PoolReads(texts, inp, retrieved, budget, o, Rag);
    PoolReads(texts, inp, retrieved, budget, o, Session);
    ReasonsAre(priorities, retrieved, b);
    forall k | from <= k < |b.decisions|
      ensures RecordReads(texts, priorities, inp, retrieved, budget, o, b, b.decisions[k])
    {
      var d := b.decisions[k];
      if d in NotRequestedDecisions(inp) {
        NotRequestedReads(texts, priorities, inp, retrieved, budget, o, b, d);
      } else {
        var layer, i: nat :| layer !in layers && i < |pool(layer)|
                             && Told(d, pool(layer)[i], texts.count, None, PolicyExcluded);
        OmittedRecordReads(texts, priorities, inp, retrieved, budget, o, b, layer, pool, d, i);
      }
    }
  }

  lemma NotRequestedReads(
      texts: Texts, priorities: seq<Priority>, inp: ContextInput, retrieved: Retrieved, budget: nat, o: Opening,
      b: Built, d: Decision)
    requires d in NotRequestedDecisions(inp)
    ensures RecordReads(texts, priorities, inp, retrieved, budget, o, b, d)
  {
  }

  /** What was built reads as promised. */
  lemma {:induction false} BuiltIsRead(
      texts: Texts, priorities: seq<Priority>, inp: ContextInput, retrieved: Retrieved, budget: nat, b: Built)
    requires Distinct(ActiveLayers(priorities)) && BuiltFrom(texts, priorities, inp, retrieved, budget, b)
    requires var f := Filling(texts, priorities, inp, retrieved, budget);
             RestTold(texts, ActiveLayers(priorities), PoolFor(texts, inp, retrieved, budget), inp, |f.decisions|,
                      b.decisions)
    ensures BuiltReads(texts, priorities, inp, retrieved, budget, b)
  {
    hide ProfileStart, PoolFor, ActiveLayers, HasRoom, RecordReads, RestTold, Filling, HeadDecisions, AssemblePrompt,
         IsCut, Opens, ContextReads, TakesProfile;
    var filled := Filling(texts, priorities, inp, retrieved, budget).decisions;
    var o := OpeningIs(texts, inp, budget);
    ContextIsRead(texts, priorities, inp, retrieved, budget, o, b);
    HeadIsRead(texts, priorities, inp, retrieved, budget, o, b);
    FillingIsRead(texts, priorities, inp, retrieved, budget, o, b);
    RestIsRead(texts, priorities, inp, retrieved, budget, o, b, |filled|);
    assert forall k | 0 <= k < |filled| :: b.decisions[k] == filled[k];
  }

  method FillContext(texts: Texts, priorities: seq<Priority>, inp: ContextInput, retrieved: Retrieved, budget: nat)
    returns (profile: string, f: Fill)
    ensures profile == ProfileStart(texts, inp, budget).0
    ensures f == Filling(texts, priorities, inp, retrieved, budget)
  {
    var (block, start) := ProfileStart(texts, inp, budget);
    profile := block;
    var budgetLeft := start.used < budget;
    var head := if budgetLeft then start.decisions else start.decisions + NoBudgetDecisions(inp);
    f := FillLayersLoop(PromptFrame(texts, inp.systemPrompt, profile, budget), start.(decisions := head),
                        ActiveLayers(priorities), PoolOf(inp, retrieved, budgetLeft));
  }

  /** Building the context. It fails only if the system prompt alone is over budget, or if some record would have a
      negative cost; what it builds is the filling, within the budget, with every candidate recorded once and with
      records that together charge what the prompt costs. */
  method Build(texts: Texts, priorities: seq<Priority>, inp: ContextInput, retrieved: Retrieved, budget: nat)
    returns (r: Result<Built, PlanError>)
    ensures SystemCost(texts, inp) > budget ==>
              r == Err(Overflow(SystemCost(texts, inp), budget, SystemPromptSection, SystemGuard))
    ensures SystemCost(texts, inp) <= budget ==>
              var ds := Filling(texts, priorities, inp, retrieved, budget).decisions;
              var negative := exists k | 0 <= k < |ds| ::
                                ds[k].tokenCost < 0 || (ds[k].candidateTokens.Some? && ds[k].candidateTokens.value < 0);
              if negative then r == Err(InvalidRecord) else r.Ok? && AllValid(ds)
    ensures r.Ok? ==> BuiltFrom(texts, priorities, inp, retrieved, budget, r.value)
    ensures r.Ok? ==> r.value.used == texts.count(r.value.prompt)
    ensures r.Ok? && r.value.prompt != "" ==> r.value.used <= budget
    ensures r.Ok? && (r.value.prompt != "" || texts.count("") == 0) ==> Charged(r.value.decisions) == r.value.used
    ensures r.Ok? && Distinct(ActiveLayers(priorities)) ==>
              && RecordsEach(texts, priorities, inp, retrieved, budget, r.value.decisions)
              && BuiltReads(texts, priorities, inp, retrieved, budget, r.value)
  {
    hide RecordsEach, RestTold, BuiltReads, Filling, ProfileStart, PoolFor, ActiveLayers, AssemblePrompt;
    var system := if inp.systemPrompt != "" then texts.count(inp.systemPrompt) else 0;
    if system > budget {
      return Err(Overflow(system, budget, SystemPromptSection, SystemGuard));
    }
    var profile, f := FillContext(texts, priorities, inp, retrieved, budget);
    if !AllValid(f.decisions) {
      return Err(InvalidRecord);
    }
    var decisions := RecordRest(texts, priorities, inp, retrieved, budget, f);
    var prompt := AssemblePrompt(texts, inp.systemPrompt, profile, f.rag, f.session);
    PromptWithinBudget(texts, priorities, inp, retrieved, budget);
    FillingCharges(texts, priorities, inp, retrieved, budget);
    r := Ok(Built(prompt, f.rag, f.session, profile != "", texts.count(prompt), decisions));
    if Distinct(ActiveLayers(priorities)) {
      BuiltIsRead(texts, priorities, inp, retrieved, budget, r.value);
    }
  }

  // Adding a block or a profile never lowers the count.
  ghost predicate MonotoneTexts(texts: Texts) {
    && (forall system, profile :: texts.count(AssemblePrompt(texts, system, profile, [], [])) >= texts.count(system))
    && (forall system, profile, budget :: Monotone(PromptFrame(texts, system, profile, budget)))
  }

  /** For such a counter no record is refused. */
  lemma RecordsAreValid(
      texts: Texts, priorities: seq<Priority>, inp: ContextInput, retrieved: Retrieved, budget: nat)
    requires MonotoneTexts(texts)
    ensures AllValid(Filling(texts, priorities, inp, retrieved, budget).decisions)
  {
    hide AssemblePrompt, RequestedProfile, ActiveLayers, PoolOf, FillLayers;
    var (profile, start) := ProfileStart(texts, inp, budget);
    var frame := PromptFrame(texts, inp.systemPrompt, profile, budget);
    var head := HeadDecisions(texts, inp, budget);
    AssembleAlone(texts, inp.systemPrompt);
    assert frame.promptCost([], []) == texts.count(AssemblePrompt(texts, inp.systemPrompt, profile, [], []));
    FillIsValid(frame, start.(decisions := head), ActiveLayers(priorities), PoolFor(texts, inp, retrieved, budget));
  }
}
