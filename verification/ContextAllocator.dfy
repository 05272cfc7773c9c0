/** Filling the system context under a token budget: the prompt is mandatory, the profile is taken whole or not at
    all, retrieved blocks are taken in order until one no longer fits and is cut at a word. */
module ContextAllocator {
  import opened Options
  import opened ContextPlan
  import opened ContextText

  datatype Layer = Rag | Session

  // A section named by a priority list; names other than these are ignored.
  datatype Priority = SystemSection | ProfileSection | RetrievalSection(layer: Layer)

  /* Cutting a text */

  // The search of the cutting loop, on any test of lengths.
  function LongestFit(low: nat, high: nat, fits: nat -> bool): nat
    requires low <= high
    decreases high - low
  {
    if low == high then low
    else
      var mid := (low + high + 1) / 2;
      if fits(mid) then LongestFit(mid, high, fits) else LongestFit(low, mid - 1, fits)
  }

  /** What the search finds was tried and fits, or nothing is kept. If shorter never fits worse, it is the longest. */
  lemma {:induction false} LongestFitFits(low: nat, high: nat, fits: nat -> bool)
    requires low <= high
    ensures low <= LongestFit(low, high, fits) <= high
    ensures LongestFit(low, high, fits) == low || fits(LongestFit(low, high, fits))
    ensures (forall j, k: nat | 0 < j <= k && fits(k) :: fits(j)) ==>
            forall k: nat | LongestFit(low, high, fits) < k <= high :: !fits(k)
    decreases high - low
  {
    if low != high {
      var mid := (low + high + 1) / 2;
      if fits(mid) {
        LongestFitFits(mid, high, fits);
      } else {
        LongestFitFits(low, mid - 1, fits);
      }
    }
  }

  method TruncateToFit(words: seq<string>, fits: nat -> bool) returns (low: nat)
    ensures low == LongestFit(0, |words|, fits) <= |words|
    ensures low == 0 || fits(low)
    ensures (forall j, k: nat | 0 < j <= k && fits(k) :: fits(j)) ==> forall k: nat | low < k <= |words| :: !fits(k)
  {
    LongestFitFits(0, |words|, fits);
    var high;
    low, high := 0, |words|;
    while low < high
      invariant low <= high <= |words|
      invariant LongestFit(0, |words|, fits) == LongestFit(low, high, fits)
    {
      var mid := (low + high + 1) / 2;
      if fits(mid) {
        low := mid;
      } else {
        high := mid - 1;
      }
    }
  }

  /* Filling the layers */

  datatype Candidate = Candidate(layer: Layer, index: nat, text: string)

  // What stays fixed while blocks are taken: the cost of the whole prompt with given blocks, and the budget.
  datatype Frame = Frame(
    promptCost: (seq<string>, seq<string>) -> nat, count: string -> nat, split: string -> seq<string>, budget: nat)

  // The frame of a prompt and a profile that are already taken.
  function PromptFrame(texts: Texts, system: string, profile: string, budget: nat): Frame {
    Frame((rag: seq<string>, session: seq<string>) => texts.count(AssemblePrompt(texts, system, profile, rag, session)),
          texts.count, texts.split, budget)
  }

  // The blocks taken so far, what they cost together, the records made, and whether a block was cut.
  datatype Fill = Fill(rag: seq<string>, session: seq<string>, used: int, decisions: seq<Decision>, cut: bool)

  function LabelOf(c: Candidate): BlockId {
    match c.layer
    case Rag => RagBlock(c.index)
    case Session => SessionBlock(c.index)
  }

  function Taken(f: Fill, layer: Layer): seq<string> {
    match layer
    case Rag => f.rag
    case Session => f.session
  }

  // The cost of the whole prompt with the text added.
  function ProposedTotal(frame: Frame, f: Fill, layer: Layer, text: string): nat {
    match layer
    case Rag => frame.promptCost(f.rag + [text], f.session)
    case Session => frame.promptCost(f.rag, f.session + [text])
  }

  function Record(frame: Frame, f: Fill, c: Candidate, verdict: Verdict, reason: Reason, cost: int): Fill {
    f.(decisions := f.decisions + [Decision(LabelOf(c), verdict, reason, cost, Some(frame.count(c.text)))])
  }

  function Accept(frame: Frame, f: Fill, c: Candidate, text: string): Fill {
    var total := ProposedTotal(frame, f, c.layer, text);
    var whole := text == c.text;
    var g := Record(frame, f, c, if whole then Included else Truncated,
                    if whole then Selected else TruncatedToBudget, total - f.used);
    match c.layer
    case Rag => g.(rag := f.rag + [text], used := total)
    case Session => g.(session := f.session + [text], used := total)
  }

  // A candidate is recorded as dropped once only.
  function Drop(frame: Frame, f: Fill, c: Candidate, reason: Reason): Fill {
    if exists k | 0 <= k < |f.decisions| :: f.decisions[k].block == LabelOf(c) && f.decisions[k].verdict == Excluded
    then f
    else Record(frame, f, c, Excluded, reason, 0)
  }

  function DropAll(frame: Frame, f: Fill, cs: seq<Candidate>, reason: Reason): Fill
    decreases |cs|
  {
    if cs == [] then f else DropAll(frame, Drop(frame, f, cs[0], reason), cs[1..], reason)
  }

  // Whether the first k words fit beside what is taken.
  function FitTest(frame: Frame, f: Fill, layer: Layer, words: seq<string>): nat -> bool {
    (k: nat) => k <= |words| && ProposedTotal(frame, f, layer, CutText(words, k)) <= frame.budget
  }

  // The cut of the text that the search finds.
  function Trimmed(frame: Frame, f: Fill, c: Candidate): string {
    var words := frame.split(c.text);
    var fits := FitTest(frame, f, c.layer, words);
    LongestFitFits(0, |words|, fits);
    CutText(words, LongestFit(0, |words|, fits))
  }

  // One layer, candidate by candidate.
  function FillLayer(frame: Frame, f: Fill, cs: seq<Candidate>): Fill
    decreases |cs|
  {
    if cs == [] then f
    else if ProposedTotal(frame, f, cs[0].layer, cs[0].text) <= frame.budget then
      FillLayer(frame, Accept(frame, f, cs[0], cs[0].text), cs[1..])
    else
      var trimmed := Trimmed(frame, f, cs[0]);
      if trimmed != "" then
        DropAll(frame, Accept(frame, f, cs[0], trimmed).(cut := true), cs[1..], BudgetExhausted)
      else
        DropAll(frame, f, cs, OverBudget)
  }

  // The candidates of each layer, in retrieval order.
  type Pool = Layer -> seq<Candidate>

  function DropLayers(frame: Frame, f: Fill, layers: seq<Layer>, pool: Pool): Fill
    decreases |layers|
  {
    if layers == [] then f
    else DropLayers(frame, DropAll(frame, f, pool(layers[0]), BudgetExhausted), layers[1..], pool)
  }

  // The layers in their order of priority; a cut block ends the filling.
  function FillLayers(frame: Frame, f: Fill, layers: seq<Layer>, pool: Pool): Fill
    decreases |layers|
  {
    if layers == [] then f
    else
      var g := FillLayer(frame, f, pool(layers[0]));
      if g.cut then DropLayers(frame, g, layers[1..], pool) else FillLayers(frame, g, layers[1..], pool)
  }

  /* The loops of the program */

  method FillLayerLoop(frame: Frame, start: Fill, cs: seq<Candidate>) returns (f: Fill)
    requires !start.cut
    ensures f == FillLayer(frame, start, cs)
  {
    f := start;
    var i := 0;
    while i < |cs|
      invariant 0 <= i <= |cs|
      invariant FillLayer(frame, start, cs) == FillLayer(frame, f, cs[i..])
    {
      var c := cs[i];
      assert cs[i..][0] == c && cs[i..][1..] == cs[i + 1..];
      if ProposedTotal(frame, f, c.layer, c.text) <= frame.budget {
        f := Accept(frame, f, c, c.text);
        i := i + 1;
      } else {
        var words := frame.split(c.text);
        var low := TruncateToFit(words, FitTest(frame, f, c.layer, words));
        var trimmed := CutText(words, low);
        if trimmed != "" {
          f := Accept(frame, f, c, trimmed).(cut := true);
          f := DropAll(frame, f, cs[i + 1..], BudgetExhausted);
        } else {
          f := DropAll(frame, f, cs[i..], OverBudget);
        }
        return;
      }
    }
  }

  method FillLayersLoop(frame: Frame, start: Fill, layers: seq<Layer>, pool: Pool) returns (f: Fill)
    requires !start.cut
    ensures f == FillLayers(frame, start, layers, pool)
  {
    f := start;
    for i := 0 to |layers|
      invariant !f.cut
      invariant FillLayers(frame, start, layers, pool) == FillLayers(frame, f, layers[i..], pool)
    {
      assert layers[i..][0] == layers[i] && layers[i..][1..] == layers[i + 1..];
      f := FillLayerLoop(frame, f, pool(layers[i]));
      if f.cut {
        f := DropLayers(frame, f, layers[i + 1..], pool);
        return;
      }
    }
  }

  /* What filling guarantees, for any counter */

  /** A cut block was tried and fits. If adding words never lowers the count, no longer cut of it fits. */
  lemma TrimmedFits(frame: Frame, f: Fill, c: Candidate)
    ensures Trimmed(frame, f, c) != "" ==> ProposedTotal(frame, f, c.layer, Trimmed(frame, f, c)) <= frame.budget
    ensures var words := frame.split(c.text);
            var fits := FitTest(frame, f, c.layer, words);
            (forall j, k: nat | 0 < j <= k && fits(k) :: fits(j)) ==>
              exists n: nat :: n <= |words| && Trimmed(frame, f, c) == CutText(words, n)
                               && forall k: nat | n < k <= |words| :: !fits(k)
  {
    var words := frame.split(c.text);
    LongestFitFits(0, |words|, FitTest(frame, f, c.layer, words));
  }

  lemma {:induction false} DropKeepsBlocks(frame: Frame, f: Fill, cs: seq<Candidate>, reason: Reason)
    ensures var g := DropAll(frame, f, cs, reason);
            g.rag == f.rag && g.session == f.session && g.used == f.used && g.cut == f.cut
    decreases |cs|
  {
    if cs != [] {
      DropKeepsBlocks(frame, Drop(frame, f, cs[0], reason), cs[1..], reason);
    }
  }

  lemma {:induction false} DropLayersKeepsBlocks(frame: Frame, f: Fill, layers: seq<Layer>, pool: Pool)
    ensures var g := DropLayers(frame, f, layers, pool);
            g.rag == f.rag && g.session == f.session && g.used == f.used && g.cut == f.cut
    decreases |layers|
  {
    if layers != [] {
      DropKeepsBlocks(frame, f, pool(layers[0]), BudgetExhausted);
      DropLayersKeepsBlocks(frame, DropAll(frame, f, pool(layers[0]), BudgetExhausted), layers[1..], pool);
    }
  }

  // What is charged for the blocks is what the prompt with them costs, and the budget holds.
  ghost predicate WithinBudget(frame: Frame, f: Fill) {
    && f.used <= frame.budget
    && (f.rag != [] || f.session != [] ==> f.used == frame.promptCost(f.rag, f.session))
  }

  lemma {:induction false} FillLayerWithinBudget(frame: Frame, f: Fill, cs: seq<Candidate>)
    requires WithinBudget(frame, f)
    ensures WithinBudget(frame, FillLayer(frame, f, cs))
    decreases |cs|
  {
    if cs != [] {
      if ProposedTotal(frame, f, cs[0].layer, cs[0].text) <= frame.budget {
        FillLayerWithinBudget(frame, Accept(frame, f, cs[0], cs[0].text), cs[1..]);
      } else {
        TrimmedFits(frame, f, cs[0]);
        DropKeepsBlocks(frame, Accept(frame, f, cs[0], Trimmed(frame, f, cs[0])).(cut := true), cs[1..],
                        BudgetExhausted);
        DropKeepsBlocks(frame, f, cs, OverBudget);
      }
    }
  }

  /** The prompt never exceeds the budget. */
  lemma {:induction false} FillLayersWithinBudget(frame: Frame, f: Fill, layers: seq<Layer>, pool: Pool)
    requires WithinBudget(frame, f)
    ensures WithinBudget(frame, FillLayers(frame, f, layers, pool))
    decreases |layers|
  {
    if layers != [] {
      FillLayerWithinBudget(frame, f, pool(layers[0]));
      var g := FillLayer(frame, f, pool(layers[0]));
      if g.cut {
        DropLayersKeepsBlocks(frame, g, layers[1..], pool);
      } else {
        FillLayersWithinBudget(frame, g, layers[1..], pool);
      }
    }
  }

  /* Which blocks are taken */

  function TextsOf(cs: seq<Candidate>): (ts: seq<string>)
    ensures |ts| == |cs| && forall k | 0 <= k < |ts| :: ts[k] == cs[k].text
  {
    seq(|cs|, k requires 0 <= k < |cs| => cs[k].text)
  }

  function Other(layer: Layer): Layer {
    match layer
    case Rag => Session
    case Session => Rag
  }

  // Some blocks of a layer beside blocks of the other.
  function Beside(layer: Layer, mine: seq<string>, others: seq<string>): Fill {
    match layer
    case Rag => Fill(mine, others, 0, [], false)
    case Session => Fill(others, mine, 0, [], false)
  }

  // The first k words and an ellipsis fit beside what is taken.
  ghost predicate CutFits(frame: Frame, f: Fill, layer: Layer, words: seq<string>, k: nat) {
    exists text :: IsCutOf(text, words, k) && ProposedTotal(frame, f, layer, text) <= frame.budget
  }

  ghost function CutTest(frame: Frame, f: Fill, layer: Layer, words: seq<string>): nat -> bool {
    (k: nat) => CutFits(frame, f, layer, words, k)
  }

  // The search settles on the first m words of the candidate: they fit, or there are none; if fewer words never fit
  // worse, no more do.
  ghost predicate LongestCut(frame: Frame, f: Fill, c: Candidate, m: nat) {
    var words := frame.split(c.text);
    && m <= |words| && m == LongestFit(0, |words|, CutTest(frame, f, c.layer, words))
    && (m > 0 ==> CutFits(frame, f, c.layer, words, m))
    && ((forall j, k: nat | 0 < j <= k && CutFits(frame, f, c.layer, words, k) ::
           CutFits(frame, f, c.layer, words, j)) ==>
          forall k: nat | m < k <= |words| :: !CutFits(frame, f, c.layer, words, k))
  }

  // What is tried is what is read.
  lemma TriesCuts(frame: Frame, f: Fill, layer: Layer, words: seq<string>, k: nat)
    requires 0 < k <= |words|
    ensures FitTest(frame, f, layer, words)(k) <==> CutFits(frame, f, layer, words, k)
  {
    hide IsCutOf, CutText, ProposedTotal;
    CutIs(words, k);
    if text :| IsCutOf(text, words, k) && ProposedTotal(frame, f, layer, text) <= frame.budget {
      OneCut(text, words, k);
    }
  }

  // Of the candidates the first n fit whole, each beside those before it and the blocks of the other layer. The next
  // one, if there is one, does not; of it as many words are taken as the search finds, and that is the cut.
  ghost predicate TakesWhatFits(
      frame: Frame, layer: Layer, cs: seq<Candidate>, others: seq<string>, n: nat, cut: bool, taken: seq<string>)
  {
    && n <= |cs|
    && AllFit(frame, layer, cs, others, n)
    && if n == |cs| then !cut && taken == TextsOf(cs) else
         var f := Beside(layer, TextsOf(cs[..n]), others);
         && ProposedTotal(frame, f, layer, cs[n].text) > frame.budget
         && exists m: nat :: LongestCut(frame, f, cs[n], m) && (cut <==> m > 0) && EndsWithCut(frame, cs, n, m, taken)
  }

  ghost predicate AllFit(frame: Frame, layer: Layer, cs: seq<Candidate>, others: seq<string>, n: nat)
    requires n <= |cs|
  {
    forall k | 0 <= k < n ::
      ProposedTotal(frame, Beside(layer, TextsOf(cs[..k]), others), layer, cs[k].text) <= frame.budget
  }

  // The blocks are those before the candidate n, and m words of it if that is any.
  ghost predicate EndsWithCut(frame: Frame, cs: seq<Candidate>, n: nat, m: nat, taken: seq<string>)
    requires n < |cs|
  {
    && |taken| == n + (if m > 0 then 1 else 0)
    && (forall k | 0 <= k < n :: taken[k] == cs[k].text)
    && (m > 0 ==> IsCutOf(taken[n], frame.split(cs[n].text), m))
  }

  // What a block would cost depends on the blocks that are there and on nothing else.
  lemma SameCut(frame: Frame, f: Fill, g: Fill, c: Candidate, m: nat)
    requires f.rag == g.rag && f.session == g.session && LongestCut(frame, f, c, m)
    ensures LongestCut(frame, g, c, m)
  {
    hide IsCutOf;
    var words := frame.split(c.text);
    forall k: nat
      ensures CutFits(frame, f, c.layer, words, k) <==> CutFits(frame, g, c.layer, words, k)
    {
      assert forall text :: ProposedTotal(frame, f, c.layer, text) == ProposedTotal(frame, g, c.layer, text);
    }
    SameSearch(0, |words|, CutTest(frame, f, c.layer, words), CutTest(frame, g, c.layer, words));
  }

  lemma {:induction false} SameSearch(low: nat, high: nat, fits: nat -> bool, fits': nat -> bool)
    requires low <= high && forall k: nat | 0 < k <= high :: fits(k) <==> fits'(k)
    ensures LongestFit(low, high, fits) == LongestFit(low, high, fits')
    decreases high - low
  {
    if low != high {
      var mid := (low + high + 1) / 2;
      if fits(mid) {
        SameSearch(mid, high, fits, fits');
      } else {
        SameSearch(low, mid - 1, fits, fits');
      }
    }
  }

  lemma TrimmedIsLongest(frame: Frame, f: Fill, c: Candidate) returns (m: nat)
    ensures LongestCut(frame, f, c, m) && m <= |frame.split(c.text)|
    ensures m > 0 <==> Trimmed(frame, f, c) != ""
    ensures m > 0 ==> IsCutOf(Trimmed(frame, f, c), frame.split(c.text), m)
  {
    hide IsCutOf, CutFits, ProposedTotal;
    var words := frame.split(c.text);
    var fits, cuts := FitTest(frame, f, c.layer, words), CutTest(frame, f, c.layer, words);
    forall k: nat | 0 < k <= |words|
      ensures fits(k) <==> cuts(k)
    {
      TriesCuts(frame, f, c.layer, words, k);
    }
    SameSearch(0, |words|, fits, cuts);
    LongestFitFits(0, |words|, cuts);
    assert forall k: nat :: cuts(k) <==> CutFits(frame, f, c.layer, words, k);
    m := LongestFit(0, |words|, cuts);
    if m > 0 {
      CutIs(words, m);
    }
  }

  // The layer ends at the candidate n, of which m words are taken.
  lemma EndsAt(frame: Frame, f: Fill, layer: Layer, cs: seq<Candidate>, n: nat, m: nat, taken: seq<string>)
    requires n < |cs| && cs[n].layer == layer && Taken(f, layer) == TextsOf(cs[..n])
    requires AllFit(frame, layer, cs, Taken(f, Other(layer)), n)
    requires ProposedTotal(frame, f, layer, cs[n].text) > frame.budget
    requires LongestCut(frame, f, cs[n], m) && EndsWithCut(frame, cs, n, m, taken)
    ensures TakesWhatFits(frame, layer, cs, Taken(f, Other(layer)), n, m > 0, taken)
  {
    var g := Beside(layer, TextsOf(cs[..n]), Taken(f, Other(layer)));
    SameCut(frame, f, g, cs[n], m);
  }

  lemma {:induction false} FillLayerTakesPrefix(frame: Frame, f: Fill, cs: seq<Candidate>, i: nat, layer: Layer)
    returns (n: nat)
    requires i <= |cs| && !f.cut && Taken(f, layer) == TextsOf(cs[..i])
    requires forall k | 0 <= k < |cs| :: cs[k].layer == layer
    requires AllFit(frame, layer, cs, Taken(f, Other(layer)), i)
    ensures var g := FillLayer(frame, f, cs[i..]);
            && TakesWhatFits(frame, layer, cs, Taken(f, Other(layer)), n, g.cut, Taken(g, layer))
            && Taken(g, Other(layer)) == Taken(f, Other(layer))
    decreases |cs| - i
  {
    hide Trimmed, LongestCut;
    n := i;
    if i == |cs| {
      assert cs[..i] == cs;
    } else {
      var c, trimmed := cs[i], Trimmed(frame, f, cs[i]);
      assert cs[i..][0] == c && cs[i..][1..] == cs[i + 1..];
      assert TextsOf(cs[..i + 1]) == TextsOf(cs[..i]) + [c.text];
      if ProposedTotal(frame, f, layer, c.text) <= frame.budget {
        n := FillLayerTakesPrefix(frame, Accept(frame, f, c, c.text), cs, i + 1, layer);
      } else {
        var m := TrimmedIsLongest(frame, f, c);
        if trimmed != "" {
          EndsAt(frame, f, layer, cs, i, m, TextsOf(cs[..i]) + [trimmed]);
          DropKeepsBlocks(frame, Accept(frame, f, c, trimmed).(cut := true), cs[i + 1..], BudgetExhausted);
        } else {
          EndsAt(frame, f, layer, cs, i, m, TextsOf(cs[..i]));
          DropKeepsBlocks(frame, f, cs[i..], OverBudget);
        }
      }
    }
  }

  ghost predicate PoolInOrder(pool: Pool) {
    forall layer: Layer, k: nat | k < |pool(layer)| ::
      pool(layer)[k].layer == layer && pool(layer)[k].index == k
  }

  // The taken blocks of a layer that was filled beside the given blocks of the other.
  ghost predicate LayerFilled(frame: Frame, pool: Pool, layer: Layer, others: seq<string>, cut: bool, f: Fill) {
    exists n: nat :: TakesWhatFits(frame, layer, pool(layer), others, n, cut, Taken(f, layer))
  }

  // The first layer is filled alone, the second beside it, unless the first was cut.
  ghost predicate PrefixesTaken(
      frame: Frame, layers: seq<Layer>, pool: Pool, g: Fill, cutFirst: bool, cutSecond: bool)
    requires |layers| <= 2
  {
    && (layers == [] ==> !cutFirst) && (|layers| < 2 || cutFirst ==> !cutSecond)
    && (g.cut <==> cutFirst || cutSecond)
    && (layers != [] ==> LayerFilled(frame, pool, layers[0], [], cutFirst, g))
    && (|layers| == 2 ==>
          if cutFirst then Taken(g, layers[1]) == []
          else LayerFilled(frame, pool, layers[1], Taken(g, layers[0]), cutSecond, g))
    && (forall layer: Layer | layer !in layers :: Taken(g, layer) == [])
  }

  /** Of each layer blocks are taken whole, in retrieval order, as long as they fit; of the first that does not fit as
      many words are taken as fit. Only if there are none the filling goes on with the next layer, so at most one block
      of all is cut. */
  lemma FillTakesPrefixes(frame: Frame, f: Fill, layers: seq<Layer>, pool: Pool)
    returns (cutFirst: bool, cutSecond: bool)
    requires PoolInOrder(pool) && |layers| <= 2 && (|layers| == 2 ==> layers[0] != layers[1])
    requires !f.cut && f.rag == [] && f.session == []
    ensures PrefixesTaken(frame, layers, pool, FillLayers(frame, f, layers, pool), cutFirst, cutSecond)
  {
    hide LayerFilled;
    if layers == [] {
      return false, false;
    }
    var first := FillFirstLayer(frame, f, layers[0], pool);
    NoOther(layers);
    if first.cut {
      DropLayersKeepsBlocks(frame, first, layers[1..], pool);
      SameBlocksFilled(frame, pool, layers[0], [], true, first, FillLayers(frame, f, layers, pool));
      return true, false;
    } else if |layers| == 1 {
      assert layers[1..] == [] && FillLayers(frame, f, layers, pool) == FillLayers(frame, first, [], pool) == first;
      return false, false;
    } else {
      TwoLayers(frame, f, layers, pool, first);
      return false, FillLayers(frame, f, layers, pool).cut;
    }
  }

  lemma NoOther(layers: seq<Layer>)
    requires 1 <= |layers| <= 2 && (|layers| == 2 ==> layers[0] != layers[1])
    ensures forall layer | layer !in layers :: layer == Other(layers[0])
    ensures |layers| == 2 ==> layers[1] == Other(layers[0]) && forall layer: Layer :: layer in layers
  {
  }

  lemma {:induction false} TwoLayers(frame: Frame, f: Fill, layers: seq<Layer>, pool: Pool, first: Fill)
    requires PoolInOrder(pool) && |layers| == 2 && layers[1] == Other(layers[0])
    requires first == FillLayer(frame, f, pool(layers[0])) && !first.cut && Taken(first, layers[1]) == []
    requires LayerFilled(frame, pool, layers[0], [], false, first)
    ensures var g := FillLayers(frame, f, layers, pool);
            && LayerFilled(frame, pool, layers[0], [], false, g)
            && LayerFilled(frame, pool, layers[1], Taken(g, layers[0]), g.cut, g)
  {
    hide LayerFilled, FillLayer, PoolInOrder;
    var rest := layers[1..];
    var g := FillFirstLayer(frame, first, layers[1], pool);
    assert rest[0] == layers[1] && rest[1..] == [];
    assert FillLayers(frame, f, layers, pool) == FillLayers(frame, first, rest, pool);
    assert FillLayers(frame, g, [], pool) == g == DropLayers(frame, g, [], pool);
    SameBlocksFilled(frame, pool, layers[0], [], false, first, g);
  }

  lemma SameBlocksFilled(
      frame: Frame, pool: Pool, layer: Layer, others: seq<string>, cut: bool, f: Fill, g: Fill)
    requires LayerFilled(frame, pool, layer, others, cut, f) && Taken(g, layer) == Taken(f, layer)
    ensures LayerFilled(frame, pool, layer, others, cut, g)
  {
    hide TakesWhatFits;
    var n: nat :| TakesWhatFits(frame, layer, pool(layer), others, n, cut, Taken(f, layer));
    assert TakesWhatFits(frame, layer, pool(layer), others, n, cut, Taken(g, layer));
  }

  // Filling a layer nothing was taken of.
  lemma FillFirstLayer(frame: Frame, f: Fill, layer: Layer, pool: Pool) returns (g: Fill)
    requires PoolInOrder(pool) && !f.cut && Taken(f, layer) == []
    ensures g == FillLayer(frame, f, pool(layer))
    ensures LayerFilled(frame, pool, layer, Taken(f, Other(layer)), g.cut, g)
    ensures Taken(g, Other(layer)) == Taken(f, Other(layer))
  {
    hide TakesWhatFits;
    var cs := pool(layer);
    g := FillLayer(frame, f, cs);
    assert cs[0..] == cs && TextsOf(cs[..0]) == [];
    var n := FillLayerTakesPrefix(frame, f, cs, 0, layer);
  }

  /* The records */

  function Labels(ds: seq<Decision>): (ls: seq<BlockId>)
    ensures |ls| == |ds| && forall k | 0 <= k < |ls| :: ls[k] == ds[k].block
  {
    seq(|ds|, k requires 0 <= k < |ds| => ds[k].block)
  }

  function LabelsOf(cs: seq<Candidate>): (ls: seq<BlockId>)
    ensures |ls| == |cs| && forall k | 0 <= k < |ls| :: ls[k] == LabelOf(cs[k])
  {
    seq(|cs|, k requires 0 <= k < |cs| => LabelOf(cs[k]))
  }

  // No record yet of any of the candidates, and no two candidates alike.
  ghost predicate Unrecorded(ds: seq<Decision>, cs: seq<Candidate>) {
    && (forall k, l | 0 <= k < |ds| && 0 <= l < |cs| :: ds[k].block != LabelOf(cs[l]))
    && (forall k, l | 0 <= k < l < |cs| :: LabelOf(cs[k]) != LabelOf(cs[l]))
  }

  lemma RecordStep(ds: seq<Decision>, d: Decision, cs: seq<Candidate>)
    requires Unrecorded(ds, cs) && cs != [] && d.block == LabelOf(cs[0])
    ensures Unrecorded(ds + [d], cs[1..])
    ensures Labels(ds + [d]) + LabelsOf(cs[1..]) == Labels(ds) + LabelsOf(cs)
  {
  }

  lemma {:induction false} DropRecordsAll(frame: Frame, f: Fill, cs: seq<Candidate>, reason: Reason)
    requires Unrecorded(f.decisions, cs)
    ensures Labels(DropAll(frame, f, cs, reason).decisions) == Labels(f.decisions) + LabelsOf(cs)
    decreases |cs|
  {
    if cs != [] {
      var g := Drop(frame, f, cs[0], reason);
      RecordStep(f.decisions, g.decisions[|f.decisions|], cs);
      DropRecordsAll(frame, g, cs[1..], reason);
    }
  }

  lemma {:induction false} CutRecordsAll(frame: Frame, f: Fill, cs: seq<Candidate>, trimmed: string)
    requires Unrecorded(f.decisions, cs) && cs != []
    ensures Labels(DropAll(frame, Accept(frame, f, cs[0], trimmed).(cut := true), cs[1..],
                           BudgetExhausted).decisions) ==
            Labels(f.decisions) + LabelsOf(cs)
  {
    var g := Accept(frame, f, cs[0], trimmed).(cut := true);
    RecordStep(f.decisions, g.decisions[|f.decisions|], cs);
    DropRecordsAll(frame, g, cs[1..], BudgetExhausted);
  }

  lemma {:induction false} FillLayerRecordsAll(frame: Frame, f: Fill, cs: seq<Candidate>)
    requires Unrecorded(f.decisions, cs)
    ensures Labels(FillLayer(frame, f, cs).decisions) == Labels(f.decisions) + LabelsOf(cs)
    decreases |cs|
  {
    if cs != [] {
      if ProposedTotal(frame, f, cs[0].layer, cs[0].text) <= frame.budget {
        var g := Accept(frame, f, cs[0], cs[0].text);
        RecordStep(f.decisions, g.decisions[|f.decisions|], cs);
        FillLayerRecordsAll(frame, g, cs[1..]);
      } else if Trimmed(frame, f, cs[0]) != "" {
        CutRecordsAll(frame, f, cs, Trimmed(frame, f, cs[0]));
      } else {
        DropRecordsAll(frame, f, cs, OverBudget);
      }
    }
  }

  function PoolLabels(layers: seq<Layer>, pool: Pool): seq<BlockId> {
    if layers == [] then [] else LabelsOf(pool(layers[0])) + PoolLabels(layers[1..], pool)
  }

  ghost predicate NoBlockRecorded(ds: seq<Decision>, layers: seq<Layer>, pool: Pool) {
    && (forall k, layer | 0 <= k < |ds| && layer in layers :: ds[k].block !in LabelsOf(pool(layer)))
    && (forall i, j | 0 <= i < j < |layers| :: layers[i] != layers[j])
  }

  lemma LayerUnrecorded(ds: seq<Decision>, layers: seq<Layer>, pool: Pool)
    requires PoolInOrder(pool) && NoBlockRecorded(ds, layers, pool) && layers != []
    ensures Unrecorded(ds, pool(layers[0]))
  {
    var cs := pool(layers[0]);
    forall k, l | 0 <= k < |ds| && 0 <= l < |cs|
      ensures ds[k].block != LabelOf(cs[l])
    {
      assert LabelsOf(cs)[l] == LabelOf(cs[l]);
    }
  }

  lemma LayerRecorded(ds: seq<Decision>, ds': seq<Decision>, layers: seq<Layer>, pool: Pool)
    requires PoolInOrder(pool) && NoBlockRecorded(ds, layers, pool) && layers != []
    requires Labels(ds') == Labels(ds) + LabelsOf(pool(layers[0]))
    ensures NoBlockRecorded(ds', layers[1..], pool)
  {
    var cs := pool(layers[0]);
    forall k, layer | 0 <= k < |ds'| && layer in layers[1..]
      ensures ds'[k].block !in LabelsOf(pool(layer))
    {
      assert |ds'| == |Labels(ds')| == |ds| + |cs|;
      if k < |ds| {
        assert ds'[k].block == Labels(ds')[k] == ds[k].block;
      } else {
        assert ds'[k].block == Labels(ds')[k] == LabelOf(cs[k - |ds|]);
      }
    }
  }

  lemma SplitLabels(a: seq<BlockId>, b: seq<BlockId>, c: seq<BlockId>)
    ensures (a + b) + c == a + (b + c)
  {
  }

  lemma {:induction false} DropLayersRecordsAll(frame: Frame, f: Fill, layers: seq<Layer>, pool: Pool)
    requires PoolInOrder(pool) && NoBlockRecorded(f.decisions, layers, pool)
    ensures Labels(DropLayers(frame, f, layers, pool).decisions) == Labels(f.decisions) + PoolLabels(layers, pool)
    decreases |layers|
  {
    hide DropAll, Unrecorded, NoBlockRecorded;
    if layers != [] {
      var g := DropAll(frame, f, pool(layers[0]), BudgetExhausted);
      LayerUnrecorded(f.decisions, layers, pool);
      DropRecordsAll(frame, f, pool(layers[0]), BudgetExhausted);
      LayerRecorded(f.decisions, g.decisions, layers, pool);
      DropLayersRecordsAll(frame, g, layers[1..], pool);
      SplitLabels(Labels(f.decisions), LabelsOf(pool(layers[0])), PoolLabels(layers[1..], pool));
    }
  }

  /** Every candidate of every layer filled gets exactly one record, in the order of the layers and of retrieval. */
  lemma {:induction false} FillRecordsAll(frame: Frame, f: Fill, layers: seq<Layer>, pool: Pool)
    requires PoolInOrder(pool) && NoBlockRecorded(f.decisions, layers, pool)
    ensures Labels(FillLayers(frame, f, layers, pool).decisions) == Labels(f.decisions) + PoolLabels(layers, pool)
    decreases |layers|
  {
    if layers != [] {
      LayerUnrecorded(f.decisions, layers, pool);
      FillLayerRecordsAll(frame, f, pool(layers[0]));
      var g, labels := FillLayer(frame, f, pool(layers[0])), LabelsOf(pool(layers[0]));
      LayerRecorded(f.decisions, g.decisions, layers, pool);
      if g.cut {
        DropLayersRecordsAll(frame, g, layers[1..], pool);
      } else {
        FillRecordsAll(frame, g, layers[1..], pool);
      }
      SplitLabels(Labels(f.decisions), labels, PoolLabels(layers[1..], pool));
    }
  }

  /* What the records say */

  // The record of a candidate counts its text. What was taken of it is the whole text or a cut; if nothing was, it is
  // charged nothing and the reason is the given one.
  ghost predicate Told(d: Decision, c: Candidate, count: string -> nat, text: Option<string>, reason: Reason) {
    && d.block == (match c.layer case Rag => RagBlock(c.index) case Session => SessionBlock(c.index))
    && d.candidateTokens == Some(count(c.text))
    && match text
       case None => d.verdict == Excluded && d.reason == reason && d.tokenCost == 0
       case Some(t) =>
         && (d.verdict == Included <==> t == c.text) && (d.verdict == Truncated <==> t != c.text)
         && d.reason == if t == c.text then Selected else TruncatedToBudget
  }

  // From a place on the records are those of the candidates, of which these blocks were taken.
  ghost predicate LayerTold(
      ds: seq<Decision>, from: nat, cs: seq<Candidate>, count: string -> nat, taken: seq<string>, reason: Reason)
  {
    && from + |cs| <= |ds| && |taken| <= |cs|
    && forall k | 0 <= k < |cs| ::
         Told(ds[from + k], cs[k], count, if k < |taken| then Some(taken[k]) else None, reason)
  }

  lemma NotYetDropped(frame: Frame, f: Fill, cs: seq<Candidate>, reason: Reason)
    requires cs != [] && Unrecorded(f.decisions, cs)
    ensures Drop(frame, f, cs[0], reason) == Record(frame, f, cs[0], Excluded, reason, 0)
  {
  }

  lemma {:induction false} DropAllTold(frame: Frame, f: Fill, cs: seq<Candidate>, reason: Reason)
    requires Unrecorded(f.decisions, cs)
    ensures var g := DropAll(frame, f, cs, reason);
            && |g.decisions| == |f.decisions| + |cs| && f.decisions <= g.decisions
            && LayerTold(g.decisions, |f.decisions|, cs, frame.count, [], reason)
    decreases |cs|
  {
    hide LayerTold, Unrecorded;
    if cs == [] {
      NothingTold(f.decisions, frame.count, reason);
    } else {
      NotYetDropped(frame, f, cs, reason);
      var g, n := Drop(frame, f, cs[0], reason), |f.decisions|;
      RecordStep(f.decisions, g.decisions[n], cs);
      DropAllTold(frame, g, cs[1..], reason);
      var h := DropAll(frame, g, cs[1..], reason);
      assert h.decisions[n] == g.decisions[n] && Told(g.decisions[n], cs[0], frame.count, None, reason);
      LeftInFront(h.decisions, n, cs, frame.count, reason);
    }
  }

  // One more candidate in front, left.
  lemma LeftInFront(ds: seq<Decision>, from: nat, cs: seq<Candidate>, count: string -> nat, reason: Reason)
    requires cs != [] && from < |ds| && Told(ds[from], cs[0], count, None, reason)
    requires LayerTold(ds, from + 1, cs[1..], count, [], reason)
    ensures LayerTold(ds, from, cs, count, [], reason)
  {
    hide Told;
    forall k | 0 <= k < |cs|
      ensures Told(ds[from + k], cs[k], count, None, reason)
    {
      if k > 0 {
        assert cs[1..][k - 1] == cs[k] && ds[from + 1 + (k - 1)] == ds[from + k];
      }
    }
  }

  lemma AcceptTold(frame: Frame, f: Fill, c: Candidate, text: string, reason: Reason)
    ensures var g := Accept(frame, f, c, text);
            && |g.decisions| == |f.decisions| + 1 && g.decisions == f.decisions + [g.decisions[|f.decisions|]]
            && g.decisions[|f.decisions|].block == LabelOf(c) && g.cut == f.cut
            && Told(g.decisions[|f.decisions|], c, frame.count, Some(text), reason)
            && Taken(g, c.layer) == Taken(f, c.layer) + [text]
  {
  }

  // One more candidate in front, taken.
  lemma TakenInFront(
      ds: seq<Decision>, from: nat, cs: seq<Candidate>, count: string -> nat, taken: seq<string>, reason: Reason)
    requires cs != [] && taken != [] && from < |ds| && Told(ds[from], cs[0], count, Some(taken[0]), reason)
    requires LayerTold(ds, from + 1, cs[1..], count, taken[1..], reason)
    ensures LayerTold(ds, from, cs, count, taken, reason)
  {
    hide Told;
    forall k | 0 <= k < |cs|
      ensures Told(ds[from + k], cs[k], count, if k < |taken| then Some(taken[k]) else None, reason)
    {
      if k > 0 {
        assert cs[1..][k - 1] == cs[k] && (k < |taken| ==> taken[1..][k - 1] == taken[k]);
        assert ds[from + 1 + (k - 1)] == ds[from + k];
      }
    }
  }

  lemma NothingTold(ds: seq<Decision>, count: string -> nat, reason: Reason)
    ensures LayerTold(ds, |ds|, [], count, [], reason)
  {
  }

  // A candidate that is cut, and those behind it.
  lemma {:induction false} CutTold(frame: Frame, f: Fill, cs: seq<Candidate>, trimmed: string, layer: Layer)
    requires cs != [] && cs[0].layer == layer && Unrecorded(f.decisions, cs)
    ensures var g := DropAll(frame, Accept(frame, f, cs[0], trimmed).(cut := true), cs[1..], BudgetExhausted);
            && |g.decisions| == |f.decisions| + |cs| && f.decisions <= g.decisions
            && g.cut && Taken(g, layer) == Taken(f, layer) + [trimmed]
            && LayerTold(g.decisions, |f.decisions|, cs, frame.count, [trimmed], BudgetExhausted)
  {
    hide Told, Accept, Unrecorded, LayerTold;
    var h, n := Accept(frame, f, cs[0], trimmed).(cut := true), |f.decisions|;
    var g := DropAll(frame, h, cs[1..], BudgetExhausted);
    AcceptTold(frame, f, cs[0], trimmed, BudgetExhausted);
    RecordStep(f.decisions, h.decisions[n], cs);
    DropAllTold(frame, h, cs[1..], BudgetExhausted);
    DropKeepsBlocks(frame, h, cs[1..], BudgetExhausted);
    assert g.decisions[n] == h.decisions[n] && [trimmed][1..] == [];
    TakenInFront(g.decisions, n, cs, frame.count, [trimmed], BudgetExhausted);
  }

  // The record of each candidate of a layer, by what was taken of it.
  lemma {:induction false} FillLayerTold(frame: Frame, f: Fill, cs: seq<Candidate>, layer: Layer)
    requires !f.cut && Unrecorded(f.decisions, cs) && forall k | 0 <= k < |cs| :: cs[k].layer == layer
    ensures var g, n := FillLayer(frame, f, cs), |Taken(f, layer)|;
            && |g.decisions| == |f.decisions| + |cs| && f.decisions <= g.decisions
            && Taken(f, layer) <= Taken(g, layer)
            && LayerTold(g.decisions, |f.decisions|, cs, frame.count, Taken(g, layer)[n..],
                         if g.cut then BudgetExhausted else OverBudget)
    decreases |cs|
  {
    hide Told, Trimmed, Accept, Unrecorded, LayerTold;
    var g, n, m := FillLayer(frame, f, cs), |f.decisions|, |Taken(f, layer)|;
    if cs == [] {
      NothingTold(f.decisions, frame.count, OverBudget);
      assert Taken(f, layer)[m..] == [];
    } else if ProposedTotal(frame, f, cs[0].layer, cs[0].text) <= frame.budget {
      var reason := if g.cut then BudgetExhausted else OverBudget;
      var h := Accept(frame, f, cs[0], cs[0].text);
      AcceptTold(frame, f, cs[0], cs[0].text, reason);
      RecordStep(f.decisions, h.decisions[n], cs);
      FillLayerTold(frame, h, cs[1..], layer);
      assert g.decisions[n] == h.decisions[n] && Taken(g, layer)[m] == Taken(h, layer)[m] == cs[0].text;
      assert Taken(g, layer)[m..][1..] == Taken(g, layer)[m + 1..];
      TakenInFront(g.decisions, n, cs, frame.count, Taken(g, layer)[m..], reason);
    } else if Trimmed(frame, f, cs[0]) != "" {
      CutTold(frame, f, cs, Trimmed(frame, f, cs[0]), layer);
      assert Taken(g, layer)[m..] == [Trimmed(frame, f, cs[0])];
    } else {
      DropAllTold(frame, f, cs, OverBudget);
      DropKeepsBlocks(frame, f, cs, OverBudget);
      assert Taken(g, layer)[m..] == [];
    }
  }

  // Some block differs from its candidate.
  predicate IsCut(taken: seq<string>, cs: seq<Candidate>) {
    exists k | 0 <= k < |taken| && k < |cs| :: taken[k] != cs[k].text
  }

  // A cut fits where the whole text does not, so it is another text.
  lemma CutShows(frame: Frame, layer: Layer, cs: seq<Candidate>, others: seq<string>, n: nat, cut: bool,
                 taken: seq<string>)
    requires TakesWhatFits(frame, layer, cs, others, n, cut, taken)
    requires forall k | 0 <= k < |cs| :: cs[k].layer == layer
    ensures cut <==> IsCut(taken, cs)
  {
    hide IsCutOf, LongestFit, AllFit;
    if n < |cs| && cut {
      var f := Beside(layer, TextsOf(cs[..n]), others);
      var m: nat :| LongestCut(frame, f, cs[n], m) && (cut <==> m > 0) && EndsWithCut(frame, cs, n, m, taken);
      var words := frame.split(cs[n].text);
      var text :| IsCutOf(text, words, m) && ProposedTotal(frame, f, layer, text) <= frame.budget;
      OneCut(text, words, m);
      OneCut(taken[n], words, m);
      assert taken[n] != cs[n].text;
    }
  }

  // The records of the layers, one layer behind the other: what is left over of a layer is over budget, unless a block
  // of it or of the layer before it was cut, for then the budget is exhausted.
  ghost predicate LayersTold(frame: Frame, layers: seq<Layer>, pool: Pool, from: nat, g: Fill)
    requires |layers| <= 2
  {
    && (layers == [] ==> |g.decisions| == from)
    && (layers != [] ==>
          var cs, taken := pool(layers[0]), Taken(g, layers[0]);
          && LayerTold(g.decisions, from, cs, frame.count, taken,
                       if IsCut(taken, cs) then BudgetExhausted else OverBudget)
          && (|layers| == 1 ==> |g.decisions| == from + |cs|)
          && (|layers| == 2 ==>
                var cs', taken' := pool(layers[1]), Taken(g, layers[1]);
                && LayerTold(g.decisions, from + |cs|, cs', frame.count, taken',
                             if IsCut(taken, cs) || IsCut(taken', cs') then BudgetExhausted else OverBudget)
                && |g.decisions| == from + |cs| + |cs'|))
  }

  /** Every candidate's record says what was taken of it, or why nothing was. */
  lemma {:induction false} FillTold(frame: Frame, f: Fill, layers: seq<Layer>, pool: Pool)
    requires PoolInOrder(pool) && |layers| <= 2 && (|layers| == 2 ==> layers[0] != layers[1])
    requires !f.cut && f.rag == [] && f.session == [] && NoBlockRecorded(f.decisions, layers, pool)
    ensures LayersTold(frame, layers, pool, |f.decisions|, FillLayers(frame, f, layers, pool))
    ensures f.decisions <= FillLayers(frame, f, layers, pool).decisions
  {
    hide LayerTold, FillLayer, NoBlockRecorded, IsCut, Unrecorded;
    if layers != [] {
      var first := FirstLayerTold(frame, f, layers, pool);
      var g := FillLayers(frame, f, layers, pool);
      var rest := layers[1..];
      assert g == if first.cut then DropLayers(frame, first, rest, pool) else FillLayers(frame, first, rest, pool);
      if |layers| == 1 {
        assert rest == [] && g == first;
      } else {
        var none := rest[1..];
        assert none == [] && rest[0] == layers[1];
        if first.cut {
          DropKeepsBlocks(frame, first, pool(layers[1]), BudgetExhausted);
          LayerUnrecorded(first.decisions, rest, pool);
          DropAllTold(frame, first, pool(layers[1]), BudgetExhausted);
          var h := DropAll(frame, first, pool(layers[1]), BudgetExhausted);
          assert DropLayers(frame, h, none, pool) == h && g == h;
        } else {
          var second := FirstLayerTold(frame, first, rest, pool);
          assert FillLayers(frame, second, none, pool) == second == DropLayers(frame, second, none, pool) == g;
        }
        StaysTold(first.decisions, g.decisions, |f.decisions|, pool(layers[0]), frame.count,
                  Taken(first, layers[0]), if first.cut then BudgetExhausted else OverBudget);
      }
    }
  }

  lemma StaysTold(ds: seq<Decision>, ds': seq<Decision>, from: nat, cs: seq<Candidate>, count: string -> nat,
                  taken: seq<string>, reason: Reason)
    requires LayerTold(ds, from, cs, count, taken, reason) && ds <= ds'
    ensures LayerTold(ds', from, cs, count, taken, reason)
  {
    hide Told;
  }

  // The first of the layers left to fill, of which nothing was taken yet.
  lemma FirstLayerTold(frame: Frame, f: Fill, layers: seq<Layer>, pool: Pool) returns (g: Fill)
    requires layers != [] && PoolInOrder(pool) && !f.cut && Taken(f, layers[0]) == []
    requires NoBlockRecorded(f.decisions, layers, pool)
    ensures g == FillLayer(frame, f, pool(layers[0]))
    ensures var cs, taken := pool(layers[0]), Taken(g, layers[0]);
            && (g.cut <==> IsCut(taken, cs)) && f.decisions <= g.decisions
            && |g.decisions| == |f.decisions| + |cs|
            && LayerTold(g.decisions, |f.decisions|, cs, frame.count, taken,
                         if g.cut then BudgetExhausted else OverBudget)
    ensures NoBlockRecorded(g.decisions, layers[1..], pool)
    ensures Taken(g, Other(layers[0])) == Taken(f, Other(layers[0]))
  {
    hide TakesWhatFits, IsCut, LayerTold, NoBlockRecorded, Unrecorded;
    var layer, cs := layers[0], pool(layers[0]);
    g := FillFirstLayer(frame, f, layer, pool);
    var n: nat :| TakesWhatFits(frame, layer, cs, Taken(f, Other(layer)), n, g.cut, Taken(g, layer));
    CutShows(frame, layer, cs, Taken(f, Other(layer)), n, g.cut, Taken(g, layer));
    LayerUnrecorded(f.decisions, layers, pool);
    FillLayerTold(frame, f, cs, layer);
    FillLayerRecordsAll(frame, f, cs);
    LayerRecorded(f.decisions, g.decisions, layers, pool);
    assert Taken(g, layer)[0..] == Taken(g, layer);
  }

  // No block has two records of being dropped.
  ghost predicate DroppedOnce(ds: seq<Decision>) {
    forall i, j | 0 <= i < j < |ds| && ds[i].verdict == ds[j].verdict == Excluded :: ds[i].block != ds[j].block
  }

  ghost predicate IsDropped(ds: seq<Decision>, c: Candidate) {
    exists k :: 0 <= k < |ds| && ds[k].verdict == Excluded
                && ds[k].block == match c.layer case Rag => RagBlock(c.index) case Session => SessionBlock(c.index)
  }

  // Dropping leaves a record of it, and not a second one.
  lemma DropIsRecorded(frame: Frame, f: Fill, c: Candidate, reason: Reason)
    requires DroppedOnce(f.decisions)
    ensures var ds := Drop(frame, f, c, reason).decisions; DroppedOnce(ds) && IsDropped(ds, c) && f.decisions <= ds
  {
    var ds := Drop(frame, f, c, reason).decisions;
    if ds != f.decisions {
      assert ds[|f.decisions|].block == LabelOf(c);
    }
  }

  lemma {:induction false} DropAllOnce(frame: Frame, f: Fill, cs: seq<Candidate>, reason: Reason)
    requires DroppedOnce(f.decisions)
    ensures var ds := DropAll(frame, f, cs, reason).decisions;
            DroppedOnce(ds) && f.decisions <= ds && forall c | c in cs :: IsDropped(ds, c)
    decreases |cs|
  {
    hide DroppedOnce;
    if cs != [] {
      var g := Drop(frame, f, cs[0], reason);
      DropIsRecorded(frame, f, cs[0], reason);
      DropAllOnce(frame, g, cs[1..], reason);
      var ds := DropAll(frame, g, cs[1..], reason).decisions;
      StaysDropped(g.decisions, ds, cs[0]);
      assert forall c | c in cs :: c == cs[0] || c in cs[1..];
    }
  }

  lemma StaysDropped(ds: seq<Decision>, ds': seq<Decision>, c: Candidate)
    requires IsDropped(ds, c) && ds <= ds'
    ensures IsDropped(ds', c)
  {
  }

  lemma TakenIsNoDrop(frame: Frame, f: Fill, c: Candidate, text: string)
    requires DroppedOnce(f.decisions)
    ensures var ds := Accept(frame, f, c, text).decisions; DroppedOnce(ds) && f.decisions <= ds
  {
  }

  lemma {:induction false} FillLayerDropsOnce(frame: Frame, f: Fill, cs: seq<Candidate>)
    requires DroppedOnce(f.decisions)
    ensures DroppedOnce(FillLayer(frame, f, cs).decisions)
    decreases |cs|
  {
    hide DroppedOnce;
    if cs != [] {
      if ProposedTotal(frame, f, cs[0].layer, cs[0].text) <= frame.budget {
        TakenIsNoDrop(frame, f, cs[0], cs[0].text);
        FillLayerDropsOnce(frame, Accept(frame, f, cs[0], cs[0].text), cs[1..]);
      } else if Trimmed(frame, f, cs[0]) != "" {
        TakenIsNoDrop(frame, f, cs[0], Trimmed(frame, f, cs[0]));
        DropAllOnce(frame, Accept(frame, f, cs[0], Trimmed(frame, f, cs[0])).(cut := true), cs[1..], BudgetExhausted);
      } else {
        DropAllOnce(frame, f, cs, OverBudget);
      }
    }
  }

  lemma {:induction false} DropLayersOnce(frame: Frame, f: Fill, layers: seq<Layer>, pool: Pool)
    requires DroppedOnce(f.decisions)
    ensures DroppedOnce(DropLayers(frame, f, layers, pool).decisions)
    decreases |layers|
  {
    if layers != [] {
      DropAllOnce(frame, f, pool(layers[0]), BudgetExhausted);
      DropLayersOnce(frame, DropAll(frame, f, pool(layers[0]), BudgetExhausted), layers[1..], pool);
    }
  }

  /** Whatever layers are named, and however often, no block is recorded as dropped twice. */
  lemma {:induction false} FillDropsOnce(frame: Frame, f: Fill, layers: seq<Layer>, pool: Pool)
    requires DroppedOnce(f.decisions)
    ensures DroppedOnce(FillLayers(frame, f, layers, pool).decisions)
    decreases |layers|
  {
    if layers != [] {
      FillLayerDropsOnce(frame, f, pool(layers[0]));
      var g := FillLayer(frame, f, pool(layers[0]));
      if g.cut {
        DropLayersOnce(frame, g, layers[1..], pool);
      } else {
        FillDropsOnce(frame, g, layers[1..], pool);
      }
    }
  }

  /* Marginal costs */

  function Charged(ds: seq<Decision>): int {
    if ds == [] then 0 else Charged(ds[..|ds| - 1]) + ds[|ds| - 1].tokenCost
  }

  lemma {:induction false} ChargedConcat(a: seq<Decision>, b: seq<Decision>)
    ensures Charged(a + b) == Charged(a) + Charged(b)
    decreases |b|
  {
    if b == [] {
      assert a + b == a;
    } else {
      var n := |b| - 1;
      ChargedConcat(a, b[..n]);
      assert (a + b)[..|a + b| - 1] == a + b[..n];
    }
  }

  lemma ChargedOne(d: Decision)
    ensures Charged([d]) == d.tokenCost
  {
    assert [d][..0] == [];
  }

  lemma {:induction false} DropChargesNothing(frame: Frame, f: Fill, cs: seq<Candidate>, reason: Reason)
    ensures Charged(DropAll(frame, f, cs, reason).decisions) == Charged(f.decisions)
    decreases |cs|
  {
    if cs != [] {
      var g := Drop(frame, f, cs[0], reason);
      assert g == f || g.decisions[..|g.decisions| - 1] == f.decisions;
      DropChargesNothing(frame, g, cs[1..], reason);
    }
  }

  lemma AcceptCharges(frame: Frame, f: Fill, c: Candidate, text: string)
    ensures var g := Accept(frame, f, c, text); Charged(g.decisions) == Charged(f.decisions) + g.used - f.used
  {
    var g := Accept(frame, f, c, text);
    assert g.decisions[..|g.decisions| - 1] == f.decisions;
  }

  lemma {:induction false} CutCharges(frame: Frame, f: Fill, c: Candidate, trimmed: string, rest: seq<Candidate>)
    ensures var g := DropAll(frame, Accept(frame, f, c, trimmed).(cut := true), rest, BudgetExhausted);
            Charged(g.decisions) - Charged(f.decisions) == g.used - f.used
  {
    var g := Accept(frame, f, c, trimmed).(cut := true);
    AcceptCharges(frame, f, c, trimmed);
    DropChargesNothing(frame, g, rest, BudgetExhausted);
    DropKeepsBlocks(frame, g, rest, BudgetExhausted);
  }

  lemma {:induction false} FillLayerCharges(frame: Frame, f: Fill, cs: seq<Candidate>)
    ensures var g := FillLayer(frame, f, cs); Charged(g.decisions) - Charged(f.decisions) == g.used - f.used
    decreases |cs|
  {
    if cs != [] {
      if ProposedTotal(frame, f, cs[0].layer, cs[0].text) <= frame.budget {
        var h := Accept(frame, f, cs[0], cs[0].text);
        AcceptCharges(frame, f, cs[0], cs[0].text);
        FillLayerCharges(frame, h, cs[1..]);
        assert FillLayer(frame, f, cs) == FillLayer(frame, h, cs[1..]);
      } else if Trimmed(frame, f, cs[0]) != "" {
        CutCharges(frame, f, cs[0], Trimmed(frame, f, cs[0]), cs[1..]);
      } else {
        DropChargesNothing(frame, f, cs, OverBudget);
        DropKeepsBlocks(frame, f, cs, OverBudget);
      }
    }
  }

  lemma {:induction false} DropLayersChargesNothing(frame: Frame, f: Fill, layers: seq<Layer>, pool: Pool)
    ensures Charged(DropLayers(frame, f, layers, pool).decisions) == Charged(f.decisions)
    decreases |layers|
  {
    if layers != [] {
      DropChargesNothing(frame, f, pool(layers[0]), BudgetExhausted);
      DropLayersChargesNothing(frame, DropAll(frame, f, pool(layers[0]), BudgetExhausted), layers[1..], pool);
    }
  }

  /** The recorded marginal costs add up to what the blocks added to the prompt. */
  lemma {:induction false} MarginalCostsAddUp(frame: Frame, f: Fill, layers: seq<Layer>, pool: Pool)
    ensures var g := FillLayers(frame, f, layers, pool);
            Charged(g.decisions) - Charged(f.decisions) == g.used - f.used
    decreases |layers|
  {
    if layers != [] {
      FillLayerCharges(frame, f, pool(layers[0]));
      var g := FillLayer(frame, f, pool(layers[0]));
      if g.cut {
        DropLayersChargesNothing(frame, g, layers[1..], pool);
        DropLayersKeepsBlocks(frame, g, layers[1..], pool);
      } else {
        MarginalCostsAddUp(frame, g, layers[1..], pool);
      }
    }
  }

  // Adding a block never lowers the cost of the prompt.
  ghost predicate Monotone(frame: Frame) {
    && (forall rag, session, text {:trigger frame.promptCost(rag + [text], session)} ::
          frame.promptCost(rag + [text], session) >= frame.promptCost(rag, session))
    && (forall rag, session, text {:trigger frame.promptCost(rag, session + [text])} ::
          frame.promptCost(rag, session + [text]) >= frame.promptCost(rag, session))
  }

  ghost predicate ChargedBelow(frame: Frame, f: Fill) {
    f.used <= frame.promptCost(f.rag, f.session)
  }

  predicate AllValid(ds: seq<Decision>) {
    forall k | 0 <= k < |ds| :: ds[k].Valid()
  }

  lemma AcceptIsValid(frame: Frame, f: Fill, c: Candidate, text: string)
    requires Monotone(frame) && ChargedBelow(frame, f) && AllValid(f.decisions)
    ensures ChargedBelow(frame, Accept(frame, f, c, text)) && AllValid(Accept(frame, f, c, text).decisions)
  {
  }

  lemma {:induction false} DropIsValid(frame: Frame, f: Fill, cs: seq<Candidate>, reason: Reason)
    requires AllValid(f.decisions)
    ensures AllValid(DropAll(frame, f, cs, reason).decisions)
    decreases |cs|
  {
    if cs != [] {
      DropIsValid(frame, Drop(frame, f, cs[0], reason), cs[1..], reason);
    }
  }

  lemma {:induction false} DropLayersIsValid(frame: Frame, f: Fill, layers: seq<Layer>, pool: Pool)
    requires AllValid(f.decisions)
    ensures AllValid(DropLayers(frame, f, layers, pool).decisions)
    decreases |layers|
  {
    if layers != [] {
      DropIsValid(frame, f, pool(layers[0]), BudgetExhausted);
      DropLayersIsValid(frame, DropAll(frame, f, pool(layers[0]), BudgetExhausted), layers[1..], pool);
    }
  }

  lemma {:induction false} FillLayerIsValid(frame: Frame, f: Fill, cs: seq<Candidate>)
    requires Monotone(frame) && ChargedBelow(frame, f) && AllValid(f.decisions)
    ensures var g := FillLayer(frame, f, cs); (g.cut || ChargedBelow(frame, g)) && AllValid(g.decisions)
    decreases |cs|
  {
    if cs != [] {
      if ProposedTotal(frame, f, cs[0].layer, cs[0].text) <= frame.budget {
        AcceptIsValid(frame, f, cs[0], cs[0].text);
        FillLayerIsValid(frame, Accept(frame, f, cs[0], cs[0].text), cs[1..]);
      } else if Trimmed(frame, f, cs[0]) != "" {
        var g := Accept(frame, f, cs[0], Trimmed(frame, f, cs[0])).(cut := true);
        AcceptIsValid(frame, f, cs[0], Trimmed(frame, f, cs[0]));
        DropIsValid(frame, g, cs[1..], BudgetExhausted);
        DropKeepsBlocks(frame, g, cs[1..], BudgetExhausted);
      } else {
        DropIsValid(frame, f, cs, OverBudget);
        DropKeepsBlocks(frame, f, cs, OverBudget);
      }
    }
  }

  /** With such a counter no record of the filling is refused for a negative cost. */
  lemma {:induction false} FillIsValid(frame: Frame, f: Fill, layers: seq<Layer>, pool: Pool)
    requires Monotone(frame) && ChargedBelow(frame, f) && AllValid(f.decisions)
    ensures AllValid(FillLayers(frame, f, layers, pool).decisions)
    decreases |layers|
  {
    if layers != [] {
      FillLayerIsValid(frame, f, pool(layers[0]));
      var g := FillLayer(frame, f, pool(layers[0]));
      if g.cut {
        DropLayersIsValid(frame, g, layers[1..], pool);
      } else {
        FillIsValid(frame, g, layers[1..], pool);
      }
    }
  }
}
