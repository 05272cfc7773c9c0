/** Which runs of one, two or three items are accepted, exactly, in the fields of the items. */
module SmallRuns {
  import opened Options
  import opened ResponseItems
  import opened RunGraph
  import opened RunMeaning

  /* Graphs without anonymous items */

  ghost predicate NoneBare(g: seq<Node>) {
    forall k | 0 <= k < |g| :: !g[k].shape.AnonCall? && !g[k].shape.AnonOutput?
  }

  lemma {:induction false} NoneBareCounts(g: seq<Node>)
    requires NoneBare(g)
    ensures AnonCalls(g) == AnonOutputs(g) == 0
  {
    if g != [] {
      NoneBareCounts(g[..|g| - 1]);
    }
  }

  lemma {:induction false} NoneBareIsOk(g: seq<Node>)
    requires NoneBare(g)
    ensures AnonymousOk(g) && AnonymousOwnersOk(g) && AnonCalls(g) == 0
    ensures forall i, j :: Edge(g, i, j) <==> IdEdge(g, i, j)
  {
    NoneBareCounts(g);
    forall k | 0 <= k <= |g|
      ensures Depth(g, k) == 0
    {
      NoneBareCounts(g[..k]);
    }
  }

  /* Graphs of one node */

  lemma LoneNode(n: Node)
    ensures ValidGraph([n]) <==> n.shape.Standalone? && n.owner.None?
  {
    var g := [n];
    assert g[0] == n;
    if n.shape.AnonCall? || n.shape.AnonOutput? {
      LoneBare(n);
    } else {
      NoneBareIsOk(g);
      assert forall p :: CallAt(g, 0, p) <==> n.shape == IdCall(p);
      assert forall p :: OutputAt(g, 0, p) <==> n.shape == IdOutput(p);
      LoneClauses(n);
    }
  }

  lemma LoneBare(n: Node)
    requires n.shape.AnonCall? || n.shape.AnonOutput?
    ensures !AnonymousOk([n])
  {
    var g := [n];
    assert g[..0] == [] && g[..1] == g && g[0] == n;
    assert AnonCalls(g[..0]) == AnonOutputs(g[..0]) == 0;
    assert Depth(g, 1) == AnonCalls(g) - AnonOutputs(g);
  }

  lemma LoneClauses(n: Node)
    requires !n.shape.AnonCall? && !n.shape.AnonOutput? && AnonymousOk([n]) && AnonymousOwnersOk([n])
    requires forall i, j :: Edge([n], i, j) <==> IdEdge([n], i, j)
    ensures ValidGraph([n]) <==> n.shape.Standalone? && n.owner.None?
  {
    hide AnonymousOk, AnonymousOwnersOk;
    var g := [n];
    if n.owner.Some? {
      assert g[0].owner.Some? && !OwnedAfterRoot(g);
    } else if n.shape.IdCall? {
      LoneCall(n, n.shape.pair);
    } else if n.shape.IdOutput? {
      LoneOutput(n, n.shape.pair);
    } else {
      LoneOther(n);
    }
  }

  lemma LoneCall(n: Node, p: Pair)
    requires n.shape == IdCall(p) && n.owner.None? && forall i, j :: Edge([n], i, j) <==> IdEdge([n], i, j)
    ensures !CallsAnswered([n]) || !ProgramsLive([n])
  {
    assert CallAt([n], 0, p);
    if p.kind == Program {
      assert !LiveFor([n], 0, p.id);
    } else {
      assert !IsAnswered([n], 0);
    }
  }

  lemma LoneOutput(n: Node, p: Pair)
    requires n.shape == IdOutput(p)
    ensures !Answers([n]) || !ProgramResultsOk([n])
  {
    assert OutputAt([n], 0, p);
  }

  lemma LoneOther(n: Node)
    requires n.shape.Thinking? || n.shape.Malformed? || n.shape.Standalone?
    requires n.owner.None? && AnonymousOk([n]) && AnonymousOwnersOk([n])
    ensures ValidGraph([n]) <==> n.shape.Standalone?
  {
    hide AnonymousOk, AnonymousOwnersOk, Edge;
    var g := [n];
    assert g[0] == n;
    assert forall i, p :: !CallAt(g, i, p) && !OutputAt(g, i, p);
    assert n.shape.Standalone? ==> WellShaped(g) && UniqueCalls(g) && Answers(g) && EventsOk(g);
    assert ProgramResultsOk(g) && OwnedAfterRoot(g) && Closed(g) && ProgramsLive(g) && CallsAnswered(g);
    assert !n.shape.Standalone? ==> !WellShaped(g);
  }

  /** A run of one item is accepted exactly if it stands alone and no program owns it. */
  lemma LoneRun(item: Item)
    ensures ValidRun([item]) <==> StandsAlone(item) && Unowned(item)
  {
    hide ShapeOf, ValidGraph, StandsAlone, Owner;
    assert Graph([item]) == [View(item)];
    LoneNode(View(item));
    EmittedMeans(item);
    OwnerNames(item, "");
  }

  /* Two nodes */

  lemma PairAt(a: Node, b: Node)
    ensures forall i, p ::
              CallAt([a, b], i, p) <==> (i == 0 && a.shape == IdCall(p)) || (i == 1 && b.shape == IdCall(p))
    ensures forall i, p ::
              OutputAt([a, b], i, p) <==> (i == 0 && a.shape == IdOutput(p)) || (i == 1 && b.shape == IdOutput(p))
    ensures forall i, j :: IdEdge([a, b], i, j) <==>
              i == 0 && j == 1 && a.shape.IdCall? && a.shape.pair.kind != Program && b.shape == IdOutput(a.shape.pair)
  {
  }

  // An unowned call by an id, and one more node.
  lemma CallThenNode(a: Node, b: Node)
    requires a.shape.IdCall? && a.shape.pair.kind != Program && a.owner.None?
    ensures ValidGraph([a, b]) <==>
            && b.shape == IdOutput(a.shape.pair) && b.owner.None?
            && (Streams(a.shape.pair.kind) ==> b.status != OtherStatus)
  {
    var g := [a, b];
    var p := a.shape.pair;
    PairAt(a, b);
    assert CallAt(g, 0, p) && g[0] == a && g[1] == b;
    if b.shape == IdOutput(p) {
      NoneBareIsOk(g);
      assert IdEdge(g, 0, 1) && OutputAt(g, 1, p);
      CallThenOutput(a, b);
    }
  }

  lemma CallThenOutput(a: Node, b: Node)
    requires a.shape.IdCall? && a.shape.pair.kind != Program && a.owner.None? && b.shape == IdOutput(a.shape.pair)
    requires AnonymousOk([a, b]) && AnonymousOwnersOk([a, b])
    ensures ValidGraph([a, b]) <==> b.owner.None? && (Streams(a.shape.pair.kind) ==> b.status != OtherStatus)
  {
    hide AnonymousOk, AnonymousOwnersOk;
    var g := [a, b];
    PairAt(a, b);
    assert IdEdge(g, 0, 1) && OutputAt(g, 1, a.shape.pair);
  }

  /** A call that no program made and one more item are a run exactly if that item is its output, no program owns that
      either, and what is streamed has one of the statuses of a stream or none. */
  lemma CallThenItem(call: Item, item: Item, kind: ToolKind, id: string)
    requires DeclaresId(call, kind, id) && kind != Program && Unowned(call)
    ensures ValidRun([call, item]) <==>
            && RepeatsId(item, kind, id) && Unowned(item)
            && (kind == Shell || kind == ToolSearch ==> item.status != OtherStatus)
  {
    hide ShapeOf, ValidGraph, Owner, DeclaresId, RepeatsId, Unowned;
    assert Graph([call, item]) == [View(call), View(item)];
    DeclaresShape(call, kind, id);
    OwnerNames(call, "");
    OwnerNames(item, "");
    RepeatsExactly(item, kind, id);
    CallThenNode(View(call), View(item));
  }

  lemma RepeatsExactly(item: Item, kind: ToolKind, id: string)
    ensures id != "" ==> (ShapeOf(item) == IdOutput(Pair(kind, id)) <==> RepeatsId(item, kind, id))
    ensures id == "" ==> ShapeOf(item) != IdOutput(Pair(kind, id)) && !RepeatsId(item, kind, id)
  {
    ShapeRepeats(item);
    if RepeatsId(item, kind, id) {
      RepeatsShape(item, kind, id);
    }
  }

  // A program, and one more node.
  lemma ProgramThenNode(a: Node, b: Node)
    requires a.shape.IdCall? && a.shape.pair.kind == Program && a.owner.None?
    ensures var c := a.shape.pair.id;
            ValidGraph([a, b]) <==>
              || (b.shape == IdOutput(a.shape.pair) && b.status in {Incomplete, Completed}
                  && b.owner in {None, Some(c)})
              || (b.owner == Some(c) && b.active
                  && (b.shape.Standalone? || (b.shape.IdCall? && b.shape.pair.kind != Program && b.pending)))
  {
    var g := [a, b];
    PairAt(a, b);
    assert g[0] == a && g[1] == b && CallAt(g, 0, a.shape.pair);
    if b.shape.AnonCall? || b.shape.AnonOutput? {
      BareSecond(a, b);
    } else {
      NoneBareIsOk(g);
      ProgramClauses(a, b);
    }
  }

  lemma BareSecond(a: Node, b: Node)
    requires !a.shape.AnonCall? && !a.shape.AnonOutput? && (b.shape.AnonCall? || b.shape.AnonOutput?)
    ensures !AnonymousOk([a, b])
  {
    var g := [a, b];
    assert g[..1] == [a] && g[..2] == g && [a][..0] == [];
    assert AnonCalls([a]) == AnonOutputs([a]) == 0;
    assert Depth(g, 2) == AnonCalls(g) - AnonOutputs(g);
  }

  lemma ProgramClauses(a: Node, b: Node)
    requires a.shape.IdCall? && a.shape.pair.kind == Program && a.owner.None?
    requires !b.shape.AnonCall? && !b.shape.AnonOutput? && AnonymousOk([a, b]) && AnonymousOwnersOk([a, b])
    requires forall i, j :: Edge([a, b], i, j) <==> IdEdge([a, b], i, j)
    ensures var c := a.shape.pair.id;
            ValidGraph([a, b]) <==>
              || (b.shape == IdOutput(a.shape.pair) && b.status in {Incomplete, Completed}
                  && b.owner in {None, Some(c)})
              || (b.owner == Some(c) && b.active
                  && (b.shape.Standalone? || (b.shape.IdCall? && b.shape.pair.kind != Program && b.pending)))
  {
    hide AnonymousOk, AnonymousOwnersOk, Edge;
    var g, p := [a, b], a.shape.pair;
    PairAt(a, b);
    assert g[0] == a && g[1] == b && CallAt(g, 0, p) && p == Pair(Program, p.id);
    assert b.shape.IdCall? ==> CallAt(g, 1, b.shape.pair);
    assert b.shape.IdOutput? ==> OutputAt(g, 1, b.shape.pair);
    ProgramLife(a, b);
    hide LiveFor;
    assert WellShaped(g) <==> !b.shape.Malformed? && !b.shape.Thinking?;
    assert UniqueCalls(g) <==> b.shape != a.shape;
    assert Answers(g) <==> !(b.shape.IdOutput? && b.shape.pair.kind != Program);
    assert ProgramAt(g, 0, p.id) && forall r, d :: ProgramAt(g, r, d) && r < 1 ==> d == p.id;
    assert OwnedAfterRoot(g) <==> b.owner == None || b.owner == Some(p.id);
    assert ProgramResultsOk(g) <==>
           (b.shape.IdOutput? && b.shape.pair.kind == Program ==>
              b.shape.pair == p && b.status in {Incomplete, Completed});
    assert CallsAnswered(g) <==> (b.shape.IdCall? && b.shape.pair.kind != Program ==> b.owner.Some? && b.pending);
    assert EventsOk(g) || (b.shape.IdOutput? && b.shape.pair.kind != Program);
    assert Closed(g);
    assert UniqueCalls(g) ==>
             (ProgramsLive(g) <==> LiveFor(g, 0, p.id) && !(b.shape.IdCall? && b.shape.pair.kind == Program));
  }

  // What keeps the program alive.
  lemma ProgramLife(a: Node, b: Node)
    requires a.shape.IdCall? && a.shape.pair.kind == Program && a.owner.None?
    requires forall i, j :: Edge([a, b], i, j) <==> IdEdge([a, b], i, j)
    ensures var c := a.shape.pair.id;
            && (LiveFor([a, b], 0, c) <==> b.shape == IdOutput(a.shape.pair) || (b.owner == Some(c) && b.active))
            && (b.shape.IdCall? && b.shape.pair.kind == Program ==>
                  !LiveFor([a, b], 1, b.shape.pair.id) || b.shape.pair == a.shape.pair)
  {
    hide Edge;
    var g, c := [a, b], a.shape.pair.id;
    PairAt(a, b);
    assert g[0] == a && g[1] == b;
    assert b.shape == IdOutput(a.shape.pair) ==> OutputAt(g, 1, Pair(Program, c));
    assert forall i, j :: !Edge(g, i, j);
  }

  // What keeps the program that owns it resumable, and needs nothing else.
  predicate IsActiveChild(item: Item) {
    StandsAlone(item) && item.typ != Message && item.typ != Compaction && item.typ != AdditionalTools
  }

  // A call that may be under way: a request for approval, or a shell call that has not said it is over.
  ghost predicate IsUnfinishedCall(item: Item) {
    || (exists id :: DeclaresId(item, McpApproval, id))
    || (item.typ == Call(Shell) && item.callId.Named() && (item.status == NoStatus || item.status == InProgress))
  }

  lemma ActiveMeans(item: Item)
    ensures IsActiveChild(item) <==> ShapeOf(item).Standalone? && KeepsProgramActive(item)
  {
  }

  lemma UnfinishedMeans(item: Item)
    ensures IsUnfinishedCall(item) <==>
            && CallPair(item).Some? && CallPair(item).value.kind != Program
            && MayStayPending(item) && KeepsProgramActive(item)
  {
    if CallPair(item).Some? && CallPair(item).value.kind == McpApproval {
      assert DeclaresId(item, McpApproval, CallPair(item).value.id);
    }
  }

  lemma CallShapes(item: Item)
    ensures ShapeOf(item).IdCall? && ShapeOf(item).pair.kind != Program <==>
            CallPair(item).Some? && CallPair(item).value.kind != Program
    ensures ShapeOf(item).IdCall? ==> ShapeOf(item).pair == CallPair(item).value
  {
  }

  /** A program and one more item are a run exactly if that item is a result of the program, or is owned by it and still
      needs it: a tool call of the host, a request for approval, or a shell call under way. */
  lemma ProgramThenItem(program: Item, item: Item, id: string)
    requires DeclaresId(program, Program, id) && Unowned(program)
    ensures ValidRun([program, item]) <==>
            || (RepeatsId(item, Program, id) && (item.status == Incomplete || item.status == Completed)
                && (Unowned(item) || NamesProgram(item, id)))
            || (NamesProgram(item, id) && (IsActiveChild(item) || IsUnfinishedCall(item)))
  {
    hide ShapeOf, ValidGraph, Owner, DeclaresId, RepeatsId, Unowned, StandsAlone, CallPair, MayStayPending;
    hide KeepsProgramActive, IsUnfinishedCall, IsActiveChild;
    assert Graph([program, item]) == [View(program), View(item)];
    DeclaresShape(program, Program, id);
    OwnerNames(program, "");
    OwnerNames(item, id);
    RepeatsExactly(item, Program, id);
    ActiveMeans(item);
    UnfinishedMeans(item);
    CallShapes(item);
    ProgramThenNode(View(program), View(item));
  }

  lemma CountsOfOne(a: Node)
    ensures AnonCalls([a]) == (if a.shape.AnonCall? then 1 else 0)
    ensures AnonOutputs([a]) == (if a.shape.AnonOutput? then 1 else 0)
  {
    assert [a][..0] == [];
    assert AnonCalls([a]) == AnonCalls([a][..0]) + (if a.shape.AnonCall? then 1 else 0);
    assert AnonOutputs([a]) == AnonOutputs([a][..0]) + (if a.shape.AnonOutput? then 1 else 0);
  }

  // A search by nothing, and one more node.
  lemma SearchThenNode(a: Node, b: Node)
    requires a.shape.AnonCall? && a.owner.None?
    ensures ValidGraph([a, b]) <==> b.shape.AnonOutput? && b.owner.None? && b.status != OtherStatus
  {
    var g := [a, b];
    assert g[0] == a && g[1] == b && g[..1] == [a] && g[..2] == g && [a][..0] == [];
    CountsOfOne(a);
    assert AnonCalls(g) == 1 + (if b.shape.AnonCall? then 1 else 0);
    assert AnonOutputs(g) == (if b.shape.AnonOutput? then 1 else 0);
    assert Depth(g, 2) == AnonCalls(g) - AnonOutputs(g);
    if b.shape.AnonOutput? {
      SearchThenOutput(a, b);
    }
  }

  lemma SearchThenOutput(a: Node, b: Node)
    requires a.shape.AnonCall? && a.owner.None? && b.shape.AnonOutput? && AnonCalls([a, b]) == 1
             && AnonOutputs([a, b]) == 1
    ensures ValidGraph([a, b]) <==> b.owner.None? && b.status != OtherStatus
  {
    var g := [a, b];
    assert g[0] == a && g[1] == b;
    PairAt(a, b);
    assert AnonEdge(g, 0, 1);
    assert forall i, j :: AnonEdge(g, i, j) ==> i == 0 && j == 1;
  }

  /** A bare search that no program made and one more item are a run exactly if that item is a bare output of a search.
      */
  lemma SearchThenItem(search: Item, item: Item)
    requires IsBareSearch(search, Call(ToolSearch)) && Unowned(search)
    ensures ValidRun([search, item]) <==>
            IsBareSearch(item, Output(ToolSearch)) && Unowned(item) && item.status != OtherStatus
  {
    hide ValidGraph, Owner;
    assert Graph([search, item]) == [View(search), View(item)];
    OwnerNames(search, "");
    OwnerNames(item, "");
    SearchThenNode(View(search), View(item));
  }

  // Reasoning, and one more node.
  lemma ReasoningThenNode(a: Node, b: Node)
    requires a.shape.Thinking? && a.owner.None?
    ensures ValidGraph([a, b]) <==> b.shape.Standalone? && b.emitted && b.owner.None?
  {
    var g := [a, b];
    assert g[0] == a && g[1] == b;
    PairAt(a, b);
    if b.shape.AnonCall? || b.shape.AnonOutput? {
      BareSecond(a, b);
    } else {
      NoneBareIsOk(g);
      assert b.shape.IdCall? ==> CallAt(g, 1, b.shape.pair);
      assert b.shape.IdOutput? ==> OutputAt(g, 1, b.shape.pair);
      ReasoningClauses(a, b);
    }
  }

  lemma ReasoningClauses(a: Node, b: Node)
    requires a.shape.Thinking? && a.owner.None? && !b.shape.AnonCall? && !b.shape.AnonOutput?
    requires AnonymousOk([a, b]) && AnonymousOwnersOk([a, b])
    requires forall i, j :: Edge([a, b], i, j) <==> IdEdge([a, b], i, j)
    ensures ValidGraph([a, b]) <==> b.shape.Standalone? && b.emitted && b.owner.None?
  {
    hide AnonymousOk, AnonymousOwnersOk;
    var g := [a, b];
    assert g[0] == a && g[1] == b;
    PairAt(a, b);
    match b.shape {
      case IdCall(p) =>
        assert CallAt(g, 1, p);
      case IdOutput(p) =>
        assert OutputAt(g, 1, p);
      case _ =>
    }
  }

  /** Reasoning and one more item are a run exactly if that item stands alone. */
  lemma ReasoningThenItem(reasoning: Item, item: Item)
    requires reasoning.typ == Reasoning && Unowned(reasoning)
    ensures ValidRun([reasoning, item]) <==> StandsAlone(item) && Unowned(item)
  {
    hide ShapeOf, ValidGraph, StandsAlone, Owner, IsModelEmitted;
    assert Graph([reasoning, item]) == [View(reasoning), View(item)];
    EmittedMeans(reasoning);
    EmittedMeans(item);
    OwnerNames(reasoning, "");
    OwnerNames(item, "");
    ReasoningThenNode(View(reasoning), View(item));
  }

  /* Three nodes */

  lemma TripleAt(a: Node, b: Node, c: Node)
    ensures var g := [a, b, c];
            && (forall i, p :: CallAt(g, i, p) <==> 0 <= i < 3 && g[i].shape == IdCall(p))
            && (forall i, p :: OutputAt(g, i, p) <==> 0 <= i < 3 && g[i].shape == IdOutput(p))
            && g[0] == a && g[1] == b && g[2] == c
  {
  }

  // A call that its program owns, and its output.
  lemma OwnedCallNodes(a: Node, b: Node, c: Node)
    requires a.shape.IdCall? && a.shape.pair.kind == Program && a.owner.None?
    requires b.shape.IdCall? && b.shape.pair.kind != Program && b.owner == Some(a.shape.pair.id)
    requires c.shape == IdOutput(b.shape.pair)
    ensures ValidGraph([a, b, c]) <==>
            (c.owner.None? || c.owner == b.owner) && (Streams(b.shape.pair.kind) ==> c.status != OtherStatus)
  {
    var g, p, q := [a, b, c], a.shape.pair, b.shape.pair;
    TripleAt(a, b, c);
    NoneBareIsOk(g);
    assert CallAt(g, 0, p) && CallAt(g, 1, q) && OutputAt(g, 2, q) && IdEdge(g, 1, 2) && ProgramAt(g, 0, p.id);
    assert forall i, j :: IdEdge(g, i, j) ==> i == 1 && j == 2;
    hide AnonymousOk, AnonymousOwnersOk;
    assert Edge(g, 1, 2) && HasAnsweredCall(g, p.id);
  }

  /** With a call that a program made, its output may leave out the program or name the same one, and no other. */
  lemma OwnedCallAndOutput(program: Item, call: Item, output: Item, kind: ToolKind, id: string, programId: string)
    requires DeclaresId(program, Program, programId) && Unowned(program)
    requires DeclaresId(call, kind, id) && kind != Program && NamesProgram(call, programId)
             && RepeatsId(output, kind, id)
    ensures ValidRun([program, call, output]) <==>
            && (Unowned(output) || NamesProgram(output, programId))
            && (kind == Shell || kind == ToolSearch ==> output.status != OtherStatus)
  {
    hide ShapeOf, ValidGraph, Owner, DeclaresId, RepeatsId, Unowned;
    assert Graph([program, call, output]) == [View(program), View(call), View(output)];
    DeclaresShape(program, Program, programId);
    DeclaresShape(call, kind, id);
    RepeatsExactly(output, kind, id);
    OwnerNames(program, "");
    OwnerNames(call, programId);
    OwnerNames(output, programId);
    OwnedCallNodes(View(program), View(call), View(output));
  }

  lemma TwoOutputNodes(a: Node, b: Node, c: Node)
    requires a.shape.IdCall? && a.shape.pair.kind != Program
    requires b.shape == c.shape == IdOutput(a.shape.pair) && a.owner.None? && b.owner.None? && c.owner.None?
    ensures ValidGraph([a, b, c]) <==>
            && (a.shape.pair.kind == Shell || a.shape.pair.kind == ToolSearch)
            && b.status == InProgress && c.status in {InProgress, Completed, Incomplete}
  {
    var g, p := [a, b, c], a.shape.pair;
    TripleAt(a, b, c);
    NoneBareIsOk(g);
    assert CallAt(g, 0, p) && OutputAt(g, 1, p) && OutputAt(g, 2, p) && IdEdge(g, 0, 1) && IdEdge(g, 0, 2);
    hide AnonymousOk, AnonymousOwnersOk;
  }

  /** Only shell and search calls may have two outputs; then the first says that more is to come, and the second has one
      of the statuses of a stream. */
  lemma TwoOutputs(call: Item, first: Item, second: Item, kind: ToolKind, id: string)
    requires DeclaresId(call, kind, id) && kind != Program && Unowned(call)
    requires RepeatsId(first, kind, id) && RepeatsId(second, kind, id) && Unowned(first) && Unowned(second)
    ensures ValidRun([call, first, second]) <==>
            && (kind == Shell || kind == ToolSearch)
            && first.status == InProgress
            && (second.status == InProgress || second.status == Completed || second.status == Incomplete)
  {
    hide ShapeOf, ValidGraph, Owner, DeclaresId, RepeatsId, Unowned;
    assert Graph([call, first, second]) == [View(call), View(first), View(second)];
    DeclaresShape(call, kind, id);
    RepeatsExactly(first, kind, id);
    RepeatsExactly(second, kind, id);
    OwnerNames(call, "");
    OwnerNames(first, "");
    OwnerNames(second, "");
    TwoOutputNodes(View(call), View(first), View(second));
  }

  lemma TwoResultNodes(a: Node, b: Node, c: Node)
    requires a.shape.IdCall? && a.shape.pair.kind == Program
    requires b.shape == c.shape == IdOutput(a.shape.pair) && a.owner.None? && b.owner.None? && c.owner.None?
    ensures ValidGraph([a, b, c]) <==> b.status == Incomplete && c.status in {Incomplete, Completed}
  {
    var g, p := [a, b, c], a.shape.pair;
    TripleAt(a, b, c);
    NoneBareIsOk(g);
    assert CallAt(g, 0, p) && OutputAt(g, 1, p) && OutputAt(g, 2, p) && p == Pair(Program, p.id);
    hide AnonymousOk, AnonymousOwnersOk;
    assert HasResult(g, p.id);
  }

  /** A program may have two results if the first is incomplete. */
  lemma TwoResults(program: Item, first: Item, second: Item, id: string)
    requires DeclaresId(program, Program, id) && Unowned(program)
    requires RepeatsId(first, Program, id) && RepeatsId(second, Program, id) && Unowned(first) && Unowned(second)
    ensures ValidRun([program, first, second]) <==>
            first.status == Incomplete && (second.status == Incomplete || second.status == Completed)
  {
    hide ShapeOf, ValidGraph, Owner, DeclaresId, RepeatsId, Unowned;
    assert Graph([program, first, second]) == [View(program), View(first), View(second)];
    DeclaresShape(program, Program, id);
    RepeatsExactly(first, Program, id);
    RepeatsExactly(second, Program, id);
    OwnerNames(program, "");
    OwnerNames(first, "");
    OwnerNames(second, "");
    TwoResultNodes(View(program), View(first), View(second));
  }

  lemma ThoughtOfNodes(a: Node, b: Node, c: Node)
    requires a.shape.Thinking? && a.owner.None? && b.owner.None? && c.owner.None?
    requires b.shape.IdCall? && b.shape.pair.kind != Program && c.shape == IdOutput(b.shape.pair)
    requires !Streams(b.shape.pair.kind)
    ensures ValidGraph([a, b, c]) <==> b.emitted
    ensures !ValidGraph([b, a, c]) || c.emitted
  {
    var g, p := [a, b, c], b.shape.pair;
    TripleAt(a, b, c);
    TripleAt(b, a, c);
    NoneBareIsOk(g);
    assert CallAt(g, 1, p) && OutputAt(g, 2, p) && IdEdge(g, 1, 2);
    hide AnonymousOk, AnonymousOwnersOk;
    assert [b, a, c][1] == a && [b, a, c][2] == c;
  }

  /** Reasoning may stand before a call, and not before its output. */
  lemma ReasoningBeforeCall(reasoning: Item, call: Item, output: Item, kind: ToolKind, id: string)
    requires reasoning.typ == Reasoning && Unowned(reasoning)
    requires DeclaresId(call, kind, id) && kind !in {Program, Shell, ToolSearch} && Unowned(call)
    requires RepeatsId(output, kind, id) && Unowned(output)
    ensures ValidRun([reasoning, call, output]) && !ValidRun([call, reasoning, output])
  {
    hide ShapeOf, ValidGraph, Owner, DeclaresId, RepeatsId, Unowned, StandsAlone, IsModelEmitted;
    assert Graph([reasoning, call, output]) == [View(reasoning), View(call), View(output)];
    assert Graph([call, reasoning, output]) == [View(call), View(reasoning), View(output)];
    DeclaresShape(call, kind, id);
    RepeatsExactly(output, kind, id);
    EmittedMeans(reasoning);
    EmittedMeans(call);
    EmittedMeans(output);
    CallsAndOutputs(call, output, kind, id);
    OwnerNames(reasoning, "");
    OwnerNames(call, "");
    OwnerNames(output, "");
    ThoughtOfNodes(View(reasoning), View(call), View(output));
  }

  lemma CallsAndOutputs(call: Item, output: Item, kind: ToolKind, id: string)
    requires DeclaresId(call, kind, id) && RepeatsId(output, kind, id)
    ensures IsCall(call) && !IsCall(output) && !StandsAlone(output)
  {
  }
}
