/** What an accepted run means in the fields of its items: which calls have their outputs, which outputs their calls,
    and who may own what. The classifiers of the code are not mentioned in what is promised here. */
module RunMeaning {
  import opened Options
  import opened ResponseItems
  import opened RunGraph
  import opened HistoryGroups

  // A hosted wrapper around a request for approval.
  predicate WrapsApproval(item: Item) {
    item.typ == HostedToolCall && item.provider.ProviderData? && item.provider.typ == Call(McpApproval)
  }

  // The item is a call of the kind that goes by the id: requests for approval by their own id, all others by their call
  // id; a wrapped request by the nested id or, where there is none, by the first of the wrapper's ids that is
  // something.
  predicate DeclaresId(item: Item, kind: ToolKind, id: string) {
    && id != ""
    && if WrapsApproval(item) then
         && kind == McpApproval
         && (|| item.provider.id == Text(id)
             || (item.provider.id == Missing && item.callId == Text(id))
             || (item.provider.id == Missing && item.callId in {Missing, Text(""), NonText(false)}
                 && item.id == Text(id)))
       else
         item.typ == Call(kind) && (if kind == McpApproval then item.id else item.callId) == Text(id)
  }

  // The item is an output of the kind that repeats the id: answers to requests for approval in a field of their own,
  // those of a local shell in their id or, without one, in their call id, all others in their call id.
  predicate RepeatsId(item: Item, kind: ToolKind, id: string) {
    && id != "" && item.typ == Output(kind)
    && match kind
       case McpApproval => item.approvalRequestId == Text(id)
       case LocalShell => item.id == Text(id) || (item.id == Missing && item.callId == Text(id))
       case _ => item.callId == Text(id)
  }

  predicate NamesProgram(item: Item, program: string) {
    program != "" && item.caller == ByProgram(Text(program))
  }

  predicate Unowned(item: Item) {
    item.caller == NotAProgram || !item.caller.callerId.Text? || item.caller.callerId.text == ""
  }

  // A search the server runs, without a call id.
  predicate IsBareSearch(item: Item, typ: ItemType) {
    item.typ == typ && !item.callId.Text? && !item.clientExecuted
  }

  // A call that a program made and that may still be under way.
  predicate MayBeUnderWay(item: Item, kind: ToolKind) {
    && !Unowned(item)
    && (kind == McpApproval || (kind == Shell && (item.status == NoStatus || item.status == InProgress)))
  }

  /* From fields to nodes */

  lemma DeclaresShape(item: Item, kind: ToolKind, id: string)
    requires DeclaresId(item, kind, id)
    ensures (kind == Program && !Unowned(item)) || ShapeOf(item) == IdCall(Pair(kind, id))
    ensures MayStayPending(item) <==>
            kind == McpApproval || (kind == Shell && (item.status == NoStatus || item.status == InProgress))
  {
  }

  lemma ShapeDeclares(item: Item)
    ensures ShapeOf(item).IdCall? ==> DeclaresId(item, ShapeOf(item).pair.kind, ShapeOf(item).pair.id)
    ensures ShapeOf(item).AnonCall? ==> IsBareSearch(item, Call(ToolSearch))
  {
  }

  lemma RepeatsShape(item: Item, kind: ToolKind, id: string)
    requires RepeatsId(item, kind, id)
    ensures ShapeOf(item) == IdOutput(Pair(kind, id))
  {
  }

  lemma ShapeRepeats(item: Item)
    ensures ShapeOf(item).IdOutput? ==> RepeatsId(item, ShapeOf(item).pair.kind, ShapeOf(item).pair.id)
    ensures ShapeOf(item).AnonOutput? ==> IsBareSearch(item, Output(ToolSearch))
    ensures item.typ.Output? && !ShapeOf(item).Malformed? ==>
              (ShapeOf(item).IdOutput? && ShapeOf(item).pair.kind == item.typ.kind) || ShapeOf(item).AnonOutput?
  {
  }

  lemma OwnerNames(item: Item, program: string)
    ensures Owner(item) == Some(program) <==> NamesProgram(item, program)
    ensures Owner(item).None? <==> Unowned(item)
  {
  }

  /* What holds of every accepted run */

  /** In an accepted run every call but a program has a later output of its kind with its id, unless a program made it
      and it may be under way. */
  lemma CallHasOutput(items: seq<Item>, i: nat, kind: ToolKind, id: string)
    requires ValidRun(items) && i < |items| && DeclaresId(items[i], kind, id) && kind != Program
    ensures (exists j :: i < j < |items| && RepeatsId(items[j], kind, id)) || MayBeUnderWay(items[i], kind)
  {
    hide ShapeOf, Owner, MayStayPending, ValidGraph;
    var g := Graph(items);
    DeclaresShape(items[i], kind, id);
    OwnerNames(items[i], "");
    assert g[i] == View(items[i]) && CallAt(g, i, Pair(kind, id));
    AnsweredOrPending(g, i, Pair(kind, id));
    if j :| IdEdge(g, i, j) {
      assert g[j] == View(items[j]);
      ShapeRepeats(items[j]);
      assert RepeatsId(items[j], kind, id);
    }
  }

  lemma AnsweredOrPending(g: seq<Node>, i: nat, p: Pair)
    requires ValidGraph(g) && CallAt(g, i, p) && p.kind != Program
    ensures (exists j :: IdEdge(g, i, j)) || (g[i].owner.Some? && g[i].pending)
  {
    assert IsAnswered(g, i) || (g[i].owner.Some? && g[i].pending);
  }

  // The call and the output share a kind and an id, or they are bare searches.
  predicate BelongTogether(call: Item, output: Item, id: string) {
    || (output.typ.Output? && DeclaresId(call, output.typ.kind, id) && RepeatsId(output, output.typ.kind, id))
    || (IsBareSearch(call, Call(ToolSearch)) && IsBareSearch(output, Output(ToolSearch)))
  }

  /** And every output has an earlier call of its kind with its id; a bare search output has an earlier bare search. */
  lemma OutputHasItsCall(items: seq<Item>, j: nat) returns (i: nat, id: string)
    requires ValidRun(items) && j < |items| && items[j].typ.Output?
    ensures i < j && BelongTogether(items[i], items[j], id)
  {
    hide ShapeOf, Owner, MayStayPending, ValidGraph;
    var g := Graph(items);
    RunIsShaped(items, j);
    ShapeRepeats(items[j]);
    assert g[j] == View(items[j]);
    i := NodeHasCall(g, j);
    assert g[i] == View(items[i]);
    ShapeDeclares(items[i]);
    id := if g[j].shape.IdOutput? then g[j].shape.pair.id else "";
  }

  /** An output that names a program answers a call that names the same one. */
  lemma OutputNamesItsCaller(items: seq<Item>, i: nat, j: nat, kind: ToolKind, id: string, program: string)
    requires ValidRun(items) && i < j < |items| && kind != Program
    requires DeclaresId(items[i], kind, id) && RepeatsId(items[j], kind, id) && NamesProgram(items[j], program)
    ensures NamesProgram(items[i], program)
  {
    hide ShapeOf, Owner, MayStayPending, ValidGraph;
    var g := Graph(items);
    DeclaresShape(items[i], kind, id);
    RepeatsShape(items[j], kind, id);
    OwnerNames(items[i], program);
    OwnerNames(items[j], program);
    assert g[i] == View(items[i]) && g[j] == View(items[j]);
    EdgeAgrees(g, i, j, Pair(kind, id));
  }

  lemma EdgeAgrees(g: seq<Node>, i: nat, j: nat, p: Pair)
    requires ValidGraph(g) && CallAt(g, i, p) && OutputAt(g, j, p) && p.kind != Program
    ensures Agrees(g[i], g[j])
  {
    var k :| IdEdge(g, k, j) && Agrees(g[k], g[j]);
    assert CallAt(g, k, p);
  }

  /** No two calls of a kind go by the same id. */
  lemma CallsAreUnique(items: seq<Item>, i: nat, j: nat, kind: ToolKind, id: string)
    requires ValidRun(items) && i < |items| && j < |items|
    requires DeclaresId(items[i], kind, id) && DeclaresId(items[j], kind, id)
    ensures i == j
  {
    hide ShapeOf, Owner, MayStayPending;
    var g := Graph(items);
    CallIsNode(items, i, kind, id);
    CallIsNode(items, j, kind, id);
  }

  lemma CallIsNode(items: seq<Item>, i: nat, kind: ToolKind, id: string)
    requires ValidRun(items) && i < |items| && DeclaresId(items[i], kind, id)
    ensures CallAt(Graph(items), i, Pair(kind, id))
  {
    hide Owner, MayStayPending, ValidGraph;
    DeclaresShape(items[i], kind, id);
    RunIsShaped(items, i);
    if kind == Program && !Unowned(items[i]) {
      NestedIsMalformed(items[i], kind, id);
    }
    assert Graph(items)[i] == View(items[i]);
  }

  lemma NestedIsMalformed(item: Item, kind: ToolKind, id: string)
    requires DeclaresId(item, kind, id) && kind == Program && !Unowned(item)
    ensures ShapeOf(item).Malformed?
  {
  }

  /** What names a program comes after the call of that program and before its completed result, and is no program. */
  lemma OwnedInside(items: seq<Item>, i: nat, program: string) returns (r: nat)
    requires ValidRun(items) && i < |items| && NamesProgram(items[i], program)
    ensures r < i && DeclaresId(items[r], Program, program) && items[i].typ != Call(Program)
    ensures forall t | 0 <= t < i ::
              !(RepeatsId(items[t], Program, program) && items[t].status == Completed)
  {
    hide ShapeOf, Owner, MayStayPending, ValidGraph;
    var g := Graph(items);
    OwnerNames(items[i], program);
    assert g[i] == View(items[i]);
    r := OwnedHasRoot(g, i, program);
    assert g[r] == View(items[r]);
    ShapeDeclares(items[r]);
    RunIsShaped(items, i);
    OwnedIsNoProgram(items[i], program);
    forall t | 0 <= t < i
      ensures !(RepeatsId(items[t], Program, program) && items[t].status == Completed)
    {
      if RepeatsId(items[t], Program, program) && items[t].status == Completed {
        RepeatsShape(items[t], Program, program);
        assert g[t] == View(items[t]);
        NothingAfterCompletion(g, t, i, program);
      }
    }
  }

  lemma OwnedHasRoot(g: seq<Node>, i: nat, program: string) returns (r: nat)
    requires ValidGraph(g) && i < |g| && g[i].owner == Some(program)
    ensures r < i && CallAt(g, r, Pair(Program, program))
  {
    var k :| k < i && ProgramAt(g, k, g[i].owner.value);
    r := k;
  }

  lemma NothingAfterCompletion(g: seq<Node>, t: nat, i: nat, program: string)
    requires ValidGraph(g) && OutputAt(g, t, Pair(Program, program)) && g[t].status == Completed && t < i < |g|
    ensures g[i].owner != Some(program)
  {
    assert BelongsTo(g, i, program) <== g[i].owner == Some(program);
  }

  lemma OwnedIsNoProgram(item: Item, program: string)
    requires NamesProgram(item, program) && !ShapeOf(item).Malformed?
    ensures item.typ != Call(Program)
  {
  }

  // An item that keeps the program it names resumable: something of the host or a request for approval, an output of
  // anything but a program, or a shell call that has not said it is over.
  predicate KeepsAlive(item: Item) {
    match item.typ
    case HostedToolCall => true
    case FileSearchCall => true
    case WebSearchCall => true
    case CodeInterpreterCall => true
    case ImageGenerationCall => true
    case McpListTools => true
    case McpCall => true
    case Call(kind) =>
      kind == McpApproval || (kind == Shell && (item.status == NoStatus || item.status == InProgress))
    case Output(kind) => kind != Program
    case _ => false
  }

  lemma ActiveKeepsAlive(item: Item)
    ensures KeepsProgramActive(item) <==> KeepsAlive(item)
  {
  }

  /** Behind every program stands a result of it, or something it made that keeps it resumable, or the output of a call
      it made. */
  lemma ProgramIsKept(items: seq<Item>, r: nat, program: string) returns (j: nat)
    requires ValidRun(items) && r < |items| && DeclaresId(items[r], Program, program)
    ensures r < j < |items|
    ensures || RepeatsId(items[j], Program, program)
            || (NamesProgram(items[j], program) && KeepsAlive(items[j]))
            || exists i: nat, id :: i < j && NamesProgram(items[i], program) && BelongTogether(items[i], items[j], id)
  {
    hide ShapeOf, Owner, MayStayPending, ValidGraph, KeepsProgramActive, KeepsAlive;
    var g := Graph(items);
    CallIsNode(items, r, Program, program);
    var i;
    i, j := NodeIsKept(g, r, program);
    assert g[i] == View(items[i]) && g[j] == View(items[j]);
    ShapeRepeats(items[j]);
    ShapeDeclares(items[i]);
    OwnerNames(items[i], program);
    OwnerNames(items[j], program);
    ActiveKeepsAlive(items[j]);
    if Edge(g, i, j) && g[i].owner == Some(program) {
      EdgeShapes(g, i, j);
      var id := if g[j].shape.IdOutput? then g[j].shape.pair.id else "";
      assert BelongTogether(items[i], items[j], id);
    }
  }

  lemma EdgeShapes(g: seq<Node>, i: nat, j: nat)
    requires Edge(g, i, j)
    ensures i < j < |g|
    ensures (g[i].shape.IdCall? && g[j].shape == IdOutput(g[i].shape.pair) && g[i].shape.pair.kind != Program)
            || (g[i].shape.AnonCall? && g[j].shape.AnonOutput?)
  {
  }

  lemma NodeIsKept(g: seq<Node>, r: nat, program: string) returns (i: nat, j: nat)
    requires ValidGraph(g) && CallAt(g, r, Pair(Program, program))
    ensures r < j < |g| && i <= j
    ensures || OutputAt(g, j, Pair(Program, program))
            || (g[j].owner == Some(program) && g[j].active)
            || (Edge(g, i, j) && g[i].owner == Some(program))
  {
    hide AnonymousOk, AnonymousOwnersOk, WellShaped, Answers, EventsOk, Closed, CallsAnswered, Edge;
    assert LiveFor(g, r, program);
    if HasResult(g, program) {
      j :| OutputAt(g, j, Pair(Program, program));
      i := j;
      var k :| k < j && CallAt(g, k, Pair(Program, program));
    } else if HasActiveChild(g, r, program) {
      j :| 0 <= r < j < |g| && g[j].owner == Some(program) && g[j].active;
      i := j;
    } else {
      assert HasAnsweredCall(g, program);
      var a, b := AnsweredCall(g, program);
      i, j := a, b;
      var k := OwnedHasRoot(g, i, program);
    }
  }

  lemma AnsweredCall(g: seq<Node>, program: string) returns (i: nat, j: nat)
    requires HasAnsweredCall(g, program)
    ensures i < j < |g| && Edge(g, i, j) && g[i].owner == Some(program)
  {
    var a, b :| Edge(g, a, b) && g[a].owner == Some(program);
    i, j := a, b;
  }

  // What needs no partner: an item of the model with an id, a finished or unfinished message of its own, a compaction
  // with its content.
  predicate StandsAlone(item: Item) {
    && !WrapsApproval(item)
    && match item.typ
       case Message =>
         item.role == Assistant && item.id.Named()
         && (item.status == InProgress || item.status == Completed || item.status == Incomplete)
       case Compaction => item.id.Named() && item.encryptedContent
       case HostedToolCall => item.id.Named() || (item.provider.ProviderData? && item.provider.id.Named())
       case FileSearchCall => item.id.Named()
       case WebSearchCall => item.id.Named()
       case CodeInterpreterCall => item.id.Named()
       case ImageGenerationCall => item.id.Named()
       case McpListTools => item.id.Named()
       case McpCall => item.id.Named()
       case AdditionalTools => item.id.Named()
       case _ => false
  }

  predicate IsCall(item: Item) {
    item.typ.Call? || WrapsApproval(item)
  }

  lemma EmittedMeans(item: Item)
    ensures IsModelEmitted(item) <==> IsCall(item) || StandsAlone(item)
    ensures ShapeOf(item).Thinking? <==> item.typ == Reasoning
    ensures ShapeOf(item).Standalone? <==> StandsAlone(item)
    ensures IsCall(item) <==> CallKind(item).Some?
  {
  }

  /** Every item of an accepted run is reasoning, a call, an output or stands alone, and what follows reasoning is more
      reasoning, a call or what stands alone. */
  lemma ItemsOfRun(items: seq<Item>, i: nat)
    requires ValidRun(items) && i < |items|
    ensures items[i].typ == Reasoning || IsCall(items[i]) || items[i].typ.Output? || StandsAlone(items[i])
    ensures items[i].typ == Reasoning ==>
              && i + 1 < |items|
              && (items[i + 1].typ == Reasoning || IsCall(items[i + 1]) || StandsAlone(items[i + 1]))
  {
    hide Owner, MayStayPending, ValidGraph, CallKind, IsOpaque;
    var g := Graph(items);
    RunIsShaped(items, i);
    EmittedMeans(items[i]);
    assert g[i] == View(items[i]);
    WhatFollows(g, i);
    if items[i].typ == Reasoning {
      assert g[i + 1] == View(items[i + 1]);
      EmittedMeans(items[i + 1]);
    }
  }

  lemma WhatFollows(g: seq<Node>, i: nat)
    requires ValidGraph(g) && i < |g|
    ensures g[i].shape.Thinking? ==> i + 1 < |g| && (g[i + 1].shape.Thinking? || g[i + 1].emitted)
  {
  }
}
