/** When a contiguous run of Responses items is a replayable graph, said without saying how it is checked.

    Every clause is a statement about positions in the run, so that the one about two runs put together can be
    compared with the two about the runs alone. */
module RunGraph {
  import opened Options
  import opened ResponseItems

  // The part an item plays in a run.
  datatype Shape =
    | Thinking
    | IdCall(pair: Pair)
    | AnonCall
    | IdOutput(pair: Pair)
    | AnonOutput
    | Standalone
    | Malformed

  // All a run's validity depends on, for one item.
  datatype Node = Node(
    shape: Shape,
    owner: Option<string>,
    status: Status,
    pending: bool,   // a call that may stay without its output
    active: bool,    // keeps the program that owns it resumable
    emitted: bool)   // may follow encrypted reasoning

  function ShapeOf(item: Item): Shape {
    if item.typ == Reasoning then Thinking
    else if CallKind(item).Some? then
      if CallKind(item) == Some(Program) && Owner(item).Some? then Malformed  // a nested program
      else if IsAnonymousCall(item) then AnonCall
      else if CallPair(item).None? then Malformed
      else IdCall(CallPair(item).value)
    else if OutputKind(item).Some? then
      if IsAnonymousOutput(item) then AnonOutput
      else if OutputPair(item).None? then Malformed
      else IdOutput(OutputPair(item).value)
    else if IsOpaque(item) then Standalone
    else Malformed
  }

  function View(item: Item): Node {
    Node(ShapeOf(item), Owner(item), item.status, MayStayPending(item), KeepsProgramActive(item), IsModelEmitted(item))
  }

  function Graph(items: seq<Item>): (g: seq<Node>)
    ensures |g| == |items|
    ensures forall i | 0 <= i < |g| :: g[i] == View(items[i])
  {
    seq(|items|, i requires 0 <= i < |items| => View(items[i]))
  }

  predicate Streams(kind: ToolKind) {
    kind == Shell || kind == ToolSearch
  }

  ghost predicate CallAt(g: seq<Node>, i: int, p: Pair) {
    0 <= i < |g| && g[i].shape == IdCall(p)
  }

  ghost predicate OutputAt(g: seq<Node>, j: int, p: Pair) {
    0 <= j < |g| && g[j].shape == IdOutput(p)
  }

  ghost predicate ProgramAt(g: seq<Node>, r: int, program: string) {
    CallAt(g, r, Pair(Program, program))
  }

  // An output may omit its caller; a caller that is there must be the one of the call.
  predicate Agrees(call: Node, output: Node) {
    output.owner.None? || output.owner == call.owner
  }

  // An identified call and the later output that repeats its pair. Program results are not edges: they are
  // judged by ProgramResults and Closed.
  ghost predicate IdEdge(g: seq<Node>, i: int, j: int) {
    && 0 <= i < j < |g|
    && g[i].shape.IdCall? && g[i].shape.pair.kind != Program
    && g[j].shape == IdOutput(g[i].shape.pair)
  }

  /* Anonymous searches: calls open, outputs close. */

  function AnonCalls(g: seq<Node>): nat {
    if g == [] then 0 else AnonCalls(g[..|g| - 1]) + if g[|g| - 1].shape.AnonCall? then 1 else 0
  }

  function AnonOutputs(g: seq<Node>): nat {
    if g == [] then 0 else AnonOutputs(g[..|g| - 1]) + if g[|g| - 1].shape.AnonOutput? then 1 else 0
  }

  // Searches still open before position k.
  ghost function Depth(g: seq<Node>, k: int): int
    requires 0 <= k <= |g|
  {
    AnonCalls(g[..k]) - AnonOutputs(g[..k])
  }

  ghost predicate Balanced(g: seq<Node>) {
    && Depth(g, |g|) == 0
    && forall k | 0 <= k <= |g| :: Depth(g, k) >= 0
  }

  // The output at j closes the call at i: everything between them is closed within itself.
  ghost predicate Matched(g: seq<Node>, i: int, j: int) {
    && 0 <= i < j < |g|
    && g[i].shape.AnonCall? && g[j].shape.AnonOutput?
    && Depth(g, j) == Depth(g, i + 1)
    && forall m | i < m <= j :: Depth(g, m) >= Depth(g, i + 1)
  }

  // A lone anonymous call owns its whole stream of outputs; several are matched one to one.
  ghost predicate AnonEdge(g: seq<Node>, i: int, j: int) {
    if AnonCalls(g) == 1 then
      0 <= i < j < |g| && g[i].shape.AnonCall? && g[j].shape.AnonOutput?
    else
      Matched(g, i, j)
  }

  ghost predicate Edge(g: seq<Node>, i: int, j: int) {
    IdEdge(g, i, j) || AnonEdge(g, i, j)
  }

  // What two successive events of one stream may be.
  predicate StreamStep(earlier: Status, later: Status) {
    earlier == InProgress && later in {InProgress, Completed, Incomplete}
  }

  ghost predicate AnonymousOk(g: seq<Node>) {
    if AnonCalls(g) == 1 then
      && AnonOutputs(g) > 0
      && (forall i, j | 0 <= i < |g| && 0 <= j < |g| && g[i].shape.AnonCall? && g[j].shape.AnonOutput? :: i < j)
      && (forall j | 0 <= j < |g| && g[j].shape.AnonOutput? :: g[j].status != OtherStatus)
      && (forall i, j | 0 <= i < j < |g| && g[i].shape.AnonOutput? && g[j].shape.AnonOutput? ::
            StreamStep(g[i].status, g[j].status))
    else
      Balanced(g)
  }

  ghost predicate AnonymousOwnersOk(g: seq<Node>) {
    forall i, j | AnonEdge(g, i, j) :: Agrees(g[i], g[j])
  }

  /* Items one by one */

  // Reasoning is followed by more reasoning or by something the model emitted.
  predicate Followed(g: seq<Node>, i: int)
    requires 0 <= i < |g|
  {
    i + 1 < |g| && (g[i + 1].shape.Thinking? || g[i + 1].emitted)
  }

  ghost predicate WellShaped(g: seq<Node>) {
    forall i | 0 <= i < |g| :: !g[i].shape.Malformed? && (g[i].shape.Thinking? ==> Followed(g, i))
  }

  ghost predicate UniqueCalls(g: seq<Node>) {
    forall i, j, p | CallAt(g, i, p) && CallAt(g, j, p) :: i == j
  }

  /* Outputs and the calls they close */

  ghost predicate Answers(g: seq<Node>) {
    forall j, p | OutputAt(g, j, p) && p.kind != Program :: exists i :: IdEdge(g, i, j) && Agrees(g[i], g[j])
  }

  // The statuses of the outputs that share one pair.
  ghost predicate EventsOk(g: seq<Node>) {
    && (forall j, p | OutputAt(g, j, p) && Streams(p.kind) :: g[j].status != OtherStatus)
    && (forall i, j, p | i < j && OutputAt(g, i, p) && OutputAt(g, j, p) && p.kind != Program ::
          Streams(p.kind) && StreamStep(g[i].status, g[j].status))
  }

  /* Programs */

  // A program's results come after it; all but the last are incomplete, the last may be complete.
  ghost predicate ProgramResultsOk(g: seq<Node>) {
    && (forall t, p | OutputAt(g, t, p) && p.kind == Program ::
          g[t].status in {Incomplete, Completed} && exists r :: r < t && CallAt(g, r, p))
    && (forall s, t, p | s < t && OutputAt(g, s, p) && OutputAt(g, t, p) && p.kind == Program ::
        g[s].status == Incomplete)
  }

  ghost predicate OwnedAfterRoot(g: seq<Node>) {
    forall i | 0 <= i < |g| && g[i].owner.Some? :: exists r :: r < i && ProgramAt(g, r, g[i].owner.value)
  }

  // The item carries its owner, or answers a call that has one.
  ghost predicate BelongsTo(g: seq<Node>, i: int, program: string) {
    && 0 <= i < |g|
    && (g[i].owner == Some(program) || exists k :: Edge(g, k, i) && g[k].owner == Some(program))
  }

  // Nothing belongs to a program after its completed result.
  ghost predicate Closed(g: seq<Node>) {
    forall t, p | OutputAt(g, t, p) && p.kind == Program && g[t].status == Completed ::
      forall i | t < i < |g| :: !BelongsTo(g, i, p.id)
  }

  ghost predicate HasResult(g: seq<Node>, program: string) {
    exists t :: OutputAt(g, t, Pair(Program, program))
  }

  ghost predicate HasActiveChild(g: seq<Node>, r: int, program: string) {
    exists c :: 0 <= r < c < |g| && g[c].owner == Some(program) && g[c].active
  }

  ghost predicate HasAnsweredCall(g: seq<Node>, program: string) {
    exists i, j :: Edge(g, i, j) && g[i].owner == Some(program)
  }

  // What keeps the program p, called at r, alive.
  ghost predicate LiveFor(g: seq<Node>, r: int, p: string) {
    HasResult(g, p) || HasActiveChild(g, r, p) || HasAnsweredCall(g, p)
  }

  // A program without any result is kept only while something of it is active or answered.
  ghost predicate ProgramsLive(g: seq<Node>) {
    forall r, p | CallAt(g, r, p) && p.kind == Program :: LiveFor(g, r, p.id)
  }

  ghost predicate IsAnswered(g: seq<Node>, i: int) {
    exists j :: IdEdge(g, i, j)
  }

  ghost predicate CallsAnswered(g: seq<Node>) {
    forall i, p | CallAt(g, i, p) && p.kind != Program ::
      IsAnswered(g, i) || (g[i].owner.Some? && g[i].pending)
  }

  ghost predicate ValidGraph(g: seq<Node>) {
    && WellShaped(g)
    && UniqueCalls(g)
    && Answers(g)
    && EventsOk(g)
    && AnonymousOk(g)
    && AnonymousOwnersOk(g)
    && ProgramResultsOk(g)
    && OwnedAfterRoot(g)
    && Closed(g)
    && ProgramsLive(g)
    && CallsAnswered(g)
  }

  ghost predicate ValidRun(items: seq<Item>) {
    ValidGraph(Graph(items))
  }
}
