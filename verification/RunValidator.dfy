/** The checks of a run, pass by pass over tables of its calls and outputs, and the theorem that together they
    accept exactly the valid graphs. */
module RunValidator {
  import opened Options
  import opened ResponseItems
  import opened RunGraph
  import opened AnonymousSearch

  /* What the tables of the first pass hold about the first n items. */

  ghost predicate CallsTabled(g: seq<Node>, n: nat, calls: map<Pair, nat>) {
    && (forall p | p in calls :: calls[p] < n && CallAt(g, calls[p], p))
    && (forall i, p | i < n && CallAt(g, i, p) :: p in calls && calls[p] == i)
  }

  predicate Plain(kind: ToolKind) {
    kind != Program && !Streams(kind)
  }

  ghost predicate OutputsTabled(g: seq<Node>, n: nat, outputs: map<Pair, nat>) {
    && (forall p | p in outputs :: Plain(p.kind) && outputs[p] < n && OutputAt(g, outputs[p], p))
    && (forall j, p | j < n && OutputAt(g, j, p) && Plain(p.kind) :: p in outputs && outputs[p] == j)
  }

  // The positions of the outputs with pair p among the first n, in order.
  ghost predicate Listed(g: seq<Node>, n: nat, p: Pair, events: seq<nat>) {
    && events != []
    && (forall x | 0 <= x < |events| :: events[x] < n && OutputAt(g, events[x], p))
    && (forall x, y | 0 <= x < y < |events| :: events[x] < events[y])
    && (forall j | j < n && OutputAt(g, j, p) :: j in events)
  }

  ghost predicate EventsTabled(g: seq<Node>, n: nat, kinds: set<ToolKind>, table: map<Pair, seq<nat>>) {
    && (forall p | p in table :: p.kind in kinds && Listed(g, n, p, table[p]))
    && (forall j, p | j < n && OutputAt(g, j, p) && p.kind in kinds :: p in table)
  }

  const STREAMED := {Shell, ToolSearch}
  const PROGRAMS := {Program}

  // Ownership found along an edge, as far as a table of it goes.
  ghost predicate Inferred(g: seq<Node>, inferred: map<nat, string>) {
    forall j | j in inferred :: exists i :: Edge(g, i, j) && g[i].owner == Some(inferred[j])
  }

  function RecordOwner(g: seq<Node>, inferred: map<nat, string>, i: nat, j: nat): (t: map<nat, string>)
    requires Inferred(g, inferred) && Edge(g, i, j) && g[i].owner.Some?
    ensures Inferred(g, t) && t.Keys == inferred.Keys + {j}
  {
    inferred[j := g[i].owner.value]
  }

  function AddEvent(table: map<Pair, seq<nat>>, p: Pair, j: nat): map<Pair, seq<nat>> {
    table[p := (if p in table then table[p] else []) + [j]]
  }

  lemma EventAdded(g: seq<Node>, n: nat, kinds: set<ToolKind>, table: map<Pair, seq<nat>>, p: Pair)
    requires EventsTabled(g, n, kinds, table) && OutputAt(g, n, p) && p.kind in kinds
    ensures EventsTabled(g, n + 1, kinds, AddEvent(table, p, n))
  {
    var t := AddEvent(table, p, n);
    forall q | q in t
      ensures Listed(g, n + 1, q, t[q])
    {
      if q == p {
        assert t[p][|t[p]| - 1] == n;
        var before := if p in table then table[p] else [];
        forall j | j < n + 1 && OutputAt(g, j, p)
          ensures j in t[p]
        {
          if j < n { assert j in before; }
        }
      } else {
        assert Listed(g, n, q, table[q]);
      }
    }
  }

  lemma EventsKept(g: seq<Node>, n: nat, kinds: set<ToolKind>, table: map<Pair, seq<nat>>)
    requires EventsTabled(g, n, kinds, table) && n < |g|
    requires g[n].shape.IdOutput? ==> g[n].shape.pair.kind !in kinds
    ensures EventsTabled(g, n + 1, kinds, table)
  {
    forall q | q in table
      ensures Listed(g, n + 1, q, table[q])
    {
      assert Listed(g, n, q, table[q]);
    }
  }

  // Two calls, or two plain outputs, that repeat a pair.
  ghost predicate OutputsOnce(g: seq<Node>, n: nat) {
    forall i, j, p | i < j < n && OutputAt(g, i, p) && OutputAt(g, j, p) :: !Plain(p.kind)
  }

  ghost predicate ShapedBelow(g: seq<Node>, n: nat) {
    forall i | 0 <= i < |g| && i < n :: !g[i].shape.Malformed? && (g[i].shape.Thinking? ==> Followed(g, i))
  }

  method ReasoningIsFollowed(g: seq<Node>, index: nat) returns (ok: bool)
    requires index < |g| && g[index].shape.Thinking?
    requires forall i | 0 <= i < |g| && g[i].shape.Thinking? :: !g[i].emitted
    ensures ok ==> Followed(g, index)
    ensures !ok ==> !WellShaped(g)
  {
    var follower := index + 1;
    while follower < |g| && g[follower].shape.Thinking?
      invariant index < follower <= |g|
      invariant forall k | index <= k < follower :: g[k].shape.Thinking?
    {
      follower := follower + 1;
    }
    ok := follower < |g| && g[follower].emitted;
    assert g[follower - 1].shape.Thinking?;
    if !ok {
      assert !Followed(g, follower - 1);
    }
  }

  // What the first pass knows after n items.
  ghost predicate Tabled(
      g: seq<Node>, n: nat, calls: map<Pair, nat>, outputs: map<Pair, nat>,
      streamed: map<Pair, seq<nat>>, programOutputs: map<Pair, seq<nat>>)
  {
    && ShapedBelow(g, n) && OutputsOnce(g, n)
    && CallsTabled(g, n, calls) && OutputsTabled(g, n, outputs)
    && EventsTabled(g, n, STREAMED, streamed) && EventsTabled(g, n, PROGRAMS, programOutputs)
  }

  lemma OtherTabled(
      g: seq<Node>, n: nat, calls: map<Pair, nat>, outputs: map<Pair, nat>,
      streamed: map<Pair, seq<nat>>, programOutputs: map<Pair, seq<nat>>)
    requires Tabled(g, n, calls, outputs, streamed, programOutputs) && n < |g|
    requires !g[n].shape.IdCall? && !g[n].shape.IdOutput? && !g[n].shape.Malformed?
    requires g[n].shape.Thinking? ==> Followed(g, n)
    ensures Tabled(g, n + 1, calls, outputs, streamed, programOutputs)
  {
    EventsKept(g, n, STREAMED, streamed);
    EventsKept(g, n, PROGRAMS, programOutputs);
  }

  lemma CallTabled(
      g: seq<Node>, n: nat, calls: map<Pair, nat>, outputs: map<Pair, nat>,
      streamed: map<Pair, seq<nat>>, programOutputs: map<Pair, seq<nat>>, p: Pair)
    requires Tabled(g, n, calls, outputs, streamed, programOutputs) && CallAt(g, n, p)
    ensures p in calls ==> !UniqueCalls(g)
    ensures p !in calls ==> Tabled(g, n + 1, calls[p := n], outputs, streamed, programOutputs)
  {
    EventsKept(g, n, STREAMED, streamed);
    EventsKept(g, n, PROGRAMS, programOutputs);
    if p in calls {
      assert CallAt(g, calls[p], p);
    }
  }

  lemma OutputTabled(
      g: seq<Node>, n: nat, calls: map<Pair, nat>, outputs: map<Pair, nat>,
      streamed: map<Pair, seq<nat>>, programOutputs: map<Pair, seq<nat>>, p: Pair)
    requires Tabled(g, n, calls, outputs, streamed, programOutputs) && OutputAt(g, n, p) && Plain(p.kind)
    ensures p in outputs ==> !OutputsOnce(g, |g|)
    ensures p !in outputs ==> Tabled(g, n + 1, calls, outputs[p := n], streamed, programOutputs)
  {
    EventsKept(g, n, STREAMED, streamed);
    EventsKept(g, n, PROGRAMS, programOutputs);
    if p in outputs {
      assert OutputAt(g, outputs[p], p);
    }
  }

  lemma EventTabled(
      g: seq<Node>, n: nat, calls: map<Pair, nat>, outputs: map<Pair, nat>,
      streamed: map<Pair, seq<nat>>, programOutputs: map<Pair, seq<nat>>, p: Pair)
    requires Tabled(g, n, calls, outputs, streamed, programOutputs) && OutputAt(g, n, p) && !Plain(p.kind)
    ensures p.kind == Program ==> Tabled(g, n + 1, calls, outputs, streamed, AddEvent(programOutputs, p, n))
    ensures p.kind != Program ==> Tabled(g, n + 1, calls, outputs, AddEvent(streamed, p, n), programOutputs)
  {
    hide Listed, AddEvent;
    if p.kind == Program {
      EventAdded(g, n, PROGRAMS, programOutputs, p);
      EventsKept(g, n, STREAMED, streamed);
    } else {
      EventAdded(g, n, STREAMED, streamed, p);
      EventsKept(g, n, PROGRAMS, programOutputs);
    }
  }

  lemma AllTabled(
      g: seq<Node>, calls: map<Pair, nat>, outputs: map<Pair, nat>,
      streamed: map<Pair, seq<nat>>, programOutputs: map<Pair, seq<nat>>)
    requires Tabled(g, |g|, calls, outputs, streamed, programOutputs)
    ensures WellShaped(g) && UniqueCalls(g) && OutputsOnce(g, |g|)
    ensures CallsTabled(g, |g|, calls) && OutputsTabled(g, |g|, outputs)
    ensures EventsTabled(g, |g|, STREAMED, streamed) && EventsTabled(g, |g|, PROGRAMS, programOutputs)
  {
    forall i, j, p | CallAt(g, i, p) && CallAt(g, j, p)
      ensures i == j
    {
      assert calls[p] == i && calls[p] == j;
    }
  }

  lemma NothingTabled(g: seq<Node>)
    ensures Tabled(g, 0, map[], map[], map[], map[])
  {
  }

  method Tabulate(g: seq<Node>)
    returns (ok: bool, calls: map<Pair, nat>, outputs: map<Pair, nat>,
             streamed: map<Pair, seq<nat>>, programOutputs: map<Pair, seq<nat>>)
    requires forall i | 0 <= i < |g| && g[i].shape.Thinking? :: !g[i].emitted
    ensures ok <==> WellShaped(g) && UniqueCalls(g) && OutputsOnce(g, |g|)
    ensures ok ==> CallsTabled(g, |g|, calls) && OutputsTabled(g, |g|, outputs)
    ensures ok ==> EventsTabled(g, |g|, STREAMED, streamed) && EventsTabled(g, |g|, PROGRAMS, programOutputs)
  {
    hide Tabled, UniqueCalls, OutputsOnce, CallsTabled, OutputsTabled, EventsTabled;
    ok, calls, outputs, streamed, programOutputs := false, map[], map[], map[], map[];
    NothingTabled(g);
    for index := 0 to |g|
      invariant Tabled(g, index, calls, outputs, streamed, programOutputs)
    {
      match g[index].shape {
        case Thinking =>
          var followed := ReasoningIsFollowed(g, index);
          if !followed { return; }
          OtherTabled(g, index, calls, outputs, streamed, programOutputs);
        case IdCall(p) =>
          CallTabled(g, index, calls, outputs, streamed, programOutputs, p);
          if p in calls { return; }
          calls := calls[p := index];
        case AnonCall =>
          OtherTabled(g, index, calls, outputs, streamed, programOutputs);
        case IdOutput(p) =>
          if p.kind == Program {
            EventTabled(g, index, calls, outputs, streamed, programOutputs, p);
            programOutputs := AddEvent(programOutputs, p, index);
          } else if Streams(p.kind) {
            EventTabled(g, index, calls, outputs, streamed, programOutputs, p);
            streamed := AddEvent(streamed, p, index);
          } else {
            OutputTabled(g, index, calls, outputs, streamed, programOutputs, p);
            if p in outputs { return; }
            outputs := outputs[p := index];
          }
        case AnonOutput =>
          OtherTabled(g, index, calls, outputs, streamed, programOutputs);
        case Standalone =>
          OtherTabled(g, index, calls, outputs, streamed, programOutputs);
        case Malformed => return;
      }
    }
    AllTabled(g, calls, outputs, streamed, programOutputs);
    ok := true;
  }

  // The outputs of one table all close calls that are there and agree with them.
  ghost predicate AnsweredBy(g: seq<Node>, j: int) {
    exists i :: IdEdge(g, i, j) && Agrees(g[i], g[j])
  }

  lemma UnansweredOutput(g: seq<Node>, calls: map<Pair, nat>, j: nat, p: Pair)
    requires CallsTabled(g, |g|, calls) && OutputAt(g, j, p) && p.kind != Program
    ensures AnsweredBy(g, j) <==> p in calls && calls[p] < j && Agrees(g[calls[p]], g[j])
    ensures AnsweredBy(g, j) ==> IdEdge(g, calls[p], j)
  {
    if AnsweredBy(g, j) {
      var i :| IdEdge(g, i, j) && Agrees(g[i], g[j]);
      assert CallAt(g, i, p);
    }
  }

  method CheckOutputs(g: seq<Node>, calls: map<Pair, nat>, outputs: map<Pair, nat>)
    returns (ok: bool, inferred: map<nat, string>)
    requires CallsTabled(g, |g|, calls) && OutputsTabled(g, |g|, outputs)
    ensures ok <==> forall j, p | OutputAt(g, j, p) && Plain(p.kind) :: AnsweredBy(g, j)
    ensures Inferred(g, inferred)
    ensures ok ==> forall i, j | IdEdge(g, i, j) && Plain(g[j].shape.pair.kind) && g[i].owner.Some? :: j in inferred
  {
    hide AnonEdge, AnsweredBy, Agrees;
    inferred := map[];
    var todo := outputs.Keys;
    while todo != {}
      invariant todo <= outputs.Keys
      invariant forall p | p in outputs && p !in todo :: AnsweredBy(g, outputs[p])
      invariant Inferred(g, inferred)
      invariant forall p | p in outputs && p !in todo && p in calls && g[calls[p]].owner.Some? :: outputs[p] in inferred
    {
      var p :| p in todo;
      todo := todo - {p};
      var j := outputs[p];
      UnansweredOutput(g, calls, j, p);
      if !(p in calls && calls[p] < j && Agrees(g[calls[p]], g[j])) {
        return false, inferred;
      }
      if g[calls[p]].owner.Some? {
        assert Edge(g, calls[p], j);
        inferred := RecordOwner(g, inferred, calls[p], j);
      }
    }
    ok := true;
    OutputsAnswered(g, calls, outputs, inferred);
  }

  lemma OutputsAnswered(
      g: seq<Node>, calls: map<Pair, nat>, outputs: map<Pair, nat>, inferred: map<nat, string>)
    requires CallsTabled(g, |g|, calls) && OutputsTabled(g, |g|, outputs)
    requires forall p | p in outputs :: AnsweredBy(g, outputs[p])
    requires forall p | p in outputs && p in calls && g[calls[p]].owner.Some? :: outputs[p] in inferred
    ensures forall j, p | OutputAt(g, j, p) && Plain(p.kind) :: AnsweredBy(g, j)
    ensures forall i, j | IdEdge(g, i, j) && Plain(g[j].shape.pair.kind) && g[i].owner.Some? :: j in inferred
  {
    forall j, p | OutputAt(g, j, p) && Plain(p.kind)
      ensures AnsweredBy(g, j)
    {
      assert outputs[p] == j;
    }
    forall i, j | IdEdge(g, i, j) && Plain(g[j].shape.pair.kind) && g[i].owner.Some?
      ensures j in inferred
    {
      var p := g[j].shape.pair;
      assert CallAt(g, i, p) && OutputAt(g, j, p);
    }
  }

  function Statuses(g: seq<Node>, events: seq<nat>): (s: seq<Status>)
    requires forall x | 0 <= x < |events| :: events[x] < |g|
    ensures |s| == |events| && forall x | 0 <= x < |s| :: s[x] == g[events[x]].status
  {
    seq(|events|, x requires 0 <= x < |events| => g[events[x]].status)
  }

  // The statuses of the outputs with pair p.
  ghost predicate StreamOk(g: seq<Node>, p: Pair) {
    && (forall j | OutputAt(g, j, p) :: g[j].status != OtherStatus)
    && (forall i, j | i < j && OutputAt(g, i, p) && OutputAt(g, j, p) :: StreamStep(g[i].status, g[j].status))
  }

  lemma ListedStream(g: seq<Node>, p: Pair, events: seq<nat>)
    requires Listed(g, |g|, p, events)
    ensures ValidEvents(Statuses(g, events)) <==> StreamOk(g, p)
  {
    var s := Statuses(g, events);
    if ValidEvents(s) {
      forall i, j | i < j && OutputAt(g, i, p) && OutputAt(g, j, p)
        ensures StreamStep(g[i].status, g[j].status)
      {
        assert i in events && j in events;
        var x, y :| 0 <= x < |events| && events[x] == i && 0 <= y < |events| && events[y] == j;
        assert x < y && StreamStep(s[x], s[y]);
      }
      forall j | OutputAt(g, j, p)
        ensures g[j].status != OtherStatus
      {
        assert j in events;
      }
    }
    if StreamOk(g, p) {
      forall x, y | 0 <= x < y < |s|
        ensures StreamStep(s[x], s[y])
      {
        assert OutputAt(g, events[x], p) && OutputAt(g, events[y], p) && events[x] < events[y];
      }
      forall x | 0 <= x < |s|
        ensures s[x] != OtherStatus
      {
        assert OutputAt(g, events[x], p);
      }
    }
  }

  /** One stream: its events in order, each after the call, none with another owner. */
  method CheckStream(g: seq<Node>, calls: map<Pair, nat>, p: Pair, events: seq<nat>, inferred0: map<nat, string>)
    returns (ok: bool, inferred: map<nat, string>)
    requires CallsTabled(g, |g|, calls) && Streams(p.kind) && Listed(g, |g|, p, events) && Inferred(g, inferred0)
    ensures ok <==> StreamOk(g, p) && forall j | OutputAt(g, j, p) :: AnsweredBy(g, j)
    ensures Inferred(g, inferred) && inferred0.Keys <= inferred.Keys
    ensures ok ==> forall i, j | IdEdge(g, i, j) && OutputAt(g, j, p) && g[i].owner.Some? :: j in inferred
  {
    hide AnonEdge, AnsweredBy, StreamOk, ValidEvents, Statuses;
    inferred := inferred0;
    var streamOk := StreamIsValid(Statuses(g, events));
    ListedStream(g, p, events);
    if p !in calls || !streamOk {
      UnansweredOutput(g, calls, events[0], p);
      return false, inferred;
    }
    var call := calls[p];
    for x := 0 to |events|
      invariant forall y | 0 <= y < x :: AnsweredBy(g, events[y])
      invariant Inferred(g, inferred) && inferred0.Keys <= inferred.Keys
      invariant g[call].owner.Some? ==> forall y | 0 <= y < x :: events[y] in inferred
    {
      var j := events[x];
      UnansweredOutput(g, calls, j, p);
      if call >= j || !Agrees(g[call], g[j]) {
        return false, inferred;
      }
      if g[call].owner.Some? {
        assert Edge(g, call, j);
        inferred := RecordOwner(g, inferred, call, j);
      }
    }
    ok := true;
    forall i, j | IdEdge(g, i, j) && OutputAt(g, j, p) && g[i].owner.Some?
      ensures j in inferred
    {
      assert CallAt(g, i, p) && j in events;
    }
  }

  method CheckStreams(g: seq<Node>, calls: map<Pair, nat>, streamed: map<Pair, seq<nat>>, inferred0: map<nat, string>)
    returns (ok: bool, inferred: map<nat, string>)
    requires CallsTabled(g, |g|, calls) && EventsTabled(g, |g|, STREAMED, streamed) && Inferred(g, inferred0)
    ensures ok <==> forall j, p | OutputAt(g, j, p) && Streams(p.kind) :: StreamOk(g, p) && AnsweredBy(g, j)
    ensures Inferred(g, inferred) && inferred0.Keys <= inferred.Keys
    ensures ok ==> forall i, j | IdEdge(g, i, j) && Streams(g[j].shape.pair.kind) && g[i].owner.Some? :: j in inferred
  {
    hide AnonEdge, AnsweredBy, StreamOk, Inferred;
    inferred := inferred0;
    var todo := streamed.Keys;
    while todo != {}
      invariant todo <= streamed.Keys
      invariant forall p | p in streamed && p !in todo :: StreamOk(g, p) && forall j | OutputAt(g, j, p) ::
                AnsweredBy(g, j)
      invariant Inferred(g, inferred) && inferred0.Keys <= inferred.Keys
      invariant forall p, i, j | p in streamed && p !in todo && IdEdge(g, i, j) && OutputAt(g, j, p)
                && g[i].owner.Some? ::
                  j in inferred
    {
      var p :| p in todo;
      todo := todo - {p};
      var streamOk;
      streamOk, inferred := CheckStream(g, calls, p, streamed[p], inferred);
      if !streamOk {
        assert OutputAt(g, streamed[p][0], p);
        return false, inferred;
      }
    }
    ok := true;
    forall i, j | IdEdge(g, i, j) && Streams(g[j].shape.pair.kind) && g[i].owner.Some?
      ensures j in inferred
    {
      assert OutputAt(g, j, g[j].shape.pair);
    }
  }

  /* Anonymous searches */

  // The positions of all anonymous outputs, in order.
  ghost predicate AnonOutputsListed(g: seq<Node>, outputs: seq<nat>) {
    && |outputs| == AnonOutputs(g)
    && (forall j | 0 <= j < |g| && g[j].shape.AnonOutput? :: j in outputs)
    && (forall x | 0 <= x < |outputs| :: outputs[x] < |g| && g[outputs[x]].shape.AnonOutput?)
    && (forall x, y | 0 <= x < y < |outputs| :: outputs[x] < outputs[y])
  }

  method AnonIndexes(g: seq<Node>) returns (calls: seq<nat>, outputs: seq<nat>)
    ensures |calls| == AnonCalls(g)
    ensures forall i | 0 <= i < |g| && g[i].shape.AnonCall? :: i in calls
    ensures forall x | 0 <= x < |calls| :: calls[x] < |g| && g[calls[x]].shape.AnonCall?
    ensures AnonOutputsListed(g, outputs)
  {
    calls, outputs := [], [];
    for n := 0 to |g|
      invariant |calls| == AnonCalls(g[..n]) && |outputs| == AnonOutputs(g[..n])
      invariant forall i | 0 <= i < n && g[i].shape.AnonCall? :: i in calls
      invariant forall j | 0 <= j < n && g[j].shape.AnonOutput? :: j in outputs
      invariant forall x | 0 <= x < |calls| :: calls[x] < n && g[calls[x]].shape.AnonCall?
      invariant forall x | 0 <= x < |outputs| :: outputs[x] < n && g[outputs[x]].shape.AnonOutput?
      invariant forall x, y | 0 <= x < y < |outputs| :: outputs[x] < outputs[y]
    {
      assert g[..n + 1][..n] == g[..n];
      if g[n].shape.AnonCall? { calls := calls + [n]; }
      if g[n].shape.AnonOutput? { outputs := outputs + [n]; }
    }
    assert g[..|g|] == g;
  }

  lemma {:induction false} LoneStream(g: seq<Node>, call: nat, outputs: seq<nat>)
    requires AnonCalls(g) == 1 && call < |g| && g[call].shape.AnonCall?
    requires forall i | 0 <= i < |g| && g[i].shape.AnonCall? :: i == call
    requires AnonOutputsListed(g, outputs)
    ensures AnonymousOk(g) <==>
              outputs != [] && (forall x | 0 <= x < |outputs| :: call < outputs[x]) && ValidEvents(Statuses(g, outputs))
  {
    var s := Statuses(g, outputs);
    if ValidEvents(s) {
      forall i, j | 0 <= i < j < |g| && g[i].shape.AnonOutput? && g[j].shape.AnonOutput?
        ensures StreamStep(g[i].status, g[j].status)
      {
        var x :| 0 <= x < |outputs| && outputs[x] == i;
        var y :| 0 <= y < |outputs| && outputs[y] == j;
        assert x < y && StreamStep(s[x], s[y]);
      }
    }
  }

  lemma {:induction false} LoneEdges(g: seq<Node>, call: nat, outputs: seq<nat>)
    requires AnonCalls(g) == 1 && call < |g| && g[call].shape.AnonCall?
    requires forall i | 0 <= i < |g| && g[i].shape.AnonCall? :: i == call
    requires AnonOutputsListed(g, outputs)
    ensures forall i, j | AnonEdge(g, i, j) :: i == call && j in outputs
    ensures forall x | 0 <= x < |outputs| && call < outputs[x] :: AnonEdge(g, call, outputs[x])
  {
  }

  // The table of ownership and the set of programs with a matched anonymous search, both complete.
  ghost predicate AnonRecorded(g: seq<Node>, inferred: map<nat, string>, matchedPrograms: set<string>) {
    && (forall i, j | AnonEdge(g, i, j) && g[i].owner.Some? :: j in inferred)
    && SearchOwners(g, matchedPrograms)
  }

  ghost predicate SearchOwners(g: seq<Node>, programs: set<string>) {
    forall p :: p in programs <==> exists i, j :: AnonEdge(g, i, j) && g[i].owner == Some(p)
  }

  method CheckLoneSearch(g: seq<Node>, call: nat, outputs: seq<nat>, inferred0: map<nat, string>)
    returns (ok: bool, inferred: map<nat, string>, matchedPrograms: set<string>)
    requires AnonCalls(g) == 1 && call < |g| && g[call].shape.AnonCall? && Inferred(g, inferred0)
    requires forall i | 0 <= i < |g| && g[i].shape.AnonCall? :: i == call
    requires AnonOutputsListed(g, outputs)
    ensures ok <==> AnonymousOk(g) && AnonymousOwnersOk(g)
    ensures Inferred(g, inferred) && inferred0.Keys <= inferred.Keys
    ensures ok ==> AnonRecorded(g, inferred, matchedPrograms)
  {
    hide Matched, AnonOutputsListed, AnonymousOk, ValidEvents, Inferred, IdEdge;
    ok, inferred, matchedPrograms := false, inferred0, {};
    LoneStream(g, call, outputs);
    LoneEdges(g, call, outputs);
    var streamOk := StreamIsValid(Statuses(g, outputs));
    if outputs == [] || !streamOk || exists x | 0 <= x < |outputs| :: outputs[x] <= call {
      return;
    }
    for x := 0 to |outputs|
      invariant forall y | 0 <= y < x :: Agrees(g[call], g[outputs[y]])
      invariant Inferred(g, inferred) && inferred0.Keys <= inferred.Keys
      invariant g[call].owner.Some? ==> forall y | 0 <= y < x :: outputs[y] in inferred
    {
      var j := outputs[x];
      assert AnonEdge(g, call, j);
      if !Agrees(g[call], g[j]) {
        return;
      }
      if g[call].owner.Some? {
        assert Edge(g, call, j);
        inferred := RecordOwner(g, inferred, call, j);
      }
    }
    if g[call].owner.Some? {
      matchedPrograms := {g[call].owner.value};
      assert AnonEdge(g, call, outputs[0]);
    }
    ok := true;
  }

  method CheckAnonymous(g: seq<Node>, inferred0: map<nat, string>)
    returns (ok: bool, inferred: map<nat, string>, matchedPrograms: set<string>)
    requires Inferred(g, inferred0)
    ensures ok <==> AnonymousOk(g) && AnonymousOwnersOk(g)
    ensures Inferred(g, inferred) && inferred0.Keys <= inferred.Keys
    ensures ok ==> AnonRecorded(g, inferred, matchedPrograms)
  {
    var calls, outputs := AnonIndexes(g);
    if |calls| == 1 {
      forall i | 0 <= i < |g| && g[i].shape.AnonCall?
        ensures i == calls[0]
      {
        assert i in calls;
      }
      ok, inferred, matchedPrograms := CheckLoneSearch(g, calls[0], outputs, inferred0);
    } else if calls != [] || outputs != [] {
      ok, inferred, matchedPrograms := MatchFromTheRight(g, inferred0);
      forall j | j in inferred
        ensures exists i :: Edge(g, i, j) && g[i].owner == Some(inferred[j])
      {
        if !(j in inferred0 && inferred[j] == inferred0[j]) {
          var i :| AnonEdge(g, i, j) && g[i].owner == Some(inferred[j]);
          assert Edge(g, i, j);
        }
      }
    } else {
      ok, inferred, matchedPrograms := true, inferred0, {};
      forall k | 0 <= k <= |g|
        ensures AnonCalls(g[..k]) == AnonOutputs(g[..k]) == 0
      {
        CountsOfConcat(g[..k], g[k..]);
        assert g[..k] + g[k..] == g;
      }
      forall i, j
        ensures !AnonEdge(g, i, j)
      {
        assert 0 <= i < |g| && g[i].shape.AnonCall? ==> i in calls;
      }
    }
  }

  /* Programs */

  ghost predicate RootsTabled(g: seq<Node>, roots: map<string, nat>) {
    && (forall p | p in roots :: ProgramAt(g, roots[p], p))
    && (forall r, p | ProgramAt(g, r, p) :: p in roots && roots[p] == r)
  }

  method ProgramRoots(g: seq<Node>, calls: map<Pair, nat>) returns (roots: map<string, nat>)
    requires CallsTabled(g, |g|, calls)
    ensures RootsTabled(g, roots)
  {
    roots := map[];
    var todo := calls.Keys;
    while todo != {}
      invariant todo <= calls.Keys
      invariant forall p | p in roots :: ProgramAt(g, roots[p], p)
      invariant forall p | p in calls && p !in todo && p.kind == Program :: p.id in roots
    {
      var p :| p in todo;
      todo := todo - {p};
      if p.kind == Program {
        // A second root with this id would be a second call with this pair.
        assert p == Pair(Program, p.id);
        roots := roots[p.id := calls[p]];
      }
    }
  }

  ghost predicate ResultsOkFor(g: seq<Node>, p: Pair) {
    && (forall t | OutputAt(g, t, p) ::
          g[t].status in {Incomplete, Completed} && exists r :: r < t && CallAt(g, r, p))
    && (forall s, t | s < t && OutputAt(g, s, p) && OutputAt(g, t, p) :: g[s].status == Incomplete)
  }

  // The results of one program, judged along the list of them.
  predicate ResultsInOrder(g: seq<Node>, root: nat, events: seq<nat>)
    requires forall x | 0 <= x < |events| :: events[x] < |g|
  {
    && (forall x | 0 <= x < |events| :: root < events[x] && g[events[x]].status in {Incomplete, Completed})
    && (forall x | 0 <= x < |events| - 1 :: g[events[x]].status == Incomplete)
  }

  lemma ListedResults(g: seq<Node>, roots: map<string, nat>, p: Pair, events: seq<nat>)
    requires RootsTabled(g, roots) && p.kind == Program && Listed(g, |g|, p, events)
    ensures ResultsOkFor(g, p) <==> p.id in roots && ResultsInOrder(g, roots[p.id], events)
  {
    assert p == Pair(Program, p.id);
    if ResultsOkFor(g, p) {
      forall x | 0 <= x < |events|
        ensures p.id in roots && roots[p.id] < events[x] && g[events[x]].status in {Incomplete, Completed}
        ensures x < |events| - 1 ==> g[events[x]].status == Incomplete
      {
        assert OutputAt(g, events[x], p);
        var r :| r < events[x] && CallAt(g, r, p);
        assert ProgramAt(g, r, p.id);
        assert x < |events| - 1 ==> OutputAt(g, events[x + 1], p) && events[x] < events[x + 1];
      }
      assert events[0] < |g|;
    }
    if p.id in roots && ResultsInOrder(g, roots[p.id], events) {
      InOrderIsOk(g, roots[p.id], p, events);
    }
  }

  lemma InOrderIsOk(g: seq<Node>, root: nat, p: Pair, events: seq<nat>)
    requires ProgramAt(g, root, p.id) && p.kind == Program && Listed(g, |g|, p, events)
    requires ResultsInOrder(g, root, events)
    ensures ResultsOkFor(g, p)
  {
    assert p == Pair(Program, p.id) && CallAt(g, root, p);
    forall t | OutputAt(g, t, p)
      ensures g[t].status in {Incomplete, Completed} && root < t
    {
      assert t in events;
    }
    forall s, t | s < t && OutputAt(g, s, p) && OutputAt(g, t, p)
      ensures g[s].status == Incomplete
    {
      assert s in events && t in events;
      var x :| 0 <= x < |events| && events[x] == s;
      var y :| 0 <= y < |events| && events[y] == t;
      assert x < y;
    }
  }

  // The last result is the only one that may complete the program.
  lemma LastCompletes(g: seq<Node>, root: nat, p: Pair, events: seq<nat>)
    requires Listed(g, |g|, p, events) && ResultsInOrder(g, root, events)
    ensures OutputAt(g, events[|events| - 1], p)
    ensures forall t | OutputAt(g, t, p) && g[t].status == Completed :: t == events[|events| - 1]
  {
    forall t | OutputAt(g, t, p) && g[t].status == Completed
      ensures t == events[|events| - 1]
    {
      assert t in events;
    }
  }

  method CheckProgramResult(g: seq<Node>, roots: map<string, nat>, p: Pair, events: seq<nat>)
    returns (ok: bool, terminal: Option<nat>)
    requires RootsTabled(g, roots) && p.kind == Program && Listed(g, |g|, p, events)
    ensures ok <==> ResultsOkFor(g, p)
    ensures ok ==> forall t | OutputAt(g, t, p) && g[t].status == Completed :: terminal == Some(t)
    ensures ok && terminal.Some? ==> OutputAt(g, terminal.value, p) && g[terminal.value].status == Completed
  {
    hide RootsTabled, ResultsOkFor, OutputAt;
    terminal := None;
    ListedResults(g, roots, p, events);
    if p.id !in roots {
      return false, None;
    }
    var root := roots[p.id];
    for x := 0 to |events|
      invariant terminal.Some? <==> x > 0 && g[events[x - 1]].status == Completed
      invariant terminal.Some? ==> terminal.value == events[x - 1]
      invariant ResultsInOrder(g, root, events[..x])
    {
      var t := events[x];
      if t <= root || terminal.Some? || g[t].status !in {Incomplete, Completed} {
        assert terminal.Some? ==> g[events[x - 1]].status != Incomplete;
        return false, terminal;
      }
      if g[t].status == Completed {
        terminal := Some(t);
      }
    }
    ok := true;
    assert events[..|events|] == events;
    LastCompletes(g, root, p, events);
  }

  // The completed results, one for each program that has one.
  ghost predicate TerminalsTabled(g: seq<Node>, terminals: map<string, nat>) {
    && (forall p | p in terminals :: OutputAt(g, terminals[p], Pair(Program, p)) && g[terminals[p]].status == Completed)
    && (forall t, p | OutputAt(g, t, p) && p.kind == Program && g[t].status == Completed ::
          p.id in terminals && terminals[p.id] == t)
  }

  lemma ResultsByProgram(g: seq<Node>, programOutputs: map<Pair, seq<nat>>)
    requires EventsTabled(g, |g|, PROGRAMS, programOutputs)
    ensures ProgramResultsOk(g) <==> forall p | p in programOutputs :: ResultsOkFor(g, p)
  {
    hide Listed;
    if forall p | p in programOutputs :: ResultsOkFor(g, p) {
      forall t, p | OutputAt(g, t, p) && p.kind == Program
        ensures ResultsOkFor(g, p)
      {
        assert p in programOutputs;
      }
    }
  }

  method CheckProgramResults(g: seq<Node>, roots: map<string, nat>, programOutputs: map<Pair, seq<nat>>)
    returns (ok: bool, terminals: map<string, nat>)
    requires RootsTabled(g, roots) && EventsTabled(g, |g|, PROGRAMS, programOutputs)
    ensures ok <==> ProgramResultsOk(g)
    ensures ok ==> TerminalsTabled(g, terminals)
  {
    hide ResultsOkFor, ProgramResultsOk, Listed;
    terminals := map[];
    ResultsByProgram(g, programOutputs);
    var todo := programOutputs.Keys;
    while todo != {}
      invariant todo <= programOutputs.Keys
      invariant forall p | p in programOutputs && p !in todo :: ResultsOkFor(g, p)
      invariant forall p | p in terminals ::
                  OutputAt(g, terminals[p], Pair(Program, p)) && g[terminals[p]].status == Completed
      invariant forall t, p | p in programOutputs && p !in todo && OutputAt(g, t, p) && g[t].status == Completed ::
                  p.id in terminals && terminals[p.id] == t
    {
      var p :| p in todo;
      todo := todo - {p};
      assert p == Pair(Program, p.id);
      var resultOk, terminal := CheckProgramResult(g, roots, p, programOutputs[p]);
      if !resultOk {
        return false, terminals;
      }
      if terminal.Some? {
        terminals := terminals[p.id := terminal.value];
      }
    }
    ok := true;
  }

  method CheckOwned(g: seq<Node>, roots: map<string, nat>) returns (ok: bool)
    requires RootsTabled(g, roots)
    ensures ok <==> OwnedAfterRoot(g)
  {
    for index := 0 to |g|
      invariant forall i | 0 <= i < index && g[i].owner.Some? :: exists r :: r < i && ProgramAt(g, r, g[i].owner.value)
    {
      if g[index].owner.Some? {
        var p := g[index].owner.value;
        if p !in roots || roots[p] >= index {
          return false;
        }
        assert ProgramAt(g, roots[p], p);
      }
    }
    return true;
  }

  // The table holds ownership along every edge.
  ghost predicate AllInferred(g: seq<Node>, inferred: map<nat, string>) {
    forall i, j | Edge(g, i, j) && g[i].owner.Some? :: j in inferred
  }

  // An output closes one call only.
  lemma EdgeFromOneCall(g: seq<Node>, i: int, i': int, j: int)
    requires UniqueCalls(g) && Edge(g, i, j) && Edge(g, i', j)
    ensures i == i'
  {
    if IdEdge(g, i, j) {
      assert CallAt(g, i, g[i].shape.pair) && CallAt(g, i', g[i].shape.pair);
    } else if AnonCalls(g) == 1 {
      if i < i' { CountAtLeastTwo(g, i, i'); }
      if i' < i { CountAtLeastTwo(g, i', i); }
    } else {
      MatchIsOneToOne(g, i, j, i', j);
    }
  }

  lemma BelongsIffTabled(g: seq<Node>, inferred: map<nat, string>, i: nat, p: string)
    requires UniqueCalls(g) && Inferred(g, inferred) && AllInferred(g, inferred) && i < |g|
    ensures BelongsTo(g, i, p) <==> g[i].owner == Some(p) || (i in inferred && inferred[i] == p)
  {
    if i in inferred {
      var k :| Edge(g, k, i) && g[k].owner == Some(inferred[i]);
      forall k' | Edge(g, k', i)
        ensures k == k'
      {
        EdgeFromOneCall(g, k, k', i);
      }
    }
  }

  ghost predicate ClosedFor(g: seq<Node>, p: string) {
    forall t | OutputAt(g, t, Pair(Program, p)) && g[t].status == Completed ::
      forall i | t < i < |g| :: !BelongsTo(g, i, p)
  }

  method CheckClosed(
      g: seq<Node>, p: string, terminals: map<string, nat>, inferred: map<nat, string>) returns (ok: bool)
    requires UniqueCalls(g) && Inferred(g, inferred) && AllInferred(g, inferred)
    requires TerminalsTabled(g, terminals)
    ensures ok <==> ClosedFor(g, p)
  {
    ok := true;
    if p in terminals {
      for i := 0 to |g|
        invariant ok <==> forall k | terminals[p] < k < i :: !BelongsTo(g, k, p)
      {
        BelongsIffTabled(g, inferred, i, p);
        if terminals[p] < i && (g[i].owner == Some(p) || (i in inferred && inferred[i] == p)) {
          ok := false;
        }
      }
    }
  }

  method ActiveChildAfter(g: seq<Node>, r: nat, p: string) returns (found: bool)
    requires r < |g|
    ensures found <==> HasActiveChild(g, r, p)
  {
    for c := r + 1 to |g|
      invariant forall k | r < k < c :: !(g[k].owner == Some(p) && g[k].active)
    {
      if g[c].owner == Some(p) && g[c].active {
        return true;
      }
    }
    return false;
  }

  // Either table has an output for the pair exactly if the call is answered.
  lemma TabledIffAnswered(
      g: seq<Node>, calls: map<Pair, nat>, outputs: map<Pair, nat>, streamed: map<Pair, seq<nat>>, p: Pair)
    requires CallsTabled(g, |g|, calls) && OutputsTabled(g, |g|, outputs) && EventsTabled(g, |g|, STREAMED, streamed)
    requires Answers(g) && p in calls && p.kind != Program
    ensures IsAnswered(g, calls[p]) <==> p in outputs || p in streamed
  {
    if p in outputs || p in streamed {
      var j := if p in outputs then outputs[p] else streamed[p][0];
      assert OutputAt(g, j, p);
      var i :| IdEdge(g, i, j);
      assert CallAt(g, i, p);
      assert IdEdge(g, calls[p], j);
    }
    if IsAnswered(g, calls[p]) {
      var j :| IdEdge(g, calls[p], j);
      assert OutputAt(g, j, p);
    }
  }

  method AnsweredOwnedCall(
      g: seq<Node>, calls: map<Pair, nat>, outputs: map<Pair, nat>, streamed: map<Pair, seq<nat>>, p: string)
    returns (found: bool)
    requires CallsTabled(g, |g|, calls) && OutputsTabled(g, |g|, outputs) && EventsTabled(g, |g|, STREAMED, streamed)
    requires Answers(g)
    ensures found <==> exists i, j :: IdEdge(g, i, j) && g[i].owner == Some(p)
  {
    var todo := calls.Keys;
    while todo != {}
      invariant todo <= calls.Keys
      invariant forall q | q in calls && q !in todo && q.kind != Program && g[calls[q]].owner == Some(p) ::
                  !IsAnswered(g, calls[q])
    {
      var q :| q in todo;
      todo := todo - {q};
      if q.kind != Program && g[calls[q]].owner == Some(p) {
        TabledIffAnswered(g, calls, outputs, streamed, q);
        if q in outputs || q in streamed {
          return true;
        }
      }
    }
    forall i, j | IdEdge(g, i, j) && g[i].owner == Some(p)
      ensures false
    {
      assert CallAt(g, i, g[i].shape.pair);
    }
    return false;
  }

  method ProgramIsLive(
      g: seq<Node>, calls: map<Pair, nat>, outputs: map<Pair, nat>, streamed: map<Pair, seq<nat>>,
      programOutputs: map<Pair, seq<nat>>, r: nat, p: string, matchedPrograms: set<string>)
    returns (live: bool)
    requires CallsTabled(g, |g|, calls) && OutputsTabled(g, |g|, outputs) && EventsTabled(g, |g|, STREAMED, streamed)
    requires EventsTabled(g, |g|, PROGRAMS, programOutputs) && r < |g| && Answers(g)
    requires SearchOwners(g, matchedPrograms)
    ensures live <==> LiveFor(g, r, p)
  {
    var pair := Pair(Program, p);
    var completed := pair in programOutputs;
    assert completed <==> HasResult(g, p) by {
      if completed { assert OutputAt(g, programOutputs[pair][0], pair); }
    }
    var activeChild := ActiveChildAfter(g, r, p);
    var answeredCall := AnsweredOwnedCall(g, calls, outputs, streamed, p);
    assert HasAnsweredCall(g, p) <==> answeredCall || p in matchedPrograms by {
      if answeredCall {
        var i, j :| IdEdge(g, i, j) && g[i].owner == Some(p);
        assert Edge(g, i, j);
      }
      if p in matchedPrograms {
        var i, j :| AnonEdge(g, i, j) && g[i].owner == Some(p);
        assert Edge(g, i, j);
      }
    }
    live := completed || activeChild || answeredCall || p in matchedPrograms;
  }

  lemma RootJudged(g: seq<Node>, r: nat, p: string)
    requires ProgramAt(g, r, p)
    ensures !ClosedFor(g, p) ==> !Closed(g)
    ensures !LiveFor(g, r, p) ==> !ProgramsLive(g)
  {
    var pair := Pair(Program, p);
    assert CallAt(g, r, pair) && pair.id == p;
  }

  lemma RootByRoot(g: seq<Node>, roots: map<string, nat>)
    requires RootsTabled(g, roots) && ProgramResultsOk(g)
    requires forall p | p in roots :: ClosedFor(g, p) && LiveFor(g, roots[p], p)
    ensures Closed(g) && ProgramsLive(g)
  {
    forall t, p | OutputAt(g, t, p) && p.kind == Program && g[t].status == Completed
      ensures forall i | t < i < |g| :: !BelongsTo(g, i, p.id)
    {
      var r :| r < t && CallAt(g, r, p);
      assert p == Pair(Program, p.id) && ProgramAt(g, r, p.id);
      assert ClosedFor(g, p.id);
    }
    forall r, p | CallAt(g, r, p) && p.kind == Program
      ensures LiveFor(g, r, p.id)
    {
      assert p == Pair(Program, p.id) && ProgramAt(g, r, p.id);
    }
  }

  method CheckPrograms(
      g: seq<Node>, calls: map<Pair, nat>, outputs: map<Pair, nat>, streamed: map<Pair, seq<nat>>,
      programOutputs: map<Pair, seq<nat>>, roots: map<string, nat>, terminals: map<string, nat>,
      inferred: map<nat, string>, matchedPrograms: set<string>)
    returns (ok: bool)
    requires CallsTabled(g, |g|, calls) && OutputsTabled(g, |g|, outputs) && EventsTabled(g, |g|, STREAMED, streamed)
    requires EventsTabled(g, |g|, PROGRAMS, programOutputs) && RootsTabled(g, roots)
    requires UniqueCalls(g) && Answers(g) && ProgramResultsOk(g)
    requires Inferred(g, inferred) && AllInferred(g, inferred) && AnonRecorded(g, inferred, matchedPrograms)
    requires TerminalsTabled(g, terminals)
    ensures ok <==> Closed(g) && ProgramsLive(g)
  {
    hide CallsTabled, OutputsTabled, EventsTabled, TerminalsTabled, Inferred, AllInferred, Answers, UniqueCalls,
         SearchOwners;
    hide ProgramResultsOk, ClosedFor, LiveFor, Closed, ProgramsLive;
    var todo := roots.Keys;
    while todo != {}
      invariant todo <= roots.Keys
      invariant forall p | p in roots && p !in todo :: ClosedFor(g, p) && LiveFor(g, roots[p], p)
    {
      var p :| p in todo;
      todo := todo - {p};
      RootJudged(g, roots[p], p);
      var closed := CheckClosed(g, p, terminals, inferred);
      if !closed {
        return false;
      }
      var live := ProgramIsLive(g, calls, outputs, streamed, programOutputs, roots[p], p, matchedPrograms);
      if !live {
        return false;
      }
    }
    ok := true;
    RootByRoot(g, roots);
  }

  method CheckAnswered(g: seq<Node>, calls: map<Pair, nat>, outputs: map<Pair, nat>, streamed: map<Pair, seq<nat>>)
    returns (ok: bool)
    requires CallsTabled(g, |g|, calls) && OutputsTabled(g, |g|, outputs) && EventsTabled(g, |g|, STREAMED, streamed)
    requires Answers(g)
    ensures ok <==> CallsAnswered(g)
  {
    var todo := calls.Keys;
    while todo != {}
      invariant todo <= calls.Keys
      invariant forall p | p in calls && p !in todo && p.kind != Program ::
                  IsAnswered(g, calls[p]) || (g[calls[p]].owner.Some? && g[calls[p]].pending)
    {
      var p :| p in todo;
      todo := todo - {p};
      if p.kind != Program {
        TabledIffAnswered(g, calls, outputs, streamed, p);
        if !(p in outputs || p in streamed) && !(g[calls[p]].owner.Some? && g[calls[p]].pending) {
          assert CallAt(g, calls[p], p);
          return false;
        }
      }
    }
    return true;
  }

  /** A run is accepted exactly if its graph is valid. */
  method ResponseRunIsValid(items: seq<Item>) returns (ok: bool)
    ensures ok <==> ValidRun(items)
  {
    var g := Graph(items);
    ok := GraphIsValid(g);
  }

  method GraphIsValid(g: seq<Node>) returns (ok: bool)
    requires forall i | 0 <= i < |g| && g[i].shape.Thinking? :: !g[i].emitted
    ensures ok <==> ValidGraph(g)
  {
    var calls, outputs, streamed, programOutputs;
    ok, calls, outputs, streamed, programOutputs := Tabulate(g);
    if !ok {
      assert EventsOk(g) ==> OutputsOnce(g, |g|);
      return;
    }
    var inferred;
    ok, inferred := CheckOutputs(g, calls, outputs);
    if !ok {
      return;
    }
    ok, inferred := CheckStreams(g, calls, streamed, inferred);
    if !ok {
      StreamsFail(g);
      return;
    }
    OutputsPass(g);
    var matchedPrograms;
    ok, inferred, matchedPrograms := CheckAnonymous(g, inferred);
    if !ok {
      return;
    }
    var roots := ProgramRoots(g, calls);
    var terminals;
    ok, terminals := CheckProgramResults(g, roots, programOutputs);
    if !ok {
      return;
    }
    ok := CheckOwned(g, roots);
    if !ok {
      return;
    }
    ok := CheckPrograms(g, calls, outputs, streamed, programOutputs, roots, terminals, inferred, matchedPrograms);
    if !ok {
      return;
    }
    ok := CheckAnswered(g, calls, outputs, streamed);
  }

  lemma StreamsFail(g: seq<Node>)
    ensures Answers(g) && EventsOk(g) ==>
              forall j, p | OutputAt(g, j, p) && Streams(p.kind) :: StreamOk(g, p) && AnsweredBy(g, j)
  {
  }

  lemma OutputsPass(g: seq<Node>)
    requires OutputsOnce(g, |g|)
    requires forall j, p | OutputAt(g, j, p) && Plain(p.kind) :: AnsweredBy(g, j)
    requires forall j, p | OutputAt(g, j, p) && Streams(p.kind) :: StreamOk(g, p) && AnsweredBy(g, j)
    ensures Answers(g) && EventsOk(g)
  {
  }
}
