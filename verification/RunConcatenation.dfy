/** Two replay runs that become adjacent, because what stood between them was dropped, are read as one run.
    When that run is valid. */
module RunConcatenation {
  import opened Options
  import opened ResponseItems
  import opened RunGraph
  import opened AnonymousSearch

  ghost predicate SharesCall(a: seq<Node>, b: seq<Node>) {
    exists i, j, p :: CallAt(a, i, p) && CallAt(b, j, p)
  }

  // Two runs with anonymous searches must each have exactly one output per search.
  predicate AnonCompatible(a: seq<Node>, b: seq<Node>) {
    || AnonCalls(a) == 0
    || AnonCalls(b) == 0
    || (AnonOutputs(a) == AnonCalls(a) && AnonOutputs(b) == AnonCalls(b))
  }

  ghost predicate Compatible(a: seq<Node>, b: seq<Node>) {
    !SharesCall(a, b) && AnonCompatible(a, b)
  }

  /* Anonymous searches across the seam */

  lemma DepthOfConcat(a: seq<Node>, b: seq<Node>, k: nat)
    requires k <= |a + b|
    ensures k <= |a| ==> Depth(a + b, k) == Depth(a, k)
    ensures k >= |a| ==> Depth(a + b, k) == Depth(a, |a|) + Depth(b, k - |a|)
  {
    if k <= |a| {
      assert (a + b)[..k] == a[..k];
    }
    if k >= |a| {
      assert (a + b)[..k] == a + b[..k - |a|] && a[..|a|] == a;
      CountsOfConcat(a, b[..k - |a|]);
    }
  }

  lemma MatchedInFirst(a: seq<Node>, b: seq<Node>, i: int, j: int)
    requires j < |a|
    ensures Matched(a + b, i, j) <==> Matched(a, i, j)
  {
    forall k | 0 <= k <= |a| { DepthOfConcat(a, b, k); }
  }

  lemma MatchedInSecond(a: seq<Node>, b: seq<Node>, i: int, j: int)
    requires i >= |a|
    ensures Matched(a + b, i, j) <==> Matched(b, i - |a|, j - |a|)
  {
    var n, d := |a|, Depth(a, |a|);
    forall k | n <= k <= |a + b|
      ensures Depth(a + b, k) == d + Depth(b, k - n)
    {
      DepthOfConcat(a, b, k);
    }
    if Matched(b, i - n, j - n) {
      forall m | i < m <= j
        ensures Depth(a + b, m) >= Depth(a + b, i + 1)
      {
        assert Depth(b, m - n) >= Depth(b, i - n + 1);
      }
    }
    if Matched(a + b, i, j) {
      forall m | i - n < m <= j - n
        ensures Depth(b, m) >= Depth(b, i - n + 1)
      {
        assert Depth(a + b, m + n) >= Depth(a + b, i + 1);
      }
    }
  }

  lemma NoneMatchedAcross(a: seq<Node>, b: seq<Node>, i: int, j: int)
    requires Balanced(a) && i < |a| <= j
    ensures !Matched(a + b, i, j)
  {
    if Matched(a + b, i, j) {
      DepthOfConcat(a, b, |a|);
      DepthOfConcat(a, b, i);
      DepthStep(a + b, i);
    }
  }

  lemma {:induction false} NoAnonymous(g: seq<Node>)
    requires AnonymousOk(g) && AnonCalls(g) == 0
    ensures AnonOutputs(g) == 0
    ensures forall i | 0 <= i < |g| :: !g[i].shape.AnonCall? && !g[i].shape.AnonOutput?
  {
    assert g[..|g|] == g;
    forall i | 0 <= i < |g| { CountAtLeastOne(g, i); }
  }

  lemma {:induction false} OnlyOutput(g: seq<Node>, j: nat, j': nat)
    requires AnonOutputs(g) == 1 && j < |g| && j' < |g| && g[j].shape.AnonOutput? && g[j'].shape.AnonOutput?
    ensures j == j'
  {
    var l, r := if j < j' then j else j', if j < j' then j' else j;
    CountsOfConcat(g[..r], g[r..]);
    assert g == g[..r] + g[r..];
    if l < r {
      CountAtLeastOne(g[..r], l);
      CountAtLeastOne(g[r..], 0);
    }
  }

  lemma {:induction false} OneIsBalanced(g: seq<Node>)
    requires AnonymousOk(g) && AnonOutputs(g) == AnonCalls(g) == 1
    ensures Balanced(g)
  {
    assert g[..|g|] == g;
    var i := SomeAnonCall(g);
    forall k | 0 <= k <= |g|
      ensures Depth(g, k) >= 0
    {
      CountsOfConcat(g[..k], g[k..]);
      assert g == g[..k] + g[k..];
      if AnonOutputs(g[..k]) > 0 {
        var j := SomeAnonOutput(g[..k]);
        CountAtLeastOne(g[..k], i);
      }
    }
  }

  // With one output per search, a lone search is matched like several are.
  lemma {:induction false} OneEachIsBalanced(g: seq<Node>)
    requires AnonymousOk(g) && AnonOutputs(g) == AnonCalls(g)
    ensures Balanced(g)
    ensures forall i, j :: AnonEdge(g, i, j) <==> Matched(g, i, j)
  {
    if AnonCalls(g) == 1 {
      OneIsBalanced(g);
      forall i, j | AnonEdge(g, i, j)
        ensures Matched(g, i, j)
      {
        var j' := BalancedMatchesCalls(g, i);
        OnlyOutput(g, j, j');
      }
    }
  }

  // Nothing crosses the seam.
  ghost predicate AnonEdgesSplit(a: seq<Node>, b: seq<Node>) {
    forall i, j :: AnonEdge(a + b, i, j) <==>
      if j < |a| then AnonEdge(a, i, j) else i >= |a| && AnonEdge(b, i - |a|, j - |a|)
  }

  lemma MatchedOfConcat(a: seq<Node>, b: seq<Node>, i: int, j: int)
    requires Balanced(a)
    ensures Matched(a + b, i, j) <==>
            if j < |a| then Matched(a, i, j) else i >= |a| && Matched(b, i - |a|, j - |a|)
  {
    if j < |a| {
      MatchedInFirst(a, b, i, j);
    } else if i >= |a| {
      MatchedInSecond(a, b, i, j);
    } else {
      NoneMatchedAcross(a, b, i, j);
    }
  }

  // A first run without anonymous searches leaves those of the second alone, and the other way round.
  lemma {:induction false} EdgesAllInSecond(a: seq<Node>, b: seq<Node>)
    requires AnonymousOk(a) && AnonCalls(a) == 0
    ensures AnonEdgesSplit(a, b)
  {
    NoAnonymous(a);
    CountsOfConcat(a, b);
    forall i, j
      ensures AnonEdge(a + b, i, j) <==>
              if j < |a| then AnonEdge(a, i, j) else i >= |a| && AnonEdge(b, i - |a|, j - |a|)
    {
      MatchedOfConcat(a, b, i, j);
    }
  }

  lemma {:induction false} EdgesAllInFirst(a: seq<Node>, b: seq<Node>)
    requires AnonymousOk(a) && AnonymousOk(b) && AnonCalls(b) == 0
    ensures AnonEdgesSplit(a, b)
  {
    NoAnonymous(b);
    CountsOfConcat(a, b);
    forall i, j
      ensures AnonEdge(a + b, i, j) <==>
              if j < |a| then AnonEdge(a, i, j) else i >= |a| && AnonEdge(b, i - |a|, j - |a|)
    {
      if j < |a| {
        MatchedInFirst(a, b, i, j);
      }
    }
  }

  lemma AnonEdgesOfConcat(a: seq<Node>, b: seq<Node>)
    requires AnonymousOk(a) && AnonymousOk(b) && AnonCompatible(a, b)
    ensures AnonEdgesSplit(a, b)
  {
    if AnonCalls(a) == 0 {
      EdgesAllInSecond(a, b);
    } else if AnonCalls(b) == 0 {
      EdgesAllInFirst(a, b);
    } else {
      CountsOfConcat(a, b);
      OneEachIsBalanced(a);
      OneEachIsBalanced(b);
      forall i, j { MatchedOfConcat(a, b, i, j); }
    }
  }

  lemma AnonymousOfConcat(a: seq<Node>, b: seq<Node>)
    requires AnonymousOk(a) && AnonymousOk(b) && AnonCompatible(a, b)
    ensures AnonymousOk(a + b)
  {
    CountsOfConcat(a, b);
    if AnonCalls(a) == 0 && AnonCalls(b) == 1 {
      NoAnonymous(a);
      LoneInSecond(a, b);
    } else if AnonCalls(a) == 1 && AnonCalls(b) == 0 {
      NoAnonymous(b);
    } else {
      if AnonCalls(a) == 1 || AnonCalls(b) == 1 {
        OneEachIsBalanced(a);
        OneEachIsBalanced(b);
      }
      BalancedConcat(a, b);
    }
  }

  lemma {:induction false} LoneInSecond(a: seq<Node>, b: seq<Node>)
    requires forall i | 0 <= i < |a| :: !a[i].shape.AnonCall? && !a[i].shape.AnonOutput?
    requires AnonCalls(a) == AnonOutputs(a) == 0 && AnonCalls(b) == 1 && AnonymousOk(b)
    ensures AnonymousOk(a + b)
  {
    CountsOfConcat(a, b);
    var g, n := a + b, |a|;
    forall i, j | 0 <= i < j < |g| && g[i].shape.AnonOutput? && g[j].shape.AnonOutput?
      ensures StreamStep(g[i].status, g[j].status)
    {
      assert b[i - n] == g[i] && b[j - n] == g[j];
    }
    forall i, j | 0 <= i < |g| && 0 <= j < |g| && g[i].shape.AnonCall? && g[j].shape.AnonOutput?
      ensures i < j
    {
      assert b[i - n] == g[i] && b[j - n] == g[j];
    }
  }

  lemma BalancedConcat(a: seq<Node>, b: seq<Node>)
    requires Balanced(a) && Balanced(b)
    ensures Balanced(a + b)
  {
    forall k | 0 <= k <= |a + b|
      ensures Depth(a + b, k) >= 0
    {
      DepthOfConcat(a, b, k);
      if k >= |a| { assert Depth(b, k - |a|) >= 0; }
    }
    DepthOfConcat(a, b, |a + b|);
  }

  /* Identified edges, ownership and the other clauses across the seam */

  ghost predicate IdEdgesSplit(a: seq<Node>, b: seq<Node>) {
    forall i, j :: IdEdge(a + b, i, j) <==>
      if j < |a| then IdEdge(a, i, j) else i >= |a| && IdEdge(b, i - |a|, j - |a|)
  }

  lemma IdEdgesOfConcat(a: seq<Node>, b: seq<Node>)
    requires Answers(b) && !SharesCall(a, b)
    ensures IdEdgesSplit(a, b)
  {
    var g, n := a + b, |a|;
    forall i, j | IdEdge(g, i, j) && i < n <= j
      ensures false
    {
      var p := g[i].shape.pair;
      assert OutputAt(b, j - n, p);
      var k :| IdEdge(b, k, j - n);
      assert CallAt(a, i, p) && CallAt(b, k, p);
    }
  }

  // Everything the clauses about a run refer to, split at the seam.
  ghost predicate Split(a: seq<Node>, b: seq<Node>) {
    IdEdgesSplit(a, b) && AnonEdgesSplit(a, b)
  }

  lemma EdgeOfConcat(a: seq<Node>, b: seq<Node>, i: int, j: int)
    requires Split(a, b)
    ensures Edge(a + b, i, j) <==> if j < |a| then Edge(a, i, j) else i >= |a| && Edge(b, i - |a|, j - |a|)
  {
  }

  lemma BelongsOfConcat(a: seq<Node>, b: seq<Node>, i: nat, p: string)
    requires Split(a, b) && i < |a + b|
    ensures BelongsTo(a + b, i, p) <==> if i < |a| then BelongsTo(a, i, p) else BelongsTo(b, i - |a|, p)
  {
    var g, n := a + b, |a|;
    if k :| Edge(g, k, i) && g[k].owner == Some(p) {
      EdgeOfConcat(a, b, k, i);
    }
    if i < n {
      if k :| Edge(a, k, i) && a[k].owner == Some(p) {
        EdgeOfConcat(a, b, k, i);
        assert Edge(g, k, i);
      }
    } else {
      if k :| Edge(b, k, i - n) && b[k].owner == Some(p) {
        EdgeOfConcat(a, b, k + n, i);
        assert Edge(g, k + n, i);
      }
    }
  }

  // A program something belongs to has its root in the same run.
  lemma BelongingHasRoot(g: seq<Node>, i: nat, p: string)
    requires OwnedAfterRoot(g) && i < |g|
    ensures BelongsTo(g, i, p) ==> exists r :: CallAt(g, r, Pair(Program, p))
  {
    if BelongsTo(g, i, p) {
      if g[i].owner == Some(p) {
        var r :| r < i && ProgramAt(g, r, g[i].owner.value);
        assert CallAt(g, r, Pair(Program, p));
      } else {
        var k :| Edge(g, k, i) && g[k].owner == Some(p);
        var r :| r < k && ProgramAt(g, r, g[k].owner.value);
        assert CallAt(g, r, Pair(Program, p));
      }
    }
  }

  lemma ClosedConcat(a: seq<Node>, b: seq<Node>)
    requires ProgramResultsOk(a) && OwnedAfterRoot(b) && Closed(a) && Closed(b) && !SharesCall(a, b) && Split(a, b)
    ensures Closed(a + b)
  {
    var g, n := a + b, |a|;
    forall t, p, i | OutputAt(g, t, p) && p.kind == Program && g[t].status == Completed && t < i < |g|
      ensures !BelongsTo(g, i, p.id)
    {
      BelongsOfConcat(a, b, i, p.id);
      assert p == Pair(Program, p.id);
      if t >= n {
        assert OutputAt(b, t - n, p);
      } else {
        assert OutputAt(a, t, p);
        if i >= n {
          var s :| s < t && CallAt(a, s, p);
          BelongingHasRoot(b, i - n, p.id);
        }
      }
    }
  }

  lemma ShapesConcat(a: seq<Node>, b: seq<Node>)
    requires WellShaped(a) && WellShaped(b)
    ensures WellShaped(a + b)
  {
    var g, n := a + b, |a|;
    forall i | 0 <= i < |g|
      ensures !g[i].shape.Malformed? && (g[i].shape.Thinking? ==> Followed(g, i))
    {
      if i < n {
        assert g[i] == a[i] && (a[i].shape.Thinking? ==> Followed(a, i));
      } else {
        assert g[i] == b[i - n] && (b[i - n].shape.Thinking? ==> Followed(b, i - n));
      }
    }
  }

  lemma CallOfOutput(g: seq<Node>, j: int, p: Pair) returns (c: nat)
    requires ValidGraph(g) && OutputAt(g, j, p)
    ensures CallAt(g, c, p)
  {
    if p.kind == Program {
      c :| c < j && CallAt(g, c, p);
    } else {
      c :| IdEdge(g, c, j);
    }
  }

  // An output of one run never repeats the pair of an output of the other.
  lemma OutputsApart(a: seq<Node>, b: seq<Node>, i: int, j: int, p: Pair)
    requires ValidGraph(a) && ValidGraph(b) && !SharesCall(a, b)
    ensures !(OutputAt(a, i, p) && OutputAt(b, j, p))
  {
    if OutputAt(a, i, p) && OutputAt(b, j, p) {
      var c := CallOfOutput(a, i, p);
      var d := CallOfOutput(b, j, p);
    }
  }

  lemma AnswersConcat(a: seq<Node>, b: seq<Node>)
    requires Answers(a) && Answers(b) && IdEdgesSplit(a, b)
    ensures Answers(a + b)
  {
    var g, n := a + b, |a|;
    forall j, p | OutputAt(g, j, p) && p.kind != Program
      ensures exists i :: IdEdge(g, i, j) && Agrees(g[i], g[j])
    {
      if j < n {
        assert OutputAt(a, j, p);
        var i :| IdEdge(a, i, j) && Agrees(a[i], a[j]);
        assert IdEdge(g, i, j);
      } else {
        assert OutputAt(b, j - n, p);
        var i :| IdEdge(b, i, j - n) && Agrees(b[i], b[j - n]);
        assert IdEdge(g, i + n, j);
      }
    }
  }

  lemma EventsConcat(a: seq<Node>, b: seq<Node>)
    requires ValidGraph(a) && ValidGraph(b) && !SharesCall(a, b)
    ensures EventsOk(a + b)
  {
    hide EventsOk, SharesCall;
    forall i, j, p | OutputAt(a, i, p) && OutputAt(b, j, p)
      ensures false
    {
      OutputsApart(a, b, i, j, p);
    }
    EventsApart(a, b);
  }

  lemma EventsApart(a: seq<Node>, b: seq<Node>)
    requires EventsOk(a) && EventsOk(b) && forall i, j, p | OutputAt(a, i, p) :: !OutputAt(b, j, p)
    ensures EventsOk(a + b)
  {
    var g, n := a + b, |a|;
    forall j, p | OutputAt(g, j, p) && Streams(p.kind)
      ensures g[j].status != OtherStatus
    {
      assert if j < n then OutputAt(a, j, p) else OutputAt(b, j - n, p);
    }
    forall i, j, p | i < j && OutputAt(g, i, p) && OutputAt(g, j, p) && p.kind != Program
      ensures Streams(p.kind) && StreamStep(g[i].status, g[j].status)
    {
      if j < n {
        assert OutputAt(a, i, p) && OutputAt(a, j, p);
      } else if i >= n {
        assert OutputAt(b, i - n, p) && OutputAt(b, j - n, p);
      } else {
        assert OutputAt(a, i, p) && OutputAt(b, j - n, p);
      }
    }
  }

  lemma ResultRootsConcat(a: seq<Node>, b: seq<Node>)
    requires ProgramResultsOk(a) && ProgramResultsOk(b)
    ensures forall t, p | OutputAt(a + b, t, p) && p.kind == Program ::
              (a + b)[t].status in {Incomplete, Completed} && exists r :: r < t && CallAt(a + b, r, p)
  {
    var g, n := a + b, |a|;
    forall t, p | OutputAt(g, t, p) && p.kind == Program
      ensures g[t].status in {Incomplete, Completed} && exists r :: r < t && CallAt(g, r, p)
    {
      if t < n {
        assert OutputAt(a, t, p);
        var r :| r < t && CallAt(a, r, p);
        assert CallAt(g, r, p);
      } else {
        assert OutputAt(b, t - n, p);
        var r :| r < t - n && CallAt(b, r, p);
        assert CallAt(g, r + n, p);
      }
    }
  }

  lemma ResultOrderConcat(a: seq<Node>, b: seq<Node>, s: int, t: int, p: Pair)
    requires ProgramResultsOk(a) && ProgramResultsOk(b) && p.kind == Program
    requires !(OutputAt(a, s, p) && OutputAt(b, t - |a|, p))
    requires s < t && OutputAt(a + b, s, p) && OutputAt(a + b, t, p)
    ensures (a + b)[s].status == Incomplete
  {
    if t < |a| {
      assert OutputAt(a, s, p) && OutputAt(a, t, p);
    } else {
      assert s >= |a|;
      assert OutputAt(b, s - |a|, p) && OutputAt(b, t - |a|, p);
    }
  }

  lemma OwnedConcat(a: seq<Node>, b: seq<Node>)
    requires OwnedAfterRoot(a) && OwnedAfterRoot(b)
    ensures OwnedAfterRoot(a + b)
  {
    var g, n := a + b, |a|;
    forall i | 0 <= i < |g| && g[i].owner.Some?
      ensures exists r :: r < i && ProgramAt(g, r, g[i].owner.value)
    {
      if i < n {
        var r :| r < i && ProgramAt(a, r, a[i].owner.value);
        assert ProgramAt(g, r, g[i].owner.value);
      } else {
        var r :| r < i - n && ProgramAt(b, r, b[i - n].owner.value);
        assert ProgramAt(g, r + n, g[i].owner.value);
      }
    }
  }

  lemma ProgramsConcat(a: seq<Node>, b: seq<Node>)
    requires ValidGraph(a) && ValidGraph(b) && !SharesCall(a, b)
    ensures ProgramResultsOk(a + b) && OwnedAfterRoot(a + b)
  {
    OwnedConcat(a, b);
    ResultRootsConcat(a, b);
    forall s, t, p | s < t && OutputAt(a + b, s, p) && OutputAt(a + b, t, p) && p.kind == Program
      ensures (a + b)[s].status == Incomplete
    {
      OutputsApart(a, b, s, t - |a|, p);
      ResultOrderConcat(a, b, s, t, p);
    }
  }

  // What keeps a program of either run alive keeps it alive in the whole.
  lemma AliveInFirst(a: seq<Node>, b: seq<Node>, r: int, p: string)
    requires Split(a, b) && LiveFor(a, r, p)
    ensures LiveFor(a + b, r, p)
  {
    var g := a + b;
    if HasResult(a, p) {
      var t :| OutputAt(a, t, Pair(Program, p));
      assert OutputAt(g, t, Pair(Program, p));
    } else if HasActiveChild(a, r, p) {
      var c :| 0 <= r < c < |a| && a[c].owner == Some(p) && a[c].active;
      assert g[c] == a[c];
    } else {
      var i, j :| Edge(a, i, j) && a[i].owner == Some(p);
      EdgeOfConcat(a, b, i, j);
      assert Edge(g, i, j);
    }
  }

  lemma AliveInSecond(a: seq<Node>, b: seq<Node>, r: int, p: string)
    requires Split(a, b) && LiveFor(b, r, p)
    ensures LiveFor(a + b, r + |a|, p)
  {
    var g, n := a + b, |a|;
    if HasResult(b, p) {
      var t :| OutputAt(b, t, Pair(Program, p));
      assert OutputAt(g, t + n, Pair(Program, p));
    } else if HasActiveChild(b, r, p) {
      var c :| 0 <= r < c < |b| && b[c].owner == Some(p) && b[c].active;
      assert g[c + n] == b[c];
    } else {
      var i, j :| Edge(b, i, j) && b[i].owner == Some(p);
      EdgeOfConcat(a, b, i + n, j + n);
      assert Edge(g, i + n, j + n);
    }
  }

  lemma LiveConcat(a: seq<Node>, b: seq<Node>)
    requires ProgramsLive(a) && ProgramsLive(b) && Split(a, b)
    ensures ProgramsLive(a + b)
  {
    forall r, p | CallAt(a + b, r, p) && p.kind == Program
      ensures LiveFor(a + b, r, p.id)
    {
      if r < |a| {
        assert CallAt(a, r, p);
        AliveInFirst(a, b, r, p.id);
      } else {
        assert CallAt(b, r - |a|, p);
        AliveInSecond(a, b, r - |a|, p.id);
      }
    }
  }

  lemma AnsweredConcat(a: seq<Node>, b: seq<Node>)
    requires CallsAnswered(a) && CallsAnswered(b) && IdEdgesSplit(a, b)
    ensures CallsAnswered(a + b)
  {
    var g, n := a + b, |a|;
    forall i, p | CallAt(g, i, p) && p.kind != Program
      ensures IsAnswered(g, i) || (g[i].owner.Some? && g[i].pending)
    {
      if i < n {
        assert CallAt(a, i, p);
        if IsAnswered(a, i) {
          var j :| IdEdge(a, i, j);
          assert IdEdge(g, i, j);
        }
      } else {
        assert CallAt(b, i - n, p);
        if IsAnswered(b, i - n) {
          var j :| IdEdge(b, i - n, j);
          assert IdEdge(g, i, j + n);
        }
      }
    }
  }

  lemma OwnersConcat(a: seq<Node>, b: seq<Node>)
    requires AnonymousOwnersOk(a) && AnonymousOwnersOk(b) && AnonEdgesSplit(a, b)
    ensures AnonymousOwnersOk(a + b)
  {
    var g, n := a + b, |a|;
    forall i, j | AnonEdge(g, i, j)
      ensures Agrees(g[i], g[j])
    {
      if j >= n { assert AnonEdge(b, i - n, j - n); }
    }
  }

  lemma UniqueConcat(a: seq<Node>, b: seq<Node>)
    requires UniqueCalls(a) && UniqueCalls(b)
    ensures UniqueCalls(a + b) <==> !SharesCall(a, b)
  {
    var g, n := a + b, |a|;
    if !SharesCall(a, b) {
      forall i, j, p | CallAt(g, i, p) && CallAt(g, j, p)
        ensures i == j
      {
        assert if i < n then CallAt(a, i, p) else CallAt(b, i - n, p);
        assert if j < n then CallAt(a, j, p) else CallAt(b, j - n, p);
      }
    } else {
      var i, j, p :| CallAt(a, i, p) && CallAt(b, j, p);
      assert CallAt(g, i, p) && CallAt(g, j + n, p);
    }
  }

  lemma ConflictIsInvalid(a: seq<Node>, b: seq<Node>)
    requires AnonymousOk(a) && AnonymousOk(b) && AnonymousOk(a + b)
    ensures AnonCompatible(a, b)
  {
    CountsOfConcat(a, b);
    assert a[..|a|] == a && b[..|b|] == b && (a + b)[..|a + b|] == a + b;
  }

  /** Two valid runs put together are a valid run exactly if they share no call and no anonymous stream of several
      outputs meets another anonymous search. */
  lemma ConcatIsValid(a: seq<Node>, b: seq<Node>)
    requires ValidGraph(a) && ValidGraph(b)
    ensures ValidGraph(a + b) <==> Compatible(a, b)
  {
    UniqueConcat(a, b);
    if Compatible(a, b) {
      IdEdgesOfConcat(a, b);
      AnonEdgesOfConcat(a, b);
      AnonymousOfConcat(a, b);
      ShapesConcat(a, b);
      AnswersConcat(a, b);
      EventsConcat(a, b);
      OwnersConcat(a, b);
      ProgramsConcat(a, b);
      ClosedConcat(a, b);
      LiveConcat(a, b);
      AnsweredConcat(a, b);
    } else if AnonymousOk(a + b) {
      ConflictIsInvalid(a, b);
    }
  }
}
