/** Tool searches without a call id. Several of them are told apart only by their order: the scan from the right
    pairs each call with the nearest output still pending. */
module AnonymousSearch {
  import opened Options
  import opened ResponseItems
  import opened RunGraph

  lemma DepthStep(g: seq<Node>, k: nat)
    requires k < |g|
    ensures Depth(g, k + 1) ==
            Depth(g, k) + (if g[k].shape.AnonCall? then 1 else 0) - (if g[k].shape.AnonOutput? then 1 else 0)
  {
    assert g[..k + 1][..k] == g[..k];
  }

  lemma {:induction false} CountsOfConcat(a: seq<Node>, b: seq<Node>)
    ensures AnonCalls(a + b) == AnonCalls(a) + AnonCalls(b)
    ensures AnonOutputs(a + b) == AnonOutputs(a) + AnonOutputs(b)
  {
    if b == [] {
      assert a + b == a;
    } else {
      var b' := b[..|b| - 1];
      assert (a + b)[..|a + b| - 1] == a + b';
      CountsOfConcat(a, b');
    }
  }

  lemma {:induction false} CountAtLeastOne(g: seq<Node>, i: nat)
    requires i < |g|
    ensures g[i].shape.AnonCall? ==> AnonCalls(g) > 0
    ensures g[i].shape.AnonOutput? ==> AnonOutputs(g) > 0
  {
    CountsOfConcat(g[..i], g[i..]);
    CountsOfConcat([g[i]], g[i + 1..]);
    assert g == g[..i] + g[i..] && g[i..] == [g[i]] + g[i + 1..];
    assert [g[i]][..0] == [];
  }

  lemma {:induction false} CountAtLeastTwo(g: seq<Node>, i: nat, j: nat)
    requires i < j < |g| && g[i].shape.AnonCall? && g[j].shape.AnonCall?
    ensures AnonCalls(g) >= 2
  {
    CountsOfConcat(g[..j], g[j..]);
    assert g == g[..j] + g[j..];
    CountAtLeastOne(g[..j], i);
    CountAtLeastOne(g[j..], 0);
  }

  // Where the count is positive there is a call (or an output) to show for it.
  lemma {:induction false} SomeAnonCall(g: seq<Node>) returns (i: nat)
    requires AnonCalls(g) > 0
    ensures i < |g| && g[i].shape.AnonCall?
  {
    i := |g| - 1;
    if !g[i].shape.AnonCall? {
      i := SomeAnonCall(g[..|g| - 1]);
    }
  }

  lemma {:induction false} SomeAnonOutput(g: seq<Node>) returns (j: nat)
    requires AnonOutputs(g) > 0
    ensures j < |g| && g[j].shape.AnonOutput?
  {
    j := |g| - 1;
    if !g[j].shape.AnonOutput? {
      j := SomeAnonOutput(g[..|g| - 1]);
    }
  }

  // A call closes at one place and an output closes one call.
  lemma MatchIsOneToOne(g: seq<Node>, i: int, j: int, i': int, j': int)
    requires Matched(g, i, j) && Matched(g, i', j')
    ensures i == i' <==> j == j'
  {
    DepthStep(g, i);
    DepthStep(g, i');
    DepthStep(g, j);
    DepthStep(g, j');
  }

  // Pairs nest or follow each other; they never cross.
  lemma MatchesDoNotCross(g: seq<Node>, i: int, j: int, i': int, j': int)
    requires Matched(g, i, j) && Matched(g, i', j')
    ensures !(i < i' < j < j')
  {
    DepthStep(g, i');
    DepthStep(g, j);
  }

  // In a balanced run every call is closed later, and every output closes an earlier call.
  lemma BalancedMatchesCalls(g: seq<Node>, i: nat) returns (j: nat)
    requires Balanced(g) && i < |g| && g[i].shape.AnonCall?
    ensures Matched(g, i, j)
  {
    DepthStep(g, i);
    j := i + 1;
    while j < |g| && Depth(g, j + 1) >= Depth(g, i + 1)
      invariant i < j <= |g|
      invariant forall m | i < m <= j :: Depth(g, m) >= Depth(g, i + 1)
    {
      j := j + 1;
    }
    assert Depth(g, i) >= 0;
    DepthStep(g, j);
  }

  lemma BalancedMatchesOutputs(g: seq<Node>, j: nat) returns (i: nat)
    requires Balanced(g) && j < |g| && g[j].shape.AnonOutput?
    ensures Matched(g, i, j)
  {
    DepthStep(g, j);
    assert Depth(g, j + 1) >= 0;
    assert g[..0] == [];
    i := j;
    while i > 0 && Depth(g, i) >= Depth(g, j)
      invariant 0 <= i <= j
      invariant forall m | i < m <= j :: Depth(g, m) >= Depth(g, j)
      decreases i
    {
      i := i - 1;
    }
    DepthStep(g, i);
    assert Depth(g, i) < Depth(g, j);
    assert Depth(g, i + 1) >= Depth(g, j);
  }

  // The output at j is the first place, from n on, that leaves no more than d searches open.
  ghost predicate Drop(g: seq<Node>, n: int, d: int, j: int) {
    && 0 <= n <= j < |g|
    && g[j].shape.AnonOutput?
    && Depth(g, j + 1) == d
    && forall m | n <= m <= j :: Depth(g, m) > d
  }

  // The outputs from n on that no call from n on closes, the leftmost on top of the stack.
  ghost predicate Pending(g: seq<Node>, n: int, stack: seq<nat>)
    requires 0 <= n <= |g|
  {
    && (forall x | 0 <= x < |stack| :: Drop(g, n, Depth(g, n) - |stack| + x, stack[x]))
    && forall m | n <= m <= |g| :: Depth(g, m) >= Depth(g, n) - |stack|
  }

  lemma PendingPush(g: seq<Node>, n: nat, stack: seq<nat>)
    requires n < |g| && g[n].shape.AnonOutput? && Pending(g, n + 1, stack)
    ensures Pending(g, n, stack + [n])
  {
    DepthStep(g, n);
    var s, base := stack + [n], Depth(g, n + 1) - |stack|;
    forall x | 0 <= x < |s|
      ensures Drop(g, n, base + x, s[x])
    {
      if x < |stack| {
        assert Drop(g, n + 1, base + x, stack[x]);
      }
    }
  }

  lemma PendingPop(g: seq<Node>, n: nat, stack: seq<nat>)
    requires n < |g| && g[n].shape.AnonCall? && Pending(g, n + 1, stack) && stack != []
    ensures Matched(g, n, stack[|stack| - 1])
    ensures Pending(g, n, stack[..|stack| - 1])
  {
    DepthStep(g, n);
    var s, base := stack[..|stack| - 1], Depth(g, n + 1) - |stack|;
    var top := stack[|stack| - 1];
    assert Drop(g, n + 1, base + |stack| - 1, top);
    DepthStep(g, top);
    forall x | 0 <= x < |s|
      ensures Drop(g, n, base + x, s[x])
    {
      assert Drop(g, n + 1, base + x, stack[x]);
    }
  }

  lemma PendingSkip(g: seq<Node>, n: nat, stack: seq<nat>)
    requires n < |g| && !g[n].shape.AnonCall? && !g[n].shape.AnonOutput? && Pending(g, n + 1, stack)
    ensures Pending(g, n, stack)
  {
    DepthStep(g, n);
    forall x | 0 <= x < |stack|
      ensures Drop(g, n, Depth(g, n) - |stack| + x, stack[x])
    {
      assert Drop(g, n + 1, Depth(g, n + 1) - |stack| + x, stack[x]);
    }
  }

  // Nothing pending at a call: that call never closes, so the run is not balanced.
  lemma UnclosedCall(g: seq<Node>, n: nat)
    requires n < |g| && g[n].shape.AnonCall? && Pending(g, n + 1, [])
    ensures !Balanced(g)
  {
    DepthStep(g, n);
    assert Depth(g, |g|) >= Depth(g, n + 1);
  }

  // The stack of the scan decides balance.
  lemma {:induction false} StackDecidesBalance(g: seq<Node>, stack: seq<nat>)
    requires Pending(g, 0, stack)
    ensures Balanced(g) <==> AnonCalls(g) == AnonOutputs(g) && stack == []
  {
    assert g[..0] == [] && g[..|g|] == g;
    if stack != [] {
      var j := stack[0];
      assert Drop(g, 0, Depth(g, 0) - |stack|, j);
      assert Depth(g, j + 1) < 0;
    }
  }

  lemma {:induction false} ScanStart(g: seq<Node>)
    ensures Pending(g, |g|, [])
    ensures Balanced(g) ==> AnonCalls(g) == AnonOutputs(g)
  {
    assert g[..|g|] == g;
  }

  // The calls from n on and the outputs that close them, with agreeing owners.
  ghost predicate Closing(g: seq<Node>, n: int, closes: map<nat, nat>) {
    && (forall i | i in closes :: n <= i && Matched(g, i, closes[i]) && Agrees(g[i], g[closes[i]]))
    && (forall i | n <= i < |g| && 0 <= i && g[i].shape.AnonCall? :: i in closes)
  }

  // What is recorded of the ownership of those calls, beside what was recorded before.
  ghost predicate Reported(
      g: seq<Node>, closes: map<nat, nat>, inferred0: map<nat, string>, inferred: map<nat, string>,
      programs: set<string>)
  {
    && inferred0.Keys <= inferred.Keys
    && (forall j | j in inferred ::
          || (j in inferred0 && inferred[j] == inferred0[j])
          || exists i :: Matched(g, i, j) && g[i].owner == Some(inferred[j]))
    && (forall i | i in closes && i < |g| && g[i].owner.Some? :: closes[i] in inferred && g[i].owner.value in programs)
    && (forall p | p in programs :: OwnsClosed(g, closes, p))
  }

  ghost predicate OwnsClosed(g: seq<Node>, closes: map<nat, nat>, p: string) {
    exists i :: i in closes && i < |g| && g[i].owner == Some(p)
  }

  lemma ReportOwned(
      g: seq<Node>, closes: map<nat, nat>, inferred0: map<nat, string>, inferred: map<nat, string>,
      programs: set<string>,
      n: nat, j: nat, p: string)
    requires Reported(g, closes, inferred0, inferred, programs) && Matched(g, n, j) && g[n].owner == Some(p)
    requires n !in closes && n < |g|
    ensures Reported(g, closes[n := j], inferred0, inferred[j := p], programs + {p})
  {
    hide Matched;
    var closes' := closes[n := j];
    assert n in closes' && OwnsClosed(g, closes', p);
    forall q | q in programs
      ensures OwnsClosed(g, closes', q)
    {
      var i :| i in closes && i < |g| && g[i].owner == Some(q);
      assert i in closes';
    }
  }

  lemma ReportUnowned(
      g: seq<Node>, closes: map<nat, nat>, inferred0: map<nat, string>, inferred: map<nat, string>,
      programs: set<string>,
      n: nat, j: nat)
    requires Reported(g, closes, inferred0, inferred, programs) && n < |g| && g[n].owner == None && n !in closes
    ensures Reported(g, closes[n := j], inferred0, inferred, programs)
  {
    hide Matched;
    var closes' := closes[n := j];
    forall q | q in programs
      ensures OwnsClosed(g, closes', q)
    {
      var i :| i in closes && i < |g| && g[i].owner == Some(q);
      assert i in closes';
    }
  }

  lemma {:induction false} AllReported(
      g: seq<Node>, closes: map<nat, nat>, inferred0: map<nat, string>, inferred: map<nat, string>,
      programs: set<string>)
    requires AnonCalls(g) != 1 && Closing(g, 0, closes) && Reported(g, closes, inferred0, inferred, programs)
    ensures AnonymousOwnersOk(g)
    ensures forall i, j | AnonEdge(g, i, j) && g[i].owner.Some? :: j in inferred
    ensures forall p :: p in programs <==> exists i, j :: AnonEdge(g, i, j) && g[i].owner == Some(p)
  {
    forall i, j | AnonEdge(g, i, j)
      ensures i in closes && closes[i] == j
    {
      MatchIsOneToOne(g, i, j, i, closes[i]);
    }
    forall p
      ensures p in programs <==> exists i, j :: AnonEdge(g, i, j) && g[i].owner == Some(p)
    {
      if p in programs {
        assert OwnsClosed(g, closes, p);
        var i :| i in closes && i < |g| && g[i].owner == Some(p);
        assert AnonEdge(g, i, closes[i]);
      }
    }
  }

  /** The right-to-left scan for runs with no anonymous call or with several of them. */
  method MatchFromTheRight(g: seq<Node>, inferred0: map<nat, string>)
    returns (ok: bool, inferred: map<nat, string>, matchedPrograms: set<string>)
    requires AnonCalls(g) != 1
    ensures ok <==> Balanced(g) && AnonymousOwnersOk(g)
    ensures inferred0.Keys <= inferred.Keys
    ensures forall j | j in inferred ::
              || (j in inferred0 && inferred[j] == inferred0[j])
              || exists i :: AnonEdge(g, i, j) && g[i].owner == Some(inferred[j])
    ensures ok ==> forall i, j | AnonEdge(g, i, j) && g[i].owner.Some? :: j in inferred
    ensures ok ==> forall p ::
              p in matchedPrograms <==> exists i, j :: AnonEdge(g, i, j) && g[i].owner == Some(p)
  {
    hide Matched, Depth, Drop, Pending;
    ok, inferred, matchedPrograms := false, inferred0, {};
    ghost var closes: map<nat, nat> := map[];
    var stack: seq<nat> := [];
    var n := |g|;
    ScanStart(g);
    if AnonCalls(g) != AnonOutputs(g) {
      return;
    }
    while n > 0
      invariant 0 <= n <= |g|
      invariant Pending(g, n, stack)
      invariant Closing(g, n, closes)
      invariant Reported(g, closes, inferred0, inferred, matchedPrograms)
    {
      n := n - 1;
      if g[n].shape.AnonOutput? {
        PendingPush(g, n, stack);
        stack := stack + [n];
      } else if g[n].shape.AnonCall? {
        if stack == [] {
          UnclosedCall(g, n);
          return;
        }
        PendingPop(g, n, stack);
        var output := stack[|stack| - 1];
        stack := stack[..|stack| - 1];
        if !Agrees(g[n], g[output]) {
          assert AnonEdge(g, n, output);
          return;
        }
        if g[n].owner.Some? {
          var p := g[n].owner.value;
          ReportOwned(g, closes, inferred0, inferred, matchedPrograms, n, output, p);
          matchedPrograms := matchedPrograms + {p};
          inferred := inferred[output := p];
        } else {
          ReportUnowned(g, closes, inferred0, inferred, matchedPrograms, n, output);
        }
        closes := closes[n := output];
      } else {
        PendingSkip(g, n, stack);
      }
    }
    StackDecidesBalance(g, stack);
    AllReported(g, closes, inferred0, inferred, matchedPrograms);
    ok := stack == [];
  }

  // The statuses of one stream, in order: each is one of the three, and all but the last are in progress.
  predicate ValidEvents(statuses: seq<Status>) {
    && (forall j | 0 <= j < |statuses| :: statuses[j] != OtherStatus)
    && forall i, j | 0 <= i < j < |statuses| :: StreamStep(statuses[i], statuses[j])
  }

  method StreamIsValid(statuses: seq<Status>) returns (ok: bool)
    ensures ok <==> ValidEvents(statuses)
  {
    var terminalSeen := false;
    for k := 0 to |statuses|
      invariant ValidEvents(statuses[..k])
      invariant terminalSeen <==> k > 0 && statuses[k - 1] != InProgress
      invariant forall i | 0 <= i < k :: statuses[i] in {InProgress, Completed, Incomplete}
    {
      var status := statuses[k];
      if status == InProgress {
        if terminalSeen {
          assert !StreamStep(statuses[k - 1], statuses[k]);
          return false;
        }
      } else if status in {Completed, Incomplete} {
        if terminalSeen {
          assert !StreamStep(statuses[k - 1], statuses[k]);
          return false;
        }
        terminalSeen := true;
      } else {
        assert k > 0 ==> !StreamStep(statuses[0], statuses[k]);
        assert k + 1 < |statuses| ==> !StreamStep(statuses[k], statuses[k + 1]);
        return |statuses| == 1 && status == NoStatus;
      }
      assert statuses[..k + 1] == statuses[..k] + [status];
    }
    assert statuses[..|statuses|] == statuses;
    return true;
  }
}
