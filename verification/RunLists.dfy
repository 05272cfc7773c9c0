/** Any number of valid runs, one after the other. */
module RunLists {
  import opened ResponseItems
  import opened RunGraph
  import opened AnonymousSearch
  import opened RunConcatenation

  function Flatten<T>(parts: seq<seq<T>>): seq<T> {
    if parts == [] then [] else parts[0] + Flatten(parts[1..])
  }

  lemma {:induction false} FlattenConcat<T>(a: seq<seq<T>>, b: seq<seq<T>>)
    ensures Flatten(a + b) == Flatten(a) + Flatten(b)
  {
    if a == [] {
      assert a + b == b;
    } else {
      FlattenConcat(a[1..], b);
      assert (a + b)[0] == a[0] && (a + b)[1..] == a[1..] + b;
    }
  }

  ghost predicate AllValid(runs: seq<seq<Node>>) {
    forall k | 0 <= k < |runs| :: ValidGraph(runs[k])
  }

  ghost predicate PairwiseCompatible(runs: seq<seq<Node>>) {
    forall i, j | 0 <= i < j < |runs| :: Compatible(runs[i], runs[j])
  }

  // The calls of the whole are the calls of the parts.
  lemma {:induction false} CallOfFlatten(runs: seq<seq<Node>>, j: int, p: Pair) returns (k: nat, i: nat)
    requires CallAt(Flatten(runs), j, p)
    ensures k < |runs| && CallAt(runs[k], i, p)
  {
    if j < |runs[0]| {
      k, i := 0, j;
    } else {
      k, i := CallOfFlatten(runs[1..], j - |runs[0]|, p);
      k := k + 1;
    }
  }

  lemma {:induction false} CallInFlatten(runs: seq<seq<Node>>, k: nat, i: int, p: Pair) returns (j: nat)
    requires k < |runs| && CallAt(runs[k], i, p)
    ensures CallAt(Flatten(runs), j, p)
  {
    if k == 0 {
      j := i;
    } else {
      j := CallInFlatten(runs[1..], k - 1, i, p);
      j := j + |runs[0]|;
    }
  }

  // A valid run has an output for every anonymous search.
  lemma {:induction false} SearchesAnswered(g: seq<Node>)
    ensures AnonymousOk(g) ==> AnonCalls(g) <= AnonOutputs(g)
    ensures AnonymousOk(g) && AnonCalls(g) != 1 ==> AnonCalls(g) == AnonOutputs(g)
  {
    assert g[..|g|] == g;
  }

  lemma {:induction false} CountsOfFlatten(runs: seq<seq<Node>>)
    requires AllValid(runs)
    ensures AnonCalls(Flatten(runs)) <= AnonOutputs(Flatten(runs))
    ensures AnonCalls(Flatten(runs)) == AnonOutputs(Flatten(runs)) <==>
            forall k | 0 <= k < |runs| :: AnonCalls(runs[k]) == AnonOutputs(runs[k])
  {
    if runs != [] {
      var rest := runs[1..];
      CountsOfFlatten(rest);
      CountsOfConcat(runs[0], Flatten(rest));
      SearchesAnswered(runs[0]);
      assert forall k | 1 <= k < |runs| :: runs[k] == rest[k - 1];
      assert forall k | 0 <= k < |rest| :: rest[k] == runs[k + 1];
    }
  }

  lemma {:induction false} NoCallsInFlatten(runs: seq<seq<Node>>)
    requires forall k | 0 <= k < |runs| :: AnonCalls(runs[k]) == 0
    ensures AnonCalls(Flatten(runs)) == 0
  {
    if runs != [] {
      NoCallsInFlatten(runs[1..]);
      CountsOfConcat(runs[0], Flatten(runs[1..]));
    }
  }

  lemma {:induction false} CallsOfFlatten(runs: seq<seq<Node>>, k: nat)
    requires k < |runs|
    ensures AnonCalls(Flatten(runs)) >= AnonCalls(runs[k])
  {
    CountsOfConcat(runs[0], Flatten(runs[1..]));
    if k > 0 {
      CallsOfFlatten(runs[1..], k - 1);
    }
  }

  lemma {:induction false} CallsOfTwo(runs: seq<seq<Node>>, i: nat, j: nat)
    requires i < j < |runs|
    ensures AnonCalls(Flatten(runs)) >= AnonCalls(runs[i]) + AnonCalls(runs[j])
  {
    CountsOfConcat(runs[0], Flatten(runs[1..]));
    if i == 0 {
      CallsOfFlatten(runs[1..], j - 1);
    } else {
      CallsOfTwo(runs[1..], i - 1, j - 1);
    }
  }

  lemma CompatibleWithRest(runs: seq<seq<Node>>)
    requires runs != [] && AllValid(runs) && PairwiseCompatible(runs)
    ensures Compatible(runs[0], Flatten(runs[1..]))
  {
    var rest := runs[1..];
    if SharesCall(runs[0], Flatten(rest)) {
      var i, j, p :| CallAt(runs[0], i, p) && CallAt(Flatten(rest), j, p);
      var k, i' := CallOfFlatten(rest, j, p);
    }
    CountsOfFlatten(rest);
    forall k | 0 <= k < |rest| && AnonCalls(runs[0]) > 0
      ensures AnonCalls(rest[k]) == AnonOutputs(rest[k])
      ensures AnonCalls(rest[k]) > 0 ==> AnonCalls(runs[0]) == AnonOutputs(runs[0])
    {
      assert Compatible(runs[0], runs[k + 1]) && rest[k] == runs[k + 1];
      SearchesAnswered(rest[k]);
    }
    if forall k | 0 <= k < |rest| :: AnonCalls(rest[k]) == 0 {
      NoCallsInFlatten(rest);
    }
  }

  lemma {:induction false} SharedCallSpoilsAll(runs: seq<seq<Node>>, i: nat, j: nat)
    requires i < j < |runs| && SharesCall(runs[i], runs[j])
    ensures !UniqueCalls(Flatten(runs))
  {
    var c, d, p :| CallAt(runs[i], c, p) && CallAt(runs[j], d, p);
    if i == 0 {
      var d' := CallInFlatten(runs[1..], j - 1, d, p);
      assert CallAt(Flatten(runs), c, p) && CallAt(Flatten(runs), |runs[0]| + d', p);
    } else {
      SharedCallSpoilsAll(runs[1..], i - 1, j - 1);
      var rest, n := Flatten(runs[1..]), |runs[0]|;
      var e, f, q :| CallAt(rest, e, q) && CallAt(rest, f, q) && e != f;
      assert CallAt(Flatten(runs), n + e, q) && CallAt(Flatten(runs), n + f, q);
    }
  }

  lemma {:induction false} ConflictSpoilsAll(runs: seq<seq<Node>>, i: nat, j: nat)
    requires i < j < |runs| && AllValid(runs) && !Compatible(runs[i], runs[j])
    ensures !ValidGraph(Flatten(runs))
  {
    if SharesCall(runs[i], runs[j]) {
      SharedCallSpoilsAll(runs, i, j);
    } else {
      CountsOfFlatten(runs);
      CallsOfTwo(runs, i, j);
      SearchesAnswered(runs[i]);
      SearchesAnswered(runs[j]);
      SearchesAnswered(Flatten(runs));
    }
  }

  /** The whole is a valid run exactly if every two of the runs are compatible. */
  lemma {:induction false} FlattenIsValid(runs: seq<seq<Node>>)
    requires AllValid(runs)
    ensures ValidGraph(Flatten(runs)) <==> PairwiseCompatible(runs)
  {
    if PairwiseCompatible(runs) {
      if runs != [] {
        FlattenIsValid(runs[1..]);
        CompatibleWithRest(runs);
        ConcatIsValid(runs[0], Flatten(runs[1..]));
      }
    } else {
      var i, j :| 0 <= i < j < |runs| && !Compatible(runs[i], runs[j]);
      ConflictSpoilsAll(runs, i, j);
    }
  }
}
