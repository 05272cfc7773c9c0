/** Grouping what grouping kept. The budget may drop any of the groups, and then runs that were apart stand next to
    each other; the program does not look at the result again. This module says when looking would change it. */
module HistoryRegrouping {
  import opened ResponseItems
  import opened RunGraph
  import opened RunConcatenation
  import opened RunLists
  import opened HistoryParts
  import opened HistoryGroups

  // Grouping h keeps all of it.
  ghost predicate NothingDropped(h: seq<Item>) {
    forall k | 0 <= k < |Parts(h)| :: Complete(Parts(h)[k])
  }

  ghost function Graphs(parts: seq<seq<Item>>): (gs: seq<seq<Node>>)
    ensures |gs| == |parts|
    ensures forall k | 0 <= k < |gs| :: gs[k] == Graph(parts[k])
  {
    seq(|parts|, k requires 0 <= k < |parts| => Graph(parts[k]))
  }

  ghost function RunFlags(parts: seq<seq<Item>>): (flags: seq<bool>)
    ensures |flags| == |parts|
    ensures forall k | 0 <= k < |flags| :: flags[k] <==> IsReplay(parts[k])
  {
    seq(|parts|, k requires 0 <= k < |parts| => IsReplay(parts[k]))
  }

  ghost predicate AllSet(flags: seq<bool>, i: int, j: int) {
    0 <= i <= j < |flags| && forall k | i <= k <= j :: flags[k]
  }

  // Any two runs with only runs between them are compatible.
  ghost predicate Neighbours(flags: seq<bool>, graphs: seq<seq<Node>>)
    requires |flags| == |graphs|
  {
    forall i, j | i < j && AllSet(flags, i, j) :: Compatible(graphs[i], graphs[j])
  }

  ghost predicate NeighboursCompatible(parts: seq<seq<Item>>) {
    Neighbours(RunFlags(parts), Graphs(parts))
  }

  // A block of leading runs, or one part that is no run, splits the condition.
  lemma NeighboursBlockwise(flags: seq<bool>, graphs: seq<seq<Node>>, m: nat)
    requires |flags| == |graphs| && 1 <= m <= |flags|
    requires if flags[0] then AllSet(flags, 0, m - 1) && (m < |flags| ==> !flags[m]) else m == 1
    ensures Neighbours(flags, graphs) <==>
            (flags[0] ==> PairwiseCompatible(graphs[..m])) && Neighbours(flags[m..], graphs[m..])
  {
    var flags', graphs' := flags[m..], graphs[m..];
    if Neighbours(flags, graphs) {
      forall i, j | 0 <= i < j < m && flags[0]
        ensures Compatible(graphs[..m][i], graphs[..m][j])
      {
        assert AllSet(flags, i, j);
      }
      forall i, j | i < j && AllSet(flags', i, j)
        ensures Compatible(graphs'[i], graphs'[j])
      {
        assert forall k | i + m <= k <= j + m :: flags[k] == flags'[k - m];
        assert AllSet(flags, i + m, j + m);
      }
    }
    if (flags[0] ==> PairwiseCompatible(graphs[..m])) && Neighbours(flags', graphs') {
      forall i, j | i < j && AllSet(flags, i, j)
        ensures Compatible(graphs[i], graphs[j])
      {
        if i < m {
          assert flags[i] && j < m;
          assert Compatible(graphs[..m][i], graphs[..m][j]);
        } else {
          assert forall k | i - m <= k <= j - m :: flags'[k] == flags[k + m];
          assert AllSet(flags', i - m, j - m);
        }
      }
    }
  }

  lemma MarksOfConcat(a: seq<Item>, b: seq<Item>)
    ensures Marks(a + b) == Marks(a) + Marks(b)
  {
  }

  lemma {:induction false} GraphOfFlatten(parts: seq<seq<Item>>)
    ensures Graph(Flatten(parts)) == Flatten(Graphs(parts))
  {
    if parts != [] {
      GraphOfFlatten(parts[1..]);
      assert Graphs(parts)[1..] == Graphs(parts[1..]);
      assert Graph(parts[0] + Flatten(parts[1..])) == Graph(parts[0]) + Graph(Flatten(parts[1..]));
    }
  }

  ghost predicate AllWhole(parts: seq<seq<Item>>) {
    forall k | 0 <= k < |parts| :: IsWhole(parts[k])
  }

  // The exchange at k is followed by a part that begins with a chat tool result.
  ghost predicate Swallows(parts: seq<seq<Item>>, k: int) {
    && 0 <= k && k + 1 < |parts|
    && IsToolExchange(parts[k]) && parts[k + 1] != [] && MarkOf(parts[k + 1][0]).reply
  }

  ghost predicate NoneSwallowed(parts: seq<seq<Item>>) {
    forall k | 0 <= k < |parts| :: !Swallows(parts, k)
  }

  // Only a run can begin with a chat tool result.
  lemma FirstOfPart(part: seq<Item>)
    requires IsWhole(part)
    ensures part != [] && (IsReplay(part) <==> MarkOf(part[0]).kind.InRun?)
    ensures !IsReplay(part) || Unambiguous(part) ==> !MarkOf(part[0]).reply
    ensures IsReplay(part) ==> !IsToolExchange(part)
  {
  }

  function LeadingSet(flags: seq<bool>): (m: nat)
    ensures m <= |flags|
    ensures forall k | 0 <= k < m :: flags[k]
    ensures m < |flags| ==> !flags[m]
  {
    if flags == [] || !flags[0] then 0 else 1 + LeadingSet(flags[1..])
  }

  lemma {:induction false} RunsAreInRun(parts: seq<seq<Item>>)
    requires forall k | 0 <= k < |parts| :: IsReplay(parts[k])
    ensures forall k | 0 <= k < |Flatten(parts)| :: MarkOf(Flatten(parts)[k]).kind.InRun?
    ensures parts != [] ==> Flatten(parts) != []
  {
    if parts != [] {
      RunsAreInRun(parts[1..]);
    }
  }

  /** Runs in a row are one complete part exactly if every two of them are compatible. */
  lemma {:induction false} RunsComplete(parts: seq<seq<Item>>)
    requires parts != [] && AllValid(Graphs(parts)) && forall k | 0 <= k < |parts| :: IsReplay(parts[k])
    ensures Complete(Flatten(parts)) <==> PairwiseCompatible(Graphs(parts))
  {
    hide ValidGraph, PairwiseCompatible;
    RunsAreInRun(parts);
    GraphOfFlatten(parts);
    FlattenIsValid(Graphs(parts));
    assert MarkOf(Flatten(parts)[0]).kind.InRun?;
  }

  // The first cut of a sequence whose first n items belong together.
  lemma CutAfter(a: seq<Item>, b: seq<Item>)
    requires a != [] && FirstPart(Marks(a + b)) == |a|
    ensures Parts(a + b) == [a] + Parts(b)
  {
    var ms := Marks(a + b);
    assert (a + b)[..|a|] == a && (a + b)[|a|..] == b;
    assert ms[|a|..] == Marks(b);
  }

  lemma RunsAreCutTogether(a: seq<Item>, b: seq<Item>)
    requires a != [] && forall k | 0 <= k < |a| :: MarkOf(a[k]).kind.InRun?
    requires b != [] ==> !MarkOf(b[0]).kind.InRun?
    ensures Parts(a + b) == [a] + Parts(b)
  {
    var ms := Marks(a + b);
    assert ms[0..] == ms;
    LeadingRunEnd(ms, 0, |a|);
    CutAfter(a, b);
  }

  lemma ExchangeIsCutTogether(a: seq<Item>, b: seq<Item>)
    requires IsToolExchange(a) && (b != [] ==> !MarkOf(b[0]).reply)
    ensures Parts(a + b) == [a] + Parts(b)
  {
    var ms := Marks(a + b);
    LeadingRepliesEnd(ms, 1, |a|);
    CutAfter(a, b);
  }

  lemma {:induction false} FirstItemOf(parts: seq<seq<Item>>)
    requires AllWhole(parts) && parts != []
    ensures Flatten(parts) != [] && Flatten(parts)[0] == parts[0][0]
  {
    FirstOfPart(parts[0]);
  }

  // How much of the parts the first cut takes: all leading runs, or one part of another kind.
  ghost function FirstBlock(parts: seq<seq<Item>>): (m: nat)
    requires parts != []
    ensures 1 <= m <= |parts|
  {
    if RunFlags(parts)[0] then LeadingSet(RunFlags(parts)) else 1
  }

  lemma OtherPartIsCut(part: seq<Item>, rest: seq<Item>)
    requires IsWhole(part) && !IsReplay(part)
    requires IsToolExchange(part) && rest != [] ==> !MarkOf(rest[0]).reply
    ensures Parts(part + rest) == [part] + Parts(rest)
  {
    if IsToolExchange(part) {
      ExchangeIsCutTogether(part, rest);
    } else {
      MarksOfConcat(part, rest);
      CutAfter(part, rest);
    }
  }

  lemma {:induction false} FlattenSplit(parts: seq<seq<Item>>, m: nat)
    requires m <= |parts|
    ensures Flatten(parts) == Flatten(parts[..m]) + Flatten(parts[m..])
    ensures m == 1 ==> Flatten(parts[..m]) == parts[0]
  {
    FlattenConcat(parts[..m], parts[m..]);
    assert parts == parts[..m] + parts[m..];
    if m == 1 {
      assert Flatten(parts[..m]) == parts[0] + Flatten(parts[..m][1..]);
    }
  }

  // The item after the first block belongs to a part of its own.
  lemma NextBlock(parts: seq<seq<Item>>, m: nat)
    requires AllWhole(parts) && m < |parts|
    ensures Flatten(parts[m..]) != [] && parts[m] != [] && Flatten(parts[m..])[0] == parts[m][0]
    ensures IsReplay(parts[m]) <==> MarkOf(Flatten(parts[m..])[0]).kind.InRun?
  {
    FirstItemOf(parts[m..]);
    FirstOfPart(parts[m]);
  }

  lemma {:induction false} FirstBlockIsCut(parts: seq<seq<Item>>)
    requires AllWhole(parts) && parts != [] && !Swallows(parts, 0)
    ensures var m := FirstBlock(parts);
            Parts(Flatten(parts)) == [Flatten(parts[..m])] + Parts(Flatten(parts[m..]))
  {
    var m := FirstBlock(parts);
    FlattenSplit(parts, m);
    assert forall k | 0 <= k < |parts| :: RunFlags(parts)[k] <==> IsReplay(parts[k]);
    if m < |parts| {
      NextBlock(parts, m);
    }
    if IsReplay(parts[0]) {
      RunsAreInRun(parts[..m]);
      RunsAreCutTogether(Flatten(parts[..m]), Flatten(parts[m..]));
    } else {
      OtherPartIsCut(parts[0], Flatten(parts[m..]));
    }
  }

  lemma ViewsSplit(parts: seq<seq<Item>>, m: nat)
    requires m <= |parts|
    ensures RunFlags(parts)[m..] == RunFlags(parts[m..])
    ensures Graphs(parts)[m..] == Graphs(parts[m..])
    ensures Graphs(parts)[..m] == Graphs(parts[..m])
  {
  }

  lemma CompatibleBlockwise(parts: seq<seq<Item>>, m: nat)
    requires parts != [] && m == FirstBlock(parts)
    ensures NeighboursCompatible(parts) <==>
            (RunFlags(parts)[0] ==> PairwiseCompatible(Graphs(parts[..m]))) && NeighboursCompatible(parts[m..])
  {
    ViewsSplit(parts, m);
    NeighboursBlockwise(RunFlags(parts), Graphs(parts), m);
  }

  lemma CompleteReplaysAreValid(parts: seq<seq<Item>>)
    requires forall k | 0 <= k < |parts| :: Complete(parts[k]) && IsReplay(parts[k])
    ensures AllValid(Graphs(parts))
  {
    hide ValidGraph;
  }

  lemma CompleteIsWhole(parts: seq<seq<Item>>)
    requires AllComplete(parts)
    ensures AllWhole(parts)
  {
    hide ValidRun;
  }

  lemma FirstBlockComplete(parts: seq<seq<Item>>, m: nat)
    requires AllComplete(parts) && parts != [] && m == FirstBlock(parts)
    ensures Complete(Flatten(parts[..m])) <==> (RunFlags(parts)[0] ==> PairwiseCompatible(Graphs(parts[..m])))
  {
    if RunFlags(parts)[0] {
      assert forall k | 0 <= k < m :: RunFlags(parts)[k];
      CompleteReplaysAreValid(parts[..m]);
      RunsComplete(parts[..m]);
    } else {
      FlattenSplit(parts, 1);
    }
  }

  // The parts of a first block swallow nothing, except that an exchange may swallow what comes behind it.
  lemma SwallowedBlockwise(parts: seq<seq<Item>>, m: nat)
    requires AllWhole(parts) && parts != [] && m == FirstBlock(parts)
    ensures NoneSwallowed(parts) <==> !Swallows(parts, 0) && NoneSwallowed(parts[m..])
  {
    hide Swallows, IsWhole, IsReplay;
    forall k | 0 < k < m
      ensures !Swallows(parts, k)
    {
      assert RunFlags(parts)[k];
      RunSwallowsNone(parts, k);
    }
    forall k | m <= k < |parts|
      ensures Swallows(parts, k) <==> Swallows(parts[m..], k - m)
    {
      SwallowsLater(parts, m, k);
    }
    forall k | 0 <= k < |parts[m..]|
      ensures Swallows(parts[m..], k) <==> Swallows(parts, k + m)
    {
      SwallowsLater(parts, m, k + m);
    }
  }

  lemma RunSwallowsNone(parts: seq<seq<Item>>, k: nat)
    requires k < |parts| && IsWhole(parts[k]) && IsReplay(parts[k])
    ensures !Swallows(parts, k)
  {
    FirstOfPart(parts[k]);
  }

  lemma SwallowsLater(parts: seq<seq<Item>>, m: nat, k: nat)
    requires m <= k < |parts|
    ensures Swallows(parts, k) <==> Swallows(parts[m..], k - m)
  {
    hide IsToolExchange, MarkOf;
  }

  lemma {:induction false} SwallowedIsDropped(parts: seq<seq<Item>>)
    requires Swallows(parts, 0)
    ensures !NothingDropped(Flatten(parts))
  {
    hide Complete, MarkOf, IsToolExchange;
    var rest := Flatten(parts[1..]);
    assert parts[1..][0] == parts[1] && rest[0] == parts[1][0];
    ReplyBehindExchange(parts[0], rest);
  }

  lemma {:induction false} FirstBlockRegrouped(parts: seq<seq<Item>>, m: nat)
    requires AllComplete(parts) && parts != [] && m == FirstBlock(parts) && !Swallows(parts, 0)
    ensures NothingDropped(Flatten(parts)) <==>
            (RunFlags(parts)[0] ==> PairwiseCompatible(Graphs(parts[..m]))) && NothingDropped(Flatten(parts[m..]))
  {
    hide NothingDropped, PairwiseCompatible, AllComplete, Complete, Parts, Flatten, FirstBlock, Swallows;
    CompleteIsWhole(parts);
    FirstBlockIsCut(parts);
    FirstBlockComplete(parts, m);
    NothingDroppedStep(Flatten(parts), Flatten(parts[..m]), Flatten(parts[m..]));
  }

  lemma NoPartsRegrouped()
    ensures NothingDropped(Flatten([])) && NeighboursCompatible([]) && NoneSwallowed([])
  {
  }

  /** Grouping the kept parts again drops nothing exactly if runs that came to stand together are compatible and no run
      that begins with a chat tool result came to stand behind an exchange. */
  lemma {:induction false} RegroupingDropsNothing(parts: seq<seq<Item>>)
    requires AllComplete(parts)
    ensures NothingDropped(Flatten(parts)) <==> NeighboursCompatible(parts) && NoneSwallowed(parts)
    decreases |parts|
  {
    hide NothingDropped, NeighboursCompatible, PairwiseCompatible, Complete, Flatten, FirstBlock, Swallows,
         NoneSwallowed;
    if parts == [] {
      NoPartsRegrouped();
    } else if Swallows(parts, 0) {
      SwallowedIsDropped(parts);
      SwallowedFirst(parts);
    } else {
      var m := FirstBlock(parts);
      CompleteIsWhole(parts);
      SwallowedBlockwise(parts, m);
      FirstBlockRegrouped(parts, m);
      CompatibleBlockwise(parts, m);
      RegroupingDropsNothing(parts[m..]);
    }
  }

  lemma SwallowedFirst(parts: seq<seq<Item>>)
    requires Swallows(parts, 0)
    ensures !NoneSwallowed(parts)
  {
  }

  // Without ambiguous items no part begins with a chat tool result.
  lemma UnambiguousNoneSwallowed(parts: seq<seq<Item>>)
    requires AllComplete(parts) && AllUnambiguous(parts)
    ensures NoneSwallowed(parts)
  {
    CompleteIsWhole(parts);
    forall k | 0 <= k < |parts|
      ensures !Swallows(parts, k)
    {
      if Swallows(parts, k) {
        FirstOfPart(parts[k + 1]);
      }
    }
  }

  lemma NothingDroppedStep(h: seq<Item>, first: seq<Item>, rest: seq<Item>)
    requires Parts(h) == [first] + Parts(rest)
    ensures NothingDropped(h) <==> Complete(first) && NothingDropped(rest)
  {
    hide Complete, Parts;
    if NothingDropped(h) {
      forall k | 0 <= k < |Parts(rest)|
        ensures Complete(Parts(rest)[k])
      {
        assert Parts(rest)[k] == Parts(h)[k + 1];
      }
      assert Complete(Parts(h)[0]);
    }
  }

  /* Selections of a history */

  // The parts of h that are chosen, in order.
  ghost function Chosen(parts: seq<seq<Item>>, chosen: seq<bool>): seq<seq<Item>>
    requires |parts| == |chosen|
  {
    if parts == [] then []
    else (if chosen[0] then [parts[0]] else []) + Chosen(parts[1..], chosen[1..])
  }

  lemma {:induction false} ChosenAreComplete(parts: seq<seq<Item>>, chosen: seq<bool>)
    requires |parts| == |chosen|
    requires forall k | 0 <= k < |parts| && chosen[k] :: Complete(parts[k])
    ensures AllComplete(Chosen(parts, chosen))
    ensures AllUnambiguous(parts) ==> AllUnambiguous(Chosen(parts, chosen))
  {
    if parts != [] {
      ChosenAreComplete(parts[1..], chosen[1..]);
    }
  }

  lemma {:induction false} PartsAreUnambiguous(h: seq<Item>, ms: seq<Mark>)
    requires |h| == |ms| && Unambiguous(h)
    ensures AllUnambiguous(Cut(h, ms))
  {
    if h != [] {
      var n := FirstPart(ms);
      PartsAreUnambiguous(h[n..], ms[n..]);
    }
  }

  /** Whichever complete groups of a history the budget kept: grouping the selection again drops nothing exactly if its
      neighbouring runs are compatible and no exchange swallows the run behind it. Without items that are chat tool
      results and replay items at once nothing is swallowed, no output stands without its call, and no tool result
      without its request. */
  lemma {:induction false} SelectionIsStable(h: seq<Item>, chosen: seq<bool>)
    requires |chosen| == |Parts(h)|
    requires forall k | 0 <= k < |chosen| && chosen[k] :: Complete(Parts(h)[k])
    ensures var kept := Chosen(Parts(h), chosen);
            && (NothingDropped(Flatten(kept)) <==> NeighboursCompatible(kept) && NoneSwallowed(kept))
            && (Unambiguous(h) ==> NoneSwallowed(kept) && NoOrphanIn(Flatten(kept)))
  {
    hide Complete, NothingDropped, NeighboursCompatible, NoneSwallowed, NoOrphanIn, Parts;
    ChosenAreComplete(Parts(h), chosen);
    var kept := Chosen(Parts(h), chosen);
    RegroupingDropsNothing(kept);
    if Unambiguous(h) {
      UnambiguousParts(h);
      NoOrphans(kept);
      UnambiguousNoneSwallowed(kept);
    }
  }

  lemma UnambiguousParts(h: seq<Item>)
    requires Unambiguous(h)
    ensures AllUnambiguous(Parts(h))
  {
    PartsAreUnambiguous(h, Marks(h));
  }

  /* What the conditions shut out */

  lemma FirstPartStops(a: seq<Mark>, b: seq<Mark>)
    requires a != [] && (b != [] ==> !b[0].kind.InRun? && !b[0].reply)
    ensures FirstPart(a + b) == FirstPart(a)
  {
    var n := FirstPart(a);
    assert (a + b)[0..] == a + b && a[0..] == a && (a + b)[0] == a[0];
    if a[0].kind.InRun? {
      LeadingRunEnd(a + b, 0, n);
    } else if a[0].kind.Request? {
      assert forall k | 1 <= k < n :: a[k] == a[1..][k - 1];
      assert n < |a| ==> a[n] == a[1..][n - 1];
      LeadingRepliesEnd(a + b, 1, n);
    }
  }

  // The cuts fall before every item that is neither a replay item nor a chat tool result.
  lemma {:induction false} CutBefore(a: seq<Item>, b: seq<Item>)
    requires b != [] ==> !MarkOf(b[0]).kind.InRun? && !MarkOf(b[0]).reply
    ensures Parts(a + b) == Parts(a) + Parts(b)
    decreases |a|
  {
    hide MarkOf;
    if a == [] {
      assert a + b == b;
    } else {
      var n := FirstPart(Marks(a));
      var first, rest := a[..n], a[n..];
      MarksOfConcat(a, b);
      FirstPartStops(Marks(a), Marks(b));
      assert first + rest == a && first + (rest + b) == a + b;
      CutAfter(first, rest);
      CutAfter(first, rest + b);
      CutBefore(rest, b);
      assert [first] + (Parts(rest) + Parts(b)) == ([first] + Parts(rest)) + Parts(b);
    }
  }

  /** A request whose declared ids are malformed, wherever in the history it stands, begins a part; it is kept if no
      tool result follows it, and dropped otherwise. */
  lemma MalformedRequest(h: seq<Item>, k: nat)
    requires k < |h| && MarkOf(h[k]).kind == Request({})
    ensures Parts(h) == Parts(h[..k]) + Parts(h[k..]) && Parts(h[k..]) != []
    ensures Kept(Parts(h)[|Parts(h[..k])|]) == [h[k]] <==> k + 1 == |h| || !MarkOf(h[k + 1]).reply
  {
    assert h[..k] + h[k..] == h;
    RequestIsNoReply(h[k]);
    CutBefore(h[..k], h[k..]);
    MalformedFirst(h[k..]);
  }

  lemma RequestIsNoReply(item: Item)
    requires MarkOf(item).kind.Request?
    ensures !MarkOf(item).reply
  {
  }

  lemma MalformedFirst(h: seq<Item>)
    requires h != [] && MarkOf(h[0]).kind == Request({})
    ensures Parts(h) != []
    ensures Kept(Parts(h)[0]) == [h[0]] <==> |h| == 1 || !MarkOf(h[1]).reply
  {
    var ms := Marks(h);
    var n := FirstPart(ms);
    assert Parts(h)[0] == h[..n];
    assert ms[1..] != [] ==> ms[1..][0] == ms[1];
    assert h[..n][1..] == h[1..n];
  }

  /** A chat tool result is swallowed by the exchange it comes to stand behind, which is complete no more. */
  lemma ReplyBehindExchange(exchange: seq<Item>, rest: seq<Item>)
    requires IsToolExchange(exchange) && rest != [] && MarkOf(rest[0]).reply
    ensures Parts(exchange + rest) != [] && !Complete(Parts(exchange + rest)[0])
  {
    hide ValidRun, MarkOf;
    var h := exchange + rest;
    var ms := Marks(h);
    var n := 1 + LeadingReplies(ms[1..]);
    assert ms[|exchange|].reply && forall k | 1 <= k < |exchange| :: ms[k].reply;
    assert n > |exchange|;
    assert Parts(h)[0] == h[..n] && h[..n][0] == exchange[0];
    assert |h[..n][1..]| > |exchange[1..]|;
  }

  /** The second condition of regrouping is needed: each of these two parts is complete, no two runs meet, and yet
      grouping them again drops the exchange, because the run begins with an item that is a chat tool result as well. */
  lemma AmbiguousItemBreaksRegrouping()
    ensures var request := TextMessage(Assistant, "").(toolCalls := ToolCalls([Text("a")]));
            var reply := TextMessage(Tool, "").(toolCallId := Text("a"));
            var search := TextMessage(Tool, "").(typ := FileSearchCall, id := Text("b"));
            var parts := [[request, reply], [search]];
            && Complete(parts[0]) && Complete(parts[1]) && NeighboursCompatible(parts)
            && !NothingDropped(Flatten(parts))
  {
    var request := TextMessage(Assistant, "").(toolCalls := ToolCalls([Text("a")]));
    var reply := TextMessage(Tool, "").(toolCallId := Text("a"));
    var search := TextMessage(Tool, "").(typ := FileSearchCall, id := Text("b"));
    LoneItemIsRun(search);
    ExchangeOfA(request, reply);
    RunBehindExchange([request, reply], [search]);
  }

  lemma RunBehindExchange(exchange: seq<Item>, run: seq<Item>)
    requires IsToolExchange(exchange) && !IsReplay(exchange) && run != [] && MarkOf(run[0]).reply
    ensures NeighboursCompatible([exchange, run]) && !NothingDropped(Flatten([exchange, run]))
  {
    hide Complete, IsReplay, IsToolExchange, Parts, MarkOf;
    var parts := [exchange, run];
    ReplyBehindExchange(exchange, run);
    assert [run][1..] == [] && Flatten([run]) == run + [];
    assert parts[1..] == [run] && Flatten(parts) == exchange + run;
    assert !RunFlags(parts)[0];
  }

  lemma ExchangeOfA(request: Item, reply: Item)
    requires request == TextMessage(Assistant, "").(toolCalls := ToolCalls([Text("a")]))
    requires reply == TextMessage(Tool, "").(toolCallId := Text("a"))
    ensures IsToolExchange([request, reply]) && !IsReplay([request, reply])
  {
    hide ValidRun;
    RequestOfA(request);
    assert [request, reply][1..] == [reply];
    assert Text("a").text in ReplyIds([reply]) by { assert [reply][0] == reply; }
  }

  lemma RequestOfA(request: Item)
    requires request == TextMessage(Assistant, "").(toolCalls := ToolCalls([Text("a")]))
    ensures MarkOf(request) == Mark(Request({"a"}), false)
  {
    var ids := [Text("a")];
    assert ids[0].text == "a";
    assert (set k | 0 <= k < |ids| :: ids[k].text) == {"a"};
  }

  lemma LoneItemIsRun(item: Item)
    requires ShapeOf(item) == Standalone && Owner(item).None? && IsOpaque(item)
    ensures IsRun([item])
  {
    var g := Graph([item]);
    assert g == [View(item)];
    forall k | 0 <= k <= |g|
      ensures AnonCalls(g[..k]) == AnonOutputs(g[..k]) == 0
    {
      NoneAnonymous(g[..k]);
    }
    assert g[..|g|] == g;
  }

  lemma {:induction false} NoneAnonymous(g: seq<Node>)
    requires forall k | 0 <= k < |g| :: !g[k].shape.AnonCall? && !g[k].shape.AnonOutput?
    ensures AnonCalls(g) == AnonOutputs(g) == 0
  {
    if g != [] {
      NoneAnonymous(g[..|g| - 1]);
    }
  }
}
