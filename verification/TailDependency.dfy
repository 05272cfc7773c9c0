/** A final input that begins with tool outputs needs the call they answer, which is the end of the history. */
module TailDependency {
  import opened ResponseItems
  import opened RunGraph
  import opened AnonymousSearch
  import opened RunValidator
  import opened HistoryParts
  import opened HistoryGroups
  import opened HistoryRegrouping

  // Where the run that history ends with begins.
  function TrailingRunStart(h: seq<Item>): (n: nat)
    ensures n <= |h|
    ensures forall k | n <= k < |h| :: IsProtocolItem(h[k])
    ensures n > 0 ==> !IsProtocolItem(h[n - 1])
  {
    if h == [] || !IsProtocolItem(h[|h| - 1]) then |h| else TrailingRunStart(h[..|h| - 1])
  }

  function LeadingOutputs(h: seq<Item>): (n: nat)
    ensures n <= |h|
    ensures forall k | 0 <= k < n :: OutputKind(h[k]).Some?
    ensures n < |h| ==> OutputKind(h[n]).None?
  {
    if h == [] || OutputKind(h[0]).None? then 0 else 1 + LeadingOutputs(h[1..])
  }

  function LeadingToolResults(h: seq<Item>): (n: nat)
    ensures n <= |h|
    ensures forall k | 0 <= k < n :: h[k].role == Tool
    ensures n < |h| ==> h[n].role != Tool
  {
    if h == [] || h[0].role != Tool then 0 else 1 + LeadingToolResults(h[1..])
  }

  // The last history item is a request with ids that the leading tool results answer one by one.
  predicate AnswersLastRequest(history: seq<Item>, tail: seq<Item>) {
    && history != []
    && AssistantToolCallIds(history[|history| - 1]).Some?
    && AssistantToolCallIds(history[|history| - 1]).value != {}
    && RepliesMatch(tail[..LeadingToolResults(tail)], AssistantToolCallIds(history[|history| - 1]).value)
  }

  // The final run of the history and the leading outputs are one valid run.
  ghost predicate ContinuesLastRun(history: seq<Item>, tail: seq<Item>) {
    ValidRun(history[TrailingRunStart(history)..] + tail[..LeadingOutputs(tail)])
  }

  /** Outputs alone never are a valid run, so an output in the final input always needs history. */
  lemma NoRunBeginsWithOutput(items: seq<Item>)
    requires items != [] && OutputKind(items[0]).Some?
    ensures !ValidRun(items)
  {
    var g := Graph(items);
    assert g[0] == View(items[0]);
    FirstIsOutput(items[0]);
    match g[0].shape {
      case IdOutput(p) =>
        assert OutputAt(g, 0, p);
      case AnonOutput =>
        CountAtLeastOne(g, 0);
        DepthStep(g, 0);
        assert g[..0] == [];
        if AnonCalls(g) == 1 {
          var i := SomeAnonCall(g);
        } else {
          assert Depth(g, 1) < 0;
        }
      case _ =>
    }
  }

  lemma FirstIsOutput(item: Item)
    requires OutputKind(item).Some?
    ensures ShapeOf(item).IdOutput? || ShapeOf(item).AnonOutput? || ShapeOf(item).Malformed?
  {
  }

  method TailResponseDependency(history: seq<Item>, tail: seq<Item>)
    returns (dependency: seq<Item>, start: nat, valid: bool)
    requires tail != [] && OutputKind(tail[0]).Some?
    ensures valid <==> ContinuesLastRun(history, tail)
    ensures start == TrailingRunStart(history)
    ensures dependency == if valid then history[start..] else []
  {
    var end := 0;
    while end < |tail| && OutputKind(tail[end]).Some?
      invariant 0 <= end <= |tail|
      invariant forall k | 0 <= k < end :: OutputKind(tail[k]).Some?
    {
      end := end + 1;
    }
    start := |history|;
    while start > 0 && IsProtocolItem(history[start - 1])
      invariant 0 <= start <= |history|
      invariant forall k | start <= k < |history| :: IsProtocolItem(history[k])
    {
      start := start - 1;
    }
    SameStart(history, start);
    assert end == LeadingOutputs(tail);
    if start == |history| {
      assert history[start..] + tail[..end] == tail[..end];
      NoRunBeginsWithOutput(tail[..end]);
      return [], start, false;
    }
    valid := ResponseRunIsValid(history[start..] + tail[..end]);
    dependency := if valid then history[start..] else [];
  }

  lemma {:induction false} SameStart(h: seq<Item>, start: nat)
    requires start <= |h| && forall k | start <= k < |h| :: IsProtocolItem(h[k])
    requires start > 0 ==> !IsProtocolItem(h[start - 1])
    ensures start == TrailingRunStart(h)
  {
    var n := TrailingRunStart(h);
  }

  // A reply has no id or repeats that of an earlier one.
  ghost predicate Useless(replies: seq<Item>, k: int) {
    && 0 <= k < |replies|
    && (!replies[k].toolCallId.Named() || exists l :: 0 <= l < k && replies[l].toolCallId == replies[k].toolCallId)
  }

  ghost predicate SomeUseless(replies: seq<Item>) {
    exists k :: Useless(replies, k)
  }

  lemma UselessStays(tail: seq<Item>, n: nat)
    requires n < |tail|
    ensures SomeUseless(tail[..n]) ==> SomeUseless(tail[..n + 1])
    ensures Useless(tail[..n + 1], n) <==>
            !tail[n].toolCallId.Named() || exists l :: 0 <= l < n && tail[l].toolCallId == tail[n].toolCallId
  {
    var shorter, longer := tail[..n], tail[..n + 1];
    if SomeUseless(shorter) {
      var k :| Useless(shorter, k);
      if l :| 0 <= l < k && shorter[l].toolCallId == shorter[k].toolCallId {
        assert longer[l] == shorter[l];
      }
      assert longer[k] == shorter[k];
      assert Useless(longer, k);
    }
    if l :| 0 <= l < n && longer[l].toolCallId == longer[n].toolCallId {
      assert tail[l] == longer[l];
    }
    if l :| 0 <= l < n && tail[l].toolCallId == tail[n].toolCallId {
      assert tail[l] == longer[l];
    }
  }

  // Replies with distinct ids, as many as declared and the same ids: what the loop finds is what RepliesMatch says.
  lemma DistinctReplies(replies: seq<Item>, replyIds: seq<string>, distinct: bool, ids: set<string>)
    requires |replyIds| <= |replies|
    requires distinct ==> |replyIds| == |replies| && forall k | 0 <= k < |replies| ::
             replies[k].toolCallId == Text(replyIds[k])
    requires distinct ==> forall k | 0 <= k < |replies| :: replies[k].toolCallId.Named()
    requires !distinct ==> SomeUseless(replies)
    ensures RepliesMatch(replies, ids) <==> distinct && |replyIds| == |ids| && (set s | s in replyIds) == ids
  {
    if RepliesMatch(replies, ids) {
      OneReplyPerId(replies, ids);
    }
    if distinct {
      assert (set s | s in replyIds) == ReplyIds(replies);
    }
  }

  method TailHistoryDependency(history: seq<Item>, tail: seq<Item>)
    returns (dependency: seq<Item>, start: int, valid: bool)
    ensures tail == [] ==> valid && dependency == [] && start == |history|
    ensures tail != [] && tail[0].role == Tool ==>
              && (valid <==> AnswersLastRequest(history, tail))
              && start == |history| - 1
              && dependency == if valid then history[start..] else []
    ensures tail != [] && tail[0].role != Tool && OutputKind(tail[0]).Some? ==>
              && (valid <==> ContinuesLastRun(history, tail))
              && start == TrailingRunStart(history)
              && dependency == if valid then history[start..] else []
    ensures tail != [] && tail[0].role != Tool && OutputKind(tail[0]).None? ==>
              valid && dependency == [] && start == |history|
    ensures valid ==> 0 <= start <= |history| && dependency == history[start..]
  {
    if tail == [] {
      return [], |history|, true;
    }
    if tail[0].role == Tool {
      valid := ChatToolResultsMatch(history, tail);
      start := |history| - 1;
      dependency := if valid then history[start..] else [];
    } else if OutputKind(tail[0]).Some? {
      dependency, start, valid := TailResponseDependency(history, tail);
    } else {
      dependency, start, valid := [], |history|, true;
    }
  }

  method ChatToolResultsMatch(history: seq<Item>, tail: seq<Item>) returns (valid: bool)
    requires tail != [] && tail[0].role == Tool
    ensures valid <==> AnswersLastRequest(history, tail)
  {
    var end := 0;
    var replyIds: seq<string> := [];
    var distinct := true;
    while end < |tail| && tail[end].role == Tool
      invariant 0 <= end <= |tail|
      invariant forall k | 0 <= k < end :: tail[k].role == Tool
      invariant |replyIds| <= end
      invariant forall s | s in replyIds :: exists k :: 0 <= k < end && tail[k].toolCallId == Text(s)
      invariant distinct ==> |replyIds| == end && forall k | 0 <= k < end ::
                  tail[k].toolCallId == Text(replyIds[k]) && tail[k].toolCallId.Named()
      invariant !distinct ==> SomeUseless(tail[..end])
    {
      var id := tail[end].toolCallId;
      UselessStays(tail, end);
      if !id.Named() || id.text in replyIds {
        distinct := false;
      } else {
        replyIds := replyIds + [id.text];
      }
      end := end + 1;
    }
    assert end == LeadingToolResults(tail);
    ghost var replies := tail[..end];
    assert forall k | 0 <= k < end :: replies[k] == tail[k];
    if history == [] {
      return false;
    }
    var expected := AssistantToolCallIds(history[|history| - 1]);
    if expected.None? {
      return false;
    }
    DistinctReplies(replies, replyIds, distinct, expected.value);
    valid := && distinct && expected.value != {} && |replyIds| == |expected.value|
             && (set s | s in replyIds) == expected.value;
  }

  /* The dependency and the outputs belong together */

  lemma SplitTail(a: seq<Item>, tail: seq<Item>, n: nat)
    requires n <= |tail|
    ensures (a + tail[..n]) + tail[n..] == a + tail
  {
  }

  /** Tool results the check lets through form, with the request before them, one complete exchange, and grouping cuts
      nothing between them. */
  lemma {:induction false} ChatDependencyIsOneGroup(history: seq<Item>, tail: seq<Item>)
    requires tail != [] && tail[0].role == Tool && AnswersLastRequest(history, tail)
    requires MarkOf(history[|history| - 1]).kind.Request?
    ensures var n := LeadingToolResults(tail);
            var dependency := history[|history| - 1..];
            && IsToolExchange(dependency + tail[..n])
            && Parts(dependency + tail) == [dependency + tail[..n]] + Parts(tail[n..])
  {
    var n := LeadingToolResults(tail);
    var dependency := history[|history| - 1..];
    var exchange := dependency + tail[..n];
    assert exchange[1..] == tail[..n];
    SplitTail(dependency, tail, n);
    ExchangeIsCutTogether(exchange, tail[n..]);
  }

  /** Outputs the check lets through form, with the run before them, one valid run, and grouping cuts nothing between
      them: the first part is the run, the outputs and whatever replay items follow the outputs. */
  lemma {:induction false} ResponseDependencyIsOneGroup(history: seq<Item>, tail: seq<Item>)
    requires tail != [] && OutputKind(tail[0]).Some? && ContinuesLastRun(history, tail)
    ensures var n := LeadingOutputs(tail);
            var dependency := history[TrailingRunStart(history)..];
            var m := LeadingRun(Marks(tail));
            && dependency != []
            && n <= m
            && IsRun(dependency + tail[..n])
            && Parts(dependency + tail) == [dependency + tail[..m]] + Parts(tail[m..])
  {
    hide ValidRun, MarkOf, IsProtocolItem, OutputKind, Parts;
    var n, m := LeadingOutputs(tail), LeadingRun(Marks(tail));
    var dependency := history[TrailingRunStart(history)..];
    if dependency == [] {
      assert dependency + tail[..n] == tail[..n];
      NoRunBeginsWithOutput(tail[..n]);
    }
    OutputsAreReplay(tail);
    TrailingRunIsReplay(history, tail, n);
    TrailingRunIsReplay(history, tail, m);
    SplitTail(dependency, tail, m);
    assert m < |tail| ==> !Marks(tail)[m].kind.InRun?;
    RunsAreCutTogether(dependency + tail[..m], tail[m..]);
  }

  ghost predicate AllReplay(items: seq<Item>) {
    forall k | 0 <= k < |items| :: MarkOf(items[k]).kind.InRun?
  }

  lemma {:induction false} OutputsAreReplay(tail: seq<Item>)
    ensures LeadingOutputs(tail) <= LeadingRun(Marks(tail))
  {
    hide MarkOf, OutputKind;
    var m := LeadingRun(Marks(tail));
    if m < |tail| {
      OutputShape(tail[m]);
    }
  }

  lemma {:induction false} TrailingRunIsReplay(history: seq<Item>, tail: seq<Item>, m: nat)
    requires m <= LeadingRun(Marks(tail))
    ensures AllReplay(history[TrailingRunStart(history)..] + tail[..m])
  {
    hide MarkOf, IsProtocolItem;
    var start := TrailingRunStart(history);
    forall k | start <= k < |history|
      ensures MarkOf(history[k]).kind.InRun?
    {
      InRunIsProtocol(history[k]);
    }
    assert forall k | 0 <= k < m :: MarkOf(tail[k]) == Marks(tail)[k];
  }
}
