/** The loop that groups history, and what its groups guarantee. */
module HistoryGroups {
  import opened Options
  import opened ResponseItems
  import opened RunGraph
  import opened AnonymousSearch
  import opened RunValidator
  import opened RunLists
  import opened HistoryParts

  // A group and the positions it covers.
  datatype Group = Group(items: seq<Item>, start: nat, end: nat)

  // The groups stand where the parts do, from position n on.
  ghost predicate Placed(groups: seq<Group>, parts: seq<seq<Item>>, n: nat) {
    if groups == [] then parts == []
    else
      && parts != []
      && groups[0].start == n && groups[0].end == n + |parts[0]|
      && Placed(groups[1..], parts[1..], n + |parts[0]|)
  }

  ghost predicate Judged(groups: seq<Group>, parts: seq<seq<Item>>) {
    |groups| == |parts| && forall k | 0 <= k < |groups| :: groups[k].items == Kept(parts[k])
  }

  // The groups that stand where the parts do, from position n on, and hold what is kept of each.
  function GroupsAt(parts: seq<seq<Item>>, kept: seq<seq<Item>>, n: nat): (groups: seq<Group>)
    requires |kept| == |parts|
    ensures |groups| == |parts|
    ensures forall k | 0 <= k < |groups| :: groups[k].items == kept[k]
  {
    if parts == [] then []
    else [Group(kept[0], n, n + |parts[0]|)] + GroupsAt(parts[1..], kept[1..], n + |parts[0]|)
  }

  ghost function KeptOf(parts: seq<seq<Item>>): (kept: seq<seq<Item>>)
    ensures |kept| == |parts|
    ensures forall k | 0 <= k < |kept| :: kept[k] == Kept(parts[k])
  {
    seq(|parts|, k requires 0 <= k < |parts| => Kept(parts[k]))
  }

  // The groups of a history.
  ghost function GroupsOf(h: seq<Item>): seq<Group> {
    GroupsAt(Parts(h), KeptOf(Parts(h)), 0)
  }

  // Placed by the parts and holding what is kept, the groups are determined.
  lemma {:induction false} GroupsDetermined(groups: seq<Group>, parts: seq<seq<Item>>, kept: seq<seq<Item>>, n: nat)
    requires Placed(groups, parts, n) && |groups| == |kept| == |parts|
    requires forall k | 0 <= k < |groups| :: groups[k].items == kept[k]
    ensures groups == GroupsAt(parts, kept, n)
  {
    if groups != [] {
      GroupsDetermined(groups[1..], parts[1..], kept[1..], n + |parts[0]|);
      assert groups == [groups[0]] + groups[1..];
    }
  }

  lemma {:induction false} PlacedAppend(groups: seq<Group>, parts: seq<seq<Item>>, n: nat, g: Group, part: seq<Item>)
    requires Placed(groups, parts, n)
    requires g.start == (if groups == [] then n else groups[|groups| - 1].end) && g.end == g.start + |part|
    ensures Placed(groups + [g], parts + [part], n)
  {
    var gs, ps := groups + [g], parts + [part];
    if groups != [] {
      PlacedAppend(groups[1..], parts[1..], n + |parts[0]|, g, part);
      assert gs[1..] == groups[1..] + [g] && ps[1..] == parts[1..] + [part];
    } else {
      assert gs[1..] == [] && ps[1..] == [];
    }
  }

  lemma JudgedAppend(groups: seq<Group>, parts: seq<seq<Item>>, g: Group, part: seq<Item>)
    requires Judged(groups, parts) && g.items == Kept(part)
    ensures Judged(groups + [g], parts + [part])
  {
  }

  lemma LeadingRunEnd(ms: seq<Mark>, index: nat, end: nat)
    requires index <= end <= |ms|
    requires forall k | index <= k < end :: ms[k].kind.InRun?
    requires end < |ms| ==> !ms[end].kind.InRun?
    ensures LeadingRun(ms[index..]) == end - index
  {
    var n := LeadingRun(ms[index..]);
    assert n < |ms[index..]| ==> !ms[index + n].kind.InRun?;
    assert end < |ms| ==> ms[index..][end - index] == ms[end];
  }

  lemma LeadingRepliesEnd(ms: seq<Mark>, index: nat, end: nat)
    requires index <= end <= |ms|
    requires forall k | index <= k < end :: ms[k].reply
    requires end < |ms| ==> !ms[end].reply
    ensures LeadingReplies(ms[index..]) == end - index
  {
    var n := LeadingReplies(ms[index..]);
    assert n < |ms[index..]| ==> !ms[index + n].reply;
    assert end < |ms| ==> ms[index..][end - index] == ms[end];
  }

  lemma InRunIsProtocol(item: Item)
    ensures MarkOf(item).kind.InRun? <==> IsProtocolItem(item)
  {
  }

  lemma RunKept(part: seq<Item>)
    requires part != [] && forall k | 0 <= k < |part| :: MarkOf(part[k]).kind.InRun?
    ensures Kept(part) == if ValidRun(part) then part else []
  {
    hide ValidRun;
  }

  method ResponseRunGroup(history: seq<Item>, index: nat, ghost ms: seq<Mark>) returns (group: Group)
    requires ms == Marks(history) && index < |history| && ms[index].kind.InRun?
    ensures group.start == index && group.end == index + FirstPart(ms[index..]) <= |history|
    ensures group.items == Kept(history[index..group.end])
  {
    hide ValidRun, Kept, MarkOf, IsProtocolItem, ValidGraph;
    var end := index + 1;
    while end < |history| && IsProtocolItem(history[end])
      invariant index < end <= |history|
      invariant forall k | index <= k < end :: ms[k].kind.InRun?
    {
      InRunIsProtocol(history[end]);
      end := end + 1;
    }
    if end < |history| {
      InRunIsProtocol(history[end]);
    }
    LeadingRunEnd(ms, index, end);
    RunKept(history[index..end]);
    var valid := ResponseRunIsValid(history[index..end]);
    group := Group(if valid then history[index..end] else [], index, end);
  }

  lemma ReplyMark(item: Item)
    ensures MarkOf(item).reply <==> item.role == Tool
  {
  }

  lemma NoReplyIds()
    ensures ReplyIds([]) == {}
  {
  }

  lemma OneMoreId(ids: seq<string>, id: string)
    ensures (set s | s in ids + [id]) == (set s | s in ids) + {id}
  {
  }

  method CollectReplies(history: seq<Item>, index: nat, ids: set<string>, ghost ms: seq<Mark>)
    returns (matches: bool, end: nat)
    requires ms == Marks(history) && index < |history|
    ensures index < end <= |history| && LeadingReplies(ms[index + 1..]) == end - index - 1
    ensures forall k | index < k < end :: ms[k].reply
    ensures matches <==> RepliesMatch(history[index + 1..end], ids)
  {
    hide MarkOf, ReplyIds, LeadingReplies;
    end := index + 1;
    NoReplyIds();
    var replies: seq<Item> := [];
    var replyIds: seq<string> := [];
    while end < |history| && history[end].role == Tool
      invariant index < end <= |history|
      invariant forall k | index < k < end :: ms[k].reply
      invariant replies == history[index + 1..end]
      invariant |replyIds| <= |replies|
      invariant |replyIds| == |replies| <==> forall k | 0 <= k < |replies| :: replies[k].toolCallId.Named()
      invariant (set s | s in replyIds) == ReplyIds(replies)
    {
      var reply := history[end];
      ReplyMark(reply);
      ReplyIdsOfLonger(replies, reply);
      replies := replies + [reply];
      if reply.toolCallId.Named() {
        OneMoreId(replyIds, reply.toolCallId.text);
        replyIds := replyIds + [reply.toolCallId.text];
      }
      end := end + 1;
    }
    if end < |history| {
      ReplyMark(history[end]);
    }
    LeadingRepliesEnd(ms, index + 1, end);
    matches := |replies| == |ids| && |replyIds| == |replies| && (set s | s in replyIds) == ids;
  }

  lemma ExchangeKept(part: seq<Item>, ids: set<string>)
    requires part != [] && MarkOf(part[0]).kind == Request(ids) && forall k | 1 <= k < |part| :: MarkOf(part[k]).reply
    ensures Kept(part) == if RepliesMatch(part[1..], ids) then part else []
  {
    hide ValidRun, RepliesMatch, MarkOf;
    assert !IsReplay(part) && !IsMessage(part);
  }

  lemma LoneItemKept(item: Item)
    requires MarkOf(item).kind.Control? || MarkOf(item).kind.Ordinary?
    ensures Kept([item]) == if MarkOf(item).kind.Control? || MarkOf(item).reply then [] else [item]
  {
    hide ValidRun, MarkOf, RepliesMatch;
    assert [item][0] == item;
    assert !IsReplay([item]) && !IsToolExchange([item]);
  }

  // The group that starts at index.
  method NextGroup(history: seq<Item>, index: nat, ghost ms: seq<Mark>) returns (group: Group)
    requires ms == Marks(history) && index < |history|
    ensures group.start == index && group.end == index + FirstPart(ms[index..]) <= |history|
    ensures group.items == Kept(history[index..group.end])
  {
    hide Kept, IsProtocolItem, IsInputOnly, AssistantToolCallIds, RepliesMatch;
    var item := history[index];
    assert ms[index..][0] == MarkOf(item) && ms[index..][1..] == ms[index + 1..];
    assert history[index..index + 1] == [item];
    if IsProtocolItem(item) {
      group := ResponseRunGroup(history, index, ms);
    } else if IsInputOnly(item) {
      LoneItemKept(item);
      group := Group([], index, index + 1);
    } else {
      var ids := AssistantToolCallIds(item);
      if ids.Some? {
        var matches, end := CollectReplies(history, index, ids.value, ms);
        ghost var part := history[index..end];
        assert part[1..] == history[index + 1..end];
        ExchangeKept(part, ids.value);
        group := Group(if matches then history[index..end] else [], index, end);
      } else {
        LoneItemKept(item);
        group := Group(if item.role == Tool then [] else [item], index, index + 1);
      }
    }
  }

  // Where the loop stands: the parts before index are grouped, those after it are still to come.
  ghost predicate Progress(h: seq<Item>, ms: seq<Mark>, index: nat, groups: seq<Group>, found: seq<seq<Item>>) {
    && index <= |h| == |ms|
    && Cut(h, ms) == found + Cut(h[index..], ms[index..])
    && Placed(groups, found, 0)
    && Judged(groups, found)
    && index == if groups == [] then 0 else groups[|groups| - 1].end
  }

  lemma {:induction false} CutProgress(h: seq<Item>, ms: seq<Mark>, index: nat, found: seq<seq<Item>>)
    requires index < |h| == |ms| && Cut(h, ms) == found + Cut(h[index..], ms[index..])
    ensures var end := index + FirstPart(ms[index..]);
            Cut(h, ms) == (found + [h[index..end]]) + Cut(h[end..], ms[end..])
  {
    var end := index + FirstPart(ms[index..]);
    var part, rest := h[index..end], Cut(h[end..], ms[end..]);
    CutStep(h, ms, index);
    assert found + ([part] + rest) == (found + [part]) + rest;
  }

  lemma ProgressStep(
      h: seq<Item>, ms: seq<Mark>, index: nat, groups: seq<Group>, found: seq<seq<Item>>, g: Group)
    requires Progress(h, ms, index, groups, found) && index < |h|
    requires g.start == index && g.end == index + FirstPart(ms[index..]) <= |h|
    requires g.items == Kept(h[index..g.end])
    ensures Progress(h, ms, g.end, groups + [g], found + [h[index..g.end]])
  {
    hide Kept, Placed, Judged, Cut, FirstPart;
    var part := h[index..g.end];
    CutProgress(h, ms, index, found);
    PlacedAppend(groups, found, 0, g, part);
    JudgedAppend(groups, found, g, part);
  }

  lemma {:induction false} ProgressDone(h: seq<Item>, ms: seq<Mark>, groups: seq<Group>, found: seq<seq<Item>>)
    requires Progress(h, ms, |h|, groups, found)
    ensures groups == GroupsAt(Cut(h, ms), KeptOf(Cut(h, ms)), 0)
  {
    assert h[|h|..] == [];
    assert found + [] == found;
    GroupsDetermined(groups, found, KeptOf(found), 0);
  }

  /** The loop over the history finds the parts, keeps the complete ones and records where each stands. */
  method GroupHistory(history: seq<Item>) returns (groups: seq<Group>)
    ensures groups == GroupsOf(history)
  {
    groups := [];
    ghost var ms := Marks(history);
    ghost var found: seq<seq<Item>> := [];
    var index := 0;
    assert history[0..] == history && ms[0..] == ms;
    while index < |history|
      invariant index <= |history|
      invariant Progress(history, ms, index, groups, found)
      decreases |history| - index
    {
      var group := NextGroup(history, index, ms);
      ProgressStep(history, ms, index, groups, found, group);
      groups, found := groups + [group], found + [history[index..group.end]];
      index := group.end;
    }
    ProgressDone(history, ms, groups, found);
  }

  lemma CutStep(h: seq<Item>, ms: seq<Mark>, n: nat)
    requires n < |h| == |ms|
    ensures var end := n + FirstPart(ms[n..]);
            Cut(h[n..], ms[n..]) == [h[n..end]] + Cut(h[end..], ms[end..])
  {
    var size := FirstPart(ms[n..]);
    assert h[n..][..size] == h[n..n + size];
    assert h[n..][size..] == h[n + size..] && ms[n..][size..] == ms[n + size..];
  }

  /* What the groups guarantee */

  // From n on the groups follow each other without gap or overlap up to the end of h.
  ghost predicate Partition(groups: seq<Group>, h: seq<Item>, n: nat) {
    if groups == [] then n == |h|
    else
      && groups[0].start == n < groups[0].end <= |h|
      && (groups[0].items == [] || groups[0].items == h[n..groups[0].end])
      && Partition(groups[1..], h, groups[0].end)
  }

  lemma {:induction false} GroupsAtPartition(parts: seq<seq<Item>>, kept: seq<seq<Item>>, h: seq<Item>, n: nat)
    requires |kept| == |parts| && n <= |h| && h[n..] == Flatten(parts)
    requires forall k | 0 <= k < |parts| :: parts[k] != [] && (kept[k] == [] || kept[k] == parts[k])
    ensures Partition(GroupsAt(parts, kept, n), h, n)
    decreases |parts|
  {
    if parts != [] {
      var m := n + |parts[0]|;
      assert h[n..][..|parts[0]|] == parts[0] && h[n..][|parts[0]|..] == Flatten(parts[1..]);
      assert h[n..m] == parts[0] && h[m..] == Flatten(parts[1..]);
      GroupsAtPartition(parts[1..], kept[1..], h, m);
    }
  }

  /** The groups' positions partition the history in order, and each group holds all of its stretch or nothing. */
  lemma {:induction false} GroupsPartitionHistory(h: seq<Item>)
    ensures Partition(GroupsOf(h), h, 0)
  {
    CutCovers(h, Marks(h));
    assert h[0..] == h;
    GroupsAtPartition(Parts(h), KeptOf(Parts(h)), h, 0);
  }

  // The output closes the call: they have the same pair, or they are an anonymous search and an anonymous output. An
  // output with neither closes nothing.
  predicate Closes(call: Item, output: Item) {
    if IsAnonymousOutput(output) then IsAnonymousCall(call)
    else OutputPair(output).Some? && CallPair(call) == OutputPair(output)
  }

  // If position j holds an output, an earlier position holds a call that it closes.
  ghost predicate HasCallBefore(items: seq<Item>, j: nat)
    requires j < |items|
  {
    OutputKind(items[j]).Some? ==> exists i :: 0 <= i < j && Closes(items[i], items[j])
  }

  // A chat tool result comes after the request that declares its id.
  ghost predicate HasRequestBefore(items: seq<Item>, j: nat)
    requires j < |items|
  {
    MarkOf(items[j]).reply && !MarkOf(items[j]).kind.InRun? ==>
      exists i :: 0 <= i < j && Declares(items[i], items[j].toolCallId)
  }

  predicate Declares(item: Item, id: Value) {
    id.Named() && AssistantToolCallIds(item).Some? && id.text in AssistantToolCallIds(item).value
  }

  lemma OutputShape(item: Item)
    ensures OutputKind(item).Some? ==> MarkOf(item).kind.InRun?
    ensures OutputKind(item).Some? && !ShapeOf(item).Malformed? ==>
              ShapeOf(item) == if IsAnonymousOutput(item) then AnonOutput
                               else if OutputPair(item).Some? then IdOutput(OutputPair(item).value)
                               else Malformed
  {
  }

  lemma CallShape(item: Item)
    ensures ShapeOf(item).IdCall? ==> CallPair(item) == Some(ShapeOf(item).pair)
    ensures ShapeOf(item).AnonCall? ==> IsAnonymousCall(item)
  {
  }

  lemma OutputHasCall(g: seq<Node>, j: int, p: Pair) returns (i: nat)
    requires ValidGraph(g) && OutputAt(g, j, p)
    ensures i < j && CallAt(g, i, p)
  {
    if p.kind == Program {
      i :| i < j && CallAt(g, i, p);
    } else {
      i :| IdEdge(g, i, j);
    }
  }

  // An anonymous output has an anonymous search before it, whether or not there are others.
  lemma AnonymousOutputHasCall(g: seq<Node>, j: nat) returns (i: nat)
    requires AnonymousOk(g) && j < |g| && g[j].shape.AnonOutput?
    ensures i < j && g[i].shape.AnonCall?
  {
    if AnonCalls(g) == 1 {
      i := SomeAnonCall(g);
    } else {
      i := BalancedMatchesOutputs(g, j);
    }
  }

  lemma NodeHasCall(g: seq<Node>, j: nat) returns (i: nat)
    requires ValidGraph(g) && j < |g| && (g[j].shape.IdOutput? || g[j].shape.AnonOutput?)
    ensures i < j
    ensures if g[j].shape.AnonOutput? then g[i].shape.AnonCall? else g[i].shape == IdCall(g[j].shape.pair)
  {
    if g[j].shape.AnonOutput? {
      i := AnonymousOutputHasCall(g, j);
    } else {
      assert OutputAt(g, j, g[j].shape.pair);
      i := OutputHasCall(g, j, g[j].shape.pair);
    }
  }

  lemma RunIsShaped(part: seq<Item>, j: nat)
    requires ValidRun(part) && j < |part|
    ensures !ShapeOf(part[j]).Malformed?
  {
    assert Graph(part)[j] == View(part[j]);
  }

  lemma RunHasNoOrphan(part: seq<Item>, j: nat)
    requires ValidRun(part) && j < |part|
    ensures HasCallBefore(part, j)
  {
    hide ValidGraph, ShapeOf;
    var g := Graph(part);
    RunIsShaped(part, j);
    OutputShape(part[j]);
    if OutputKind(part[j]).Some? {
      assert g[j] == View(part[j]);
      var i := NodeHasCall(g, j);
      assert g[i] == View(part[i]);
      CallShape(part[i]);
      assert Closes(part[i], part[j]);
    }
  }

  lemma ExchangeHasNoOrphan(part: seq<Item>, j: nat)
    requires IsToolExchange(part) && j < |part| && Unambiguous(part)
    ensures HasRequestBefore(part, j)
  {
    if j > 0 {
      assert part[1..][j - 1] == part[j];
      assert part[j].toolCallId.text in ReplyIds(part[1..]);
      assert Declares(part[0], part[j].toolCallId);
    }
  }

  // No item is both a chat tool result and a replay item.
  predicate Unambiguous(items: seq<Item>) {
    forall k | 0 <= k < |items| :: !(MarkOf(items[k]).reply && MarkOf(items[k]).kind.InRun?)
  }

  ghost predicate AllComplete(parts: seq<seq<Item>>) {
    forall k | 0 <= k < |parts| :: Complete(parts[k])
  }

  ghost predicate AllUnambiguous(parts: seq<seq<Item>>) {
    forall k | 0 <= k < |parts| :: Unambiguous(parts[k])
  }

  // Every output has its call, and every tool result its request.
  ghost predicate NoOrphanIn(items: seq<Item>) {
    forall j | 0 <= j < |items| :: HasCallBefore(items, j) && HasRequestBefore(items, j)
  }

  lemma CompletePartHasNoOrphan(part: seq<Item>)
    requires Complete(part) && Unambiguous(part)
    ensures NoOrphanIn(part)
  {
    forall j | 0 <= j < |part|
      ensures HasCallBefore(part, j) && HasRequestBefore(part, j)
    {
      OutputShape(part[j]);
      if IsRun(part) {
        RunHasNoOrphan(part, j);
        assert MarkOf(part[j]).kind.InRun?;
      } else if IsToolExchange(part) {
        ExchangeHasNoOrphan(part, j);
      }
    }
  }

  lemma NoOrphanLater(first: seq<Item>, rest: seq<Item>, k: nat)
    requires k < |rest| && HasCallBefore(rest, k) && HasRequestBefore(rest, k)
    ensures HasCallBefore(first + rest, |first| + k) && HasRequestBefore(first + rest, |first| + k)
  {
    var all, n := first + rest, |first|;
    assert all[n + k] == rest[k];
    if OutputKind(rest[k]).Some? {
      var i :| 0 <= i < k && Closes(rest[i], rest[k]);
      assert all[n + i] == rest[i];
    }
    if MarkOf(rest[k]).reply && !MarkOf(rest[k]).kind.InRun? {
      var i :| 0 <= i < k && Declares(rest[i], rest[k].toolCallId);
      assert all[n + i] == rest[i];
    }
  }

  lemma NoOrphanEarlier(first: seq<Item>, rest: seq<Item>, j: nat)
    requires j < |first| && HasCallBefore(first, j) && HasRequestBefore(first, j)
    ensures HasCallBefore(first + rest, j) && HasRequestBefore(first + rest, j)
  {
    var all := first + rest;
    assert all[j] == first[j];
    if OutputKind(first[j]).Some? {
      var i :| 0 <= i < j && Closes(first[i], first[j]);
      assert all[i] == first[i];
    }
    if MarkOf(first[j]).reply && !MarkOf(first[j]).kind.InRun? {
      var i :| 0 <= i < j && Declares(first[i], first[j].toolCallId);
      assert all[i] == first[i];
    }
  }

  lemma {:induction false} NoOrphanInFlatten(parts: seq<seq<Item>>)
    requires forall k | 0 <= k < |parts| :: NoOrphanIn(parts[k])
    ensures NoOrphanIn(Flatten(parts))
  {
    if parts != [] {
      var first, rest := parts[0], Flatten(parts[1..]);
      NoOrphanInFlatten(parts[1..]);
      forall j | 0 <= j < |first + rest|
        ensures HasCallBefore(first + rest, j) && HasRequestBefore(first + rest, j)
      {
        if j < |first| {
          NoOrphanEarlier(first, rest, j);
        } else {
          NoOrphanLater(first, rest, j - |first|);
        }
      }
    }
  }

  /** Whatever complete parts are kept, no output appears without its call and no tool result without its request. */
  lemma {:induction false} NoOrphans(parts: seq<seq<Item>>)
    requires AllComplete(parts) && AllUnambiguous(parts)
    ensures NoOrphanIn(Flatten(parts))
  {
    forall k | 0 <= k < |parts|
      ensures NoOrphanIn(parts[k])
    {
      CompletePartHasNoOrphan(parts[k]);
    }
    NoOrphanInFlatten(parts);
  }
}
