/** What grouping keeps of a history, in the fields of its items. */
module GroupMeaning {
  import opened Options
  import opened ResponseItems
  import opened RunGraph
  import opened HistoryParts
  import opened HistoryGroups
  import opened HistoryRegrouping
  import opened TailDependency
  import opened RunMeaning
  import opened SmallRuns

  // What is replayed as it stands: reasoning, calls, outputs, what stands alone, and all that names a program.
  predicate IsReplayItem(item: Item) {
    item.typ == Reasoning || IsCall(item) || item.typ.Output? || StandsAlone(item) || !Unowned(item)
  }

  predicate IsControl(item: Item) {
    !IsReplayItem(item) && (item.typ == CompactionTrigger || item.typ == ItemReference)
  }

  // A chat message that asks for tools: at least one call, each with an id of its own.
  predicate AsksForTools(item: Item) {
    && item.role == Assistant && item.toolCalls.ToolCalls? && item.toolCalls.ids != []
    && (forall k | 0 <= k < |item.toolCalls.ids| :: item.toolCalls.ids[k].Text? && item.toolCalls.ids[k].text != "")
    && (forall k, l | 0 <= k < l < |item.toolCalls.ids| :: item.toolCalls.ids[k] != item.toolCalls.ids[l])
  }

  // A tool_calls field that asks for something, but not in such a way.
  predicate AsksAmiss(item: Item) {
    && item.role == Assistant && !AsksForTools(item)
    && (item.toolCalls.NotAList? || (item.toolCalls.ToolCalls? && item.toolCalls.ids != []))
  }

  // As many results as ids, and one for each.
  ghost predicate AnswerEach(ids: seq<Value>, replies: seq<Item>) {
    && |replies| == |ids|
    && forall k | 0 <= k < |ids| :: exists l :: 0 <= l < |replies| && replies[l].toolCallId == ids[k]
  }

  lemma ReplayMeans(item: Item)
    ensures MarkOf(item).kind.InRun? <==> IsReplayItem(item)
    ensures MarkOf(item).kind.Control? <==> IsControl(item)
    ensures MarkOf(item).reply <==> item.role == Tool
  {
    EmittedMeans(item);
    OwnerNames(item, "");
    OpaqueMeans(item);
  }

  lemma OpaqueMeans(item: Item)
    ensures IsOpaque(item) ==> StandsAlone(item)
    ensures StandsAlone(item) ==> IsOpaque(item)
  {
  }

  lemma RequestMeans(item: Item)
    requires !IsReplayItem(item) && !IsControl(item)
    ensures MarkOf(item).kind.Request? <==> AsksForTools(item) || AsksAmiss(item)
    ensures MarkOf(item).kind == Request({}) <==> AsksAmiss(item)
    ensures AsksForTools(item) ==> MarkOf(item).kind == Request(IdTexts(item.toolCalls.ids))
  {
    hide IsProtocolItem, IsReplayItem;
    ReplayMeans(item);
    IdsMeans(item);
  }

  function IdTexts(ids: seq<Value>): set<string> {
    set k | 0 <= k < |ids| && ids[k].Text? :: ids[k].text
  }

  lemma IdsMeans(item: Item)
    ensures AssistantToolCallIds(item).Some? <==> AsksForTools(item) || AsksAmiss(item)
    ensures AsksAmiss(item) ==> AssistantToolCallIds(item) == Some({})
    ensures AsksForTools(item) ==>
              AssistantToolCallIds(item) == Some(IdTexts(item.toolCalls.ids)) && IdTexts(item.toolCalls.ids) != {}
  {
    if AsksForTools(item) {
      assert item.toolCalls.ids[0].text in IdTexts(item.toolCalls.ids);
      assert IdTexts(item.toolCalls.ids) ==
             set k | 0 <= k < |item.toolCalls.ids| :: item.toolCalls.ids[k].text;
    }
  }

  lemma {:induction false} DistinctCount(ids: seq<Value>)
    requires forall k | 0 <= k < |ids| :: ids[k].Text?
    requires forall k, l | 0 <= k < l < |ids| :: ids[k] != ids[l]
    ensures |IdTexts(ids)| == |ids|
  {
    if ids != [] {
      var n := |ids| - 1;
      DistinctCount(ids[..n]);
      assert IdTexts(ids) == IdTexts(ids[..n]) + {ids[n].text};
      assert ids[n].text !in IdTexts(ids[..n]);
    }
  }

  /** Results match the declared ids exactly if they answer each of them. */
  lemma MatchMeans(ids: seq<Value>, replies: seq<Item>)
    requires forall k | 0 <= k < |ids| :: ids[k].Text? && ids[k].text != ""
    requires forall k, l | 0 <= k < l < |ids| :: ids[k] != ids[l]
    ensures RepliesMatch(replies, IdTexts(ids)) <==> AnswerEach(ids, replies)
  {
    DistinctCount(ids);
    if RepliesMatch(replies, IdTexts(ids)) {
      forall k | 0 <= k < |ids|
        ensures exists l :: 0 <= l < |replies| && replies[l].toolCallId == ids[k]
      {
        assert ids[k].text in ReplyIds(replies);
      }
    }
    if AnswerEach(ids, replies) {
      EachIsAnswered(ids, replies);
    }
  }

  lemma EachIsAnswered(ids: seq<Value>, replies: seq<Item>)
    requires forall k | 0 <= k < |ids| :: ids[k].Text? && ids[k].text != ""
    requires AnswerEach(ids, replies) && |IdTexts(ids)| == |ids|
    ensures RepliesMatch(replies, IdTexts(ids))
  {
    forall id | id in IdTexts(ids)
      ensures id in ReplyIds(replies)
    {
      var k :| 0 <= k < |ids| && ids[k].text == id;
      var l :| 0 <= l < |replies| && replies[l].toolCallId == ids[k];
      assert replies[l].toolCallId.text in ReplyIds(replies);
    }
    IdsAtMost(replies);
    FullSubset(IdTexts(ids), ReplyIds(replies));
    forall k | 0 <= k < |replies|
      ensures replies[k].toolCallId.Named()
    {
      NamelessReply(replies, k);
    }
  }

  lemma FullSubset(a: set<string>, b: set<string>)
    requires a <= b && |b| <= |a|
    ensures a == b
  {
    assert b == a + (b - a);
    assert |b| == |a| + |b - a|;
  }

  // A reply without an id leaves fewer ids than replies.
  lemma NamelessReply(replies: seq<Item>, k: nat)
    requires k < |replies|
    ensures !replies[k].toolCallId.Named() ==> |ReplyIds(replies)| < |replies|
  {
    if replies[k].toolCallId.Named() {
      return;
    }
    var others := replies[..k] + replies[k + 1..];
    IdsAtMost(others);
    assert ReplyIds(replies) == ReplyIds(others) by {
      forall m | 0 <= m < |replies| && replies[m].toolCallId.Named()
        ensures replies[m].toolCallId.text in ReplyIds(others)
      {
        assert others[if m < k then m else m - 1] == replies[m];
      }
      assert forall m | 0 <= m < |others| :: others[m] == replies[if m < k then m else m + 1];
    }
  }

  /** Of a history of one item, that item is kept exactly if it stands alone and nobody owns it, or it is a chat message
      that is neither a tool result nor asks for tools. One that asks amiss is kept. */
  lemma LoneItemIsKept(item: Item)
    ensures GroupsOf([item]) == [Group(Kept([item]), 0, 1)]
    ensures Kept([item]) == [item] <==>
            if IsReplayItem(item) then StandsAlone(item) && Unowned(item)
            else !IsControl(item) && item.role != Tool && !AsksForTools(item)
  {
    hide ValidRun, IsReplayItem, IsControl, StandsAlone, Unowned, AsksForTools, MarkOf;
    LonePart(item);
    ReplayMeans(item);
    LoneRun(item);
    if IsReplayItem(item) {
      RunKept([item]);
    } else if !IsControl(item) {
      RequestMeans(item);
      LoneChat(item);
    } else {
      LoneItemKept(item);
    }
  }

  lemma LonePart(item: Item)
    ensures Parts([item]) == [[item]] && GroupsOf([item]) == [Group(Kept([item]), 0, 1)]
  {
    hide MarkOf, Kept;
    var h := [item];
    var ms := Marks(h);
    assert ms[1..] == [] && FirstPart(ms) == 1;
    assert h + [] == h && Parts([]) == [];
    CutAfter(h, []);
    var parts, kept := [h], KeptOf([h]);
    assert Parts(h) == parts;
    assert kept[0] == Kept(h) && parts[1..] == [] && kept[1..] == [];
    assert GroupsAt([], [], 1) == [];
  }

  lemma LoneChat(item: Item)
    requires !MarkOf(item).kind.InRun? && !MarkOf(item).kind.Control?
    ensures Kept([item]) == [item] <==>
            if MarkOf(item).kind.Request? then MarkOf(item).kind == Request({}) else !MarkOf(item).reply
  {
    hide MarkOf, ValidRun;
    assert [item][0] == item && [item][1..] == [];
    assert !IsReplay([item]);
    assert forall part: seq<Item> | part == [] :: ReplyIds(part) == {};
  }

  /** A chat message and tool results directly after it are kept exactly if it asks for tools and they answer each call.
      */
  lemma ExchangeIsKept(request: Item, replies: seq<Item>)
    requires !IsReplayItem(request) && !IsControl(request) && replies != []
    requires forall k | 0 <= k < |replies| :: replies[k].role == Tool
    ensures Kept([request] + replies) == [request] + replies <==>
            AsksForTools(request) && AnswerEach(request.toolCalls.ids, replies)
    ensures AsksForTools(request) ==> Parts([request] + replies) == [[request] + replies]
  {
    hide ValidRun, IsReplayItem, IsControl, MarkOf, RepliesMatch;
    var part := [request] + replies;
    assert part[0] == request && part[1..] == replies;
    RequestMeans(request);
    ReplayMeans(request);
    forall k | 0 <= k < |replies|
      ensures MarkOf(replies[k]).reply
    {
      ReplayMeans(replies[k]);
    }
    assert !IsReplay(part) && !IsMessage(part);
    assert IsToolExchange(part) <==> MarkOf(request).kind.Request? && RepliesMatch(replies, MarkOf(request).kind.ids);
    if AsksForTools(request) {
      MatchMeans(request.toolCalls.ids, replies);
      RequestIsCut(request, replies);
    } else if AsksAmiss(request) {
      SomeReplies(replies);
    }
  }

  lemma SomeReplies(replies: seq<Item>)
    requires replies != []
    ensures !RepliesMatch(replies, {})
  {
  }

  lemma RequestIsCut(request: Item, replies: seq<Item>)
    requires MarkOf(request).kind.Request? && forall k | 0 <= k < |replies| :: MarkOf(replies[k]).reply
    ensures Parts([request] + replies) == [[request] + replies]
  {
    hide MarkOf;
    var part := [request] + replies;
    var ms := Marks(part);
    assert ms[0] == MarkOf(request);
    LeadingRepliesEnd(ms, 1, |part|);
    assert part + [] == part;
    CutAfter(part, []);
    assert Parts([]) == [];
  }

  /** A request with two calls of one id is amiss: one result for them makes no exchange. */
  lemma RepeatedIdIsAmiss(request: Item, reply: Item)
    requires !IsReplayItem(request) && !IsControl(request) && request.role == Assistant
    requires request.toolCalls == ToolCalls([Text("a"), Text("a")])
    requires reply.role == Tool && reply.toolCallId == Text("a")
    ensures Kept([request, reply]) != [request, reply]
  {
    hide Kept, IsReplayItem, IsControl;
    assert [request] + [reply] == [request, reply];
    assert request.toolCalls.ids[0] == request.toolCalls.ids[1];
    ExchangeIsKept(request, [reply]);
  }

  /** Tool results in front of the final input are let through exactly if the last item of the history asks for tools
      and they answer each call. */
  lemma {:induction false} ToolTailMeans(history: seq<Item>, tail: seq<Item>)
    ensures AnswersLastRequest(history, tail) <==>
            && history != []
            && var request := history[|history| - 1];
            && AsksForTools(request)
            && AnswerEach(request.toolCalls.ids, tail[..LeadingToolResults(tail)])
  {
    hide RepliesMatch, AnswerEach;
    if history != [] {
      var request := history[|history| - 1];
      IdsMeans(request);
      if AsksForTools(request) {
        MatchMeans(request.toolCalls.ids, tail[..LeadingToolResults(tail)]);
      }
    }
  }

  /** An output closes a call exactly if it repeats the id the call of its kind goes by, or both are bare searches. */
  lemma ClosesMeans(call: Item, output: Item)
    requires output.typ.Output?
    ensures Closes(call, output) <==>
            if IsBareSearch(output, Output(ToolSearch)) then IsBareSearch(call, Call(ToolSearch))
            else exists id :: DeclaresId(call, output.typ.kind, id) && RepeatsId(output, output.typ.kind, id)
  {
    if !IsBareSearch(output, Output(ToolSearch)) && Closes(call, output) {
      var id := OutputPair(output).value.id;
      assert DeclaresId(call, output.typ.kind, id) && RepeatsId(output, output.typ.kind, id);
    }
  }

  /** Of complete parts joined, every output has before it the call of its kind that goes by the id it repeats, or a
      bare search if it is a bare search output. */
  lemma OutputsHaveCalls(items: seq<Item>, j: nat) returns (i: nat, id: string)
    requires NoOrphanIn(items) && j < |items| && items[j].typ.Output?
    ensures i < j && BelongTogether(items[i], items[j], id)
  {
    hide Closes;
    assert HasCallBefore(items, j);
    i :| 0 <= i < j && Closes(items[i], items[j]);
    ClosesMeans(items[i], items[j]);
    id := "";
    if !IsBareSearch(items[j], Output(ToolSearch)) {
      id :| DeclaresId(items[i], items[j].typ.kind, id) && RepeatsId(items[j], items[j].typ.kind, id);
    }
  }

  lemma DeclaresMeans(item: Item, id: Value)
    ensures Declares(item, id) <==>
            AsksForTools(item) && exists k :: 0 <= k < |item.toolCalls.ids| && item.toolCalls.ids[k] == id
  {
    hide AsksForTools;
    IdsMeans(item);
    if AsksForTools(item) {
      IdAmong(item.toolCalls.ids, id);
    }
  }

  lemma IdAmong(ids: seq<Value>, id: Value)
    requires forall k | 0 <= k < |ids| :: ids[k].Text? && ids[k].text != ""
    ensures id.Named() && id.text in IdTexts(ids) <==> exists k :: 0 <= k < |ids| && ids[k] == id
  {
    if id.Named() && id.text in IdTexts(ids) {
      var k :| 0 <= k < |ids| && ids[k].Text? && ids[k].text == id.text;
      assert ids[k] == id;
    }
  }

  /** And every tool result that is no replay item has before it a message that asks for tools and declares its id. */
  lemma ResultsHaveRequests(items: seq<Item>, j: nat) returns (i: nat, k: nat)
    requires NoOrphanIn(items) && j < |items| && items[j].role == Tool && !IsReplayItem(items[j])
    ensures i < j && AsksForTools(items[i])
    ensures k < |items[i].toolCalls.ids| && items[i].toolCalls.ids[k] == items[j].toolCallId
  {
    hide Declares, MarkOf, IsReplayItem;
    ReplayMeans(items[j]);
    assert HasRequestBefore(items, j);
    i :| 0 <= i < j && Declares(items[i], items[j].toolCallId);
    DeclaresMeans(items[i], items[j].toolCallId);
    var n :| 0 <= n < |items[i].toolCalls.ids| && items[i].toolCalls.ids[n] == items[j].toolCallId;
    k := n;
  }
}
