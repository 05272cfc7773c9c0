/** Where history is cut into the parts that are kept or dropped together, and which parts are complete. */
module HistoryParts {
  import opened Options
  import opened ResponseItems
  import opened RunGraph
  import opened RunLists

  // The ids a tool request declares: None for a normal message, the empty set for a malformed request.
  function AssistantToolCallIds(item: Item): Option<set<string>> {
    if item.role != Assistant then None
    else
      match item.toolCalls
      case NoToolCalls => None
      case NotAList => Some({})
      case ToolCalls(ids) =>
        if ids == [] then None
        else if (forall k | 0 <= k < |ids| :: ids[k].Named()) && (forall k, l | 0 <= k < l < |ids| :: ids[k] != ids[l])
        then Some(set k | 0 <= k < |ids| :: ids[k].text)
        else Some({})
  }

  datatype Kind = InRun | Control | Request(ids: set<string>) | Ordinary

  // What the cuts depend on, for one item.
  datatype Mark = Mark(kind: Kind, reply: bool)

  function MarkOf(item: Item): Mark {
    Mark(if IsProtocolItem(item) then InRun
         else if IsInputOnly(item) then Control
         else match AssistantToolCallIds(item) case Some(ids) => Request(ids) case None => Ordinary,
         item.role == Tool)
  }

  function Marks(h: seq<Item>): (ms: seq<Mark>)
    ensures |ms| == |h|
    ensures forall k | 0 <= k < |ms| :: ms[k] == MarkOf(h[k])
  {
    seq(|h|, k requires 0 <= k < |h| => MarkOf(h[k]))
  }

  /* The cuts */

  function LeadingRun(ms: seq<Mark>): (n: nat)
    ensures n <= |ms|
    ensures forall k | 0 <= k < n :: ms[k].kind.InRun?
    ensures n < |ms| ==> !ms[n].kind.InRun?
  {
    if ms == [] || !ms[0].kind.InRun? then 0 else 1 + LeadingRun(ms[1..])
  }

  function LeadingReplies(ms: seq<Mark>): (n: nat)
    ensures n <= |ms|
    ensures forall k | 0 <= k < n :: ms[k].reply
    ensures n < |ms| ==> !ms[n].reply
  {
    if ms == [] || !ms[0].reply then 0 else 1 + LeadingReplies(ms[1..])
  }

  // A maximal run, a request with all that reply after it, or a single item.
  function FirstPart(ms: seq<Mark>): (n: nat)
    requires ms != []
    ensures 1 <= n <= |ms|
  {
    match ms[0].kind
    case InRun => LeadingRun(ms)
    case Control => 1
    case Request(_) => 1 + LeadingReplies(ms[1..])
    case Ordinary => 1
  }

  function Cut(h: seq<Item>, ms: seq<Mark>): seq<seq<Item>>
    requires |h| == |ms|
  {
    if h == [] then [] else [h[..FirstPart(ms)]] + Cut(h[FirstPart(ms)..], ms[FirstPart(ms)..])
  }

  function Parts(h: seq<Item>): seq<seq<Item>> {
    Cut(h, Marks(h))
  }

  /** Nothing is lost or moved by the cuts. */
  lemma {:induction false} CutCovers(h: seq<Item>, ms: seq<Mark>)
    requires |h| == |ms|
    ensures Flatten(Cut(h, ms)) == h
    ensures forall k | 0 <= k < |Cut(h, ms)| :: Cut(h, ms)[k] != []
  {
    if h != [] {
      var n := FirstPart(ms);
      CutCovers(h[n..], ms[n..]);
      assert h == h[..n] + h[n..];
    }
  }

  /* Complete parts */

  function ReplyIds(replies: seq<Item>): set<string> {
    set k | 0 <= k < |replies| && replies[k].toolCallId.Named() :: replies[k].toolCallId.text
  }

  lemma ReplyIdsOfLonger(replies: seq<Item>, reply: Item)
    ensures ReplyIds(replies + [reply]) ==
            ReplyIds(replies) + if reply.toolCallId.Named() then {reply.toolCallId.text} else {}
    ensures (forall k | 0 <= k < |replies + [reply]| :: (replies + [reply])[k].toolCallId.Named()) <==>
            (forall k | 0 <= k < |replies| :: replies[k].toolCallId.Named()) && reply.toolCallId.Named()
  {
    var longer := replies + [reply];
    assert longer[|replies|] == reply && forall k | 0 <= k < |replies| :: longer[k] == replies[k];
  }

  // As many replies as declared ids, all with an id, and together the same ids.
  predicate RepliesMatch(replies: seq<Item>, ids: set<string>) {
    && |replies| == |ids|
    && (forall k | 0 <= k < |replies| :: replies[k].toolCallId.Named())
    && ReplyIds(replies) == ids
  }

  // Replay items only, whether or not they are a valid run.
  predicate IsReplay(part: seq<Item>) {
    part != [] && forall k | 0 <= k < |part| :: MarkOf(part[k]).kind.InRun?
  }

  ghost predicate IsRun(part: seq<Item>) {
    IsReplay(part) && ValidRun(part)
  }

  predicate IsToolExchange(part: seq<Item>) {
    && part != []
    && MarkOf(part[0]).kind.Request?
    && (forall k | 1 <= k < |part| :: MarkOf(part[k]).reply)
    && RepliesMatch(part[1..], MarkOf(part[0]).kind.ids)
  }

  predicate IsMessage(part: seq<Item>) {
    |part| == 1 && MarkOf(part[0]) == Mark(Ordinary, false)
  }

  ghost predicate Complete(part: seq<Item>) {
    IsRun(part) || IsToolExchange(part) || IsMessage(part)
  }

  // The shape of a complete part, without the validity of runs.
  predicate IsWhole(part: seq<Item>) {
    IsReplay(part) || IsToolExchange(part) || IsMessage(part)
  }

  // What of a part may be kept: all of it or nothing.
  ghost function Kept(part: seq<Item>): seq<Item> {
    if Complete(part) then part else []
  }

  lemma {:induction false} IdsAtMost(replies: seq<Item>)
    ensures |ReplyIds(replies)| <= |replies|
  {
    if replies != [] {
      var n := |replies| - 1;
      IdsAtMost(replies[..n]);
      ReplyIdsOfLonger(replies[..n], replies[n]);
      assert replies[..n] + [replies[n]] == replies;
    }
  }

  lemma RepeatedReplyWastesOne(replies: seq<Item>, k: nat, l: nat)
    requires k < l < |replies| && replies[k].toolCallId == replies[l].toolCallId
    ensures |ReplyIds(replies)| < |replies|
  {
    var others := replies[..l] + replies[l + 1..];
    IdsAtMost(others);
    assert ReplyIds(replies) == ReplyIds(others) by {
      forall m | 0 <= m < |replies| && replies[m].toolCallId.Named()
        ensures replies[m].toolCallId.text in ReplyIds(others)
      {
        var m' := if m < l then m else if m == l then k else m - 1;
        assert others[m'].toolCallId == replies[m].toolCallId;
      }
      assert forall m | 0 <= m < |others| :: others[m] == replies[if m < l then m else m + 1];
    }
  }

  /** Replies that match answer each declared id exactly once. */
  lemma OneReplyPerId(replies: seq<Item>, ids: set<string>)
    requires RepliesMatch(replies, ids)
    ensures forall k, l | 0 <= k < l < |replies| :: replies[k].toolCallId != replies[l].toolCallId
    ensures forall id | id in ids :: exists k :: 0 <= k < |replies| && replies[k].toolCallId == Text(id)
  {
    forall k, l | 0 <= k < l < |replies|
      ensures replies[k].toolCallId != replies[l].toolCallId
    {
      if replies[k].toolCallId == replies[l].toolCallId {
        RepeatedReplyWastesOne(replies, k, l);
      }
    }
    forall id | id in ids
      ensures exists k :: 0 <= k < |replies| && replies[k].toolCallId == Text(id)
    {
      assert id in ReplyIds(replies);
    }
  }
}
