/** What an agent's working memory is made of: hot items, entries of the manifest, documents of the cold store. */
module MemoryItems {
  import opened Options

  // An id drawn from the process-wide counter, or any other one (it can only come from an imported snapshot).
  datatype Id = Made(n: nat) | Foreign(name: string)

  type Vector = seq<real>

  datatype Item = Item(
    id: Id,
    kind: string,
    text: string,
    step: nat,
    tokens: nat,
    refs: set<string>,
    defs: set<string>,
    pinned: bool,
    summary: string,
    refcount: nat,
    lastTouched: int,
    recallCount: nat,
    lineage: Option<Id>,
    vector: Option<Vector>)

  datatype Entry = Entry(
    itemId: Id, kind: string, summary: string, tokens: nat, evictedAt: nat, symbols: set<string>, lineage: Id,
    important: bool)

  datatype Meta = Meta(
    origId: Id, kind: string, summary: string, evictedAt: nat, reason: string, refcount: nat, recallCount: nat,
    origStep: nat, lineage: Id, important: bool, symbols: set<string>)

  datatype Doc = Doc(text: string, meta: Meta)

  // What the memory gets from outside: the tokenizer, the extraction of names, the embeddings and the scorer.
  datatype Env = Env(
    count: string -> nat,
    refs: string -> set<string>,
    defs: string -> set<string>,
    idBefore: (Id, Id) -> bool,   // the order of ids as strings
    blank: string -> bool,        // nothing but white space
    firstLine: string -> string,  // of a text that is not blank, shortened
    embed: string -> Vector,
    cosine: (Vector, Vector) -> real,
    score: (Item, nat, Option<Vector>) -> real,
    mentions: (string, Entry) -> bool)

  datatype Config = Config(
    maxTokens: int, maxPinned: Option<int>, dedupThreshold: real, cooldown: int, bypass: Option<real>,
    hasLlm: bool, hasStore: bool, hasGet: bool)

  const GUARD: nat := 10_000
  const IMPORTANT_KINDS := {"edit", "note", "recalled"}

  function LineageOf(item: Item): Id {
    match item.lineage
    case Some(id) => id
    case None => item.id
  }

  // An item without a summary is named after its first line; one that has neither cannot be named.
  predicate HasLabel(env: Env, item: Item) {
    item.summary != "" || !env.blank(item.text)
  }

  function SummaryOf(env: Env, item: Item): string {
    if item.summary != "" then item.summary else env.firstLine(item.text)
  }

  predicate Important(item: Item) {
    item.refcount > 0 || item.kind in IMPORTANT_KINDS || item.pinned
  }

  function EntryOf(env: Env, item: Item, now: nat): Entry {
    Entry(item.id, item.kind, SummaryOf(env, item), item.tokens, now, item.defs, LineageOf(item), Important(item))
  }

  function DocOf(env: Env, item: Item, now: nat, reason: string): Doc {
    Doc(item.text,
        Meta(item.id, item.kind, SummaryOf(env, item), now, reason, item.refcount, item.recallCount, item.step,
             LineageOf(item), Important(item), item.defs + (item.refs * item.defs)))
  }

  /* Lists of items */

  function Used(items: seq<Item>): nat {
    if items == [] then 0 else Used(items[..|items| - 1]) + items[|items| - 1].tokens
  }

  lemma {:induction false} UsedOfConcat(a: seq<Item>, b: seq<Item>)
    ensures Used(a + b) == Used(a) + Used(b)
  {
    if b == [] {
      assert a + b == a;
    } else {
      assert (a + b)[..|a + b| - 1] == a + b[..|b| - 1];
      UsedOfConcat(a, b[..|b| - 1]);
    }
  }

  function Without(items: seq<Item>, k: nat): (rest: seq<Item>)
    requires k < |items|
    ensures |rest| == |items| - 1
    ensures forall i | 0 <= i < |rest| :: rest[i] == items[if i < k then i else i + 1]
  {
    seq(|items| - 1, i requires 0 <= i < |items| - 1 => items[if i < k then i else i + 1])
  }

  // Taking one out, seen from the end of the list.
  lemma WithoutFromEnd(items: seq<Item>, k: nat)
    requires k < |items|
    ensures k == |items| - 1 ==> Without(items, k) == items[..|items| - 1]
    ensures k < |items| - 1 ==>
              var rest := Without(items, k);
              rest[..|rest| - 1] == Without(items[..|items| - 1], k) && rest[|rest| - 1] == items[|items| - 1]
  {
    if k < |items| - 1 {
      var rest, part := Without(items, k), Without(items[..|items| - 1], k);
      assert forall i | 0 <= i < |part| :: rest[i] == part[i];
    }
  }

  lemma {:induction false} UsedWithout(items: seq<Item>, k: nat)
    requires k < |items|
    ensures Used(Without(items, k)) == Used(items) - items[k].tokens
  {
    assert Without(items, k) == items[..k] + items[k + 1..];
    UsedOfConcat(items[..k], items[k + 1..]);
    UsedOfConcat(items[..k], [items[k]]);
    UsedOfConcat(items[..k] + [items[k]], items[k + 1..]);
    assert items == items[..k] + [items[k]] + items[k + 1..];
    assert [items[k]][..0] == [];
  }

  predicate IsHot(items: seq<Item>, id: Id) {
    exists i | 0 <= i < |items| :: items[i].id == id
  }

  predicate DistinctIds(items: seq<Item>) {
    forall i, j | 0 <= i < j < |items| :: items[i].id != items[j].id
  }

  // The place of an item in the dictionary of hot items.
  function IndexOf(items: seq<Item>, id: Id): (k: Option<nat>)
    ensures k.Some? ==> k.value < |items| && items[k.value].id == id
    ensures k.None? ==> !IsHot(items, id)
  {
    if items == [] then None
    else if items[|items| - 1].id == id then Some(|items| - 1)
    else IndexOf(items[..|items| - 1], id)
  }

  lemma {:induction false} IndexIsUnique(items: seq<Item>, k: nat)
    requires DistinctIds(items) && k < |items|
    ensures IndexOf(items, items[k].id) == Some(k)
  {
    assert IsHot(items, items[k].id);
  }

  /* Ids */

  // The hot items whose number is n or above.
  function Ahead(items: seq<Item>, n: nat): set<nat> {
    set i: nat | i < |items| && items[i].id.Made? && items[i].id.n >= n
  }

  lemma AheadShrinks(items: seq<Item>, n: nat)
    requires IsHot(items, Made(n))
    ensures Ahead(items, n + 1) < Ahead(items, n)
  {
    var i :| 0 <= i < |items| && items[i].id == Made(n);
    assert i in Ahead(items, n) && i !in Ahead(items, n + 1);
  }

  // The first number from n on that no hot item carries.
  function FirstFree(items: seq<Item>, n: nat): (m: nat)
    ensures n <= m && !IsHot(items, Made(m))
    ensures forall k: nat | n <= k < m :: IsHot(items, Made(k))
    decreases Ahead(items, n)
  {
    if IsHot(items, Made(n)) then
      AheadShrinks(items, n);
      FirstFree(items, n + 1)
    else n
  }

  /** The counter ids are drawn from. It belongs to the process, not to one memory. */
  class IdSequence {
    var next: nat

    constructor ()
      ensures next == 1
    {
      next := 1;
    }

    method NewItemId() returns (id: Id)
      modifies this
      ensures id == Made(old(next)) && next == old(next) + 1
    {
      id := Made(next);
      next := next + 1;
    }
  }
}
