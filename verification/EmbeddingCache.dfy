/** The bounded cache of embeddings, least recently used out first, and the client that embeds through it. */
module EmbeddingCache {
  import opened Options

  type Vector = seq<real>

  // Digests do not collide, so a key stands for the model and the text.
  datatype Key = Key(model: string, text: string)

  datatype Slot = Slot(key: Key, vectors: seq<Vector>)

  /* What the operations do to the slots, the least recently used first */

  function Keys(data: seq<Slot>): set<Key> {
    set i | 0 <= i < |data| :: data[i].key
  }

  predicate DistinctKeys(data: seq<Slot>) {
    forall i, j | 0 <= i < j < |data| :: data[i].key != data[j].key
  }

  function Restrict(data: seq<Slot>, keys: set<Key>): seq<Slot> {
    if data == [] then []
    else Restrict(data[..|data| - 1], keys) + if data[|data| - 1].key in keys then [data[|data| - 1]] else []
  }

  function Remove(data: seq<Slot>, key: Key): seq<Slot> {
    Restrict(data, Keys(data) - {key})
  }

  function Find(data: seq<Slot>, key: Key): (k: Option<nat>)
    ensures k.Some? ==> k.value < |data| && data[k.value].key == key
    ensures k.None? <==> key !in Keys(data)
  {
    if data == [] then None
    else if data[|data| - 1].key == key then Some(|data| - 1)
    else
      assert Keys(data) == Keys(data[..|data| - 1]) + {data[|data| - 1].key};
      Find(data[..|data| - 1], key)
  }

  function AfterGet(data: seq<Slot>, key: Key): seq<Slot> {
    match Find(data, key)
    case None => data
    case Some(k) => Remove(data, key) + [data[k]]
  }

  function Newest(data: seq<Slot>, capacity: nat): seq<Slot> {
    if |data| > capacity then data[|data| - capacity..] else data
  }

  function AfterPut(data: seq<Slot>, key: Key, vectors: seq<Vector>, capacity: nat): seq<Slot> {
    Newest(Remove(data, key) + [Slot(key, vectors)], capacity)
  }

  lemma {:induction false} RestrictOfLonger(data: seq<Slot>, slot: Slot, keys: set<Key>)
    ensures Restrict(data + [slot], keys) == Restrict(data, keys) + if slot.key in keys then [slot] else []
  {
    assert (data + [slot])[..|data|] == data;
  }

  lemma {:induction false} RestrictFromStart(data: seq<Slot>, keys: set<Key>)
    requires data != []
    ensures Restrict(data, keys) == (if data[0].key in keys then [data[0]] else []) + Restrict(data[1..], keys)
  {
    var n := |data| - 1;
    if n > 0 {
      RestrictFromStart(data[..n], keys);
      assert data[..n][1..] == data[1..][..n - 1];
    } else {
      assert data[..0] == [] && data[1..] == [];
    }
  }

  lemma {:induction false} RestrictTwice(data: seq<Slot>, a: set<Key>, b: set<Key>)
    ensures Restrict(Restrict(data, a), b) == Restrict(data, a * b)
  {
    if data != [] {
      var init, last := data[..|data| - 1], data[|data| - 1];
      var part := Restrict(init, a);
      RestrictTwice(init, a, b);
      RestrictOfLonger(part, last, b);
      assert part + [] == part && Restrict(part, b) + [] == Restrict(part, b);
    }
  }

  // Only the keys that are there matter.
  lemma {:induction false} RestrictDepends(data: seq<Slot>, a: set<Key>, b: set<Key>)
    requires forall i | 0 <= i < |data| :: data[i].key in a <==> data[i].key in b
    ensures Restrict(data, a) == Restrict(data, b)
  {
    if data != [] {
      RestrictDepends(data[..|data| - 1], a, b);
    }
  }

  lemma {:induction false} RestrictAll(data: seq<Slot>, keys: set<Key>)
    requires Keys(data) <= keys
    ensures Restrict(data, keys) == data
  {
    if data != [] {
      var init, last := data[..|data| - 1], data[|data| - 1];
      assert data == init + [last];
      KeysOfLonger(init, last);
      RestrictAll(init, keys);
    }
  }

  lemma KeysOfLonger(data: seq<Slot>, slot: Slot)
    ensures Keys(data + [slot]) == Keys(data) + {slot.key}
  {
    assert (data + [slot])[|data|] == slot;
    assert forall i | 0 <= i < |data| :: (data + [slot])[i] == data[i];
  }

  lemma {:induction false} RestrictKeys(data: seq<Slot>, keys: set<Key>)
    ensures Keys(Restrict(data, keys)) == Keys(data) * keys
  {
    if data != [] {
      hide Keys;
      var init, last := data[..|data| - 1], data[|data| - 1];
      RestrictKeys(init, keys);
      assert data == init + [last];
      RestrictOfLonger(init, last, keys);
      KeysOfLonger(init, last);
      KeysOfLonger(Restrict(init, keys), last);
      assert Restrict(init, keys) + [] == Restrict(init, keys);
    }
  }

  lemma {:induction false} RestrictSlot(data: seq<Slot>, keys: set<Key>, slot: Slot)
    requires slot in Restrict(data, keys)
    ensures slot in data && slot.key in keys
  {
    var init, last := data[..|data| - 1], data[|data| - 1];
    if slot in Restrict(init, keys) {
      RestrictSlot(init, keys, slot);
    }
  }

  lemma {:induction false} RestrictDistinct(data: seq<Slot>, keys: set<Key>)
    requires DistinctKeys(data)
    ensures DistinctKeys(Restrict(data, keys))
  {
    if data != [] {
      var init, last := data[..|data| - 1], data[|data| - 1];
      RestrictDistinct(init, keys);
      RestrictKeys(init, keys);
      LastIsOther(data);
      LastIsNew(Restrict(init, keys), last);
    }
  }

  lemma LastIsOther(data: seq<Slot>)
    requires DistinctKeys(data) && data != []
    ensures data[|data| - 1].key !in Keys(data[..|data| - 1]) && DistinctKeys(data[..|data| - 1])
  {
  }

  lemma LastIsNew(data: seq<Slot>, slot: Slot)
    requires DistinctKeys(data) && slot.key !in Keys(data)
    ensures DistinctKeys(data + [slot])
  {
  }

  // Taking out one key makes the list one shorter, if the key was there.
  lemma {:induction false} RestrictCounts(data: seq<Slot>, keys: set<Key>, key: Key)
    requires DistinctKeys(data) && forall i | 0 <= i < |data| :: data[i].key in keys <==> data[i].key != key
    ensures |Restrict(data, keys)| == |data| - if key in Keys(data) then 1 else 0
  {
    if data != [] {
      var init, last := data[..|data| - 1], data[|data| - 1];
      RestrictCounts(init, keys, key);
      LastIsOther(data);
      assert data == init + [last];
      KeysOfLonger(init, last);
    }
  }

  lemma RemoveCounts(data: seq<Slot>, key: Key)
    requires DistinctKeys(data)
    ensures |Remove(data, key)| == |data| - if key in Keys(data) then 1 else 0
    ensures Keys(Remove(data, key)) == Keys(data) - {key} && DistinctKeys(Remove(data, key))
  {
    RestrictKeys(data, Keys(data) - {key});
    RestrictDistinct(data, Keys(data) - {key});
    RestrictCounts(data, Keys(data) - {key}, key);
  }

  /* The cache object */

  class InMemoryEmbeddingCache {
    const capacity: nat
    var data: seq<Slot>

    predicate Valid()
      reads this
    {
      DistinctKeys(data) && |data| <= capacity && capacity >= 1
    }

    constructor (capacity: int)
      ensures Valid() && data == [] && this.capacity == if capacity > 1 then capacity else 1
    {
      this.capacity := if capacity > 1 then capacity else 1;
      data := [];
    }

    method Get(key: Key) returns (hit: Option<seq<Vector>>)
      requires Valid()
      modifies this
      ensures Valid() && data == AfterGet(old(data), key)
      ensures hit == match Find(old(data), key) case None => None case Some(k) => Some(old(data)[k].vectors)
    {
      var k := Find(data, key);
      if k.None? {
        return None;
      }
      RemoveCounts(data, key);
      LastIsNew(Remove(data, key), data[k.value]);
      hit := Some(data[k.value].vectors);
      data := Remove(data, key) + [data[k.value]];
    }

    method Put(key: Key, vectors: seq<Vector>)
      requires Valid()
      modifies this
      ensures Valid() && data == AfterPut(old(data), key, vectors, capacity)
    {
      RemoveCounts(data, key);
      LastIsNew(Remove(data, key), Slot(key, vectors));
      data := Remove(data, key) + [Slot(key, vectors)];
      ghost var all := data;
      while |data| > capacity
        invariant DistinctKeys(data) && |data| >= 1
        invariant Newest(data, capacity) == Newest(all, capacity)
      {
        data := data[1..];
      }
    }
  }

  /* The same trace at two capacities */

  datatype Op = GetOp(key: Key) | PutOp(key: Key, vectors: seq<Vector>)

  function AfterOp(data: seq<Slot>, op: Op, capacity: nat): seq<Slot> {
    match op
    case GetOp(key) => AfterGet(data, key)
    case PutOp(key, vectors) => AfterPut(data, key, vectors, capacity)
  }

  // The slots after the operations, the last one last.
  function After(ops: seq<Op>, capacity: nat): seq<Slot> {
    if ops == [] then [] else AfterOp(After(ops[..|ops| - 1], capacity), ops[|ops| - 1], capacity)
  }

  function Hits(ops: seq<Op>, capacity: nat): nat {
    if ops == [] then 0
    else
      var n := |ops| - 1;
      Hits(ops[..n], capacity) + if ops[n].GetOp? && ops[n].key in Keys(After(ops[..n], capacity)) then 1 else 0
  }

  // The positions at which a get finds its key held.
  ghost function HitPlaces(ops: seq<Op>, capacity: nat): set<nat> {
    set i: nat | i < |ops| && ops[i].GetOp? && IsHeld(After(ops[..i], capacity), ops[i].key)
  }

  predicate IsHeld(data: seq<Slot>, key: Key) {
    exists slot | slot in data :: slot.key == key
  }

  lemma {:induction false} HitsAreCounted(ops: seq<Op>, capacity: nat)
    ensures Hits(ops, capacity) == |HitPlaces(ops, capacity)|
  {
    hide After, Keys, IsHeld;
    if ops != [] {
      var n := |ops| - 1;
      HitsAreCounted(ops[..n], capacity);
      HeldInKeys(After(ops[..n], capacity), ops[n].key);
      OneMoreOp(ops, n, capacity);
    }
  }

  lemma {:induction false} OneMoreOp(ops: seq<Op>, n: nat, capacity: nat)
    requires |ops| == n + 1
    ensures |HitPlaces(ops, capacity)| ==
            |HitPlaces(ops[..n], capacity)| +
              if ops[n].GetOp? && IsHeld(After(ops[..n], capacity), ops[n].key) then 1 else 0
  {
    hide After, IsHeld;
    var here := ops[n].GetOp? && IsHeld(After(ops[..n], capacity), ops[n].key);
    var before, all := HitPlaces(ops[..n], capacity), HitPlaces(ops, capacity);
    forall i: nat | i < n
      ensures i in before <==> i in all
    {
      assert ops[..n][..i] == ops[..i] && ops[..n][i] == ops[i];
    }
    assert all == before + if here then {n} else {};
    assert n !in before;
  }

  lemma HeldInKeys(data: seq<Slot>, key: Key)
    ensures IsHeld(data, key) <==> key in Keys(data)
  {
    if key in Keys(data) {
      var i :| 0 <= i < |data| && data[i].key == key;
      assert data[i] in data;
    }
  }

  // The smaller list is what the larger one holds of its keys, in the same order.
  ghost predicate Embedded(small: seq<Slot>, large: seq<Slot>) {
    && DistinctKeys(small) && DistinctKeys(large)
    && small == Restrict(large, Keys(small)) && Keys(small) <= Keys(large)
  }

  // And it is full before it loses any.
  ghost predicate Included(small: seq<Slot>, large: seq<Slot>, c: nat) {
    Embedded(small, large) && |small| == if |large| > c then c else |large|
  }

  lemma {:induction false} SlotOf(data: seq<Slot>, slot: Slot)
    requires DistinctKeys(data) && slot in data
    ensures Find(data, slot.key).Some? && data[Find(data, slot.key).value] == slot
  {
    var i :| 0 <= i < |data| && data[i] == slot;
    assert slot.key in Keys(data);
  }

  lemma {:induction false} EmbeddedSlot(small: seq<Slot>, large: seq<Slot>, key: Key)
    requires Embedded(small, large) && key in Keys(small)
    ensures Find(large, key).Some? && Find(small, key).Some?
    ensures small[Find(small, key).value] == large[Find(large, key).value]
  {
    var slot := small[Find(small, key).value];
    RestrictSlot(large, Keys(small), slot);
    SlotOf(large, slot);
  }

  lemma RemoveFromBoth(small: seq<Slot>, large: seq<Slot>, key: Key)
    requires Embedded(small, large)
    ensures Embedded(Remove(small, key), Remove(large, key))
    ensures key !in Keys(Remove(large, key)) && key !in Keys(Remove(small, key))
  {
    hide Keys;
    var k := Keys(small);
    RemoveCounts(small, key);
    RemoveCounts(large, key);
    RestrictTwice(large, k, k - {key});
    RestrictTwice(large, Keys(large) - {key}, k - {key});
    assert k * (k - {key}) == (Keys(large) - {key}) * (k - {key});
  }

  lemma AppendToBoth(small: seq<Slot>, large: seq<Slot>, slot: Slot)
    requires Embedded(small, large) && slot.key !in Keys(large)
    ensures Embedded(small + [slot], large + [slot])
  {
    var keys := Keys(small);
    LastIsNew(small, slot);
    LastIsNew(large, slot);
    KeysOfLonger(small, slot);
    KeysOfLonger(large, slot);
    RestrictOfLonger(large, slot, keys + {slot.key});
    forall i | 0 <= i < |large|
      ensures large[i].key in keys <==> large[i].key in keys + {slot.key}
    {
      assert large[i].key in Keys(large);
    }
    RestrictDepends(large, keys, keys + {slot.key});
  }

  // A key only the larger list holds moves to its end; the smaller one does not see it.
  lemma MovedOutside(small: seq<Slot>, large: seq<Slot>, slot: Slot)
    requires Embedded(small, large) && slot.key !in Keys(small)
    ensures Embedded(small, Remove(large, slot.key) + [slot])
  {
    hide Keys;
    var rest := Remove(large, slot.key);
    RemoveCounts(large, slot.key);
    LastIsNew(rest, slot);
    KeysOfLonger(rest, slot);
    RestrictOfLonger(rest, slot, Keys(small));
    RestrictTwice(large, Keys(large) - {slot.key}, Keys(small));
    assert (Keys(large) - {slot.key}) * Keys(small) == Keys(small);
  }

  lemma GetIncluded(small: seq<Slot>, large: seq<Slot>, c: nat, key: Key)
    requires Included(small, large, c)
    ensures Included(AfterGet(small, key), AfterGet(large, key), c)
  {
    hide Keys, Embedded, Remove;
    EmbeddedKeys(small, large);
    RemoveCounts(small, key);
    RemoveCounts(large, key);
    if key in Keys(small) {
      EmbeddedSlot(small, large, key);
      RemoveFromBoth(small, large, key);
      AppendToBoth(Remove(small, key), Remove(large, key), small[Find(small, key).value]);
    } else if key in Keys(large) {
      MovedOutside(small, large, large[Find(large, key).value]);
    }
  }

  lemma EmbeddedKeys(small: seq<Slot>, large: seq<Slot>)
    requires Embedded(small, large)
    ensures Keys(small) <= Keys(large) && DistinctKeys(small) && DistinctKeys(large)
  {
  }

  lemma FirstOut(data: seq<Slot>)
    requires DistinctKeys(data) && data != []
    ensures DistinctKeys(data[1..]) && Keys(data[1..]) == Keys(data) - {data[0].key}
  {
    assert forall i | 1 <= i < |data| :: data[i] == data[1..][i - 1];
  }

  // The smaller list drops its oldest slot.
  lemma SmallDrops(small: seq<Slot>, large: seq<Slot>)
    requires Embedded(small, large) && small != []
    ensures Embedded(small[1..], large)
  {
    hide Keys;
    var rest := Keys(small) - {small[0].key};
    FirstOut(small);
    RestrictTwice(large, Keys(small), rest);
    RestrictFromStart(small, rest);
    RestrictAll(small[1..], rest);
    assert Keys(small) * rest == rest;
  }

  // The larger list drops its oldest slot, which the smaller one does not hold any more.
  lemma LargeDrops(small: seq<Slot>, large: seq<Slot>)
    requires Embedded(small, large) && large != [] && large[0].key !in Keys(small)
    ensures Embedded(small, large[1..])
  {
    hide Keys;
    FirstOut(large);
    RestrictFromStart(large, Keys(small));
  }

  lemma OldestGone(small: seq<Slot>, large: seq<Slot>)
    requires Embedded(small, large) && small != [] && large != []
    ensures large[0].key !in Keys(small[1..])
  {
    hide Keys;
    FirstOut(small);
    RestrictFromStart(large, Keys(small));
  }

  // Both lists grow by the same slot and are cut to their capacities.
  lemma CutIncluded(small: seq<Slot>, large: seq<Slot>, c: nat, d: nat)
    requires 1 <= c <= d && Embedded(small, large) && |large| <= d + 1
    requires |large| <= c ==> |small| == |large|
    requires c < |large| <= d ==> c <= |small| <= c + 1
    requires |large| == d + 1 ==> |small| == c + 1
    ensures Included(Newest(small, c), Newest(large, d), c) && |Newest(large, d)| <= d
  {
    hide Embedded;
    if |small| > c {
      SmallDrops(small, large);
      if |large| > d {
        OldestGone(small, large);
        LargeDrops(small[1..], large);
      }
    }
  }

  lemma PutIncluded(small: seq<Slot>, large: seq<Slot>, c: nat, d: nat, key: Key, vectors: seq<Vector>)
    requires 1 <= c <= d && Included(small, large, c) && |large| <= d
    ensures Included(AfterPut(small, key, vectors, c), AfterPut(large, key, vectors, d), c)
    ensures |AfterPut(large, key, vectors, d)| <= d
  {
    hide Keys, Embedded, Remove, Newest;
    var slot := Slot(key, vectors);
    EmbeddedKeys(small, large);
    RemoveCounts(small, key);
    RemoveCounts(large, key);
    RemoveFromBoth(small, large, key);
    AppendToBoth(Remove(small, key), Remove(large, key), slot);
    if key in Keys(large) && key !in Keys(small) {
      OutsideMeansFull(small, large, key);
    }
    CutIncluded(Remove(small, key) + [slot], Remove(large, key) + [slot], c, d);
  }

  // A key that only the larger list holds: the smaller one is shorter.
  lemma OutsideMeansFull(small: seq<Slot>, large: seq<Slot>, key: Key)
    requires Embedded(small, large) && key in Keys(large) && key !in Keys(small)
    ensures |small| < |large|
  {
    hide Keys;
    RemoveCounts(large, key);
    RestrictTwice(large, Keys(large) - {key}, Keys(small));
    assert (Keys(large) - {key}) * Keys(small) == Keys(small);
    RestrictShorter(Remove(large, key), Keys(small));
  }

  lemma {:induction false} RestrictShorter(data: seq<Slot>, keys: set<Key>)
    ensures |Restrict(data, keys)| <= |data|
  {
    if data != [] {
      RestrictShorter(data[..|data| - 1], keys);
    }
  }

  /** Inclusion for any trace: at the larger capacity every key of the smaller one is held, with the same value and in
      the same order of recency; so a larger cache never has fewer hits, and neither exceeds its capacity. */
  lemma {:induction false} LargerCacheIncludes(ops: seq<Op>, c: nat, d: nat)
    requires 1 <= c <= d
    ensures Included(After(ops, c), After(ops, d), c) && |After(ops, d)| <= d
    ensures Hits(ops, c) <= Hits(ops, d)
  {
    hide Included, AfterGet, AfterPut;
    if ops == [] {
      EmptyIncluded(c);
    } else {
      var n := |ops| - 1;
      LargerCacheIncludes(ops[..n], c, d);
      var small, large := After(ops[..n], c), After(ops[..n], d);
      IncludedKeys(small, large, c);
      match ops[n] {
        case GetOp(key) =>
          GetIncluded(small, large, c, key);
          GetKeepsSize(large, key);
        case PutOp(key, vectors) =>
          PutIncluded(small, large, c, d, key, vectors);
      }
    }
  }

  // The value last stored under a key.
  function LastPut(ops: seq<Op>, key: Key): Option<seq<Vector>> {
    if ops == [] then None
    else
      var last := ops[|ops| - 1];
      if last.PutOp? && last.key == key then Some(last.vectors) else LastPut(ops[..|ops| - 1], key)
  }

  /** What is held is what was stored last under its key, whatever was evicted in between. */
  lemma {:induction false} HeldIsLastPut(ops: seq<Op>, capacity: nat, slot: Slot)
    requires capacity >= 1 && slot in After(ops, capacity)
    ensures LastPut(ops, slot.key) == Some(slot.vectors)
  {
    var n := |ops| - 1;
    var before := After(ops[..n], capacity);
    match ops[n] {
      case GetOp(key) =>
        GetLeaves(before, key, slot);
        HeldIsLastPut(ops[..n], capacity, slot);
      case PutOp(key, vectors) =>
        PutLeaves(before, key, vectors, capacity, slot);
        if slot != Slot(key, vectors) {
          HeldIsLastPut(ops[..n], capacity, slot);
        }
    }
  }

  lemma GetLeaves(data: seq<Slot>, key: Key, slot: Slot)
    requires slot in AfterGet(data, key)
    ensures slot in data
  {
    match Find(data, key) {
      case None =>
      case Some(k) =>
        if slot != data[k] {
          RestrictSlot(data, Keys(data) - {key}, slot);
        }
    }
  }

  lemma PutLeaves(data: seq<Slot>, key: Key, vectors: seq<Vector>, capacity: nat, slot: Slot)
    requires slot in AfterPut(data, key, vectors, capacity)
    ensures slot == Slot(key, vectors) || (slot in data && slot.key != key)
  {
    if slot != Slot(key, vectors) {
      RestrictSlot(data, Keys(data) - {key}, slot);
    }
  }

  lemma EmptyIncluded(c: nat)
    ensures Included([], [], c)
  {
  }

  lemma GetKeepsSize(data: seq<Slot>, key: Key)
    requires DistinctKeys(data)
    ensures |AfterGet(data, key)| == |data|
  {
    RemoveCounts(data, key);
  }

  lemma IncludedKeys(small: seq<Slot>, large: seq<Slot>, c: nat)
    requires Included(small, large, c)
    ensures Keys(small) <= Keys(large) && DistinctKeys(large)
  {
  }
}
