/** Saving the hot set and the manifest, and reading them back in a process that knows nothing. */
module MemorySnapshots {
  import opened Options
  import opened MemoryItems
  import opened ReferenceIndex
  import opened MemoryState

  datatype Snapshot = Snapshot(
    step: nat, evictions: nat, goalText: string, goal: Option<Vector>, items: seq<Item>, manifest: seq<Entry>)

  function Exported(s: State): Snapshot {
    Snapshot(s.step, s.evictions, s.goalText, s.goal, s.items, s.manifest)
  }

  // A vector without components reads back as none.
  function ReadVector(v: Option<Vector>): Option<Vector> {
    if v.Some? && v.value != [] then v else None
  }

  function ReadItem(item: Item): Item {
    item.(vector := ReadVector(item.vector))
  }

  // Storing under an id: in place if the id is there, at the end otherwise.
  function Put(items: seq<Item>, item: Item): seq<Item> {
    match IndexOf(items, item.id)
    case None => items + [item]
    case Some(k) => items[k := item]
  }

  function ReadItems(raw: seq<Item>): seq<Item> {
    if raw == [] then [] else Put(ReadItems(raw[..|raw| - 1]), ReadItem(raw[|raw| - 1]))
  }

  function ReadOwners(raw: seq<Item>): Owners {
    if raw == [] then map[]
    else Register(ReadOwners(raw[..|raw| - 1]), raw[|raw| - 1].id, raw[|raw| - 1].defs)
  }

  function Imported(s: State, snapshot: Snapshot): State {
    s.(step := snapshot.step, evictions := snapshot.evictions, goalText := snapshot.goalText,
       goal := ReadVector(snapshot.goal), items := ReadItems(snapshot.items), owners := ReadOwners(snapshot.items),
       manifest := snapshot.manifest)
  }

  lemma {:induction false} ReadInOrder(raw: seq<Item>)
    requires DistinctIds(raw)
    ensures |ReadItems(raw)| == |raw| && forall i | 0 <= i < |raw| :: ReadItems(raw)[i] == ReadItem(raw[i])
  {
    if raw != [] {
      var n := |raw| - 1;
      var init := raw[..n];
      ReadInOrder(init);
      forall i | 0 <= i < n
        ensures ReadItems(init)[i].id != raw[n].id
      {
        assert ReadItems(init)[i] == ReadItem(init[i]);
      }
      assert !IsHot(ReadItems(init), raw[n].id);
    }
  }

  lemma {:induction false} ReadIsExact(raw: seq<Item>)
    ensures Exact(ReadOwners(raw), raw)
  {
    if raw != [] {
      var n := |raw| - 1;
      ReadIsExact(raw[..n]);
      ExactRegistered(ReadOwners(raw[..n]), raw[..n], raw[n]);
      assert raw == raw[..n] + [raw[n]];
    }
  }

  lemma ExactIsUnique(a: Owners, b: Owners, items: seq<Item>, name: string)
    requires Exact(a, items) && Exact(b, items)
    ensures Lookup(a, name) == Lookup(b, name)
  {
    forall id
      ensures id in Lookup(a, name) <==> id in Lookup(b, name)
    {
      assert id in Lookup(a, name) <==> exists i :: 0 <= i < |items| && items[i].id == id && name in items[i].defs;
    }
  }

  predicate HasComponents(v: Option<Vector>) {
    v.Some? ==> v.value != []
  }

  /** Read back, a memory whose index was exact has the same items and goal exactly if no vector in it was empty; its
      manifest, counts and index are the same in any case. */
  lemma SnapshotRoundTrip(s: State, blank: State)
    requires DistinctIds(s.items) && Exact(s.owners, s.items)
    ensures var t := Imported(blank, Exported(s));
            && (t.items == s.items <==> forall i | 0 <= i < |s.items| :: HasComponents(s.items[i].vector))
            && (t.goal == s.goal <==> HasComponents(s.goal))
            && t.manifest == s.manifest && t.step == s.step && t.evictions == s.evictions && t.goalText == s.goalText
            && Exact(t.owners, t.items) && forall name :: Lookup(t.owners, name) == Lookup(s.owners, name)
  {
    var t := Imported(blank, Exported(s));
    ReadInOrder(s.items);
    ReadIsExact(s.items);
    ExactFor(t.owners, s.items, t.items);
    forall name
      ensures Lookup(t.owners, name) == Lookup(s.owners, name)
    {
      ExactIsUnique(t.owners, s.owners, s.items, name);
    }
    if t.items == s.items {
      forall i | 0 <= i < |s.items|
        ensures HasComponents(s.items[i].vector)
      {
        assert ReadItem(s.items[i]) == s.items[i];
      }
    }
  }
}
