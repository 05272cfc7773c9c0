/** The list of what was evicted: enough to find it again without asking the cold store. */
module Manifest {
  import opened Options
  import opened MemoryItems
  import opened StableSort

  // The first entry of the item is gone.
  function Restored(entries: seq<Entry>, itemId: Id): seq<Entry> {
    if entries == [] then []
    else if entries[0].itemId == itemId then entries[1..]
    else [entries[0]] + Restored(entries[1..], itemId)
  }

  function FirstOf(entries: seq<Entry>, itemId: Id): (k: nat)
    ensures k <= |entries|
    ensures forall i | 0 <= i < k :: entries[i].itemId != itemId
    ensures k < |entries| ==> entries[k].itemId == itemId
  {
    if entries == [] || entries[0].itemId == itemId then 0 else 1 + FirstOf(entries[1..], itemId)
  }

  lemma {:induction false} RestoredAt(entries: seq<Entry>, itemId: Id, k: nat)
    requires k < |entries| && entries[k].itemId == itemId && forall i | 0 <= i < k :: entries[i].itemId != itemId
    ensures Restored(entries, itemId) == entries[..k] + entries[k + 1..]
  {
    if k > 0 {
      RestoredAt(entries[1..], itemId, k - 1);
      HeadRejoins(entries, k);
    }
  }

  lemma HeadRejoins(entries: seq<Entry>, k: nat)
    requires 1 <= k < |entries|
    ensures [entries[0]] + (entries[1..][..k - 1] + entries[1..][k..]) == entries[..k] + entries[k + 1..]
  {
  }

  lemma {:induction false} NothingRestored(entries: seq<Entry>, itemId: Id)
    requires forall i | 0 <= i < |entries| :: entries[i].itemId != itemId
    ensures Restored(entries, itemId) == entries
  {
    if entries != [] {
      NothingRestored(entries[1..], itemId);
    }
  }

  function Overlapping(entries: seq<Entry>, wanted: set<string>): seq<Entry> {
    if entries == [] then []
    else
      var last := entries[|entries| - 1];
      Overlapping(entries[..|entries| - 1], wanted) + if wanted * last.symbols != {} then [last] else []
  }

  // More symbols in common first, then the earlier evicted.
  function ByOverlap(wanted: set<string>): Before<Entry> {
    (a: Entry, b: Entry) =>
      var m, n := |wanted * a.symbols|, |wanted * b.symbols|;
      m > n || (m == n && a.evictedAt < b.evictedAt)
  }

  function BySymbols(entries: seq<Entry>, wanted: set<string>): seq<Entry> {
    Sorted(ByOverlap(wanted), Overlapping(entries, wanted))
  }

  lemma {:induction false} OverlappingMembers(entries: seq<Entry>, wanted: set<string>, e: Entry)
    ensures e in Overlapping(entries, wanted) <==> e in entries && wanted * e.symbols != {}
  {
    if entries != [] {
      OverlappingMembers(entries[..|entries| - 1], wanted, e);
      assert entries == entries[..|entries| - 1] + [entries[|entries| - 1]];
    }
  }

  /* What the ranking means */

  // The entries that share n wanted symbols and were evicted at the time, in their order.
  function Alike(wanted: set<string>, n: nat, time: nat, entries: seq<Entry>): seq<Entry> {
    if entries == [] then []
    else
      var last := entries[|entries| - 1];
      Alike(wanted, n, time, entries[..|entries| - 1])
      + if |wanted * last.symbols| == n && last.evictedAt == time then [last] else []
  }

  /** Who shares more wanted symbols comes first, and of those who share as many, who was evicted earlier. */
  ghost predicate Ranked(wanted: set<string>, found: seq<Entry>) {
    forall i, j | 0 <= i < j < |found| ::
      var m, n := |wanted * found[i].symbols|, |wanted * found[j].symbols|;
      m > n || (m == n && found[i].evictedAt <= found[j].evictedAt)
  }

  lemma {:induction false} AlikeIsClass(wanted: set<string>, e: Entry, entries: seq<Entry>)
    ensures Alike(wanted, |wanted * e.symbols|, e.evictedAt, entries) == Class(ByOverlap(wanted), e, entries)
  {
    if entries != [] {
      AlikeIsClass(wanted, e, entries[..|entries| - 1]);
    }
  }

  lemma {:induction false} NoneAlike(wanted: set<string>, n: nat, time: nat, entries: seq<Entry>)
    requires forall e | e in entries :: |wanted * e.symbols| != n || e.evictedAt != time
    ensures Alike(wanted, n, time, entries) == []
  {
    if entries != [] {
      NoneAlike(wanted, n, time, entries[..|entries| - 1]);
    }
  }

  lemma {:induction false} AlikeOverlapping(wanted: set<string>, n: nat, time: nat, entries: seq<Entry>)
    requires n > 0
    ensures Alike(wanted, n, time, Overlapping(entries, wanted)) == Alike(wanted, n, time, entries)
  {
    if entries != [] {
      var init, last := entries[..|entries| - 1], entries[|entries| - 1];
      AlikeOverlapping(wanted, n, time, init);
      var s := Overlapping(init, wanted);
      if wanted * last.symbols == {} {
        assert |wanted * last.symbols| == 0 && s + [] == s;
      } else {
        assert (s + [last])[..|s|] == s;
      }
    }
  }

  lemma OverlapOrders(wanted: set<string>)
    ensures Orders(ByOverlap(wanted))
  {
  }

  lemma SameMembers(a: seq<Entry>, b: seq<Entry>)
    requires multiset(a) == multiset(b)
    ensures forall e :: e in a <==> e in b
  {
    assert forall e :: e in a <==> e in multiset(a);
    assert forall e :: e in b <==> e in multiset(b);
  }

  /** The symbol channel finds exactly the entries with a wanted symbol, and ranks them; entries that share as many and
      were evicted at the same time stay in the order they were recorded. */
  lemma {:induction false} BySymbolsIsRanked(entries: seq<Entry>, wanted: set<string>)
    ensures var found := BySymbols(entries, wanted);
            && (forall e :: e in found <==> e in entries && wanted * e.symbols != {})
            && Ranked(wanted, found)
            && (forall n: nat, time: nat | n > 0 :: Alike(wanted, n, time, found) == Alike(wanted, n, time, entries))
  {
    var found, matching := BySymbols(entries, wanted), Overlapping(entries, wanted);
    OverlapOrders(wanted);
    SortedIsStable(ByOverlap(wanted), matching);
    SameMembers(found, matching);
    forall e
      ensures e in found <==> e in entries && wanted * e.symbols != {}
    {
      OverlappingMembers(entries, wanted, e);
    }
    RankedInOrder(wanted, found);
    forall n: nat, time: nat | n > 0
      ensures Alike(wanted, n, time, found) == Alike(wanted, n, time, entries)
    {
      AlikeOverlapping(wanted, n, time, entries);
      if e :| e in found && |wanted * e.symbols| == n && e.evictedAt == time {
        AlikeIsClass(wanted, e, found);
        AlikeIsClass(wanted, e, matching);
      } else {
        NoneAlike(wanted, n, time, found);
        NoneAlike(wanted, n, time, matching);
      }
    }
  }

  lemma RankedInOrder(wanted: set<string>, found: seq<Entry>)
    requires InOrder(ByOverlap(wanted), found)
    ensures Ranked(wanted, found)
  {
  }

  // The entries that mention the needle.
  function Searched(env: Env, entries: seq<Entry>, needle: string): seq<Entry> {
    if entries == [] then []
    else
      var last := entries[|entries| - 1];
      Searched(env, entries[..|entries| - 1], needle) + if env.mentions(needle, last) then [last] else []
  }

  /** The search finds every entry that mentions the needle, once for each place it stands at, and in that order. */
  lemma {:induction false} SearchedAre(env: Env, entries: seq<Entry>, needle: string) returns (places: seq<nat>)
    ensures var found := Searched(env, entries, needle);
            && |places| == |found|
            && (forall i | 0 <= i < |places| :: places[i] < |entries| && found[i] == entries[places[i]])
            && (forall i, j | 0 <= i < j < |places| :: places[i] < places[j])
            && (forall p: nat | p < |entries| :: p in places <==> env.mentions(needle, entries[p]))
  {
    places := [];
    if entries != [] {
      places := SearchedAre(env, entries[..|entries| - 1], needle);
      if env.mentions(needle, entries[|entries| - 1]) {
        places := places + [|entries| - 1];
      }
    }
  }

  class ManifestList {
    var entries: seq<Entry>

    constructor ()
      ensures entries == []
    {
      entries := [];
    }

    method Record(entry: Entry)
      modifies this
      ensures entries == old(entries) + [entry]
    {
      entries := entries + [entry];
    }

    method Restore(itemId: Id) returns (entry: Option<Entry>)
      modifies this
      ensures entries == Restored(old(entries), itemId)
      ensures entry == var k := FirstOf(old(entries), itemId); if k < |old(entries)| then Some(old(entries)[k])
              else None
    {
      for i := 0 to |entries|
        invariant entries == old(entries)
        invariant forall k | 0 <= k < i :: entries[k].itemId != itemId
      {
        if entries[i].itemId == itemId {
          RestoredAt(entries, itemId, i);
          entry := Some(entries[i]);
          entries := entries[..i] + entries[i + 1..];
          return;
        }
      }
      NothingRestored(entries, itemId);
      entry := None;
    }

    method Search(env: Env, needle: string) returns (found: seq<Entry>)
      ensures found == Searched(env, entries, needle)
    {
      found := [];
      for i := 0 to |entries|
        invariant found == Searched(env, entries[..i], needle)
      {
        assert entries[..i + 1][..i] == entries[..i];
        if env.mentions(needle, entries[i]) {
          found := found + [entries[i]];
        }
      }
      assert entries[..|entries|] == entries;
    }

    method FindBySymbols(wanted: set<string>) returns (found: seq<Entry>)
      ensures found == BySymbols(entries, wanted)
      ensures Ranked(wanted, found) && forall e :: e in found <==> e in entries && wanted * e.symbols != {}
    {
      var scored: seq<Entry> := [];
      for i := 0 to |entries|
        invariant scored == Overlapping(entries[..i], wanted)
      {
        assert entries[..i + 1][..i] == entries[..i];
        if wanted * entries[i].symbols != {} {
          scored := scored + [entries[i]];
        }
      }
      assert entries[..|entries|] == entries;
      found := Sorted(ByOverlap(wanted), scored);
      BySymbolsIsRanked(entries, wanted);
    }
  }
}
