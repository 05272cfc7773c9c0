/** The index from names to the items that define them, and the counting of references through it. */
module ReferenceIndex {
  import opened MemoryItems

  type Owners = map<string, set<Id>>

  function Lookup(owners: Owners, name: string): set<Id> {
    if name in owners then owners[name] else {}
  }

  function Register(owners: Owners, id: Id, names: set<string>): (o: Owners)
    ensures forall name :: Lookup(o, name) == Lookup(owners, name) + if name in names then {id} else {}
  {
    map name | name in owners.Keys + names :: Lookup(owners, name) + if name in names then {id} else {}
  }

  function Forgotten(owners: Owners, id: Id): (o: Owners)
    ensures forall name :: Lookup(o, name) == Lookup(owners, name) - {id}
  {
    map name | name in owners :: owners[name] - {id}
  }

  // The names of refs that the item with this id defines, as far as the index knows.
  function Matching(owners: Owners, refs: set<string>, id: Id): set<string> {
    set name | name in refs && id in Lookup(owners, name)
  }

  function Bumped(item: Item, hits: nat, step: nat): Item {
    if hits == 0 then item else item.(refcount := item.refcount + hits, lastTouched := step)
  }

  // Every earlier item counts the names of refs it defines.
  function Bump(items: seq<Item>, owners: Owners, refs: set<string>, step: nat): (bumped: seq<Item>)
    ensures |bumped| == |items|
    ensures forall i | 0 <= i < |items| :: bumped[i] == Bumped(items[i], |Matching(owners, refs, items[i].id)|, step)
  {
    seq(|items|, i requires 0 <= i < |items| => Bumped(items[i], |Matching(owners, refs, items[i].id)|, step))
  }

  /** The index is exact: the owners of a name are the hot items that define it. */
  ghost predicate Exact(owners: Owners, items: seq<Item>) {
    forall name, id ::
      id in Lookup(owners, name) <==> exists i :: 0 <= i < |items| && items[i].id == id && name in items[i].defs
  }

  /** With an exact index, an item counts as a scan of all items would: by the names that are mentioned and that it
      defines. */
  lemma BumpIsNaiveScan(items: seq<Item>, owners: Owners, refs: set<string>, step: nat, i: nat)
    requires Exact(owners, items) && DistinctIds(items) && i < |items|
    ensures var n, b := |refs * items[i].defs|, Bump(items, owners, refs, step)[i];
            && b.refcount == items[i].refcount + n
            && b.lastTouched == (if n > 0 then step else items[i].lastTouched)
            && b == items[i].(refcount := b.refcount, lastTouched := b.lastTouched)
  {
    var id := items[i].id;
    forall name | name in refs
      ensures id in Lookup(owners, name) <==> name in items[i].defs
    {
      assert id in Lookup(owners, name) <==> exists j :: 0 <= j < |items| && items[j].id == id && name in items[j].defs;
    }
    assert Matching(owners, refs, id) == refs * items[i].defs;
  }

  lemma ExactForgotten(owners: Owners, items: seq<Item>, k: nat)
    requires Exact(owners, items) && DistinctIds(items) && k < |items|
    ensures Exact(Forgotten(owners, items[k].id), Without(items, k))
  {
    var rest := Without(items, k);
    forall name, id
      ensures id in Lookup(Forgotten(owners, items[k].id), name) <==>
              exists i :: 0 <= i < |rest| && rest[i].id == id && name in rest[i].defs
    {
      if i :| 0 <= i < |items| && items[i].id == id && name in items[i].defs && i != k {
        assert rest[if i < k then i else i - 1] == items[i];
      }
    }
  }

  lemma ExactRegistered(owners: Owners, items: seq<Item>, item: Item)
    requires Exact(owners, items)
    ensures Exact(Register(owners, item.id, item.defs), items + [item])
  {
    var all, o := items + [item], Register(owners, item.id, item.defs);
    forall name, id
      ensures id in Lookup(o, name) <==> exists i :: 0 <= i < |all| && all[i].id == id && name in all[i].defs
    {
      if i :| 0 <= i < |items| && items[i].id == id && name in items[i].defs {
        assert all[i] == items[i];
      }
      if id == item.id && name in item.defs {
        assert all[|items|] == item;
      }
    }
  }

  // Exactness depends on ids and definitions only.
  lemma ExactFor(owners: Owners, a: seq<Item>, b: seq<Item>)
    requires Exact(owners, a) && |a| == |b|
    requires forall i | 0 <= i < |a| :: a[i].id == b[i].id && a[i].defs == b[i].defs
    ensures Exact(owners, b)
  {
    forall name, id
      ensures id in Lookup(owners, name) <==> exists i :: 0 <= i < |b| && b[i].id == id && name in b[i].defs
    {
      if i :| 0 <= i < |a| && a[i].id == id && name in a[i].defs {
        assert b[i].id == id;
      }
      if i :| 0 <= i < |b| && b[i].id == id && name in b[i].defs {
        assert a[i].id == id;
      }
    }
  }

  // One more name found at the item with this id.
  function BumpOne(items: seq<Item>, id: Id, step: nat): (bumped: seq<Item>)
    ensures |bumped| == |items|
    ensures forall i | 0 <= i < |items| :: bumped[i] == if items[i].id == id then Bumped(items[i], 1, step)
            else items[i]
  {
    seq(|items|, i requires 0 <= i < |items| => if items[i].id == id then Bumped(items[i], 1, step) else items[i])
  }

  /** The index object. The items it counts references for are values here, so they are passed in and returned. */
  class Index {
    var owners: Owners

    constructor ()
      ensures owners == map[]
    {
      owners := map[];
    }

    /** Registers a new item: every earlier item that defines a name mentioned in it counts one reference per name. */
    method OnAdd(item: Item, items: seq<Item>) returns (bumped: seq<Item>, touched: map<Id, set<string>>)
      requires DistinctIds(items) && !IsHot(items, item.id)
      modifies this
      ensures bumped == Bump(items, old(owners), item.refs, item.step)
      ensures owners == Register(old(owners), item.id, item.defs)
      ensures Touched(items, old(owners), item.refs, touched)
    {
      bumped, touched := items, map[];
      var names, done: set<string> := item.refs, {};
      while names != {}
        invariant names !! done && names + done == item.refs
        invariant owners == old(owners)
        invariant bumped == Bump(items, owners, done, item.step)
        invariant Touched(items, owners, done, touched)
        decreases names
      {
        var name :| name in names;
        names := names - {name};
        bumped, touched := CountName(item, items, bumped, touched, name, done);
        done := done + {name};
      }
      assert done == item.refs;
      RegisterDefs(item.id, item.defs);
    }

    // The owners of one name count one reference each.
    method CountName(
        item: Item, items: seq<Item>, bumped0: seq<Item>, touched0: map<Id, set<string>>, name: string,
        ghost done: set<string>)
      returns (bumped: seq<Item>, touched: map<Id, set<string>>)
      requires DistinctIds(items) && !IsHot(items, item.id) && name !in done
      requires bumped0 == Bump(items, owners, done, item.step) && Touched(items, owners, done, touched0)
      ensures bumped == Bump(items, owners, done + {name}, item.step)
      ensures Touched(items, owners, done + {name}, touched)
    {
      hide Bump, Touched, BumpOne;
      bumped, touched := bumped0, touched0;
      var owned := Lookup(owners, name);
      var todo, counted: set<Id> := owned, {};
      while todo != {}
        invariant todo !! counted && todo + counted == owned
        invariant CountedFor(items, bumped0, bumped, counted, item.step)
        invariant TouchedFor(items, touched0, touched, counted, name)
        decreases todo
      {
        var ownerId :| ownerId in todo;
        todo := todo - {ownerId};
        CountedStep(items, bumped0, bumped, counted, ownerId, item.step);
        TouchedStep(items, touched0, touched, counted, ownerId, name);
        counted := counted + {ownerId};
        if ownerId != item.id && IsHot(items, ownerId) {
          bumped := BumpOne(bumped, ownerId, item.step);
          touched := touched[ownerId := (if ownerId in touched then touched[ownerId] else {}) + {name}];
        }
      }
      assert counted == owned;
      NameCounted(items, bumped0, bumped, owners, name, done, item.step);
      NameTouched(items, owners, done, touched0, touched, name);
    }

    method RegisterDefs(id: Id, names: set<string>)
      modifies this
      ensures owners == Register(old(owners), id, names)
    {
      hide Register;
      RegisterNone(owners, id);
      var todo, done: set<string> := names, {};
      while todo != {}
        invariant todo !! done && todo + done == names
        invariant owners == Register(old(owners), id, done)
        decreases todo
      {
        var name :| name in todo;
        todo := todo - {name};
        RegisterOneMore(old(owners), id, done, name);
        done := done + {name};
        owners := owners[name := Lookup(owners, name) + {id}];
      }
      assert done == names;
    }

    method Forget(id: Id)
      modifies this
      ensures owners == Forgotten(old(owners), id)
    {
      var todo := owners.Keys;
      while todo != {}
        invariant todo <= owners.Keys == old(owners).Keys
        invariant forall name | name in owners ::
                    owners[name] == if name in todo then old(owners)[name] else old(owners)[name] - {id}
        decreases todo
      {
        var name :| name in todo;
        todo := todo - {name};
        owners := owners[name := owners[name] - {id}];
      }
    }
  }

  lemma MatchingOneMore(owners: Owners, done: set<string>, name: string, id: Id)
    requires name !in done
    ensures Matching(owners, done + {name}, id) ==
            Matching(owners, done, id) + if id in Lookup(owners, name) then {name} else {}
    ensures |Matching(owners, done + {name}, id)| ==
            |Matching(owners, done, id)| + if id in Lookup(owners, name) then 1 else 0
  {
    var before := Matching(owners, done, id);
    assert name !in before;
    assert Matching(owners, done + {name}, id) == before + if id in Lookup(owners, name) then {name} else {};
  }

  lemma TouchedName(owners: Owners, done: set<string>, name: string)
    requires name !in done
    ensures forall id :: Matching(owners, done + {name}, id) ==
                         Matching(owners, done, id) + if id in Lookup(owners, name) then {name} else {}
  {
    forall id
      ensures Matching(owners, done + {name}, id) ==
              Matching(owners, done, id) + if id in Lookup(owners, name) then {name} else {}
    {
      MatchingOneMore(owners, done, name, id);
    }
  }

  // What the index returns beside the counts: the names found at each item.
  ghost predicate Touched(items: seq<Item>, owners: Owners, refs: set<string>, touched: map<Id, set<string>>) {
    && (forall id :: id in touched <==> IsHot(items, id) && Matching(owners, refs, id) != {})
    && (forall id | id in touched :: touched[id] == Matching(owners, refs, id))
  }

  ghost predicate CountedFor(items: seq<Item>, before: seq<Item>, after: seq<Item>, counted: set<Id>, step: nat) {
    && |items| == |before| == |after|
    && forall i | 0 <= i < |items| ::
         && before[i].id == items[i].id
         && after[i] == if items[i].id in counted then Bumped(before[i], 1, step) else before[i]
  }

  ghost predicate TouchedFor(
      items: seq<Item>, before: map<Id, set<string>>, after: map<Id, set<string>>, counted: set<Id>, name: string)
  {
    && (forall id :: id in after <==> id in before || (id in counted && IsHot(items, id)))
    && (forall id | id in after ::
          after[id] ==
          (if id in before then before[id] else {}) + if id in counted && IsHot(items, id) then {name} else {})
  }

  lemma CountedStep(items: seq<Item>, before: seq<Item>, after: seq<Item>, counted: set<Id>, id: Id, step: nat)
    requires CountedFor(items, before, after, counted, step) && id !in counted
    ensures CountedFor(items, before, if IsHot(items, id) then BumpOne(after, id, step) else after, counted + {id},
                       step)
  {
  }

  lemma TouchedStep(
      items: seq<Item>, before: map<Id, set<string>>, after: map<Id, set<string>>, counted: set<Id>, id: Id,
      name: string)
    requires TouchedFor(items, before, after, counted, name)
    ensures var touched := if IsHot(items, id) then after[id := (if id in after then after[id] else {}) + {name}]
            else after;
            TouchedFor(items, before, touched, counted + {id}, name)
  {
    hide IsHot;
  }

  lemma NameTouched(
      items: seq<Item>, owners: Owners, done: set<string>, before: map<Id, set<string>>, after: map<Id, set<string>>,
      name: string)
    requires Touched(items, owners, done, before) && name !in done
    requires TouchedFor(items, before, after, Lookup(owners, name), name)
    ensures Touched(items, owners, done + {name}, after)
  {
    hide IsHot, Lookup, Matching;
    TouchedName(owners, done, name);
  }

  lemma NameCounted(
      items: seq<Item>, before: seq<Item>, after: seq<Item>, owners: Owners, name: string, done: set<string>, step: nat)
    requires name !in done && before == Bump(items, owners, done, step)
    requires CountedFor(items, before, after, Lookup(owners, name), step)
    ensures after == Bump(items, owners, done + {name}, step)
  {
    forall i | 0 <= i < |items|
      ensures after[i] == Bumped(items[i], |Matching(owners, done + {name}, items[i].id)|, step)
    {
      MatchingOneMore(owners, done, name, items[i].id);
    }
  }

  lemma RegisterNone(owners: Owners, id: Id)
    ensures Register(owners, id, {}) == owners
  {
    var o := Register(owners, id, {});
    assert o.Keys == owners.Keys;
    forall n | n in owners
      ensures o[n] == owners[n]
    {
      assert Lookup(o, n) == Lookup(owners, n);
    }
  }

  lemma RegisterOneMore(owners: Owners, id: Id, done: set<string>, name: string)
    ensures var o := Register(owners, id, done);
            Register(owners, id, done + {name}) == o[name := Lookup(o, name) + {id}]
  {
    var o, r := Register(owners, id, done), Register(owners, id, done + {name});
    var t := o[name := Lookup(o, name) + {id}];
    assert r.Keys == t.Keys;
    forall n | n in r
      ensures r[n] == t[n]
    {
      assert Lookup(r, n) == Lookup(t, n);
    }
  }
}
