/** The client that answers repeated embeddings from a cache and asks the client behind it for the rest. */
module CachedClient {
  import opened Options
  import opened EmbeddingCache

  // The embedding of the client behind: a list of texts and a model to a list of vectors.
  type Embedder = (seq<string>, string) -> seq<Vector>

  // One vector for each text, whatever texts it is asked together with.
  ghost predicate Deterministic(inner: Embedder) {
    && (forall texts, model :: |inner(texts, model)| == |texts|)
    && (forall texts, model, i ::
          0 <= i < |texts| && |inner(texts, model)| == |texts| && |inner([texts[i]], model)| == 1 ==>
            inner(texts, model)[i] == inner([texts[i]], model)[0])
  }

  ghost function VectorOf(inner: Embedder, model: string, text: string): Vector
    requires Deterministic(inner)
  {
    inner([text], model)[0]
  }

  lemma VectorAt(inner: Embedder, texts: seq<string>, model: string, i: nat)
    requires Deterministic(inner) && i < |texts|
    ensures |inner(texts, model)| == |texts| && inner(texts, model)[i] == VectorOf(inner, model, texts[i])
  {
    assert |inner([texts[i]], model)| == 1;
  }

  // What is cached is what the client behind would answer.
  ghost predicate Agrees(inner: Embedder, data: seq<Slot>)
    requires Deterministic(inner)
  {
    forall i | 0 <= i < |data| :: data[i].vectors == [VectorOf(inner, data[i].key.model, data[i].key.text)]
  }

  predicate NoneEmpty(data: seq<Slot>) {
    forall i | 0 <= i < |data| :: data[i].vectors != []
  }

  // The first n positions whose text is not in the cache.
  function Missed(keys: set<Key>, model: string, texts: seq<string>, n: nat): (missed: seq<nat>)
    requires n <= |texts|
    ensures forall x | 0 <= x < |missed| :: missed[x] < n && Key(model, texts[missed[x]]) !in keys
    ensures forall i | 0 <= i < n && Key(model, texts[i]) !in keys :: i in missed
  {
    if n == 0 then []
    else Missed(keys, model, texts, n - 1) + if Key(model, texts[n - 1]) in keys then [] else [n - 1]
  }

  function TextsAt(texts: seq<string>, positions: seq<nat>): (r: seq<string>)
    requires forall x | 0 <= x < |positions| :: positions[x] < |texts|
    ensures |r| == |positions| && forall x | 0 <= x < |r| :: r[x] == texts[positions[x]]
  {
    seq(|positions|, x requires 0 <= x < |positions| => texts[positions[x]])
  }

  // The vectors that were found, in order.
  function Found(result: seq<Option<Vector>>): seq<Vector> {
    if result == [] then []
    else Found(result[..|result| - 1]) + if result[|result| - 1].Some? then [result[|result| - 1].value] else []
  }

  lemma {:induction false} AllFound(result: seq<Option<Vector>>, vectors: seq<Vector>)
    requires |result| == |vectors| && forall i | 0 <= i < |result| :: result[i] == Some(vectors[i])
    ensures Found(result) == vectors
  {
    if result != [] {
      AllFound(result[..|result| - 1], vectors[..|vectors| - 1]);
      assert vectors == vectors[..|vectors| - 1] + [vectors[|vectors| - 1]];
    }
  }

  // Reading neither adds nor changes anything.
  lemma GetKeepsSlots(data: seq<Slot>, key: Key)
    requires DistinctKeys(data)
    ensures Keys(AfterGet(data, key)) == Keys(data)
    ensures forall slot :: slot in AfterGet(data, key) ==> slot in data
  {
    hide Keys;
    RemoveCounts(data, key);
    match Find(data, key) {
      case None =>
      case Some(k) =>
        KeysOfLonger(Remove(data, key), data[k]);
        forall slot | slot in AfterGet(data, key)
          ensures slot in data
        {
          GetLeaves(data, key, slot);
        }
    }
  }

  lemma PutKeepsSlots(data: seq<Slot>, key: Key, vectors: seq<Vector>, capacity: nat)
    requires DistinctKeys(data)
    ensures forall slot :: slot in AfterPut(data, key, vectors, capacity) ==> slot in data || slot == Slot(key, vectors)
  {
    forall slot | slot in AfterPut(data, key, vectors, capacity)
      ensures slot in data || slot == Slot(key, vectors)
    {
      PutLeaves(data, key, vectors, capacity, slot);
    }
  }

  lemma SlotsAgree(inner: Embedder, data: seq<Slot>, data': seq<Slot>, key: Key, vectors: seq<Vector>)
    requires NoneEmpty(data) && vectors != []
    requires forall slot :: slot in data' ==> slot in data || slot == Slot(key, vectors)
    ensures NoneEmpty(data')
    ensures Deterministic(inner) && Agrees(inner, data) && vectors == [VectorOf(inner, key.model, key.text)] ==>
              Agrees(inner, data')
  {
    forall i | 0 <= i < |data'|
      ensures data'[i].vectors != []
      ensures Deterministic(inner) && Agrees(inner, data) && vectors == [VectorOf(inner, key.model, key.text)] ==>
                data'[i].vectors == [VectorOf(inner, data'[i].key.model, data'[i].key.text)]
    {
      assert data'[i] in data';
    }
  }

  // A hit holds the vector.
  lemma {:induction false} HitAgrees(inner: Embedder, data: seq<Slot>, key: Key)
    requires NoneEmpty(data)
    ensures Find(data, key).Some? ==> data[Find(data, key).value].vectors != []
    ensures Deterministic(inner) && Agrees(inner, data) && Find(data, key).Some? ==>
              data[Find(data, key).value].vectors[0] == VectorOf(inner, key.model, key.text)
  {
  }

  // The positions looked up so far and not missed have their vector.
  ghost predicate Answered(
      inner: Embedder, model: string, texts: seq<string>, missing: seq<nat>, result: seq<Option<Vector>>)
    requires Deterministic(inner)
  {
    && |result| <= |texts|
    && forall i | 0 <= i < |result| && i !in missing :: result[i] == Some(VectorOf(inner, model, texts[i]))
  }

  lemma NothingAnswered(inner: Embedder, model: string, texts: seq<string>)
    ensures Deterministic(inner) ==> Answered(inner, model, texts, [], [])
  {
  }

  lemma AnsweredMore(
      inner: Embedder, model: string, texts: seq<string>, missing: seq<nat>, result: seq<Option<Vector>>)
    requires |result| < |texts|
    ensures Deterministic(inner) && Answered(inner, model, texts, missing, result) ==>
              && Answered(inner, model, texts, missing, result + [Some(VectorOf(inner, model, texts[|result|]))])
              && Answered(inner, model, texts, missing + [|result|], result + [None])
  {
  }

  class CachedLLMClient {
    const inner: Embedder
    const cache: InMemoryEmbeddingCache
    ghost var calls: seq<(seq<string>, string)>   // what the client behind was asked

    ghost predicate Valid()
      reads this, cache
    {
      cache.Valid() && NoneEmpty(cache.data)
    }

    /** Without a cache, and with one that is still empty, the client makes its own: an empty cache counts as none. */
    constructor (inner: Embedder, cache: InMemoryEmbeddingCache?)
      requires cache != null ==> cache.Valid() && NoneEmpty(cache.data)
      ensures this.inner == inner && calls == [] && Valid()
      ensures cache == null || cache.data == [] ==>
                fresh(this.cache) && this.cache.data == [] && this.cache.capacity == 2048
      ensures cache != null && cache.data != [] ==> this.cache == cache
    {
      this.inner, calls := inner, [];
      if cache == null || |cache.data| == 0 {
        this.cache := new InMemoryEmbeddingCache(2048);
      } else {
        this.cache := cache;
      }
    }

    /** Embedding through the cache: the same vectors in the same order as from the client behind, which is asked at
        most once, for exactly the positions missed. */
    method Embed(texts: seq<string>, model: string) returns (vectors: seq<Vector>)
      requires Valid()
      modifies this`calls, cache
      ensures Valid()
      ensures Deterministic(inner) && Agrees(inner, old(cache.data)) ==>
                vectors == inner(texts, model) && Agrees(inner, cache.data)
      ensures var missed := Missed(Keys(old(cache.data)), model, texts, |texts|);
              calls == old(calls) + if missed == [] then [] else [(TextsAt(texts, missed), model)]
    {
      var result, missing := LookUp(texts, model);
      if missing != [] {
        var fetched := inner(TextsAt(texts, missing), model);
        calls := calls + [(TextsAt(texts, missing), model)];
        result := StoreAll(texts, model, result, missing, fetched);
      }
      vectors := Found(result);
      if Deterministic(inner) && Agrees(inner, old(cache.data)) {
        forall i | 0 <= i < |texts|
          ensures result[i] == Some(inner(texts, model)[i])
        {
          VectorAt(inner, texts, model, i);
        }
        AllFound(result, inner(texts, model));
      }
    }

    // The hits, and the positions of the misses.
    method LookUp(texts: seq<string>, model: string) returns (result: seq<Option<Vector>>, missing: seq<nat>)
      requires Valid()
      modifies cache
      ensures Valid() && Keys(cache.data) == Keys(old(cache.data))
      ensures |result| == |texts| && missing == Missed(Keys(old(cache.data)), model, texts, |texts|)
      ensures Deterministic(inner) && Agrees(inner, old(cache.data)) ==>
                Agrees(inner, cache.data) && Answered(inner, model, texts, missing, result)
    {
      hide Keys, AfterGet, Agrees, Deterministic, NoneEmpty, Answered;
      result, missing := [], [];
      NothingAnswered(inner, model, texts);
      ghost var keys := Keys(cache.data);
      for i := 0 to |texts|
        invariant Valid() && Keys(cache.data) == keys
        invariant |result| == i && missing == Missed(keys, model, texts, i)
        invariant Deterministic(inner) && Agrees(inner, old(cache.data)) ==>
                    Agrees(inner, cache.data) && Answered(inner, model, texts, missing, result)
      {
        ghost var before := cache.data;
        var key := Key(model, texts[i]);
        HitAgrees(inner, before, key);
        GetKeepsSlots(before, key);
        var hit := cache.Get(key);
        SameSlotsAgree(inner, before, cache.data);
        AnsweredMore(inner, model, texts, missing, result);
        if hit.Some? {
          result := result + [Some(hit.value[0])];
        } else {
          result, missing := result + [None], missing + [i];
        }
      }
    }

    // What was fetched goes to its positions and into the cache; a list that is too short leaves positions open.
    method StoreAll(
        texts: seq<string>, model: string, result0: seq<Option<Vector>>, missing: seq<nat>, fetched: seq<Vector>)
      returns (result: seq<Option<Vector>>)
      requires Valid() && |result0| == |texts|
      requires forall x | 0 <= x < |missing| :: missing[x] < |texts|
      modifies cache
      ensures Valid() && |result| == |texts|
      ensures Deterministic(inner) && Agrees(inner, old(cache.data))
              && fetched == inner(TextsAt(texts, missing), model) ==>
                && Agrees(inner, cache.data)
                && forall i | 0 <= i < |texts| ::
                     result[i] == if i in missing then Some(VectorOf(inner, model, texts[i])) else result0[i]
    {
      hide Keys, AfterPut, Agrees, Deterministic, NoneEmpty;
      result := result0;
      var n := if |missing| < |fetched| then |missing| else |fetched|;
      FetchedVectors(inner, TextsAt(texts, missing), model);
      for x := 0 to n
        invariant Valid() && |result| == |texts|
        invariant Deterministic(inner) && Agrees(inner, old(cache.data))
                  && fetched == inner(TextsAt(texts, missing), model) ==>
                    && Agrees(inner, cache.data)
                    && forall i | 0 <= i < |texts| ::
                         result[i] == if i in missing[..x] then Some(VectorOf(inner, model, texts[i])) else result0[i]
      {
        ghost var before := cache.data;
        var i, key := missing[x], Key(model, texts[missing[x]]);
        result := result[i := Some(fetched[x])];
        PutKeepsSlots(before, key, [fetched[x]], cache.capacity);
        cache.Put(key, [fetched[x]]);
        SlotsAgree(inner, before, cache.data, key, [fetched[x]]);
        assert missing[..x + 1] == missing[..x] + [i];
      }
      assert n == |missing| ==> missing[..n] == missing;
    }
  }

  lemma SameSlotsAgree(inner: Embedder, data: seq<Slot>, data': seq<Slot>)
    requires NoneEmpty(data) && forall slot :: slot in data' ==> slot in data
    ensures NoneEmpty(data')
    ensures Deterministic(inner) && Agrees(inner, data) ==> Agrees(inner, data')
  {
    forall i | 0 <= i < |data'|
      ensures data'[i].vectors != []
      ensures Deterministic(inner) && Agrees(inner, data) ==>
                data'[i].vectors == [VectorOf(inner, data'[i].key.model, data'[i].key.text)]
    {
      assert data'[i] in data';
    }
  }

  lemma FetchedVectors(inner: Embedder, texts: seq<string>, model: string)
    ensures Deterministic(inner) ==>
              && |inner(texts, model)| == |texts|
              && forall i | 0 <= i < |texts| :: inner(texts, model)[i] == VectorOf(inner, model, texts[i])
  {
    if Deterministic(inner) {
      forall i | 0 <= i < |texts|
        ensures inner(texts, model)[i] == VectorOf(inner, model, texts[i])
      {
        VectorAt(inner, texts, model, i);
      }
    }
  }
}
