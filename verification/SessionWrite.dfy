/** Storing a compressed session in four writes, any of which may be the last before a crash. */
module SessionWrite {
  import opened Options

  type Docs = map<string, seq<string>>

  // A store either replaces what a document held or adds to it.
  datatype Mode = Replacing | Appending

  function MainId(prefix: string, chat: string): string {
    prefix + "session_" + chat
  }

  function CopyId(prefix: string, chat: string): string {
    MainId(prefix, chat) + "_new"
  }

  function Held(docs: Docs, id: string): seq<string> {
    if id in docs then docs[id] else []
  }

  function WithAdded(docs: Docs, mode: Mode, id: string, blocks: seq<string>): Docs {
    docs[id := if mode.Replacing? then blocks else Held(docs, id) + blocks]
  }

  // The documents after the first n of the four writes.
  function AfterWrites(docs: Docs, mode: Mode, prefix: string, chat: string, blocks: seq<string>, n: nat): Docs {
    var main, copy := MainId(prefix, chat), CopyId(prefix, chat);
    if n == 0 then docs
    else if n == 1 then WithAdded(docs, mode, copy, blocks)
    else if n == 2 then WithAdded(docs, mode, copy, blocks) - {main}
    else if n == 3 then WithAdded(WithAdded(docs, mode, copy, blocks) - {main}, mode, main, blocks)
    else WithAdded(WithAdded(docs, mode, copy, blocks) - {main}, mode, main, blocks) - {copy}
  }

  class DocStore {
    const mode: Mode
    var docs: Docs

    constructor (mode: Mode)
      ensures this.mode == mode && docs == map[]
    {
      this.mode, docs := mode, map[];
    }

    method Add(id: string, blocks: seq<string>)
      modifies this
      ensures docs == WithAdded(old(docs), mode, id, blocks)
    {
      if mode.Replacing? {
        docs := docs - {id};
      }
      docs := docs[id := (if id in docs then docs[id] else []) + blocks];
      assert mode.Replacing? ==> [] + blocks == blocks && docs == old(docs)[id := blocks];
    }

    method Delete(id: string)
      modifies this
      ensures docs == old(docs) - {id}
    {
      docs := docs - {id};
    }
  }

  /** The writes of one call. A session that is too short or compresses to nothing writes nothing; `survived` says after
      how many writes the process died, if it did. */
  method CompressAndStore(
      store: DocStore, prefix: string, chat: string, messages: nat, compressEvery: int, blocks: seq<string>,
      survived: nat)
    returns (done: bool)
    modifies store
    ensures store.docs ==
            if messages < compressEvery || blocks == [] then old(store.docs)
            else AfterWrites(old(store.docs), store.mode, prefix, chat, blocks, survived)
    ensures done <==> messages >= compressEvery && blocks != [] && survived >= 4
    ensures done ==>
              && prefix + "session_" + chat in store.docs && store.docs[prefix + "session_" + chat] == blocks
              && prefix + "session_" + chat + "_new" !in store.docs
              && (forall id | id != prefix + "session_" + chat && id != prefix + "session_" + chat + "_new" ::
                    (id in store.docs <==> id in old(store.docs))
                    && (id in store.docs ==> store.docs[id] == old(store.docs)[id]))
  {
    IdsDiffer(prefix, chat);
    if messages < compressEvery || blocks == [] {
      return false;
    }
    if survived < 1 { return false; }
    var docId := prefix + "session_" + chat;
    var tempId := docId + "_new";
    store.Add(tempId, blocks);
    if survived < 2 { return false; }
    store.Delete(docId);
    if survived < 3 { return false; }
    store.Add(docId, blocks);
    if survived < 4 { return false; }
    store.Delete(tempId);
    done := true;
  }

  /* One call */

  predicate EndsWith(s: seq<string>, blocks: seq<string>) {
    |s| >= |blocks| && s[|s| - |blocks|..] == blocks
  }

  // The blocks are whole in the document or in its copy; in a store that adds, older ones may stand before them there.
  predicate Survives(docs: Docs, mode: Mode, prefix: string, chat: string, blocks: seq<string>) {
    || Held(docs, MainId(prefix, chat)) == blocks
    || (var copy := Held(docs, CopyId(prefix, chat));
        if mode.Replacing? then copy == blocks else EndsWith(copy, blocks))
  }

  lemma IdsDiffer(prefix: string, chat: string)
    ensures MainId(prefix, chat) != CopyId(prefix, chat)
  {
    assert |CopyId(prefix, chat)| == |MainId(prefix, chat)| + 4;
  }

  /** From the first write on, the blocks of the call survive a crash after any write. */
  lemma WritesSurvive(docs: Docs, mode: Mode, prefix: string, chat: string, blocks: seq<string>, n: nat)
    requires n >= 1
    ensures Survives(AfterWrites(docs, mode, prefix, chat, blocks, n), mode, prefix, chat, blocks)
  {
    IdsDiffer(prefix, chat);
    var copy := CopyId(prefix, chat);
    var all := Held(docs, copy) + blocks;
    assert all[|all| - |blocks|..] == blocks;
  }

  /** A call that finishes leaves its own blocks and nothing else, whatever calls before it left behind. */
  lemma FinishedIsClean(docs: Docs, mode: Mode, prefix: string, chat: string, blocks: seq<string>)
    ensures var t := AfterWrites(docs, mode, prefix, chat, blocks, 4);
            && Held(t, MainId(prefix, chat)) == blocks && MainId(prefix, chat) in t
            && CopyId(prefix, chat) !in t
            && forall id | id != MainId(prefix, chat) && id != CopyId(prefix, chat) ::
                 (id in t <==> id in docs) && Held(t, id) == Held(docs, id)
  {
    IdsDiffer(prefix, chat);
  }

  /** In a store that adds, two calls that die after their first write leave both their blocks in the copy. */
  lemma CopyAccumulates(docs: Docs, prefix: string, chat: string, first: seq<string>, second: seq<string>)
    requires CopyId(prefix, chat) !in docs
    ensures var t := AfterWrites(AfterWrites(docs, Appending, prefix, chat, first, 1), Appending, prefix, chat, second,
                                 1);
            Held(t, CopyId(prefix, chat)) == first + second
  {
  }

  /* Calls for several chats */

  lemma SameTail(a: string, b: string, tail: string)
    requires a + tail == b + tail
    ensures a == b
  {
    assert |a| == |b|;
    assert a == (a + tail)[..|a|] && b == (b + tail)[..|b|];
  }

  lemma SameHead(head: string, a: string, b: string)
    requires head + a == head + b
    ensures a == b
  {
    assert a == (head + a)[|head|..] && b == (head + b)[|head|..];
  }

  // Ids of different chats meet only where one chat is called like the copy of the other.
  lemma IdsMeet(prefix: string, a: string, b: string)
    ensures MainId(prefix, a) == MainId(prefix, b) <==> a == b
    ensures CopyId(prefix, a) == CopyId(prefix, b) <==> a == b
    ensures MainId(prefix, a) == CopyId(prefix, b) <==> a == b + "_new"
  {
    var head := prefix + "session_";
    if MainId(prefix, a) == MainId(prefix, b) {
      SameHead(head, a, b);
    }
    if CopyId(prefix, a) == CopyId(prefix, b) {
      SameTail(MainId(prefix, a), MainId(prefix, b), "_new");
      SameHead(head, a, b);
    }
    assert head + (b + "_new") == (head + b) + "_new";
    if MainId(prefix, a) == CopyId(prefix, b) {
      SameHead(head, a, b + "_new");
    }
  }

  predicate Apart(a: string, b: string) {
    a != b + "_new" && b != a + "_new"
  }

  lemma OthersKept(
      docs: Docs, mode: Mode, prefix: string, chat: string, blocks: seq<string>, n: nat, other: string)
    requires chat != other && Apart(chat, other)
    ensures var t := AfterWrites(docs, mode, prefix, chat, blocks, n);
            Held(t, MainId(prefix, other)) == Held(docs, MainId(prefix, other))
            && Held(t, CopyId(prefix, other)) == Held(docs, CopyId(prefix, other))
  {
    IdsMeet(prefix, chat, other);
    IdsMeet(prefix, other, chat);
  }

  /** A chat called like another's copy loses its document whenever a call for the other finishes, and only such a chat
      does. */
  lemma NameClashLoses(
      docs: Docs, mode: Mode, prefix: string, chat: string, blocks: seq<string>, other: string)
    requires other != chat && MainId(prefix, other) in docs
    ensures MainId(prefix, other) !in AfterWrites(docs, mode, prefix, chat, blocks, 4) <==> other == chat + "_new"
  {
    IdsMeet(prefix, other, chat);
    IdsDiffer(prefix, chat);
  }

  /* Runs of calls */

  // A call and after how many of its writes it ended; four means it finished.
  datatype Attempt = Attempt(chat: string, blocks: seq<string>, writes: nat)

  function After(docs: Docs, mode: Mode, prefix: string, run: seq<Attempt>): Docs {
    if run == [] then docs
    else
      var last := run[|run| - 1];
      AfterWrites(After(docs, mode, prefix, run[..|run| - 1]), mode, prefix, last.chat, last.blocks, last.writes)
  }

  // The blocks of the last attempt for the chat that wrote anything.
  function Latest(run: seq<Attempt>, chat: string): Option<seq<string>> {
    if run == [] then None
    else
      var last := run[|run| - 1];
      if last.chat == chat && last.writes >= 1 then Some(last.blocks) else Latest(run[..|run| - 1], chat)
  }

  predicate ChatsApart(run: seq<Attempt>, chat: string) {
    forall i | 0 <= i < |run| :: Apart(run[i].chat, chat)
  }

  /** Over any run of calls, each cut off after any of its writes, for any chats of which none is called like another's
      copy: the blocks written last for a chat are whole in its document or in the copy. */
  lemma {:induction false} LatestSurvives(docs: Docs, mode: Mode, prefix: string, run: seq<Attempt>, chat: string)
    requires ChatsApart(run, chat) && Latest(run, chat).Some?
    ensures Survives(After(docs, mode, prefix, run), mode, prefix, chat, Latest(run, chat).value)
  {
    hide AfterWrites, Survives;
    var n := |run| - 1;
    var last, before := run[n], After(docs, mode, prefix, run[..n]);
    if last.chat == chat && last.writes >= 1 {
      WritesSurvive(before, mode, prefix, chat, last.blocks, last.writes);
    } else {
      LatestSurvives(docs, mode, prefix, run[..n], chat);
      SurvivesStep(before, mode, prefix, last, chat, Latest(run, chat).value);
    }
  }

  lemma SurvivesStep(docs: Docs, mode: Mode, prefix: string, last: Attempt, chat: string, blocks: seq<string>)
    requires Survives(docs, mode, prefix, chat, blocks) && Apart(last.chat, chat)
             && (last.chat == chat ==> last.writes == 0)
    ensures Survives(AfterWrites(docs, mode, prefix, last.chat, last.blocks, last.writes), mode, prefix, chat, blocks)
  {
    if last.chat != chat {
      hide AfterWrites;
      OthersKept(docs, mode, prefix, last.chat, last.blocks, last.writes, chat);
    }
  }
}
