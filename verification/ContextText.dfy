/** The texts a context is made of: blocks joined to sections, sections joined to the prompt, and a block cut at a
    word. What each of them reads like is said without the functions that make them. */
module ContextText {
  // How texts are counted, split into words and headed.
  datatype Texts = Texts(count: string -> nat, split: string -> seq<string>, sessionHeader: string)

  function Join(separator: string, parts: seq<string>): string {
    if parts == [] then ""
    else if |parts| == 1 then parts[0]
    else parts[0] + separator + Join(separator, parts[1..])
  }

  function AssemblePrompt(
      texts: Texts, system: string, profile: string, rag: seq<string>, session: seq<string>): string
  {
    Join("\n\n",
         (if system != "" then [system] else [])
         + (if profile != "" then [profile] else [])
         + (if rag != [] then [Join("\n\n---\n\n", rag)] else [])
         + (if session != [] then [texts.sessionHeader + "\n" + Join("\n---\n", session)] else []))
  }

  function CutText(words: seq<string>, k: nat): string
    requires k <= |words|
  {
    if k == 0 then "" else Join(" ", words[..k]) + "…"
  }

  /* Reading a joined text */

  // The text is the pieces in their order, with the gap between each two neighbours and nothing else.
  ghost predicate Spells(text: string, gap: string, pieces: seq<string>) {
    if |pieces| <= 1 then
      text == if pieces == [] then "" else pieces[0]
    else
      var n := |pieces[0]|;
      && pieces[0] <= text && n + |gap| <= |text| && text[n..n + |gap|] == gap
      && Spells(text[n + |gap|..], gap, pieces[1..])
  }

  lemma {:induction false} JoinSpells(gap: string, pieces: seq<string>)
    ensures Spells(Join(gap, pieces), gap, pieces)
  {
    if |pieces| > 1 {
      var rest := Join(gap, pieces[1..]);
      JoinSpells(gap, pieces[1..]);
      var n := |pieces[0]|;
      var text := pieces[0] + gap + rest;
      assert text[..n] == pieces[0] && text[n..n + |gap|] == gap && text[n + |gap|..] == rest;
    }
  }

  /** Pieces and gap leave no choice of the text. */
  lemma {:induction false} OneSpelling(a: string, b: string, gap: string, pieces: seq<string>)
    requires Spells(a, gap, pieces) && Spells(b, gap, pieces)
    ensures a == b
  {
    if |pieces| > 1 {
      var n := |pieces[0]|;
      OneSpelling(a[n + |gap|..], b[n + |gap|..], gap, pieces[1..]);
      assert a == a[..n] + a[n..n + |gap|] + a[n + |gap|..];
      assert b == b[..n] + b[n..n + |gap|] + b[n + |gap|..];
    }
  }

  /** The first of the pieces spell the beginning of what all of them spell. */
  lemma {:induction false} PrefixSpelling(a: string, b: string, gap: string, pieces: seq<string>, m: nat)
    requires m <= |pieces| && Spells(a, gap, pieces[..m]) && Spells(b, gap, pieces)
    ensures a <= b
  {
    if m > 1 {
      var n := |pieces[0]|;
      assert pieces[..m][1..] == pieces[1..][..m - 1];
      PrefixSpelling(a[n + |gap|..], b[n + |gap|..], gap, pieces[1..], m - 1);
      PrefixInParts(a, b, n, |gap|);
    }
  }

  lemma PrefixInParts(a: seq<char>, b: seq<char>, n: nat, g: nat)
    requires n + g <= |a| && n + g <= |b| && a[..n] == b[..n] && a[n..n + g] == b[n..n + g]
    requires a[n + g..] <= b[n + g..]
    ensures a <= b
  {
    assert a == a[..n] + a[n..n + g] + a[n + g..] && b == b[..n] + b[n..n + g] + b[n + g..];
  }

  /* Reading a cut */

  // The first m words with one blank between neighbours, and an ellipsis; without it the beginning of all the words.
  ghost predicate IsCutOf(text: string, words: seq<string>, m: nat) {
    && 0 < m <= |words| && text != "" && text[|text| - 1] == '…'
    && var kept := text[..|text| - 1];
       && Spells(kept, " ", words[..m])
       && forall line {:trigger Spells(line, " ", words)} | Spells(line, " ", words) :: kept <= line
  }

  lemma CutIs(words: seq<string>, m: nat)
    requires 0 < m <= |words|
    ensures IsCutOf(CutText(words, m), words, m)
  {
    var kept := Join(" ", words[..m]);
    JoinSpells(" ", words[..m]);
    assert CutText(words, m)[..|kept|] == kept;
    forall line | Spells(line, " ", words)
      ensures kept <= line
    {
      PrefixSpelling(kept, line, " ", words, m);
    }
  }

  /** There is one such cut, and some line that all the words spell. */
  lemma {:induction false} OneCut(text: string, words: seq<string>, m: nat)
    requires IsCutOf(text, words, m)
    ensures text == CutText(words, m) && exists line :: Spells(line, " ", words) && text[..|text| - 1] <= line
  {
    CutIs(words, m);
    var other := CutText(words, m);
    OneSpelling(text[..|text| - 1], other[..|other| - 1], " ", words[..m]);
    assert text == text[..|text| - 1] + "…" && other == other[..|other| - 1] + "…";
    JoinSpells(" ", words);
  }

  /* Reading a prompt */

  // The sections of a prompt, those that are there, in this order: the system prompt, the profile, the retrieved blocks
  // with rules between them, and under a header of their own the blocks of the session.
  ghost predicate AreSections(
      parts: seq<string>, texts: Texts, system: string, profile: string, rag: seq<string>, session: seq<string>)
  {
    var a := if system == "" then 0 else 1;
    var b := a + if profile == "" then 0 else 1;
    var c := b + if rag == [] then 0 else 1;
    && |parts| == c + (if session == [] then 0 else 1)
    && (system != "" ==> parts[0] == system)
    && (profile != "" ==> parts[a] == profile)
    && (rag != [] ==> Spells(parts[b], "\n\n---\n\n", rag))
    && (session != [] ==>
          var n := |texts.sessionHeader|;
          && |parts[c]| > n && parts[c][..n] == texts.sessionHeader && parts[c][n] == '\n'
          && Spells(parts[c][n + 1..], "\n---\n", session))
  }

  // The prompt is its sections, each one blank line below the one before.
  ghost predicate PromptReads(
      prompt: string, texts: Texts, system: string, profile: string, rag: seq<string>, session: seq<string>)
  {
    exists parts :: Spells(prompt, "\n\n", parts) && AreSections(parts, texts, system, profile, rag, session)
  }

  lemma SectionsAre(texts: Texts, system: string, profile: string, rag: seq<string>, session: seq<string>)
    returns (parts: seq<string>)
    ensures AreSections(parts, texts, system, profile, rag, session)
    ensures AssemblePrompt(texts, system, profile, rag, session) == Join("\n\n", parts)
  {
    hide Spells, Join;
    var a := if system != "" then [system] else [];
    var b := if profile != "" then [profile] else [];
    var c := if rag != [] then [Join("\n\n---\n\n", rag)] else [];
    var d := if session != [] then [texts.sessionHeader + "\n" + Join("\n---\n", session)] else [];
    parts := a + b + c + d;
    InTurn(a, b, c, d);
    JoinSpells("\n\n---\n\n", rag);
    JoinSpells("\n---\n", session);
    Headed(texts.sessionHeader, Join("\n---\n", session));
  }

  lemma InTurn(a: seq<string>, b: seq<string>, c: seq<string>, d: seq<string>)
    ensures var s := a + b + c + d;
            && |s| == |a| + |b| + |c| + |d|
            && (a != [] ==> s[0] == a[0]) && (b != [] ==> s[|a|] == b[0])
            && (c != [] ==> s[|a| + |b|] == c[0]) && (d != [] ==> s[|a| + |b| + |c|] == d[0])
  {
  }

  lemma Headed(header: string, blocks: string)
    ensures var s := header + "\n" + blocks;
            |s| > |header| && s[..|header|] == header && s[|header|] == '\n' && s[|header| + 1..] == blocks
  {
  }

  /** The prompt that is assembled reads that way. */
  lemma AssembledReads(texts: Texts, system: string, profile: string, rag: seq<string>, session: seq<string>)
    ensures PromptReads(AssemblePrompt(texts, system, profile, rag, session), texts, system, profile, rag, session)
  {
    hide AssemblePrompt, AreSections;
    var parts := SectionsAre(texts, system, profile, rag, session);
    JoinSpells("\n\n", parts);
  }

  /** And no other one does. */
  lemma OnePrompt(
      prompt: string, texts: Texts, system: string, profile: string, rag: seq<string>, session: seq<string>)
    requires PromptReads(prompt, texts, system, profile, rag, session)
    ensures prompt == AssemblePrompt(texts, system, profile, rag, session)
  {
    hide AssemblePrompt, AreSections;
    var read :| Spells(prompt, "\n\n", read) && AreSections(read, texts, system, profile, rag, session);
    var parts := SectionsAre(texts, system, profile, rag, session);
    SameSections(read, parts, texts, system, profile, rag, session);
    JoinSpells("\n\n", parts);
    OneSpelling(prompt, Join("\n\n", parts), "\n\n", parts);
  }

  lemma SameSections(
      p: seq<string>, q: seq<string>, texts: Texts, system: string, profile: string, rag: seq<string>,
      session: seq<string>)
    requires AreSections(p, texts, system, profile, rag, session)
    requires AreSections(q, texts, system, profile, rag, session)
    ensures p == q
  {
    hide Spells;
    var b := (if system == "" then 0 else 1) + (if profile == "" then 0 else 1);
    var c := b + if rag == [] then 0 else 1;
    if rag != [] {
      OneSpelling(p[b], q[b], "\n\n---\n\n", rag);
    }
    if session != [] {
      var n := |texts.sessionHeader|;
      OneSpelling(p[c][n + 1..], q[c][n + 1..], "\n---\n", session);
      assert p[c] == p[c][..n] + [p[c][n]] + p[c][n + 1..];
      assert q[c] == q[c][..n] + [q[c][n]] + q[c][n + 1..];
    }
  }
}
