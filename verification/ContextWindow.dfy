/** buildContextWindow (rag.service.ts): as many chunk blocks as fit into the prompt. */
module ContextWindow {
  import opened Texts

  const MAX_CONTEXT_CHARS := 12_000
  const MAX_BODY := 1500
  const SEPARATOR := "\n\n"

  // A retrieved chunk; the type is already in capitals and the similarity written with three decimals.
  datatype Chunk = Chunk(entityType: string, entityId: string, similarity: string, content: string)

  function Block(i: nat, chunk: Chunk): string {
    "[" + Decimal(i + 1) + "] " + chunk.entityType + " (id: " + chunk.entityId + ", similarity: " + chunk.similarity
      + ")\n"
    + if |chunk.content| > MAX_BODY then chunk.content[..MAX_BODY] else chunk.content
  }

  // What a block shows: its number, the type, and the first 1500 characters of the content at its end.
  lemma BlockShows(i: nat, chunk: Chunk)
    ensures var block := Block(i, chunk);
      var shown := if |chunk.content| <= 1500 then chunk.content else chunk.content[..1500];
      var title := "[" + Decimal(i + 1) + "] " + chunk.entityType + " (id: " + chunk.entityId;
      && |shown| <= |block| && block[|block| - |shown|..] == shown
      && |block| == |title| + |", similarity: "| + |chunk.similarity| + 2 + |shown|
      && title <= block
  {
    hide Decimal;
  }

  function Blocks(chunks: seq<Chunk>): (blocks: seq<string>)
    ensures |blocks| == |chunks| && forall i :: 0 <= i < |chunks| ==> blocks[i] == Block(i, chunks[i])
  {
    if chunks == [] then [] else Blocks(chunks[..|chunks| - 1]) + [Block(|chunks| - 1, chunks[|chunks| - 1])]
  }

  // The text of the first n blocks.
  function Window(chunks: seq<Chunk>, n: nat): string
    requires n <= |chunks|
  {
    Join(Blocks(chunks)[..n], SEPARATOR)
  }

  // What the loop counts: every block with a separator behind it.
  function Counted(blocks: seq<string>): nat {
    if blocks == [] then 0 else Counted(blocks[..|blocks| - 1]) + |blocks[|blocks| - 1]| + 2
  }

  lemma {:induction false} JoinedLength(blocks: seq<string>)
    ensures |Join(blocks, SEPARATOR)| == if blocks == [] then 0 else Counted(blocks) - 2
  {
    if |blocks| > 1 {
      JoinedLength(blocks[..|blocks| - 1]);
    } else if |blocks| == 1 {
      assert blocks[..0] == [];
    }
  }

  lemma NothingCounted()
    ensures Counted([]) == 0
  {
  }

  lemma OneMoreCounted(blocks: seq<string>, block: string)
    ensures Counted(blocks + [block]) == Counted(blocks) + |block| + 2
  {
    assert (blocks + [block])[..|blocks|] == blocks;
  }

  lemma {:induction false} WindowsGrow(chunks: seq<Chunk>, n: nat, m: nat)
    requires n <= m <= |chunks|
    ensures |Window(chunks, n)| <= |Window(chunks, m)|
    decreases m - n
  {
    if n < m {
      var blocks := Blocks(chunks);
      assert blocks[..m][..m - 1] == blocks[..m - 1];
      JoinedLength(blocks[..m]);
      JoinedLength(blocks[..m - 1]);
      WindowsGrow(chunks, n, m - 1);
    }
  }

  // The window is the joined text of the first n blocks, it fits, and no more blocks would: the text of any number of
  // blocks fits exactly when there are no more than n of them.
  method BuildContextWindow(chunks: seq<Chunk>) returns (text: string, n: nat)
    ensures n <= |chunks| && text == Window(chunks, n)
    ensures forall m :: 0 <= m <= |chunks| ==> (|Window(chunks, m)| <= 12_000 <==> m <= n)
  {
    hide Block, Counted;
    NothingCounted();
    var lines: seq<string> := [];
    var charCount := 0;
    ghost var blocks := Blocks(chunks);
    ghost var full := false;
    for i := 0 to |chunks|
      invariant |lines| <= i && lines == blocks[..|lines|]
      invariant charCount == Counted(lines)
      invariant |Window(chunks, |lines|)| <= MAX_CONTEXT_CHARS
      invariant !full && |lines| == i
    {
      var block := Block(i, chunks[i]);
      assert blocks[..i + 1] == lines + [block] && (lines + [block])[..i] == lines;
      JoinedLength(lines + [block]);
      OneMoreCounted(lines, block);
      if charCount + |block| > MAX_CONTEXT_CHARS {
        full := true;
        break;
      }
      lines := lines + [block];
      charCount := charCount + |block| + 2;
    }
    text, n := Join(lines, SEPARATOR), |lines|;
    forall m | 0 <= m <= |chunks| ensures |Window(chunks, m)| <= MAX_CONTEXT_CHARS <==> m <= n {
      if m <= n {
        WindowsGrow(chunks, m, n);
      } else {
        assert full;
        WindowsGrow(chunks, n + 1, m);
      }
    }
  }
}
