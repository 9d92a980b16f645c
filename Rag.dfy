/**
 * Prompt assembly for retrieval-augmented answers (Rag.py): the retrieved
 * chunks, in retrieval order, are labelled and joined under a header, and the
 * result is wrapped between the user's question and a fixed instruction.
 *
 * Retrieval itself (`similarity_search`) is not part of this model: its
 * result arrives here as the sequence of the chunks' texts.
 */
module Rag {
  import opened Text

  /**
   * How many retrieved chunks are used. Retrieval asks for ten
   * (`top_k=10`), but only the first three reach the context.
   */
  const UsedResults: nat := 3

  const Title := "Search results from documents:"
  const Header := Title + "\n"
  // " # Instructions: Use the search results to answer the user's query.", in
  // pieces short enough for the verifier to see that it holds no newline
  const InstructionLine := " # Instructions:" + " Use the search" + " results to" + " answer the" + " user's query."

  /** `chunks[:3]`: the retrieved chunks that make it into the context. */
  function UsedChunks(chunks: seq<string>): seq<string>
  {
    if |chunks| <= UsedResults then chunks else chunks[..UsedResults]
  }

  /** The label line of the `n`-th result. */
  function Label(n: nat): string
  {
    "# Result " + Decimal(n)
  }

  /** `[f"# Result {n}\n" + text for n, text in enumerate(texts, from)]` */
  function ResultParts(texts: seq<string>, from: nat): seq<string>
    decreases |texts|
  {
    if |texts| == 0 then []
    else [Label(from) + "\n" + texts[0]] + ResultParts(texts[1..], from + 1)
  }

  /** `"Search results from documents:\n" + "\n".join(parts)` over the first three chunks. */
  function Context(chunks: seq<string>): string
  {
    Header + Join(ResultParts(UsedChunks(chunks), 0), "\n")
  }

  /** The text handed to the language model. */
  function Prompt(query: string, chunks: seq<string>): string
  {
    "User asks: " + query + "\n" + Context(chunks) + "\n" + InstructionLine
  }

  /** The lines of the labelled results: each label followed by its chunk's text. */
  function ResultLines(texts: seq<string>, from: nat): seq<string>
    decreases |texts|
  {
    if |texts| == 0 then [] else [Label(from), texts[0]] + ResultLines(texts[1..], from + 1)
  }

  /**
   * The lines of the context: the title, then label and text of each used
   * chunk; with no chunk, the header's newline leaves one empty line.
   */
  function ContextLines(chunks: seq<string>): seq<string>
  {
    var used := UsedChunks(chunks);
    if |used| == 0 then [Title, ""] else [Title] + ResultLines(used, 0)
  }

  /** At most three chunks are used, the first ones in retrieval order. */
  lemma UsedChunksArePrefix(chunks: seq<string>)
    ensures var used := UsedChunks(chunks);
      && |used| == (if |chunks| < UsedResults then |chunks| else UsedResults)
      && used == chunks[..|used|]
  {
  }

  /** Result `i` of a run numbered from `from` is labelled `from + i` and carries text `i`. */
  lemma {:induction false} ResultPartAt(texts: seq<string>, from: nat, i: nat)
    requires i < |texts|
    ensures |ResultParts(texts, from)| == |texts|
    ensures ResultParts(texts, from)[i] == "# Result " + Decimal(from + i) + "\n" + texts[i]
    decreases |texts|
  {
    if i > 0 {
      ResultPartAt(texts[1..], from + 1, i - 1);
    } else if |texts| > 1 {
      ResultPartAt(texts[1..], from + 1, 0);
    }
  }

  /** The lines of the results alternate label `from + i` and text `i`. */
  lemma {:induction false} ResultLineAt(texts: seq<string>, from: nat, i: nat)
    requires i < |texts|
    ensures |ResultLines(texts, from)| == 2 * |texts|
    ensures ResultLines(texts, from)[2 * i] == Label(from + i)
    ensures ResultLines(texts, from)[2 * i + 1] == texts[i]
    decreases |texts|
  {
    if i > 0 {
      ResultLineAt(texts[1..], from + 1, i - 1);
    } else if |texts| > 1 {
      ResultLineAt(texts[1..], from + 1, 0);
    }
  }

  /** Joining the labelled parts is joining their lines. */
  lemma {:induction false} JoinResultParts(texts: seq<string>, from: nat)
    requires |texts| >= 1
    ensures Join(ResultParts(texts, from), "\n") == Join(ResultLines(texts, from), "\n")
    decreases |texts|
  {
    var pair := [Label(from), texts[0]];
    if |texts| == 1 {
      assert ResultLines(texts, from) == pair;
    } else {
      JoinResultParts(texts[1..], from + 1);
      JoinAppend(pair, ResultLines(texts[1..], from + 1), "\n");
    }
  }

  /** The context is its lines joined with newlines. */
  lemma ContextIsItsLines(chunks: seq<string>)
    ensures Context(chunks) == Join(ContextLines(chunks), "\n")
  {
    var used := UsedChunks(chunks);
    if |used| > 0 {
      JoinResultParts(used, 0);
      var lines := ContextLines(chunks);
      assert lines[1..] == ResultLines(used, 0);
    }
  }

  /** With no chunk at all, the context is exactly the header. */
  lemma EmptyContextIsHeader()
    ensures Context([]) == Header
  {
  }

  /** Chunks after the third one have no influence on the context. */
  lemma LaterChunksIgnored(chunks: seq<string>, more: seq<string>)
    requires |chunks| >= UsedResults
    ensures Context(chunks + more) == Context(chunks)
  {
    assert UsedChunks(chunks + more) == chunks[..UsedResults] == UsedChunks(chunks);
  }

  /** No label line contains a newline. */
  lemma {:induction false} ResultLinesSingleLine(texts: seq<string>, from: nat)
    requires forall i :: 0 <= i < |texts| ==> '\n' !in texts[i]
    ensures forall j :: 0 <= j < |ResultLines(texts, from)| ==> '\n' !in ResultLines(texts, from)[j]
    decreases |texts|
  {
    if |texts| > 0 {
      ResultLinesSingleLine(texts[1..], from + 1);
      var d := Decimal(from);
      assert '\n' !in d;
      var lines := ResultLines(texts, from);
      forall j | 0 <= j < |lines| ensures '\n' !in lines[j] {
        if j >= 2 {
          assert lines[j] == ResultLines(texts[1..], from + 1)[j - 2];
        }
      }
    }
  }

  /** The fixed texts of the prompt hold no newline. */
  lemma FixedLinesAreSingleLines()
    ensures '\n' !in Title && '\n' !in InstructionLine
  {
    assert '\n' !in " # Instructions:" && '\n' !in " Use the search" && '\n' !in " results to";
    assert '\n' !in " answer the" && '\n' !in " user's query.";
    var f, g := "Search results", " from documents:";
    assert '\n' !in f && '\n' !in g;
    assert Title == f + g;
  }

  /**
   * When the question and the used chunks are single lines, the prompt's lines
   * are: the question line, the title, label "# Result n" and the text of
   * chunk n for each of the first min(3, |chunks|) chunks in order (or one empty
   * line when there is none), and the instruction line.
   */
  lemma PromptLines(query: string, chunks: seq<string>)
    requires '\n' !in query
    requires forall i :: 0 <= i < |chunks| ==> '\n' !in chunks[i]
    ensures var lines := Split(Prompt(query, chunks), '\n');
      lines == ["User asks: " + query] + ContextLines(chunks) + [InstructionLine]
  {
    var used := UsedChunks(chunks);
    var cl := ContextLines(chunks);
    var all := ["User asks: " + query] + cl + [InstructionLine];
    ContextIsItsLines(chunks);
    JoinAppend(["User asks: " + query], cl, "\n");
    JoinAppend(["User asks: " + query] + cl, [InstructionLine], "\n");
    assert Prompt(query, chunks) == Join(all, "\n");
    if |used| > 0 {
      ResultLinesSingleLine(used, 0);
      assert cl[1..] == ResultLines(used, 0);
    }
    forall j | 0 <= j < |all| ensures '\n' !in all[j] {
      if j == 0 {
        assert all[0] == "User asks: " + query;
        assert '\n' !in "User asks: ";
        assert '\n' !in all[0];
      } else if j == |all| - 1 {
        assert all[j] == InstructionLine;
        FixedLinesAreSingleLines();
      } else {
        assert all[j] == cl[j - 1];
        if j == 1 {
          assert cl[0] == Title;
          FixedLinesAreSingleLines();
        } else if |used| > 0 {
          assert cl[j - 1] == ResultLines(used, 0)[j - 2];
          assert '\n' !in cl[j - 1];
        } else {
          assert cl[j - 1] == "";
        }
      }
    }
    SplitJoin(all, '\n');
  }

  /**
   * Consequently the context of single-line chunks carries exactly
   * min(3, |chunks|) results, labelled 0, 1, 2 in retrieval order, each
   * label line followed by its chunk's text.
   */
  lemma ContextResults(chunks: seq<string>, i: nat)
    requires |chunks| >= 1
    requires forall j :: 0 <= j < |chunks| ==> '\n' !in chunks[j]
    requires i < |UsedChunks(chunks)|
    ensures var lines := Split(Context(chunks), '\n');
      && |lines| == 1 + 2 * |UsedChunks(chunks)|
      && lines[0] == Title
      && lines[1 + 2 * i] == "# Result " + Decimal(i)
      && lines[2 + 2 * i] == chunks[i]
  {
    var used := UsedChunks(chunks);
    var cl := ContextLines(chunks);
    ContextIsItsLines(chunks);
    ResultLinesSingleLine(used, 0);
    ResultLineAt(used, 0, i);
    assert cl[1..] == ResultLines(used, 0);
    forall j | 0 <= j < |cl| ensures '\n' !in cl[j] {
      if j >= 1 {
        assert cl[j] == ResultLines(used, 0)[j - 1];
      }
    }
    SplitJoin(cl, '\n');
  }
}
