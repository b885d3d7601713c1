/**
 * frontend/src/hooks/useClaimProcessor.ts: the client of the streaming
 * claim endpoint. The response body arrives as text chunks holding
 * newline-delimited JSON; the hook keeps the unfinished tail in a buffer,
 * decodes every complete non-blank line into a result, and keeps the list
 * of completed graph nodes without duplicates. The network is a parameter:
 * the status, whether a body reader exists, and the decoded chunks.
 */
module ClaimProcessor {
  import opened Common
  import opened Text

  /** One line of the stream: the graph node that finished and its output. */
  datatype StreamResult = StreamResult(node: string, data: string)

  /** `JSON.parse` of a trimmed line: the result, or None where it throws. */
  type Parse = string -> Option<StreamResult>

  /** What one line contributes: nothing when blank or unparseable, else its one result. */
  function Accept(line: string, parse: Parse): (r: seq<StreamResult>)
    ensures AllSpace(line) ==> r == []
    ensures |r| <= 1
  {
    var t := Trim(line);
    if t == "" then []
    else
      match parse(t)
      case Some(x) => [x]
      case None => []
  }

  /** How the hook reads one line. */
  function Reader(parse: Parse): string -> seq<StreamResult>
  {
    line => Accept(line, parse)
  }

  /** The results of a list of lines under a line reader, in line order. */
  function DecodeLines(lines: seq<string>, read: string -> seq<StreamResult>): seq<StreamResult>
  {
    if lines == [] then [] else read(lines[0]) + DecodeLines(lines[1..], read)
  }

  /** The results of a whole stream text: every newline-separated line, the unterminated last one included. */
  function Decode(text: string, parse: Parse): seq<StreamResult>
  {
    DecodeLines(Split(text, '\n'), Reader(parse))
  }

  /**
   * The results of the newline-terminated lines of a stream text only: what
   * the read loop has recorded when no final flush follows.
   */
  function DecodeComplete(text: string, parse: Parse): seq<StreamResult>
  {
    var p := Split(text, '\n');
    DecodeLines(p[..|p| - 1], Reader(parse))
  }

  /** The completed-node update: a node already listed is not added again. */
  function AddNode(nodes: seq<string>, node: string): seq<string>
  {
    if node in nodes then nodes else nodes + [node]
  }

  /** The completed nodes after a list of results. */
  function NodesOf(results: seq<StreamResult>): seq<string>
  {
    if results == [] then []
    else AddNode(NodesOf(results[..|results| - 1]), results[|results| - 1].node)
  }

  predicate Distinct(s: seq<string>)
  {
    forall i, j :: 0 <= i < j < |s| ==> s[i] != s[j]
  }

  /** The hook's state. */
  class ClaimProcessor {
    var isProcessing: bool
    var results: seq<StreamResult>
    var completedNodes: seq<string>

    predicate Valid()
      reads this
    {
      completedNodes == NodesOf(results)
    }

    constructor ()
      ensures Valid() && !isProcessing && results == [] && completedNodes == []
    {
      isProcessing := false;
      results := [];
      completedNodes := [];
    }

    /** `reset`. */
    method Reset()
      modifies this
      ensures Valid() && !isProcessing && results == [] && completedNodes == []
    {
      results := [];
      completedNodes := [];
      isProcessing := false;
    }

    /** One parsed line: append it to the results and its node to the completed nodes. */
    method Record(x: StreamResult)
      requires Valid()
      modifies this`results, this`completedNodes
      ensures Valid() && results == old(results) + [x]
    {
      assert (results + [x])[..|results|] == results;
      results := results + [x];
      completedNodes := if x.node in completedNodes then completedNodes else completedNodes + [x.node];
    }

    /**
     * One line: trimmed, skipped when blank, parsed, and recorded when it
     * parses (the loop body and the final flush do the same).
     */
    method ProcessLine(line: string, parse: Parse)
      requires Valid()
      modifies this`results, this`completedNodes
      ensures Valid() && results == old(results) + Accept(line, parse)
    {
      var trimmed := Trim(line);
      if trimmed != "" {
        var parsed := parse(trimmed);
        if parsed.Some? {
          Record(parsed.value);
        }
      }
    }

    /** The `for (const line of lines)` loop over the complete lines of one chunk. */
    method ProcessLines(lines: seq<string>, parse: Parse)
      requires Valid()
      modifies this`results, this`completedNodes
      ensures Valid() && results == old(results) + DecodeLines(lines, Reader(parse))
    {
      for j := 0 to |lines|
        invariant Valid() && results == old(results) + DecodeLines(lines[..j], Reader(parse))
      {
        DecodeLinesSnoc(lines, j, Reader(parse));
        ProcessLine(lines[j], parse);
      }
      assert lines[..|lines|] == lines;
    }

    /**
     * One turn of the read loop: the chunk is appended to the buffer, the
     * complete lines are processed and the unfinished last piece becomes
     * the buffer. `before` is the text read so far and `base` the results
     * from before the stream.
     */
    method ReadChunk(buffer: string, chunk: string, parse: Parse,
                     ghost before: string, ghost base: seq<StreamResult>) returns (buffer': string)
      requires Valid()
      requires var p := Split(before, '\n');
        buffer == p[|p| - 1] && results == base + DecodeLines(p[..|p| - 1], Reader(parse))
      modifies this`results, this`completedNodes
      ensures Valid()
      ensures var q := Split(before + chunk, '\n');
        buffer' == q[|q| - 1] && results == base + DecodeLines(q[..|q| - 1], Reader(parse))
    {
      ghost var results0 := results;
      var lines := Split(buffer + chunk, '\n');
      ProcessLines(lines[..|lines| - 1], parse);
      buffer' := lines[|lines| - 1];
      ChunkStep(before, chunk, lines, Reader(parse), base, results0, results);
    }

    /** The `while (true)` read loop over the chunks the reader delivers. */
    method ReadStream(chunks: seq<string>, parse: Parse) returns (buffer: string)
      requires Valid()
      modifies this`results, this`completedNodes
      ensures Valid()
      ensures var pieces := Split(Concat(chunks), '\n');
        buffer == pieces[|pieces| - 1]
        && results == old(results) + DecodeLines(pieces[..|pieces| - 1], Reader(parse))
    {
      buffer := "";
      for i := 0 to |chunks|
        invariant Valid()
        invariant var pieces := Split(Concat(chunks[..i]), '\n');
          buffer == pieces[|pieces| - 1]
          && results == old(results) + DecodeLines(pieces[..|pieces| - 1], Reader(parse))
      {
        assert chunks[..i + 1][..i] == chunks[..i];
        assert Concat(chunks[..i + 1]) == Concat(chunks[..i]) + chunks[i];
        buffer := ReadChunk(buffer, chunks[i], parse, Concat(chunks[..i]), old(results));
      }
      assert chunks[..|chunks|] == chunks;
    }

    /**
     * `processClaim` once the request is sent: `ok` is `response.ok`,
     * `hasReader` whether the body has a reader, `chunks` the decoded
     * chunks the reader delivers, and `readFails` whether the read after
     * them rejects instead of reporting `done`. A failed status or a
     * missing reader throws before any result; a rejected read leaves the
     * loop for the `catch` with the results recorded so far and skips the
     * final flush; `finally` clears the flag in every case.
     */
    method ProcessClaim(ok: bool, hasReader: bool, chunks: seq<string>, readFails: bool, parse: Parse)
      modifies this
      ensures Valid() && !isProcessing
      ensures results ==
        if !(ok && hasReader) then []
        else if readFails then DecodeComplete(Concat(chunks), parse)
        else Decode(Concat(chunks), parse)
    {
      Reset();
      isProcessing := true;
      if ok && hasReader {
        if readFails {
          var buffer := ReadStream(chunks, parse);
        } else {
          ReadAll(chunks, parse);
        }
      }
      isProcessing := false;
    }

    /** The read loop followed by the flush of the final buffer. */
    method ReadAll(chunks: seq<string>, parse: Parse)
      requires Valid()
      modifies this`results, this`completedNodes
      ensures Valid() && results == old(results) + Decode(Concat(chunks), parse)
    {
      ghost var results0 := results;
      var buffer := ReadStream(chunks, parse);
      ghost var results1 := results;
      ProcessLine(buffer, parse);
      FlushResults(Concat(chunks), parse, results0, results1, results, buffer);
    }
  }

  // ------------------------------------------------------------ properties

  /** Decoding distributes over a split of the line list. */
  lemma {:induction false} DecodeLinesAppend(a: seq<string>, b: seq<string>, read: string -> seq<StreamResult>)
    ensures DecodeLines(a + b, read) == DecodeLines(a, read) + DecodeLines(b, read)
  {
    if a == [] {
      assert a + b == b;
    } else {
      assert (a + b)[0] == a[0] && (a + b)[1..] == a[1..] + b;
      DecodeLinesAppend(a[1..], b, read);
    }
  }

  /** Decoding one more line. */
  lemma DecodeLinesSnoc(lines: seq<string>, j: nat, read: string -> seq<StreamResult>)
    requires j < |lines|
    ensures DecodeLines(lines[..j + 1], read) == DecodeLines(lines[..j], read) + read(lines[j])
  {
    assert lines[..j + 1] == lines[..j] + [lines[j]];
    DecodeLinesAppend(lines[..j], [lines[j]], read);
  }

  /**
   * One chunk: the complete lines of (the buffer + the chunk) extend the
   * complete lines of the text so far, and their unfinished last piece is
   * the unfinished last piece of the longer text.
   */
  lemma ChunkLines(before: string, chunk: string, p: seq<string>, lines: seq<string>, q: seq<string>)
    requires p == Split(before, '\n') && q == Split(before + chunk, '\n')
    requires lines == Split(p[|p| - 1] + chunk, '\n')
    ensures q[|q| - 1] == lines[|lines| - 1] && q[..|q| - 1] == p[..|p| - 1] + lines[..|lines| - 1]
  {
    SplitAppend(before, chunk, '\n');
    AppendDropLast(q, p[..|p| - 1], lines);
  }

  /**
   * One turn of the read loop on the texts: from the split of the text read
   * so far, processing the complete lines of buffer + chunk leaves the
   * results and the buffer of the split of the longer text.
   */
  lemma ChunkStep(before: string, chunk: string, lines: seq<string>, read: string -> seq<StreamResult>,
                  base: seq<StreamResult>, results0: seq<StreamResult>, results1: seq<StreamResult>)
    requires var p := Split(before, '\n');
      lines == Split(p[|p| - 1] + chunk, '\n') && results0 == base + DecodeLines(p[..|p| - 1], read)
    requires results1 == results0 + DecodeLines(lines[..|lines| - 1], read)
    ensures var q := Split(before + chunk, '\n');
      lines[|lines| - 1] == q[|q| - 1] && results1 == base + DecodeLines(q[..|q| - 1], read)
  {
    var p := Split(before, '\n');
    ChunkLines(before, chunk, p, lines, Split(before + chunk, '\n'));
    ResultsStep(p[..|p| - 1], lines[..|lines| - 1], read, base, results0, results1);
  }

  /** The last element of `s == a + b`, and what comes before it, when `b` is not empty. */
  lemma AppendDropLast<T>(s: seq<T>, a: seq<T>, b: seq<T>)
    requires s == a + b && |b| >= 1
    ensures s[..|s| - 1] == a + b[..|b| - 1] && s[|s| - 1] == b[|b| - 1]
  {
  }

  /** The results bookkeeping of one turn of the read loop: decoding more lines extends the results. */
  lemma ResultsStep(done: seq<string>, more: seq<string>, read: string -> seq<StreamResult>,
                    base: seq<StreamResult>, results0: seq<StreamResult>, results1: seq<StreamResult>)
    requires results0 == base + DecodeLines(done, read)
    requires results1 == results0 + DecodeLines(more, read)
    ensures results1 == base + DecodeLines(done + more, read)
  {
    var d1, d2 := DecodeLines(done, read), DecodeLines(more, read);
    calc {
      results1;
      base + d1 + d2;
      base + (d1 + d2);
      { DecodeLinesAppend(done, more, read); }
      base + DecodeLines(done + more, read);
    }
  }

  /** The final flush: the leftover buffer is read like any other line. */
  lemma FinalFlush(text: string, read: string -> seq<StreamResult>)
    ensures var p := Split(text, '\n');
      DecodeLines(p, read) == DecodeLines(p[..|p| - 1], read) + read(p[|p| - 1])
  {
    var p := Split(text, '\n');
    assert p == p[..|p| - 1] + [p[|p| - 1]];
    DecodeLinesAppend(p[..|p| - 1], [p[|p| - 1]], read);
  }

  /**
   * A read that rejects keeps a prefix of what the finished stream would
   * have given: everything but the final buffer's result, which is at most
   * one result.
   */
  lemma FailedReadLosesOnlyFlush(text: string, parse: Parse)
    ensures var p := Split(text, '\n');
      Decode(text, parse) == DecodeComplete(text, parse) + Accept(p[|p| - 1], parse)
    ensures |Decode(text, parse)| <= |DecodeComplete(text, parse)| + 1
  {
    var p := Split(text, '\n');
    FinalFlush(text, Reader(parse));
    assert Reader(parse)(p[|p| - 1]) == Accept(p[|p| - 1], parse);
  }

  /** The bookkeeping of the final flush, stated on the method's own variables. */
  lemma FlushResults(text: string, parse: Parse, results0: seq<StreamResult>, results1: seq<StreamResult>,
                     results2: seq<StreamResult>, buffer: string)
    requires var p := Split(text, '\n');
      buffer == p[|p| - 1] && results1 == results0 + DecodeLines(p[..|p| - 1], Reader(parse))
    requires results2 == results1 + Accept(buffer, parse)
    ensures results2 == results0 + Decode(text, parse)
  {
    FinalFlush(text, Reader(parse));
    var p := Split(text, '\n');
    var done := DecodeLines(p[..|p| - 1], Reader(parse));
    assert Reader(parse)(buffer) == Accept(buffer, parse);
    assert results0 + done + Accept(buffer, parse) == results0 + (done + Accept(buffer, parse));
  }

  /** A non-blank line whose trimmed text parses contributes exactly its result. */
  lemma AcceptParsed(line: string, parse: Parse)
    requires !AllSpace(line) && parse(Trim(line)).Some?
    ensures Reader(parse)(line) == [parse(Trim(line)).value]
  {
  }

  /** A blank line, or one that does not parse, contributes nothing. */
  lemma AcceptSkips(line: string, parse: Parse)
    requires AllSpace(line) || parse(Trim(line)).None?
    ensures Reader(parse)(line) == []
  {
  }

  /** A line that contributes nothing is skipped, and the lines after it are still decoded. */
  lemma SkippedLine(a: seq<string>, line: string, b: seq<string>, read: string -> seq<StreamResult>)
    requires read(line) == []
    ensures DecodeLines(a + [line] + b, read) == DecodeLines(a, read) + DecodeLines(b, read)
  {
    DecodeLinesAppend(a + [line], b, read);
    DecodeLinesAppend(a, [line], read);
    assert [line][..0] == [];
  }

  /** The completed nodes are the nodes of the results, each listed once. */
  lemma {:induction false} NodesOfFacts(results: seq<StreamResult>)
    ensures Distinct(NodesOf(results))
    ensures forall n :: n in NodesOf(results) <==> exists k :: 0 <= k < |results| && results[k].node == n
  {
    if results != [] {
      var m := |results| - 1;
      var init := results[..m];
      NodesOfFacts(init);
      forall n ensures n in NodesOf(results) <==> exists k :: 0 <= k < |results| && results[k].node == n {
        if n in NodesOf(init) {
          var k :| 0 <= k < |init| && init[k].node == n;
          assert results[k].node == n;
        }
        if exists k :: 0 <= k < |results| && results[k].node == n {
          var k :| 0 <= k < |results| && results[k].node == n;
          if k < m {
            assert init[k].node == n;
          }
        }
      }
    }
  }

  /**
   * Later results never move a node already listed: the completed nodes of
   * a prefix of the results are a prefix of the completed nodes, so each
   * node keeps the place of its first occurrence.
   */
  lemma {:induction false} NodesOfGrowsAtEnd(a: seq<StreamResult>, b: seq<StreamResult>)
    ensures NodesOf(a) <= NodesOf(a + b)
  {
    if b != [] {
      var n := |b| - 1;
      assert (a + b)[..|a + b| - 1] == a + b[..n];
      NodesOfGrowsAtEnd(a, b[..n]);
    } else {
      assert a + b == a;
    }
  }
}
