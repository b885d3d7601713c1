/**
 * chat_ai.py: the claim chat's bounded conversation memory. Each question
 * is sent with the earlier exchanges rendered in front of it; afterwards
 * the history keeps its last nine exchanges and the new one is appended.
 * The language model is a parameter.
 */
module ChatAi {
  import opened Common
  import opened Text

  /** One `(question, response)` pair of `chat_history`. */
  datatype Exchange = Exchange(question: string, answer: string)

  /** How one exchange is rendered into the prompt. */
  function EntryText(e: Exchange): string
  {
    "User: " + e.question + "\nAssistant: " + e.answer
  }

  function Entries(h: seq<Exchange>): (r: seq<string>)
    ensures |r| == |h| && forall k :: 0 <= k < |h| ==> r[k] == EntryText(h[k])
  {
    seq(|h|, k requires 0 <= k < |h| => EntryText(h[k]))
  }

  /** `history_str`: the entries joined by newlines, with a newline after the last one. */
  function HistoryString(h: seq<Exchange>): (r: string)
    ensures r == "" <==> h == []
    ensures h != [] ==> r[|r| - 1] == '\n'
  {
    var parts := Entries(h);
    var joined := Join(parts, "\n");
    assert h != [] ==> |joined| >= |EntryText(h[0])| by {
      if h != [] && |parts| > 1 {
        assert joined == parts[0] + "\n" + Join(parts[1..], "\n");
      }
    }
    if joined != "" then joined + "\n" else joined
  }

  /** The question the model sees: the rendered history, then the user's question. */
  function Prompt(h: seq<Exchange>, question: string): (r: string)
    ensures |r| >= |question| && r[|r| - |question|..] == question
  {
    HistoryString(h) + question
  }

  /** `chat_history[-9:]`: the last nine exchanges, or all of them when there are fewer. */
  function LastNine(h: seq<Exchange>): (r: seq<Exchange>)
    ensures |r| == if |h| <= 9 then |h| else 9
    ensures r == h[|h| - |r|..]
  {
    if |h| <= 9 then h else h[|h| - 9..]
  }

  /** The history after an exchange: the last nine, then the new pair. */
  function Remember(h: seq<Exchange>, question: string, answer: string): (r: seq<Exchange>)
    ensures |r| == (if |h| <= 9 then |h| else 9) + 1
    ensures r[|r| - 1] == Exchange(question, answer)
    ensures r[..|r| - 1] == h[|h| - (|r| - 1)..]
  {
    LastNine(h) + [Exchange(question, answer)]
  }

  /** The global `chat_history` and the two chat entry points. */
  class ChatSession {
    var history: seq<Exchange>

    constructor ()
      ensures history == []
    {
      history := [];
    }

    /**
     * `chat_agent`: `answer` is the model's reply to the claim data and the
     * prompt question.
     */
    method Ask(claimData: string, question: string, answer: (string, string) -> string) returns (response: string)
      modifies this
      ensures response == answer(claimData, Prompt(old(history), question))
      ensures history == Remember(old(history), question, response)
    {
      var historyStr := HistoryString(history);
      response := answer(claimData, historyStr + question);
      history := LastNine(history);
      history := history + [Exchange(question, response)];
    }

    /**
     * `chat_agent_stream`: `stream` gives the chunks the model streams for
     * the claim data and the prompt question; each is yielded in turn.
     * `stopAfter` is the consumer: `None` drains the generator, so the code
     * after the loop runs and stores the concatenation as the answer;
     * `Some(k)` closes it once it has received k chunks (or all of them),
     * so the code after the loop never runs and the history is untouched.
     */
    method AskStream(claimData: string, question: string, stream: (string, string) -> seq<string>,
                     stopAfter: Option<nat>)
      returns (yielded: seq<string>)
      modifies this
      ensures var chunks := stream(claimData, Prompt(old(history), question));
        yielded == if stopAfter.Some? && stopAfter.value < |chunks| then chunks[..stopAfter.value] else chunks
      ensures stopAfter.None? ==> history == Remember(old(history), question, Concat(yielded))
      ensures stopAfter.Some? ==> history == old(history)
    {
      var historyStr := HistoryString(history);
      var chunks := stream(claimData, historyStr + question);
      var n := if stopAfter.Some? && stopAfter.value < |chunks| then stopAfter.value else |chunks|;
      var fullResponse := "";
      yielded := [];
      for i := 0 to n
        invariant yielded == chunks[..i]
        invariant fullResponse == Concat(chunks[..i])
      {
        assert chunks[..i + 1][..i] == chunks[..i];
        fullResponse := fullResponse + chunks[i];
        yielded := yielded + [chunks[i]];
      }
      assert chunks[..|chunks|] == chunks;
      if stopAfter.None? {
        history := LastNine(history);
        history := history + [Exchange(question, fullResponse)];
      }
    }
  }

  // ------------------------------------------------------------ properties

  /**
   * Rendering grows entry by entry: the history with one more exchange
   * renders as the old rendering followed by the new entry and a newline.
   */
  lemma HistoryStringAppend(h: seq<Exchange>, e: Exchange)
    ensures HistoryString(h + [e]) == HistoryString(h) + EntryText(e) + "\n"
  {
    if h != [] {
      assert Entries(h + [e]) == Entries(h) + [EntryText(e)];
      JoinAppend(Entries(h), EntryText(e), "\n");
    } else {
      assert h + [e] == [e];
    }
  }

  /** The memory never exceeds ten exchanges, however many questions are asked. */
  lemma {:induction false} MemoryBounded(h: seq<Exchange>, questions: seq<string>, answers: seq<string>)
    requires |questions| == |answers| && |h| <= 10
    ensures |Replay(h, questions, answers)| <= 10
    ensures questions != [] ==>
      Replay(h, questions, answers)[|Replay(h, questions, answers)| - 1]
        == Exchange(questions[|questions| - 1], answers[|answers| - 1])
  {
    if questions != [] {
      MemoryBounded(h, questions[..|questions| - 1], answers[..|answers| - 1]);
    }
  }

  /** The history after a series of exchanges, oldest first. */
  function Replay(h: seq<Exchange>, questions: seq<string>, answers: seq<string>): seq<Exchange>
    requires |questions| == |answers|
  {
    if questions == [] then h
    else
      var n := |questions| - 1;
      Remember(Replay(h, questions[..n], answers[..n]), questions[n], answers[n])
  }

  /**
   * Oldest first out: with a full memory of ten, the next exchange drops
   * exactly the oldest one and keeps the other nine in order.
   */
  lemma OldestDroppedFirst(h: seq<Exchange>, question: string, answer: string)
    requires |h| == 10
    ensures Remember(h, question, answer) == h[1..] + [Exchange(question, answer)]
  {
  }
}
