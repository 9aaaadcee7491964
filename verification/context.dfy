/**
 * The context engine: the prompt list handed to every model call
 * (instruction, rolling summary, recalled pairs, recent window) and the
 * memory compressor that folds aged messages into the rolling summary.
 */
module Context {
  import opened Wrappers
  import opened Slices
  import opened Models
  import opened Retrieval

  /** Compress once this many messages lie beyond the cursor. */
  const COMPRESSION_THRESHOLD: nat := 16
  /** Messages left uncompressed at the end of the transcript. */
  const KEEP_WINDOW: nat := 5
  /** Pairs recalled per call. */
  const RECALL_TOP_K: nat := 2
  /** Messages shown raw to every model call; also the window recall skips. */
  const DISPLAY_WINDOW: nat := 12

  function SummaryEntry(summary: string): string {
    "【过往对话摘要】\n" + summary + "\n\n(请利用此摘要作为背景知识，但在回复时请聚焦于最新的对话消息。)"
  }

  function RecallEntry(recalled: string): string {
    "【相关历史对话召回】\n(系统自动从历史记录中匹配到的相关信息，辅助本次回答)\n" + recalled
  }

  /** Recall runs only when the transcript ends with a user message, whose text is the query. */
  function RecallFor(messages: seq<Message>, lower: char -> char, fmt: real -> string): string {
    if messages != [] && messages[|messages| - 1].Human? then
      Recall(messages, messages[|messages| - 1].content, DISPLAY_WINDOW, RECALL_TOP_K, lower, fmt)
    else ""
  }

  /** The instruction entries that precede the transcript window: instruction, summary, recall. */
  function Preamble(state: AgentState, systemPrompt: string, recalled: string): (r: seq<Message>)
    ensures var s := if Truthy(state.conversationSummary) then 1 else 0;
      var c := if recalled != "" then 1 else 0;
      && |r| == 1 + s + c
      && r[0] == System(systemPrompt)
      && (s == 1 ==> r[1] == System(SummaryEntry(state.conversationSummary.value)))
      && (c == 1 ==> r[1 + s] == System(RecallEntry(recalled)))
      && (forall k | 0 <= k < |r| :: r[k].System?)
  {
    [System(systemPrompt)]
    + (if Truthy(state.conversationSummary) then [System(SummaryEntry(state.conversationSummary.value))] else [])
    + (if recalled != "" then [System(RecallEntry(recalled))] else [])
  }

  /** The prompt list around a given recall text. */
  function AssembleWith(state: AgentState, systemPrompt: string, recalled: string): seq<Message> {
    Preamble(state, systemPrompt, recalled) + Suffix(state.messages, -(DISPLAY_WINDOW as int))
  }

  /** `build_context`: the ordered prompt list for one model call. */
  function Assemble(state: AgentState, systemPrompt: string, lower: char -> char, fmt: real -> string)
    : seq<Message>
  {
    AssembleWith(state, systemPrompt, RecallFor(state.messages, lower, fmt))
  }

  /**
   * The prompt list is the preamble (the instruction, a summary entry iff the
   * summary is non-empty, a recall entry iff recall found something) followed
   * by exactly the last min(12, n) transcript messages in order.
   */
  lemma {:induction false} AssembleShape(state: AgentState, systemPrompt: string, lower: char -> char, fmt: real -> string)
    ensures var r := Assemble(state, systemPrompt, lower, fmt);
      var head := Preamble(state, systemPrompt, RecallFor(state.messages, lower, fmt));
      var m := state.messages;
      var w := Min(DISPLAY_WINDOW, |m|);
      && |r| == |head| + w
      && r[..|head|] == head
      && r[|head|..] == m[|m| - w..]
  {
    var head := Preamble(state, systemPrompt, RecallFor(state.messages, lower, fmt));
    var tail := Suffix(state.messages, -(DISPLAY_WINDOW as int));
    var r := head + tail;
    assert Assemble(state, systemPrompt, lower, fmt) == r;
    assert r[..|head|] == head;
    assert r[|head|..] == tail;
  }

  /**
   * The recall entry is present exactly when the last message is a non-empty
   * user message, more than 12 messages exist, and some user message before
   * the last 12 clears the similarity threshold against it.
   */
  lemma RecallEntryIff(messages: seq<Message>, lower: char -> char, fmt: real -> string)
    ensures RecallFor(messages, lower, fmt) != "" <==>
      && messages != []
      && messages[|messages| - 1].Human?
      && messages[|messages| - 1].content != []
      && |messages| > DISPLAY_WINDOW
      && var older := messages[..|messages| - DISPLAY_WINDOW];
         var qs := CharSet(messages[|messages| - 1].content, lower);
         exists i | 0 <= i < |older| :: Qualifies(older, qs, i, lower)
  {
    if messages != [] && messages[|messages| - 1].Human? {
      var q := messages[|messages| - 1].content;
      RecallEmptyIff(messages, q, DISPLAY_WINDOW, RECALL_TOP_K, lower, fmt);
      if |messages| > DISPLAY_WINDOW {
        assert Prefix(messages, -(DISPLAY_WINDOW as int)) == messages[..|messages| - DISPLAY_WINDOW];
      }
    }
  }

  /** The imperative assembly: append the instruction, the summary, the recall, then the window. */
  method BuildContext(state: AgentState, systemPrompt: string, lower: char -> char, fmt: real -> string)
    returns (finalMessages: seq<Message>)
    ensures finalMessages == Assemble(state, systemPrompt, lower, fmt)
  {
    var recalled := "";
    finalMessages := [];
    finalMessages := finalMessages + [System(systemPrompt)];
    var summary := state.conversationSummary;
    if Truthy(summary) {
      finalMessages := finalMessages + [System(SummaryEntry(summary.value))];
    }
    ghost var head := finalMessages;
    var messages := state.messages;
    if messages != [] && messages[|messages| - 1].Human? {
      var currentQuery := messages[|messages| - 1].content;
      var relevantContext := RetrieveRelevantMessages(
        messages, currentQuery, DISPLAY_WINDOW, RECALL_TOP_K, lower, fmt);
      if relevantContext != "" {
        finalMessages := finalMessages + [System(RecallEntry(relevantContext))];
      }
      recalled := relevantContext;
    }
    assert recalled == RecallFor(state.messages, lower, fmt);
    assert finalMessages == head + (if recalled != "" then [System(RecallEntry(recalled))] else []);
    var recentMessages := Suffix(state.messages, -(DISPLAY_WINDOW as int));
    finalMessages := finalMessages + recentMessages;
    AssembleWithSplit(state, systemPrompt, recalled, head);
  }

  lemma AssembleWithSplit(state: AgentState, systemPrompt: string, recalled: string, head: seq<Message>)
    requires head == [System(systemPrompt)]
      + (if Truthy(state.conversationSummary) then [System(SummaryEntry(state.conversationSummary.value))] else [])
    ensures AssembleWith(state, systemPrompt, recalled)
      == head + (if recalled != "" then [System(RecallEntry(recalled))] else []) + Suffix(state.messages, -(DISPLAY_WINDOW as int))
  {
    assert Preamble(state, systemPrompt, recalled) == head + (if recalled != "" then [System(RecallEntry(recalled))] else []);
  }

  /** A user message is tagged "User"; every other message "AI". */
  function RenderLine(m: Message): string {
    (if m.Human? then "User" else "AI") + ": " + m.content + "\n"
  }

  /** The role-tagged text handed to the summariser, one line per message. */
  function RenderHistory(ms: seq<Message>): string {
    if ms == [] then "" else RenderHistory(ms[..|ms| - 1]) + RenderLine(ms[|ms| - 1])
  }

  /** Rendering distributes over concatenation: each message contributes its own line, in order. */
  lemma {:induction false} RenderHistoryAppend(a: seq<Message>, b: seq<Message>)
    ensures RenderHistory(a + b) == RenderHistory(a) + RenderHistory(b)
  {
    if b == [] {
      assert a + b == a;
    } else {
      var b', last := b[..|b| - 1], b[|b| - 1];
      var ab := a + b;
      assert ab != [];
      assert ab[|ab| - 1] == last;
      assert ab[..|ab| - 1] == a + b';
      assert RenderHistory(ab) == RenderHistory(a + b') + RenderLine(last);
      RenderHistoryAppend(a, b');
      assert RenderHistory(b) == RenderHistory(b') + RenderLine(last);
    }
  }

  /**
   * `manage_memory` as a function of the state; `summarize` is the
   * summarising model applied to (old summary, rendered history).
   */
  function Compress(state: AgentState, summarize: (string, string) -> string): (r: (string, nat))
    ensures var n, c := |state.messages|, Cursor(state);
      && r.1 >= c
      && (n - c >= COMPRESSION_THRESHOLD <==> r.1 != c)
      && (n - c >= COMPRESSION_THRESHOLD ==>
            && n - r.1 == KEEP_WINDOW
            && r.0 == summarize(state.conversationSummary.GetOr(""), RenderHistory(state.messages[c..r.1])))
      && (n - c < COMPRESSION_THRESHOLD ==> r == (state.conversationSummary.GetOr(""), c))
      && (c <= n ==> r.1 <= n)
  {
    var messages := state.messages;
    var cursor := Cursor(state);
    var currentSummary := state.conversationSummary.GetOr("");
    var total := |messages|;
    if total - cursor < COMPRESSION_THRESHOLD then (currentSummary, cursor)
    else
      var endIndex := total - KEEP_WINDOW;
      if endIndex <= cursor then (currentSummary, cursor)
      else (summarize(currentSummary, RenderHistory(messages[cursor..endIndex])), endIndex)
  }

  /** The compressor: check the trigger, then render the range line by line and summarise it. */
  method ManageMemory(state: AgentState, summarize: (string, string) -> string)
    returns (newSummary: string, newCursor: nat)
    ensures (newSummary, newCursor) == Compress(state, summarize)
  {
    var messages := state.messages;
    var cursor := Cursor(state);
    var currentSummary := state.conversationSummary.GetOr("");
    var totalCount := |messages|;
    var unsummarizedCount := totalCount - cursor;
    if unsummarizedCount < COMPRESSION_THRESHOLD {
      return currentSummary, cursor;
    }
    var endIndex := totalCount - KEEP_WINDOW;
    if endIndex <= cursor {
      return currentSummary, cursor;
    }
    var messagesToCompress := messages[cursor..endIndex];
    var historyText := "";
    var k := 0;
    while k < |messagesToCompress|
      invariant 0 <= k <= |messagesToCompress|
      invariant historyText == RenderHistory(messagesToCompress[..k])
    {
      var msg := messagesToCompress[k];
      var role := if msg.Human? then "User" else "AI";
      assert messagesToCompress[..k + 1][..k] == messagesToCompress[..k];
      historyText := historyText + (role + ": " + msg.content + "\n");
      k := k + 1;
    }
    assert messagesToCompress[..k] == messagesToCompress;
    return summarize(currentSummary, historyText), endIndex;
  }
}
