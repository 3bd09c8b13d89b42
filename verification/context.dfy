/** The context utilities: truncating long tool results, summarising the
    tool messages of a stretch of conversation, replacing the middle of a
    long conversation by such a summary, and the rough token estimate that
    decides when to compress. The messages given are never changed; a
    list that needs no change is returned as it is (for ten messages or
    fewer, `remove_redundant_messages` hands back the caller's own list,
    which a value model does not distinguish from a copy). */
module Context {
  import opened Common
  import opened Messages

  /** The default `max_length` of `compress_tool_results`. */
  const DefaultMaxLength: int := 1000

  /** The note put after a truncated tool result; it records the length the
      content had. */
  function TruncationNote(originalLength: nat): string
  {
    "\n\n... (已截断，原长度: " + NatToString(originalLength) + " 字符)"
  }

  /** One message after compression: a tool message longer than
      `maxLength` keeps its first `maxLength` characters (Python slicing,
      so a negative limit counts from the end) followed by the note, and
      its tool-call id; every other message is kept as it is. */
  function CompressOne(m: Message, maxLength: int): (r: Message)
    ensures r.Tool? <==> m.Tool?
    ensures r.Tool? ==> r.toolCallId == m.toolCallId
    ensures !m.Tool? || |m.content| <= maxLength ==> r == m
    ensures m.Tool? && |m.content| > maxLength ==>
      r.content == PyHead(m.content, maxLength) + TruncationNote(|m.content|)
  {
    if m.Tool? && |m.content| > maxLength then
      Tool(PyHead(m.content, maxLength) + TruncationNote(|m.content|), m.toolCallId)
    else m
  }

  /** `compress_tool_results`: one message out for every message in, in
      the same order. */
  function CompressToolResults(messages: seq<Message>, maxLength: int): (r: seq<Message>)
    ensures |r| == |messages|
    ensures forall i :: 0 <= i < |messages| ==> r[i] == CompressOne(messages[i], maxLength)
  {
    if messages == [] then []
    else [CompressOne(messages[0], maxLength)] + CompressToolResults(messages[1..], maxLength)
  }

  /** A conversation whose tool results are all within the limit comes back
      unchanged, so compressing a compressed conversation with a limit at
      least as large as every note-carrying result changes nothing. */
  lemma CompressShortIsIdentity(messages: seq<Message>, maxLength: int)
    requires forall i :: 0 <= i < |messages| && messages[i].Tool? ==> |messages[i].content| <= maxLength
    ensures CompressToolResults(messages, maxLength) == messages
  {
  }

  /** For a non-negative limit, a truncated result starts with exactly the
      first `maxLength` characters of the original and has a fixed length;
      it is shorter than the original only when the original exceeds the
      limit by more than the note. */
  lemma TruncatedResultShape(m: Message, maxLength: nat)
    requires m.Tool? && |m.content| > maxLength
    ensures var r := CompressOne(m, maxLength);
      r.content[..maxLength] == m.content[..maxLength]
      && |r.content| == maxLength + |TruncationNote(|m.content|)|
      && (|r.content| < |m.content| <==> |m.content| > maxLength + |TruncationNote(|m.content|)|)
  {
    var r := CompressOne(m, maxLength);
    assert r.content == m.content[..maxLength] + TruncationNote(|m.content|);
  }

  // ---------------------------------------------------------------------
  // Summaries
  // ---------------------------------------------------------------------

  const NoToolCalls: string := "无工具调用"
  const SummaryHeader: string := "已调用工具:\n"

  /** The contents of the tool messages, in order. */
  function ToolContents(messages: seq<Message>): (cs: seq<string>)
    ensures |cs| <= |messages|
  {
    if messages == [] then []
    else (if messages[0].Tool? then [messages[0].content] else []) + ToolContents(messages[1..])
  }

  lemma {:induction false} ToolContentsAppend(a: seq<Message>, b: seq<Message>)
    ensures ToolContents(a + b) == ToolContents(a) + ToolContents(b)
  {
    if a == [] {
      assert a + b == b;
    } else {
      assert (a + b)[0] == a[0] && (a + b)[1..] == a[1..] + b;
      ToolContentsAppend(a[1..], b);
    }
  }

  /** One line of the summary: a dash and the first 100 characters. */
  function SummaryLine(content: string): (line: string)
    ensures 2 <= |line| <= 102 && line[..2] == "- "
    ensures IsPrefix(line[2..], content)
  {
    "- " + PyHead(content, 100)
  }

  function SummaryLines(contents: seq<string>): (lines: seq<string>)
    ensures |lines| == |contents|
    ensures forall i :: 0 <= i < |contents| ==> lines[i] == SummaryLine(contents[i])
  {
    if contents == [] then [] else [SummaryLine(contents[0])] + SummaryLines(contents[1..])
  }

  /** `summarize_tool_results`: a fixed text when there is no tool message,
      otherwise the header and the lines of the first five tool messages. */
  function SummarizeToolResults(messages: seq<Message>): (r: string)
    ensures ToolContents(messages) == [] <==> r == NoToolCalls
    ensures ToolContents(messages) != [] ==>
      r == SummaryHeader + Join(PyHead(SummaryLines(ToolContents(messages)), 5), "\n")
  {
    var lines := SummaryLines(ToolContents(messages));
    if lines == [] then NoToolCalls
    else
      var r := SummaryHeader + Join(PyHead(lines, 5), "\n");
      assert r[0] != NoToolCalls[0];
      r
  }

  /** Once five tool messages have been seen, later messages do not change
      the summary. */
  lemma SummaryIgnoresAfterFifth(messages: seq<Message>, more: seq<Message>)
    requires |ToolContents(messages)| >= 5
    ensures SummarizeToolResults(messages + more) == SummarizeToolResults(messages)
  {
    var a := ToolContents(messages);
    ToolContentsAppend(messages, more);
    var c := a + ToolContents(more);
    var all := SummaryLines(c);
    var own := SummaryLines(a);
    forall i | 0 <= i < 5
      ensures all[i] == own[i]
    {
      assert c[i] == a[i];
    }
    assert all[..5] == own[..5];
  }

  /** Messages that are not tool messages never appear in the summary. */
  lemma SummaryIgnoresOtherMessages(messages: seq<Message>, m: Message)
    requires !m.Tool?
    ensures SummarizeToolResults(messages + [m]) == SummarizeToolResults(messages)
    ensures SummarizeToolResults([m] + messages) == SummarizeToolResults(messages)
  {
    assert ToolContents([m]) == [] by {
      assert [m][1..] == [];
    }
    ToolContentsAppend(messages, [m]);
    ToolContentsAppend([m], messages);
    assert ToolContents(messages) + [] == ToolContents(messages);
    assert [] + ToolContents(messages) == ToolContents(messages);
  }

  // ---------------------------------------------------------------------
  // Redundancy removal
  // ---------------------------------------------------------------------

  /** Conversations up to this length are left alone. */
  const RedundancyThreshold: nat := 10
  const KeepStart: nat := 2
  const KeepEnd: nat := 5

  /** The AI message that stands for the middle of the conversation. */
  function SummaryMessage(middle: seq<Message>): Message
  {
    Ai("[历史工具调用摘要]\n" + SummarizeToolResults(middle), [])
  }

  /** `remove_redundant_messages`: more than ten messages become the first
      two, one summary of the middle, and the last five. */
  function RemoveRedundantMessages(messages: seq<Message>): (r: seq<Message>)
    ensures |messages| <= RedundancyThreshold ==> r == messages
    ensures |messages| > RedundancyThreshold ==>
      |r| == KeepStart + 1 + KeepEnd
      && r[..KeepStart] == messages[..KeepStart]
      && r[KeepStart] == SummaryMessage(messages[KeepStart..|messages| - KeepEnd])
      && r[KeepStart + 1..] == messages[|messages| - KeepEnd..]
    ensures |r| <= RedundancyThreshold
  {
    if |messages| <= RedundancyThreshold then messages
    else
      var middle := messages[KeepStart..|messages| - KeepEnd];
      var r := messages[..KeepStart] + (if middle != [] then [SummaryMessage(middle)] else []) + messages[|messages| - KeepEnd..];
      assert |middle| > 0;
      assert r[KeepStart + 1..] == messages[|messages| - KeepEnd..];
      r
  }

  /** Removing redundancy twice is removing it once. */
  lemma RemoveRedundantIdempotent(messages: seq<Message>)
    ensures RemoveRedundantMessages(RemoveRedundantMessages(messages)) == RemoveRedundantMessages(messages)
  {
  }

  // ---------------------------------------------------------------------
  // Token estimate
  // ---------------------------------------------------------------------

  /** The default `max_tokens` of `should_compress_context`. */
  const DefaultMaxTokens: int := 8000

  /** The total length of the message contents. */
  function TotalChars(messages: seq<Message>): nat
  {
    if messages == [] then 0 else |messages[0].content| + TotalChars(messages[1..])
  }

  lemma {:induction false} TotalCharsAppend(a: seq<Message>, b: seq<Message>)
    ensures TotalChars(a + b) == TotalChars(a) + TotalChars(b)
  {
    if a == [] {
      assert a + b == b;
    } else {
      assert (a + b)[0] == a[0] && (a + b)[1..] == a[1..] + b;
      TotalCharsAppend(a[1..], b);
    }
  }

  /** `estimate_token_count`: int(total * 1.5), the floor of one and a half
      tokens per character. */
  function EstimateTokenCount(messages: seq<Message>): (n: nat)
    ensures 2 * n <= 3 * TotalChars(messages) < 2 * n + 2
  {
    3 * TotalChars(messages) / 2
  }

  /** `should_compress_context`: the estimate exceeds the budget; without
      the floor, three times the characters reach twice the budget plus
      two. */
  function ShouldCompressContext(messages: seq<Message>, maxTokens: int): (b: bool)
    ensures b <==> 3 * TotalChars(messages) >= 2 * maxTokens + 2
  {
    EstimateTokenCount(messages) > maxTokens
  }

  /** Adding messages never withdraws the need to compress. */
  lemma ShouldCompressMonotone(messages: seq<Message>, more: seq<Message>, maxTokens: int)
    requires ShouldCompressContext(messages, maxTokens)
    ensures ShouldCompressContext(messages + more, maxTokens)
  {
    TotalCharsAppend(messages, more);
  }
}
