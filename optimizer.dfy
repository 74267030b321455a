/**
 * The script optimizer of script_optimizer.py: every transcript is rendered
 * as text, the renderings are joined with a separator, and the result is
 * embedded with the original script in one prompt for the completion service,
 * whose raw reply is returned.
 */
module Optimizer {
  import opened Text
  import opened Simulation

  /** Joins the rendered messages of one transcript. */
  const MessageSeparator := Newline

  /** Joins the renderings of two consecutive transcripts. */
  const LogSeparator := "\n\n---\n\n"

  /** One message as text: its role, a colon and a space, its content. */
  function RenderMessage(m: Message): string
  {
    m.role.Name() + ": " + m.content
  }

  /** The rendering of every message of a transcript, in order. */
  function RenderedMessages(log: seq<Message>): (r: seq<string>)
    ensures |r| == |log|
    ensures forall j :: 0 <= j < |log| ==> r[j] == RenderMessage(log[j])
    decreases |log|
  {
    if |log| == 0 then [] else [RenderMessage(log[0])] + RenderedMessages(log[1..])
  }

  /** One transcript as text: its rendered messages joined by newlines. */
  function RenderLog(log: seq<Message>): string
  {
    Join(MessageSeparator, RenderedMessages(log))
  }

  /** The rendering of every transcript, in order. */
  function RenderedLogs(logs: seq<seq<Message>>): (r: seq<string>)
    ensures |r| == |logs|
    ensures forall i :: 0 <= i < |logs| ==> r[i] == RenderLog(logs[i])
    decreases |logs|
  {
    if |logs| == 0 then [] else [RenderLog(logs[0])] + RenderedLogs(logs[1..])
  }

  /** `formatted_logs`: the rendered transcripts joined by the log separator. */
  function FormatLogs(logs: seq<seq<Message>>): string
  {
    Join(LogSeparator, RenderedLogs(logs))
  }

  /** Where the rendering of transcript i starts in the formatted logs. */
  function LogStart(logs: seq<seq<Message>>, i: nat): nat
    requires i <= |logs|
  {
    Offset(LogSeparator, RenderedLogs(logs), i)
  }

  /** Where the rendering of message j starts in the rendering of its transcript. */
  function MessageStart(log: seq<Message>, j: nat): nat
    requires j <= |log|
  {
    Offset(MessageSeparator, RenderedMessages(log), j)
  }

  /** No transcripts format to the empty string; one formats to its own rendering. */
  lemma FormatLogsSmall(log: seq<Message>)
    ensures FormatLogs([]) == ""
    ensures FormatLogs([log]) == RenderLog(log)
  {
    assert RenderedLogs([log]) == [RenderLog(log)];
  }

  /** One more transcript adds exactly one separator and its rendering, at the end. */
  lemma FormatLogsAppend(logs: seq<seq<Message>>, log: seq<Message>)
    requires |logs| > 0
    ensures FormatLogs(logs + [log]) == FormatLogs(logs) + LogSeparator + RenderLog(log)
  {
    assert RenderedLogs(logs + [log]) == RenderedLogs(logs) + [RenderLog(log)];
    JoinAppend(LogSeparator, RenderedLogs(logs), RenderLog(log));
  }

  /** k > 0 transcripts give their renderings plus k - 1 separators, and nothing else. */
  lemma FormatLogsLength(logs: seq<seq<Message>>)
    requires |logs| > 0
    ensures |FormatLogs(logs)| == TotalLength(RenderedLogs(logs)) + (|logs| - 1) * |LogSeparator|
  {
    JoinLength(LogSeparator, RenderedLogs(logs));
  }

  /** Transcript i is rendered at its place in the formatted logs. */
  lemma FormatLogsLogAt(logs: seq<seq<Message>>, i: nat)
    requires i < |logs|
    ensures LogStart(logs, i) + |RenderLog(logs[i])| <= |FormatLogs(logs)|
    ensures FormatLogs(logs)[LogStart(logs, i) .. LogStart(logs, i) + |RenderLog(logs[i])|] == RenderLog(logs[i])
  {
    JoinAt(LogSeparator, RenderedLogs(logs), i);
  }

  /** Message j is rendered at its place in the rendering of its transcript. */
  lemma RenderLogMessageAt(log: seq<Message>, j: nat)
    requires j < |log|
    ensures MessageStart(log, j) + |RenderMessage(log[j])| <= |RenderLog(log)|
    ensures RenderLog(log)[MessageStart(log, j) .. MessageStart(log, j) + |RenderMessage(log[j])|]
            == RenderMessage(log[j])
  {
    JoinAt(MessageSeparator, RenderedMessages(log), j);
  }

  /** The rendering of message j of transcript i appears at its place in the formatted logs. */
  lemma FormatLogsRenderedAt(logs: seq<seq<Message>>, i: nat, j: nat)
    requires i < |logs| && j < |logs[i]|
    ensures var at := LogStart(logs, i) + MessageStart(logs[i], j);
      var rendered := RenderMessage(logs[i][j]);
      && at + |rendered| <= |FormatLogs(logs)|
      && FormatLogs(logs)[at .. at + |rendered|] == rendered
  {
    FormatLogsLogAt(logs, i);
    RenderLogMessageAt(logs[i], j);
    NestedSlice(FormatLogs(logs), LogStart(logs, i), RenderLog(logs[i]),
                MessageStart(logs[i], j), RenderMessage(logs[i][j]));
  }

  /**
   * Message j of transcript i appears at its place in the formatted logs as
   * its role, ": ", and its content; transcripts and messages keep their order.
   */
  lemma FormatLogsMessageAt(logs: seq<seq<Message>>, i: nat, j: nat)
    requires i < |logs| && j < |logs[i]|
    ensures var at := LogStart(logs, i) + MessageStart(logs[i], j);
      var m := logs[i][j];
      && at + |RenderMessage(m)| <= |FormatLogs(logs)|
      && FormatLogs(logs)[at .. at + |RenderMessage(m)|] == m.role.Name() + ": " + m.content
  {
    FormatLogsRenderedAt(logs, i, j);
  }

  /** Between transcripts i and i + 1 the formatted logs hold exactly the log separator. */
  lemma FormatLogsSeparatorAt(logs: seq<seq<Message>>, i: nat)
    requires i + 1 < |logs|
    ensures LogStart(logs, i) + |RenderLog(logs[i])| + |LogSeparator| == LogStart(logs, i + 1)
    ensures LogStart(logs, i + 1) <= |FormatLogs(logs)|
    ensures FormatLogs(logs)[LogStart(logs, i) + |RenderLog(logs[i])| .. LogStart(logs, i + 1)] == LogSeparator
  {
    JoinSeparatorAt(LogSeparator, RenderedLogs(logs), i);
  }

  /** Inside one rendered transcript, consecutive messages are separated by one newline. */
  lemma RenderLogSeparatorAt(log: seq<Message>, j: nat)
    requires j + 1 < |log|
    ensures MessageStart(log, j) + |RenderMessage(log[j])| + |MessageSeparator| == MessageStart(log, j + 1)
    ensures MessageStart(log, j + 1) <= |RenderLog(log)|
    ensures RenderLog(log)[MessageStart(log, j) + |RenderMessage(log[j])| .. MessageStart(log, j + 1)]
            == MessageSeparator
  {
    JoinSeparatorAt(MessageSeparator, RenderedMessages(log), j);
  }

  /** The prompt text before the script, line by line: it opens with a line break. */
  const PromptHeadLines: seq<string> := [
    "",
    "        You are an expert in conversational AI and prompt engineering.",
    "        Your task is to analyze a series of conversations and suggest improvements to an agent's instruction script.",
    "",
    "        Here is the agent's original script:",
    "        -------------------",
    "        "
  ]

  const PromptHead := Join(Newline, PromptHeadLines)

  /** The prompt text between the script and the logs, line by line. */
  const PromptMiddleLines: seq<string> := [
    "",
    "        -------------------",
    "",
    "        Here are the logs of the conversations the agent had:",
    "        -------------------",
    "        "
  ]

  const PromptMiddle := Join(Newline, PromptMiddleLines)

  /** The prompt text after the logs, line by line. */
  const PromptTailLines: seq<string> := [
    "",
    "        -------------------",
    "",
    "        Based on these conversations, please perform the following actions:",
    "",
    "        1.  **Rate the agent's performance** on the following metrics, on a scale of 1 to 10:",
    "            - `negotiation_effectiveness`: How well did the agent attempt to negotiate payment plans or settlements?",
    "            - `response_relevance`: How relevant were the agent's responses to the user's queries?",
    "",
    "        2.  **Provide actionable suggestions** for what to add or change in the original script to improve these scores.",
    "",
    "        3.  **Estimate the impact** of your suggestions by providing the expected score for each metric after the changes are applied.",
    "",
    "        Return your response as a JSON object with the following structure:",
    "        {",
    "            \"current_scores\": {",
    "                \"negotiation_effectiveness\": <current_score>,",
    "                \"response_relevance\": <current_score>",
    "            },",
    "            \"suggestions\": [",
    "                {",
    "                    \"suggestion\": \"<Your suggestion for what to add or change>\",",
    "                    \"reason\": \"<Brief reason for the suggestion>\"",
    "                }",
    "            ],",
    "            \"expected_scores_after_improvement\": {",
    "                \"negotiation_effectiveness\": <expected_score>,",
    "                \"response_relevance\": <expected_score>",
    "            }",
    "        }",
    "        "
  ]

  const PromptTail := Join(Newline, PromptTailLines)

  /** The optimisation prompt: fixed text around the original script and then the formatted logs. */
  function OptimizePrompt(originalScript: string, formattedLogs: string): string
  {
    PromptHead + originalScript + PromptMiddle + formattedLogs + PromptTail
  }

  /** Where the formatted logs start in the prompt. */
  function LogsStart(originalScript: string): nat
  {
    |PromptHead| + |originalScript| + |PromptMiddle|
  }

  /** Text placed between fixed pieces can be read back at its offset, in order. */
  lemma EmbedOrder(head: string, script: string, middle: string, logs: string, tail: string)
    ensures var text := head + script + middle + logs + tail;
      && |head| + |script| + |middle| + |logs| <= |text|
      && text[|head| .. |head| + |script|] == script
      && text[|head| + |script| + |middle| .. |head| + |script| + |middle| + |logs|] == logs
  {
    var front := head + script + middle;
    var text := front + logs + tail;
    assert text[|head| .. |head| + |script|] == front[|head| .. |head| + |script|];
    assert text[|front| .. |front| + |logs|] == logs;
  }

  /** The prompt holds the script verbatim and, after it, the formatted logs verbatim. */
  lemma PromptEmbedsScriptThenLogs(originalScript: string, formattedLogs: string)
    ensures var prompt := OptimizePrompt(originalScript, formattedLogs);
      && |PromptHead| + |originalScript| <= LogsStart(originalScript)
      && LogsStart(originalScript) + |formattedLogs| <= |prompt|
      && prompt[|PromptHead| .. |PromptHead| + |originalScript|] == originalScript
      && prompt[LogsStart(originalScript) .. LogsStart(originalScript) + |formattedLogs|] == formattedLogs
  {
    EmbedOrder(PromptHead, originalScript, PromptMiddle, formattedLogs, PromptTail);
  }

  /** `ScriptOptimizer`: holds the completion client it was built with. */
  class ScriptOptimizer {
    const client: Completion

    constructor (client: Completion)
      ensures this.client == client
    {
      this.client := client;
    }

    /**
     * `optimize`: one request whose only message is the system prompt built
     * from the script and the formatted logs; the reply text is returned as is.
     */
    method Optimize(originalScript: string, conversationLogs: seq<seq<Message>>) returns (suggestions: string)
      ensures suggestions == client(Request(OptimizePrompt(originalScript, FormatLogs(conversationLogs)), []))
    {
      var formattedLogs := FormatLogs(conversationLogs);
      var prompt := OptimizePrompt(originalScript, formattedLogs);
      suggestions := client(Request(prompt, []));
    }
  }
}
