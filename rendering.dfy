/**
 * What the buffer renders from its state: the prompt sent to the model
 * (`get_messages_with_system_prompts`), the printable history (`__str__`) and
 * the summary that a flush folds its evicted messages into.
 */
module Rendering {
  import opened Wrappers
  import opened Messages

  const SummaryPreamble := "\n\nHere is a summary of your previous conversation with the user: "
  const HistoryPreamble := "Summary of the previous conversation: "
  const ConversationInstructions := "Summarize the following conversation between the user and the assistant."
  const ParagraphInstructions := "Summarize the following text into a single paragraph."

  /** The collaborator that condenses `content` under `instructions`. */
  type Summarizer = (string, string) -> string

  /** The system prompt: the system message (if any), then the preamble and the summary (if any). */
  function InitialPrompt(systemMessage: Option<string>, summary: Option<string>): string
  {
    var head := if systemMessage.Some? then systemMessage.value else "";
    if summary.Some? then head + SummaryPreamble + summary.value else head
  }

  /** The prompt is empty exactly when there is no summary and the system message is absent or empty. */
  lemma InitialPromptEmpty(systemMessage: Option<string>, summary: Option<string>)
    ensures |InitialPrompt(systemMessage, summary)| == 0 <==>
            summary.None? && (systemMessage.None? || systemMessage.value == "")
  {
    if summary.Some? {
      assert |InitialPrompt(systemMessage, summary)| >= |SummaryPreamble|;
    }
  }

  /**
   * The turns sent to the model: one synthesized `system` turn holding the prompt
   * when it is non-empty, then the buffered messages unchanged.
   */
  function Render(systemMessage: Option<string>, summary: Option<string>, ms: seq<Message>): (r: seq<Message>)
    ensures |r| == |ms| + (if |InitialPrompt(systemMessage, summary)| > 0 then 1 else 0)
    ensures r[|r| - |ms|..] == ms
    ensures |r| > |ms| ==> r[0] == Message(System, InitialPrompt(systemMessage, summary))
  {
    var prompt := InitialPrompt(systemMessage, summary);
    (if |prompt| > 0 then [Message(System, prompt)] else []) + ms
  }

  /** Rendering returns the buffer itself exactly when there is neither summary nor non-empty system message. */
  lemma RenderIsBuffer(systemMessage: Option<string>, summary: Option<string>, ms: seq<Message>)
    ensures Render(systemMessage, summary, ms) == ms <==>
            summary.None? && (systemMessage.None? || systemMessage.value == "")
  {
    InitialPromptEmpty(systemMessage, summary);
    if Render(systemMessage, summary, ms) == ms {
      assert |InitialPrompt(systemMessage, summary)| == 0;
    }
  }

  /** With a system message and a summary, the leading turn starts with the one and ends with the other. */
  lemma RenderWithBoth(x: string, y: string, ms: seq<Message>)
    ensures var r := Render(Some(x), Some(y), ms);
            |r| == |ms| + 1 && r[0].role == System && r[1..] == ms &&
            r[0].content[..|x|] == x && r[0].content[|r[0].content| - |y|..] == y
  {
    var p := InitialPrompt(Some(x), Some(y));
    assert p == x + SummaryPreamble + y;
    assert |p| > 0;
  }

  /** `__str__`: the summary line (if any) followed by the transcript of the buffered messages. */
  function HistoryText(summary: Option<string>, ms: seq<Message>): string
  {
    (if summary.Some? then HistoryPreamble + summary.value + "\n\n" else "") + Transcript(ms)
  }

  /** Appending a message to the buffer appends its formatted line to the printed history. */
  lemma HistoryTextSnoc(summary: Option<string>, ms: seq<Message>, m: Message)
    ensures HistoryText(summary, ms + [m]) ==
            HistoryText(summary, ms) + (if ms == [] then "" else "\n\n") + (RoleLabel(m.role) + ": " + m.content)
  {
    var pre := if summary.Some? then HistoryPreamble + summary.value + "\n\n" else "";
    var line := RoleLabel(m.role) + ": " + m.content;
    MessageToStringLabel(m);
    TranscriptSnoc(ms, m);
    if ms == [] {
      assert HistoryText(summary, ms) == pre;
    } else {
      var t := Transcript(ms);
      calc {
        HistoryText(summary, ms + [m]);
        pre + (t + "\n\n" + line);
        (pre + t) + "\n\n" + line;
      }
    }
  }

  /** The history of a buffer whose only message is `m` is that message's line, after the summary line if any. */
  lemma HistoryTextSingle(summary: Option<string>, m: Message)
    ensures HistoryText(summary, [m]) ==
            (if summary.Some? then HistoryPreamble + summary.value + "\n\n" else "") + RoleLabel(m.role) + ": " + m.content
  {
    MessageToStringLabel(m);
  }

  /**
   * The summary after a flush: the evicted messages' transcript summarized as a conversation,
   * then, when an old summary exists, that combined with the old one into a single paragraph.
   */
  function FoldSummary(summarize: Summarizer, oldSummary: Option<string>, popped: seq<Message>): string
  {
    var fragment := summarize(ConversationInstructions, Transcript(popped));
    if oldSummary.Some? then summarize(ParagraphInstructions, oldSummary.value + "\n\n" + fragment)
    else fragment
  }
}
