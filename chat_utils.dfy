/** The conversation buffer `ChatHistory` and the turn-taking `Chat` session. */
module ChatUtils {
  import opened Wrappers
  import opened Messages
  import opened TokenCount
  import opened Rendering
  import opened Persistence

  /** What a flush can raise: Python's `IndexError` from `pop(0)` on an empty list. */
  datatype ChatError = PopFromEmptyList

  /** The buffer of one conversation: active messages, their archive and a running summary. */
  class ChatHistory {
    const enc: Encoder
    const systemMessage: Option<string>
    var summary: Option<string>
    var messages: seq<Message>
    var archive: seq<Message>

    constructor (enc: Encoder, systemMessage: Option<string> := None,
                 initialMessages: Option<seq<Message>> := None, initialSummary: Option<string> := None)
      ensures this.enc == enc && this.systemMessage == systemMessage
      ensures summary == initialSummary
      ensures messages == (if initialMessages.Some? then initialMessages.value else [])
      ensures archive == []
    {
      this.enc := enc;
      this.systemMessage := systemMessage;
      summary := initialSummary;
      messages := if initialMessages.Some? then initialMessages.value else [];
      archive := [];
    }

    /** `__str__`. */
    function ToString(): string
      reads this
    {
      HistoryText(summary, messages)
    }

    /** The record `to_json` writes. */
    function ToJson(): Json
      reads this
    {
      RecordToJson(systemMessage, summary, messages, archive)
    }

    /**
     * `load_json` on an already parsed record: assigns the summary, then the messages, then
     * the archive, stopping at the first key that is missing (or holds what the model cannot
     * represent). The system message is not restored.
     */
    method LoadJson(record: Json) returns (r: Result<(), LoadError>)
      modifies this
      ensures r.Success? <==>
              SummaryField(record).Success? && MessagesField(record, "messages").Success? &&
              MessagesField(record, "archive").Success?
      ensures summary == if SummaryField(record).Success? then SummaryField(record).value else old(summary)
      ensures messages ==
              if SummaryField(record).Success? && MessagesField(record, "messages").Success?
              then MessagesField(record, "messages").value else old(messages)
      ensures archive == if r.Success? then MessagesField(record, "archive").value else old(archive)
    {
      var s := SummaryField(record);
      if s.Failure? {
        return Failure(s.error);
      }
      summary := s.value;
      var ms := MessagesField(record, "messages");
      if ms.Failure? {
        return Failure(ms.error);
      }
      messages := ms.value;
      var ar := MessagesField(record, "archive");
      if ar.Failure? {
        return Failure(ar.error);
      }
      archive := ar.value;
      r := Success(());
    }

    method AddUserMessage(content: string)
      modifies this
      ensures messages == old(messages) + [Message(User, content)]
      ensures summary == old(summary) && archive == old(archive)
    {
      messages := messages + [Message(User, content)];
    }

    method AddAssistantMessage(content: string)
      modifies this
      ensures messages == old(messages) + [Message(Assistant, content)]
      ensures summary == old(summary) && archive == old(archive)
    {
      messages := messages + [Message(Assistant, content)];
    }

    /** `_count_message_tokens`: 4 per message, the encoded length of each field value, and 2 per message. */
    method CountMessageTokens(ms: seq<Message>) returns (n: nat)
      ensures n == Tokens(enc, ms)
    {
      n := 0;
      var i := 0;
      while i < |ms|
        invariant i <= |ms|
        invariant n + Tokens(enc, ms[i..]) == Tokens(enc, ms)
      {
        assert ms[i..][1..] == ms[i + 1..];
        var base := n;
        n := n + 4;
        var vals := FieldValues(ms[i]);
        var f := 0;
        while f < |vals|
          invariant f <= |vals|
          invariant n + SumEncoded(enc, vals[f..]) == base + 4 + SumEncoded(enc, vals)
        {
          assert vals[f..][1..] == vals[f + 1..];
          n := n + enc(vals[f]);
          f := f + 1;
        }
        n := n + 2;
        i := i + 1;
      }
    }

    method TotalMessageTokens() returns (n: nat)
      ensures n == Tokens(enc, messages)
    {
      n := CountMessageTokens(messages);
    }

    /**
     * The loop of `flush_to_summary`: pops messages from the head into the archive while the
     * rest exceed `maxBufferTokens`, and returns them in order. `ok` is false when it had to pop
     * from the empty list, which happens exactly when the target is negative.
     */
    method EvictOldest(maxBufferTokens: int) returns (popped: seq<Message>, ok: bool)
      modifies this`messages, this`archive
      ensures popped == old(messages)[..EvictCount(enc, old(messages), maxBufferTokens)]
      ensures messages == old(messages)[EvictCount(enc, old(messages), maxBufferTokens)..]
      ensures archive == old(archive) + popped
      ensures ok <==> maxBufferTokens >= 0
    {
      popped := [];
      var rest := messages;
      var n := CountMessageTokens(rest);
      ghost var archived := archive;
      while n > maxBufferTokens
        invariant |popped| <= |old(messages)|
        invariant popped == old(messages)[..|popped|]
        invariant rest == old(messages)[|popped|..]
        invariant messages == rest
        invariant archive == archived + popped
        invariant n == Tokens(enc, rest)
        invariant EvictCount(enc, old(messages), maxBufferTokens) == |popped| + EvictCount(enc, rest, maxBufferTokens)
        decreases |rest|
      {
        if rest == [] {
          return popped, false;
        }
        var head := rest[0];
        rest := rest[1..];
        messages := rest;
        archive := archive + [head];
        popped := popped + [head];
        n := CountMessageTokens(rest);
      }
      ok := true;
    }

    /**
     * `flush_to_summary`: evicts the oldest messages until the rest fit `maxBufferTokens`, then
     * folds the evicted ones into the summary. A negative target evicts everything and then
     * raises on the empty list, leaving the summary as it was.
     */
    method FlushToSummary(maxBufferTokens: int, summarize: Summarizer) returns (r: Result<(), ChatError>)
      modifies this
      ensures var k := EvictCount(enc, old(messages), maxBufferTokens);
              messages == old(messages)[k..] && archive == old(archive) + old(messages)[..k]
      ensures r.Success? <==> maxBufferTokens >= 0
      ensures r.Success? ==> Tokens(enc, messages) <= maxBufferTokens
      ensures r.Success? ==>
              summary == Some(FoldSummary(summarize, old(summary),
                                          old(messages)[..EvictCount(enc, old(messages), maxBufferTokens)]))
      ensures r.Failure? ==> r.error == PopFromEmptyList && summary == old(summary)
    {
      EvictCountSpec(enc, messages, maxBufferTokens);
      var toSummarize, ok := EvictOldest(maxBufferTokens);
      if !ok {
        return Failure(PopFromEmptyList);
      }
      var transcript := Transcript(toSummarize);
      var newSummary := summarize(ConversationInstructions, transcript);
      if summary.Some? {
        newSummary := summarize(ParagraphInstructions, summary.value + "\n\n" + newSummary);
      }
      summary := Some(newSummary);
      r := Success(());
    }

    /** `get_messages_with_system_prompts`. */
    function GetMessagesWithSystemPrompts(): seq<Message>
      reads this
    {
      Render(systemMessage, summary, messages)
    }
  }

  /** A chat session: its configuration, its collaborators and the buffer it drives. */
  class Chat {
    const assistantName: string
    const stopSequence: string
    const maxBufferTokens: int
    const resetBufferLen: int
    const conversation: ChatHistory
    /** The reply collaborator, given the rendered prompt. */
    const replyFn: seq<Message> -> string
    const summarizeFn: Summarizer

    constructor (enc: Encoder, systemMessage: Option<string>, replyFn: seq<Message> -> string,
                 summarizeFn: Summarizer, stopSequence: string, assistantName: string := "Assistant",
                 maxBufferTokens: int := 3000, resetBufferLen: int := 1200)
      ensures this.assistantName == assistantName && this.stopSequence == stopSequence
      ensures this.maxBufferTokens == maxBufferTokens && this.resetBufferLen == resetBufferLen
      ensures this.replyFn == replyFn && this.summarizeFn == summarizeFn
      ensures fresh(conversation)
      ensures conversation.enc == enc && conversation.systemMessage == systemMessage
      ensures conversation.summary == None && conversation.messages == [] && conversation.archive == []
    {
      this.assistantName := assistantName;
      this.stopSequence := stopSequence;
      this.maxBufferTokens := maxBufferTokens;
      this.resetBufferLen := resetBufferLen;
      this.conversation := new ChatHistory(enc, systemMessage);
      this.replyFn := replyFn;
      this.summarizeFn := summarizeFn;
    }

    /**
     * `take_turn` on the line the user typed: stops on the stop sequence; otherwise records the
     * user message and the reply to the rendered prompt, then flushes down to `resetBufferLen`
     * when the buffer exceeds `maxBufferTokens`.
     */
    method TakeTurn(userMessage: string) returns (r: Result<bool, ChatError>)
      modifies conversation
      ensures userMessage == stopSequence ==>
              r == Success(false) && conversation.messages == old(conversation.messages) &&
              conversation.summary == old(conversation.summary) && conversation.archive == old(conversation.archive)
      ensures userMessage != stopSequence ==>
              var sent := old(conversation.messages) + [Message(User, userMessage)];
              var reply := replyFn(Render(conversation.systemMessage, old(conversation.summary), sent));
              var full := sent + [Message(Assistant, reply)];
              if Tokens(conversation.enc, full) > maxBufferTokens then
                var k := EvictCount(conversation.enc, full, resetBufferLen);
                && conversation.messages == full[k..]
                && conversation.archive == old(conversation.archive) + full[..k]
                && r == (if resetBufferLen >= 0 then Success(true) else Failure(PopFromEmptyList))
                && conversation.summary ==
                   if resetBufferLen >= 0 then Some(FoldSummary(summarizeFn, old(conversation.summary), full[..k]))
                   else old(conversation.summary)
              else
                && r == Success(true)
                && conversation.messages == full
                && conversation.summary == old(conversation.summary)
                && conversation.archive == old(conversation.archive)
      ensures r == Success(true) && 0 <= resetBufferLen <= maxBufferTokens ==>
              Tokens(conversation.enc, conversation.messages) <= maxBufferTokens
    {
      if userMessage == stopSequence {
        return Success(false);
      }
      conversation.AddUserMessage(userMessage);
      var reply := replyFn(conversation.GetMessagesWithSystemPrompts());
      conversation.AddAssistantMessage(reply);
      var total := conversation.TotalMessageTokens();
      if total > maxBufferTokens {
        var flushed := conversation.FlushToSummary(resetBufferLen, summarizeFn);
        if flushed.Failure? {
          return Failure(flushed.error);
        }
      }
      r := Success(true);
    }
  }
}
