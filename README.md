# shoggoth-chat conversation buffer, in Dafny

This project models the core of a command-line chatbot client (`chat_utils.py`). The core has two parts.

`ChatHistory` is the conversation buffer. It holds an optional system message, an optional running summary, the ordered list of active `{role, content}` messages, and an archive of evicted messages. It can:

- append user or assistant messages;
- count tokens as `_count_message_tokens` does: 4, plus the encoded length of each field value, plus 2, for every message;
- render the prompt sent to the model;
- print the history as a transcript;
- map itself to and from a JSON record;
- flush its oldest messages into the summary when it is over a token budget.

`Chat` is one session. `take_turn` takes the user's line. On the stop sequence it stops. Otherwise it records the user message and the model's reply, and flushes the buffer when it goes over `max_buffer_tokens`.

The model has one module per concern:

| file | module | models |
|---|---|---|
| `wrappers.dfy` | `Wrappers` | `Option` (Python `None`) and `Result` (a raised exception) |
| `messages.dfy` | `Messages` | roles, messages, `str.capitalize`, `message_to_string`, `"\n\n".join` |
| `tokencount.dfy` | `TokenCount` | the token count of `_count_message_tokens` and how many messages a flush evicts |
| `rendering.dfy` | `Rendering` | the system prompt, the rendered prompt, `__str__`, how a flush folds the summary |
| `persistence.dfy` | `Persistence` | the JSON record of `to_json` / `load_json` |
| `chat_utils.dfy` | `ChatUtils` | the classes `ChatHistory` and `Chat`, whose methods update their fields in place |

The collaborators are parameters:

- the tokenizer is `enc: string -> nat`, standing for `len(tokenizer.encode(s))`;
- the summarizer is `(instructions, content) -> string`;
- the reply function maps the rendered prompt to the reply text;
- the user's input line is the argument of `TakeTurn`.

`ChatHistory.ToString`, `ChatHistory.ToJson` and `ChatHistory.GetMessagesWithSystemPrompts` apply `HistoryText`, `RecordToJson` and `Render` to the object's fields. Those three functions carry the properties.

The model follows what the code does, also where its comments or names suggest otherwise:

- The comment at chat_utils.py:85 says the `+2` primes the reply, which would happen once per prompt, but the statement sits inside the per-message loop. Each message therefore costs `6 + enc(role) + enc(content)`.
- `to_json` writes `system_message` (chat_utils.py:28), but `load_json` does not read it back (chat_utils.py:37-39). A save followed by a load is therefore not lossless for that field.
- `take_turn` passes the whole `ChatHistory` object to `reply_fn` (chat_utils.py:121). The only reply function in the repository reads exactly the rendered prompt from it, so the model passes that.
- A flush with a negative target (the loop at chat_utils.py:59-62) does not loop forever. It pops every message into the archive and then raises `IndexError` on the empty list, with the summary left unchanged. The model returns `Failure(PopFromEmptyList)` in that state.

## Model

| member | source | states |
|---|---|---|
| `Messages.Capitalize` | chat_utils.py:51 | capitalizing keeps the length and every character up to case; the first character is not a lower-case letter and every later one is not an upper-case letter |
| `Messages.CapitalizeRoleName` | chat_utils.py:51 | `capitalize` turns `system`, `user`, `assistant` into `System`, `User`, `Assistant` |
| `Messages.MessageToStringLabel` | chat_utils.py:50-53 | a formatted message is its role's label, `": "`, then its content |
| `Messages.MessageToStringShape` | chat_utils.py:50-53 | the label prefix and the content suffix can be read back from the formatted message, at the expected lengths |
| `Messages.MessageToStringInjective` | chat_utils.py:50-53 | two messages that format to the same line are the same message |
| `Messages.JoinSnoc` | chat_utils.py:19 | joining one more part adds the separator and that part, or gives just that part when there were none |
| `Messages.JoinAppend` | chat_utils.py:63 | joining two non-empty lists of parts equals their joins with one separator between them |
| `Messages.Lines` | chat_utils.py:19 | the i-th transcript line is `message_to_string` of the i-th message, one line per message |
| `Messages.TranscriptSnoc` | chat_utils.py:19 | appending a message appends a blank line and its formatted line to the transcript |
| `Messages.TranscriptAppend` | chat_utils.py:63 | the transcript of the evicted messages and the transcript of the rest, joined by a blank line, give the transcript of the whole buffer |
| `TokenCount.MessageCostValue` | chat_utils.py:79-85 | one message costs exactly `6 + enc(role) + enc(content)`, so at least 6 |
| `TokenCount.TokensAppend` | chat_utils.py:77-86 | the count of a concatenation is the sum of the counts |
| `TokenCount.TokensSnoc` | chat_utils.py:41-47 | appending a message raises the count by exactly that message's cost, so strictly |
| `TokenCount.TokensCons` | chat_utils.py:59-60 | popping the head lowers the count by at least 6 |
| `TokenCount.TokensLowerBound` | chat_utils.py:77-86 | a list costs at least 6 per message, and costs 0 exactly when it is empty |
| `TokenCount.TokensSuffixDecrease` | chat_utils.py:59-62 | each further pop lowers the count by at least 6 more |
| `TokenCount.EvictCount` | chat_utils.py:59-62 | the number of messages a flush pops is at most the buffer length |
| `TokenCount.EvictCountSpec` | chat_utils.py:59-62 | with a target of 0 or more, the rest fits the target after the pops; with a negative target, everything is popped; every strictly longer suffix exceeds the target |
| `TokenCount.EvictCountUnique` | chat_utils.py:59-62 | the first point where the rest fits is the only eviction point |
| `TokenCount.EvictLowersCount` | chat_utils.py:59-62 | a flush that pops at least one message strictly lowers the count |
| `Rendering.InitialPromptEmpty` | chat_utils.py:90-96 | the system prompt is empty exactly when there is no summary and the system message is absent or `""` |
| `Rendering.Render` | chat_utils.py:88-102 | the rendered turns end with the buffer unchanged; there is one more leading `system` turn, holding the system prompt, exactly when that prompt is non-empty |
| `Rendering.RenderIsBuffer` | chat_utils.py:88-102 | the rendered turns equal the buffer exactly when there is no summary and no non-empty system message |
| `Rendering.RenderWithBoth` | chat_utils.py:91-101 | with system message X and summary Y, the leading `system` turn starts with X, ends with Y, and is followed by the buffer |
| `Rendering.HistoryTextSnoc` | chat_utils.py:14-20 | appending a message to the buffer appends (after a blank line, unless the buffer was empty) `Label: content` to `__str__` |
| `Rendering.HistoryTextSingle` | chat_utils.py:14-20 | `__str__` of a one-message buffer is the summary line (if any) followed by that message's `Label: content` |
| `Persistence.RoleFromName` | chat_utils.py:37-39 | a role read back from a record is one whose stored name is that text |
| `Persistence.MessagesToJson` | chat_utils.py:30-31 | the stored list has one `{role, content}` object per message, in order |
| `Persistence.MessageRoundTrip` | chat_utils.py:27-38 | reading back a stored message gives the message |
| `Persistence.MessageFromJsonCanonical` | chat_utils.py:27-38 | a value that reads back as a message is exactly that message's stored object |
| `Persistence.MessagesRoundTrip` | chat_utils.py:30-39 | reading back a stored message list gives the list |
| `Persistence.MessagesCanonical` | chat_utils.py:30-39 | a value that reads back as a message list is exactly that list's stored form |
| `Persistence.SaveLoadRoundTrip` | chat_utils.py:25-39 | loading the record `to_json` writes restores the summary, the messages and the archive |
| `ChatUtils.ChatHistory.constructor` | chat_utils.py:4-9 | the given tokenizer, system message and summary; the initial messages or `[]`; an empty archive |
| `ChatUtils.ChatHistory.LoadJson` | chat_utils.py:34-39 | assigns summary, then messages, then archive, and stops at the first key that is missing or holds a value the model rejects, leaving the later fields as they were; reports success exactly when all three load; never touches the system message |
| `ChatUtils.ChatHistory.AddUserMessage` | chat_utils.py:41-43 | the buffer gains exactly `{user, content}` at its tail; summary and archive are unchanged |
| `ChatUtils.ChatHistory.AddAssistantMessage` | chat_utils.py:45-47 | the buffer gains exactly `{assistant, content}` at its tail; summary and archive are unchanged |
| `ChatUtils.ChatHistory.CountMessageTokens` | chat_utils.py:77-86 | the nested counting loops compute the token count of the given messages |
| `ChatUtils.ChatHistory.TotalMessageTokens` | chat_utils.py:73-74 | the result is the token count of the buffer |
| `ChatUtils.ChatHistory.EvictOldest` | chat_utils.py:58-62 | the popped messages are the first `EvictCount` messages, in order; the buffer keeps the rest; the archive gains the popped ones; it fails exactly when the target is negative |
| `ChatUtils.ChatHistory.FlushToSummary` | chat_utils.py:57-71 | after a flush the buffer is a suffix that fits the target and the archive gained the evicted prefix; the summary becomes the summarizer's answer for the evicted transcript, recombined with the old summary when one existed; with a negative target it raises `IndexError` and the summary is unchanged |
| `ChatUtils.Chat.constructor` | chat_utils.py:105-114 | the configuration as given (defaults 3000 / 1200 / "Assistant") and a fresh empty buffer with the given system message |
| `ChatUtils.Chat.TakeTurn` | chat_utils.py:116-129 | on the stop sequence: returns false with the buffer unchanged. Otherwise appends the user message, then the reply to the prompt rendered after it. Flushes to `reset_buffer_len` exactly when the new count exceeds `max_buffer_tokens`; with no flush, summary and archive are unchanged. Returns true unless the flush raised. After any non-stopping turn with `0 <= reset_buffer_len <= max_buffer_tokens`, the buffer fits `max_buffer_tokens` |

## Left out

- `chat.py` and `gpt_utils.py`: the API-key and prompt input, tokenizer construction, command-line handling, the random file name, and the network calls. The reply and summarize functions become parameters.
- File handling in `to_json` / `load_json`: only the mapping between the buffer and the parsed JSON record is modelled.
- `ChatHistory.LoadJson` accepts only records of the shape `to_json` writes: a summary that is null or a string, and `messages` and `archive` lists whose every element is an object with exactly the keys `role` and `content`, both strings, the role one of the three names. Python would store any other value as it is (a non-list, a non-object element, a missing or extra key, another role, a number); the model reports `Unsupported` instead. The `Json` type has no numbers or booleans, so records holding them are not modelled at all.
- The `"name"` key and its `-1` token adjustment (chat_utils.py:83-84): messages are modelled with role and content only, so that branch never applies.
- `Messages.Capitalize` covers ASCII letters only; Python's Unicode `capitalize` is not modelled. The model only applies it to the three role names.
- `ChatHistory.__init__` stores the caller's `initial_messages` list itself, so the object and the caller share it. The model copies the value, so that sharing is not captured.
- `__getitem__` and `__len__` are plain indexing and length of the message list.
- Console output (`print` in `take_turn`, the `debug` flag), reading the line with `input()`, and the unbounded `Chat.chat` loop: the line is a parameter of `TakeTurn`.
- A collaborator that raises: tokenizer, reply and summarize functions are total here.
