/** The record that `to_json` writes and `load_json` reads back, without the file handling. */
module Persistence {
  import opened Wrappers
  import opened Messages

  /** A JSON value. */
  datatype Json = JNull | JString(str: string) | JArray(items: seq<Json>) | JObject(fields: map<string, Json>)

  /** Why a record could not be loaded. */
  datatype LoadError =
    | NotAnObject            // the loaded value cannot be indexed by a key
    | MissingKey(key: string) // Python's KeyError
    | Unsupported(key: string) // a value under `key` that a typed message list or an optional string cannot hold

  function OptionToJson(o: Option<string>): Json
  {
    if o.Some? then JString(o.value) else JNull
  }

  function OptionFromJson(j: Json): Option<Option<string>>
  {
    match j
    case JNull => Some(None)
    case JString(s) => Some(Some(s))
    case _ => None
  }

  function RoleFromName(s: string): (r: Option<Role>)
    ensures r.Some? ==> RoleName(r.value) == s
  {
    if s == "system" then Some(System)
    else if s == "user" then Some(User)
    else if s == "assistant" then Some(Assistant)
    else None
  }

  /** A message as the `{"role": ..., "content": ...}` object it is stored as. */
  function MessageToJson(m: Message): Json
  {
    JObject(map["role" := JString(RoleName(m.role)), "content" := JString(m.content)])
  }

  function MessageFromJson(j: Json): Option<Message>
  {
    if j.JObject? && j.fields.Keys == {"role", "content"}
       && j.fields["role"].JString? && j.fields["content"].JString?
       && RoleFromName(j.fields["role"].str).Some?
    then Some(Message(RoleFromName(j.fields["role"].str).value, j.fields["content"].str))
    else None
  }

  /** Reading a stored message back gives the message. */
  lemma MessageRoundTrip(m: Message)
    ensures MessageFromJson(MessageToJson(m)) == Some(m)
  {
    var f := MessageToJson(m).fields;
    assert f.Keys == {"role", "content"};
    assert RoleFromName(RoleName(m.role)) == Some(m.role) by {
      match m.role
      case System =>
      case User =>
      case Assistant =>
    }
  }

  /** A value that reads back as a message is exactly that message's stored form. */
  lemma MessageFromJsonCanonical(j: Json, m: Message)
    requires MessageFromJson(j) == Some(m)
    ensures j == MessageToJson(m)
  {
    var f := j.fields;
    var g := MessageToJson(m).fields;
    assert f.Keys == g.Keys;
    assert f["role"] == g["role"];
    assert f["content"] == g["content"];
    assert f == g;
  }

  function MessagesToJson(ms: seq<Message>): (j: Json)
    ensures j.JArray? && |j.items| == |ms|
    ensures forall i :: 0 <= i < |ms| ==> j.items[i] == MessageToJson(ms[i])
  {
    JArray(seq(|ms|, i requires 0 <= i < |ms| => MessageToJson(ms[i])))
  }

  function ItemsToMessages(items: seq<Json>): Option<seq<Message>>
  {
    if items == [] then Some([])
    else
      var head := MessageFromJson(items[0]);
      var tail := ItemsToMessages(items[1..]);
      if head.Some? && tail.Some? then Some([head.value] + tail.value) else None
  }

  function MessagesFromJson(j: Json): Option<seq<Message>>
  {
    if j.JArray? then ItemsToMessages(j.items) else None
  }

  lemma {:induction false} ItemsRoundTrip(ms: seq<Message>)
    ensures ItemsToMessages(MessagesToJson(ms).items) == Some(ms)
  {
    if ms != [] {
      var items := MessagesToJson(ms).items;
      assert items[1..] == MessagesToJson(ms[1..]).items;
      MessageRoundTrip(ms[0]);
      ItemsRoundTrip(ms[1..]);
      assert ms == [ms[0]] + ms[1..];
    }
  }

  /** Reading a stored message list back gives the list. */
  lemma MessagesRoundTrip(ms: seq<Message>)
    ensures MessagesFromJson(MessagesToJson(ms)) == Some(ms)
  {
    ItemsRoundTrip(ms);
  }

  lemma {:induction false} ItemsCanonical(items: seq<Json>, ms: seq<Message>)
    requires ItemsToMessages(items) == Some(ms)
    ensures JArray(items) == MessagesToJson(ms)
  {
    if items != [] {
      MessageFromJsonCanonical(items[0], ms[0]);
      ItemsCanonical(items[1..], ms[1..]);
      assert items == [items[0]] + items[1..];
    }
  }

  /** A value that reads back as a message list is exactly that list's stored form. */
  lemma MessagesCanonical(j: Json, ms: seq<Message>)
    requires MessagesFromJson(j) == Some(ms)
    ensures j == MessagesToJson(ms)
  {
    ItemsCanonical(j.items, ms);
  }

  /** The four-field record `to_json` writes. */
  function RecordToJson(systemMessage: Option<string>, summary: Option<string>,
                        messages: seq<Message>, archive: seq<Message>): Json
  {
    JObject(map[
      "system_message" := OptionToJson(systemMessage),
      "summary" := OptionToJson(summary),
      "messages" := MessagesToJson(messages),
      "archive" := MessagesToJson(archive)])
  }

  /** `record[key]`: the value under `key`, or the error Python raises. */
  function Lookup(record: Json, key: string): Result<Json, LoadError>
  {
    if !record.JObject? then Failure(NotAnObject)
    else if key !in record.fields then Failure(MissingKey(key))
    else Success(record.fields[key])
  }

  /** The summary that `load_json` restores from a record. */
  function SummaryField(record: Json): Result<Option<string>, LoadError>
  {
    var v := Lookup(record, "summary");
    if v.Failure? then Failure(v.error)
    else if OptionFromJson(v.value).None? then Failure(Unsupported("summary"))
    else Success(OptionFromJson(v.value).value)
  }

  /** The message list that `load_json` restores from `record[key]`. */
  function MessagesField(record: Json, key: string): Result<seq<Message>, LoadError>
  {
    var v := Lookup(record, key);
    if v.Failure? then Failure(v.error)
    else if MessagesFromJson(v.value).None? then Failure(Unsupported(key))
    else Success(MessagesFromJson(v.value).value)
  }

  /** Loading a saved record restores its summary, messages and archive. */
  lemma SaveLoadRoundTrip(systemMessage: Option<string>, summary: Option<string>,
                          messages: seq<Message>, archive: seq<Message>)
    ensures var j := RecordToJson(systemMessage, summary, messages, archive);
            SummaryField(j) == Success(summary) &&
            MessagesField(j, "messages") == Success(messages) &&
            MessagesField(j, "archive") == Success(archive)
  {
    MessagesRoundTrip(messages);
    MessagesRoundTrip(archive);
  }
}
