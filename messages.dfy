/** Chat messages and their transcript formatting (`message_to_string`, `"\n\n".join`). */
module Messages {

  /** The three roles a chat message can carry. */
  datatype Role = System | User | Assistant

  /** One `{role, content}` record of the conversation. */
  datatype Message = Message(role: Role, content: string)

  /** The role as it is stored in a message record. */
  function RoleName(r: Role): string
  {
    match r
    case System => "system"
    case User => "user"
    case Assistant => "assistant"
  }

  /** The label a transcript shows for a role: the reference value for `capitalize`. */
  function RoleLabel(r: Role): string
  {
    match r
    case System => "System"
    case User => "User"
    case Assistant => "Assistant"
  }

  function ToUpper(c: char): char
  {
    if 'a' <= c <= 'z' then (c as int - 32) as char else c
  }

  function ToLower(c: char): char
  {
    if 'A' <= c <= 'Z' then (c as int + 32) as char else c
  }

  predicate NotLowerLetter(c: char) { !('a' <= c <= 'z') }

  predicate NotUpperLetter(c: char) { !('A' <= c <= 'Z') }

  /** Python's `str.capitalize` restricted to ASCII letters: first character upper case, the rest lower case. */
  function Capitalize(s: string): (r: string)
    ensures |r| == |s|
    ensures |s| > 0 ==> NotLowerLetter(r[0])
    ensures forall i :: 0 < i < |r| ==> NotUpperLetter(r[i])
    ensures forall i :: 0 <= i < |s| ==> ToLower(r[i]) == ToLower(s[i])
  {
    seq(|s|, i requires 0 <= i < |s| => if i == 0 then ToUpper(s[0]) else ToLower(s[i]))
  }

  /** `capitalize` maps each stored role name to its transcript label. */
  lemma CapitalizeRoleName(r: Role)
    ensures Capitalize(RoleName(r)) == RoleLabel(r)
  {
    var s := RoleName(r);
    match r
    case System =>
      assert Capitalize(s) == ['S', 'y', 's', 't', 'e', 'm'];
    case User =>
      assert Capitalize(s) == ['U', 's', 'e', 'r'];
    case Assistant =>
      assert Capitalize(s) == ['A', 's', 's', 'i', 's', 't', 'a', 'n', 't'];
  }

  /** `message_to_string`: the capitalized role, a colon and a space, then the content. */
  function MessageToString(m: Message): string
  {
    Capitalize(RoleName(m.role)) + ": " + m.content
  }

  /** The formatted message is the role's label, a colon and a space, then the content. */
  lemma MessageToStringLabel(m: Message)
    ensures MessageToString(m) == RoleLabel(m.role) + ": " + m.content
  {
    CapitalizeRoleName(m.role);
  }

  /** The label and the content can be read back from the formatted message. */
  lemma MessageToStringShape(m: Message)
    ensures |MessageToString(m)| == |RoleLabel(m.role)| + 2 + |m.content|
    ensures MessageToString(m)[..|RoleLabel(m.role)| + 2] == RoleLabel(m.role) + ": "
    ensures MessageToString(m)[|RoleLabel(m.role)| + 2..] == m.content
  {
    MessageToStringLabel(m);
  }

  /** Two different messages never format to the same line. */
  lemma MessageToStringInjective(a: Message, b: Message)
    requires MessageToString(a) == MessageToString(b)
    ensures a == b
  {
    MessageToStringShape(a);
    MessageToStringShape(b);
    var s := MessageToString(a);
    assert s[0] == RoleLabel(a.role)[0] && s[0] == RoleLabel(b.role)[0];
    assert a.role == b.role;
  }

  /** Python's `sep.join(parts)`. */
  function Join(sep: string, parts: seq<string>): string
  {
    if |parts| == 0 then ""
    else if |parts| == 1 then parts[0]
    else parts[0] + sep + Join(sep, parts[1..])
  }

  /** Joining one more part appends the separator and that part (just the part when there was none before). */
  lemma {:induction false} JoinSnoc(sep: string, parts: seq<string>, p: string)
    ensures Join(sep, parts + [p]) == if parts == [] then p else Join(sep, parts) + sep + p
  {
    if |parts| == 0 {
      assert parts + [p] == [p];
    } else if |parts| == 1 {
      assert parts + [p] == [parts[0], p];
    } else {
      assert (parts + [p])[1..] == parts[1..] + [p];
      JoinSnoc(sep, parts[1..], p);
    }
  }

  /** The formatted lines of a list of messages. */
  function Lines(ms: seq<Message>): (r: seq<string>)
    ensures |r| == |ms|
    ensures forall i :: 0 <= i < |ms| ==> r[i] == MessageToString(ms[i])
  {
    if ms == [] then [] else [MessageToString(ms[0])] + Lines(ms[1..])
  }

  /** The transcript of a list of messages: their `message_to_string` lines joined by blank lines. */
  function Transcript(ms: seq<Message>): string
  {
    Join("\n\n", Lines(ms))
  }

  /** Appending a message to a list appends a blank line and its formatted line to the transcript. */
  lemma TranscriptSnoc(ms: seq<Message>, m: Message)
    ensures Transcript(ms + [m]) ==
            if ms == [] then MessageToString(m) else Transcript(ms) + "\n\n" + MessageToString(m)
  {
    assert Lines(ms + [m]) == Lines(ms) + [MessageToString(m)];
    JoinSnoc("\n\n", Lines(ms), MessageToString(m));
  }

  /** Joining two lists of parts joins their joins with one more separator. */
  lemma {:induction false} JoinAppend(sep: string, p: seq<string>, q: seq<string>)
    requires p != [] && q != []
    ensures Join(sep, p + q) == Join(sep, p) + sep + Join(sep, q)
  {
    assert (p + q)[0] == p[0];
    if |p| == 1 {
      assert (p + q)[1..] == q;
    } else {
      assert (p + q)[1..] == p[1..] + q;
      JoinAppend(sep, p[1..], q);
      assert p[0] + sep + (Join(sep, p[1..]) + sep + Join(sep, q)) == (p[0] + sep + Join(sep, p[1..])) + sep + Join(sep, q);
    }
  }

  /** The transcript of two lists is theirs joined by a blank line when both are non-empty. */
  lemma TranscriptAppend(a: seq<Message>, b: seq<Message>)
    ensures Transcript(a + b) ==
            if a == [] then Transcript(b)
            else if b == [] then Transcript(a)
            else Transcript(a) + "\n\n" + Transcript(b)
  {
    assert Lines(a + b) == Lines(a) + Lines(b);
    if a == [] {
      assert a + b == b;
    } else if b == [] {
      assert a + b == a;
    } else {
      JoinAppend("\n\n", Lines(a), Lines(b));
    }
  }
}
