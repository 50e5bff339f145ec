/** The Markdown export of a conversation (`message_to_markdown`). */
module Transcript {
  import opened Messages

  const StudentLabel: string := "**学生**: "
  const AssistantLabel: string := "**酷学助手**: "

  function Heading(title: string): string
  {
    "# " + title + "\n\n"
  }

  /** A message's paragraph: the student label for role "user", the assistant
      label for every other role. */
  function Block(m: Message): string
  {
    (if m.role == UserRole then StudentLabel else AssistantLabel) + m.content + "\n\n"
  }

  /** The paragraphs of `ms`, in order. */
  function Blocks(ms: seq<Message>): string
  {
    if ms == [] then "" else Blocks(ms[..|ms| - 1]) + Block(ms[|ms| - 1])
  }

  /** Grows the transcript one message at a time. */
  method MessageToMarkdown(title: string, messages: seq<Message>) returns (result: string)
    ensures result == Heading(title) + Blocks(messages)
    ensures result[..|Heading(title)|] == Heading(title)
  {
    result := "# " + title + "\n\n";
    for i := 0 to |messages|
      invariant result == Heading(title) + Blocks(messages[..i])
    {
      assert messages[..i + 1][..i] == messages[..i];
      var msg := messages[i];
      if msg.role == UserRole {
        result := result + StudentLabel + msg.content + "\n\n";
      } else {
        result := result + AssistantLabel + msg.content + "\n\n";
      }
    }
    assert messages[..|messages|] == messages;
  }

  /** The paragraphs of two runs of messages are the two exports joined. */
  lemma {:induction false} BlocksAppend(a: seq<Message>, b: seq<Message>)
    ensures Blocks(a + b) == Blocks(a) + Blocks(b)
    decreases |b|
  {
    if b == [] {
      assert a + b == a;
    } else {
      var b' := b[..|b| - 1];
      assert (a + b)[..|a + b| - 1] == a + b';
      BlocksAppend(a, b');
    }
  }

  /** Message `i`'s paragraph sits right after the heading and the paragraphs
      of the messages before it: one paragraph per message, in order. */
  lemma BlockAt(title: string, ms: seq<Message>, i: nat)
    requires i < |ms|
    ensures var start := |Heading(title)| + |Blocks(ms[..i])|;
      var t := Heading(title) + Blocks(ms);
      start + |Block(ms[i])| <= |t| && t[start..start + |Block(ms[i])|] == Block(ms[i])
  {
    var before, rest := ms[..i], ms[i + 1..];
    assert ms == before + [ms[i]] + rest;
    BlocksAppend(before + [ms[i]], rest);
    assert (before + [ms[i]])[..i] == before;
    Middle(Heading(title) + Blocks(before), Block(ms[i]), Blocks(rest));
  }

  /** The middle part of a three-part text, found by its offset. */
  lemma Middle(p: string, x: string, q: string)
    ensures |p| + |x| <= |p + x + q| && (p + x + q)[|p|..|p| + |x|] == x
  {
    assert (p + x + q)[..|p| + |x|] == p + x;
  }

  /** The paragraph of a message opens with the student label exactly when
      its role is "user", and with the assistant label otherwise. */
  lemma BlockLabel(m: Message)
    ensures Block(m)[..|StudentLabel|] == StudentLabel <==> m.role == UserRole
    ensures m.role != UserRole ==> Block(m)[..|AssistantLabel|] == AssistantLabel
  {
    var tag := if m.role == UserRole then StudentLabel else AssistantLabel;
    assert Block(m) == tag + (m.content + "\n\n");
    assert Block(m)[..|tag|] == tag;
    if m.role != UserRole {
      assert Block(m)[2] == AssistantLabel[2] != StudentLabel[2];
    }
  }
}
