/** The prompt assembler: the single text sent to the model on each turn is
    the role followed by one labelled line per logged message, joined by
    newlines. */
module Assembler {
  import opened Messages

  /** Separator that Python's "\n".join puts between segments. */
  const Newline: string := "\n"

  /** The actor label: the user's label for role "user", "AI" for any other role. */
  function Label(role: string): (r: string)
    ensures r == UserLabel <==> role == UserRole
    ensures r == UserLabel || r == OtherLabel
  {
    if role == UserRole then UserLabel else OtherLabel
  }

  /** The text one message contributes to the prompt: "<label>: <content>". */
  function Segment(m: Message): string {
    Label(m.role) + ": " + m.content
  }

  /** One segment per message, in log order. */
  function Segments(msgs: seq<Message>): (r: seq<string>)
    ensures |r| == |msgs|
    ensures forall i :: 0 <= i < |msgs| ==> r[i] == Segment(msgs[i])
  {
    if msgs == [] then [] else [Segment(msgs[0])] + Segments(msgs[1..])
  }

  /** Python's sep.join(parts): the parts with sep between neighbours, "" for no parts. */
  function Join(sep: string, parts: seq<string>): string {
    if |parts| == 0 then ""
    else if |parts| == 1 then parts[0]
    else parts[0] + sep + Join(sep, parts[1..])
  }

  /** The prompt: the role first, then the message segments, joined by newlines. */
  function Prompt(role: string, msgs: seq<Message>): string {
    Join(Newline, [role] + Segments(msgs))
  }

  /** An independent reading of the prompt: every message adds a newline and its segment. */
  function Lines(msgs: seq<Message>): string {
    if msgs == [] then "" else Newline + Segment(msgs[0]) + Lines(msgs[1..])
  }

  /** The assembly loop: a list seeded with the role, one segment appended per
      message, then joined. */
  method BuildPrompt(role: string, msgs: seq<Message>) returns (prompt: string)
    ensures prompt == Prompt(role, msgs)
  {
    var context := [role];
    for i := 0 to |msgs|
      invariant context == [role] + Segments(msgs[..i])
    {
      var actor := if msgs[i].role == UserRole then UserLabel else OtherLabel;
      var segment := actor + ": " + msgs[i].content;
      assert context + [segment] == [role] + Segments(msgs[..i + 1]) by {
        assert segment == Segment(msgs[i]);
        assert msgs[..i + 1] == msgs[..i] + [msgs[i]];
        SegmentsSnoc(msgs[..i], msgs[i]);
      }
      context := context + [segment];
    }
    assert context == [role] + Segments(msgs) by {
      assert msgs[..|msgs|] == msgs;
    }
    prompt := Join(Newline, context);
  }

  /** Appending a message appends its segment. */
  lemma SegmentsSnoc(msgs: seq<Message>, m: Message)
    ensures Segments(msgs + [m]) == Segments(msgs) + [Segment(m)]
  {
    assert forall i :: 0 <= i < |msgs| ==> (msgs + [m])[i] == msgs[i];
  }

  /** Joining one more part adds the separator and that part at the end. */
  lemma {:induction false} JoinSnoc(sep: string, parts: seq<string>, x: string)
    requires |parts| > 0
    ensures Join(sep, parts + [x]) == Join(sep, parts) + sep + x
  {
    if |parts| > 1 {
      assert (parts + [x])[1..] == parts[1..] + [x];
      JoinSnoc(sep, parts[1..], x);
    }
  }

  /** With an empty log the prompt is exactly the role. */
  lemma PromptEmpty(role: string)
    ensures Prompt(role, []) == role
  {
  }

  /** The prompt always begins with the role, whatever the history. */
  lemma PromptStartsWithRole(role: string, msgs: seq<Message>)
    ensures role <= Prompt(role, msgs)
  {
    if msgs != [] {
      assert ([role] + Segments(msgs))[1..] == Segments(msgs);
    }
  }

  /** One more logged message adds a newline and its segment at the end of the
      prompt. */
  lemma PromptSnoc(role: string, msgs: seq<Message>, m: Message)
    ensures Prompt(role, msgs + [m]) == Prompt(role, msgs) + Newline + Segment(m)
  {
    SegmentsSnoc(msgs, m);
    assert [role] + Segments(msgs + [m]) == ([role] + Segments(msgs)) + [Segment(m)];
    JoinSnoc(Newline, [role] + Segments(msgs), Segment(m));
  }

  /** Helper for PromptIsRoleThenLines: a head part followed by the segments. */
  lemma {:induction false} JoinHeadSegments(head: string, msgs: seq<Message>)
    ensures Join(Newline, [head] + Segments(msgs)) == head + Lines(msgs)
    decreases |msgs|
  {
    if msgs != [] {
      var rest := Segments(msgs[1..]);
      assert [head] + Segments(msgs) == [head] + ([Segment(msgs[0])] + rest);
      assert ([head] + ([Segment(msgs[0])] + rest))[1..] == [Segment(msgs[0])] + rest;
      JoinHeadSegments(Segment(msgs[0]), msgs[1..]);
    }
  }

  /** The prompt is the role followed, for each message in log order, by a
      newline and that message's "<label>: <content>" segment. */
  lemma PromptIsRoleThenLines(role: string, msgs: seq<Message>)
    ensures Prompt(role, msgs) == role + Lines(msgs)
  {
    JoinHeadSegments(role, msgs);
  }

  /** The prompt built right after a submission ends with the user's segment. */
  lemma PromptEndsWithSubmitted(role: string, msgs: seq<Message>, input: string)
    ensures var p := Prompt(role, msgs + [UserMessage(input)]);
      var tail := Newline + UserLabel + ": " + input;
      |tail| <= |p| && p[|p| - |tail|..] == tail
  {
    PromptSnoc(role, msgs, UserMessage(input));
    assert Newline + Segment(UserMessage(input)) == Newline + UserLabel + ": " + input;
  }

  /** A user turn and an assistant reply: the worked example, role first. */
  lemma PromptOfExchange(role: string)
    ensures Prompt(role, [Message("user", "hi"), Message("assistant", "hello")])
         == role + "\n사용자: hi\nAI: hello"
  {
    PromptIsRoleThenLines(role, [Message("user", "hi"), Message("assistant", "hello")]);
  }
}
