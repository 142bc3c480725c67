/** The conversation session: the role prompt and the message log held in the
    app's session state, and the three things that change them (initialise
    missing keys, apply a new role, submit user text). */
module Chat {
  import opened Messages
  import opened Assembler

  /** The role a fresh session starts with. */
  const DefaultRole: string := "당신은 친절한 AI 어시스턴트입니다."

  /** What the model call produced: the reply text, or an exception raised
      before the reply is logged. */
  datatype Outcome = Success(text: string) | Failure

  /** The two session-state keys; None is a key that is absent. */
  datatype Store = Store(role: Option<string>, messages: Option<seq<Message>>)

  /** Both keys are present, as they are once initialisation has run. */
  predicate Ready(s: Store) {
    s.role.Some? && s.messages.Some?
  }

  /** Initialisation: each key is set to its default only when it is absent. */
  function Initialized(s: Store): Store {
    Store(if s.role.None? then Some(DefaultRole) else s.role,
          if s.messages.None? then Some([]) else s.messages)
  }

  /** Applying a role: the role becomes the new text and the log is cleared. */
  function RoleApplied(s: Store, newRole: string): Store {
    Store(Some(newRole), Some([]))
  }

  /** The prompt handed to the model for a submission: the log already holds
      the user's message. */
  function SentPrompt(s: Store, input: string): string
    requires Ready(s)
  {
    Prompt(s.role.value, s.messages.value + [UserMessage(input)])
  }

  /** Submitting text: empty text changes nothing; otherwise the user's message
      is logged, then the reply too when the model call succeeded. */
  function Submitted(s: Store, input: string, outcome: Outcome): Store
    requires Ready(s)
  {
    if input == "" then s
    else
      var logged := s.messages.value + [UserMessage(input)];
      match outcome
      case Success(text) => Store(s.role, Some(logged + [AssistantMessage(text)]))
      case Failure => Store(s.role, Some(logged))
  }

  /** What one run of the script reacts to. */
  datatype Event =
    | Refresh
    | RoleApply(newRole: string)
    | Submission(input: string, outcome: Outcome)

  /** One run of the script: initialisation first, then the event's handler. */
  function ScriptRun(s: Store, e: Event): Store {
    var t := Initialized(s);
    match e
    case Refresh => t
    case RoleApply(newRole) => RoleApplied(t, newRole)
    case Submission(input, outcome) => Submitted(t, input, outcome)
  }

  /** The state after a series of runs, starting from s. */
  function Replay(s: Store, events: seq<Event>): Store
    decreases |events|
  {
    if events == [] then s else Replay(ScriptRun(s, events[0]), events[1..])
  }

  /** Every logged role is "user" or "assistant", and every assistant reply
      comes straight after a user message. */
  predicate WellFormedLog(msgs: seq<Message>) {
    forall i :: 0 <= i < |msgs| ==>
      (msgs[i].role == UserRole || msgs[i].role == AssistantRole) &&
      (msgs[i].role == AssistantRole ==> 0 < i && msgs[i - 1].role == UserRole)
  }

  predicate WellFormed(s: Store) {
    s.messages.Some? ==> WellFormedLog(s.messages.value)
  }

  /** The session state, as a class whose methods update its fields in place. */
  class Session {
    var role: Option<string>
    var messages: Option<seq<Message>>

    /** A new session: neither key is present yet. */
    constructor ()
      ensures role == None && messages == None
    {
      role := None;
      messages := None;
    }

    function Snapshot(): Store
      reads this
    {
      Store(role, messages)
    }

    method Init()
      modifies this
      ensures Snapshot() == Initialized(old(Snapshot()))
      ensures Ready(Snapshot())
      ensures old(role).Some? ==> role == old(role)
      ensures old(messages).Some? ==> messages == old(messages)
    {
      if messages.None? {
        messages := Some([]);
      }
      if role.None? {
        role := Some(DefaultRole);
      }
    }

    method ApplyRole(newRole: string)
      modifies this
      ensures Snapshot() == RoleApplied(old(Snapshot()), newRole)
      ensures role == Some(newRole) && messages == Some([])
    {
      role := Some(newRole);
      messages := Some([]);
    }

    /** Records the user's message, assembles the prompt from the updated log
        and, given the model call's outcome, records the reply or keeps the log
        as it is. Returns the prompt handed to the model, None for empty text. */
    method Submit(input: string, outcome: Outcome) returns (sent: Option<string>)
      requires Ready(Snapshot())
      modifies this
      ensures Snapshot() == Submitted(old(Snapshot()), input, outcome)
      ensures input == "" ==> sent == None
      ensures input != "" ==> sent == Some(SentPrompt(old(Snapshot()), input))
    {
      if input == "" {
        return None;
      }
      messages := Some(messages.value + [UserMessage(input)]);
      var prompt := BuildPrompt(role.value, messages.value);
      sent := Some(prompt);
      match outcome {
        case Success(text) =>
          messages := Some(messages.value + [AssistantMessage(text)]);
        case Failure =>
      }
    }

    /** One run of the script for the given event. */
    method Rerun(e: Event) returns (sent: Option<string>)
      modifies this
      ensures Snapshot() == ScriptRun(old(Snapshot()), e)
      ensures e.Submission? && e.input != "" ==>
        sent == Some(SentPrompt(Initialized(old(Snapshot())), e.input))
      ensures !(e.Submission? && e.input != "") ==> sent == None
    {
      Init();
      sent := None;
      match e {
        case Refresh =>
        case RoleApply(newRole) =>
          ApplyRole(newRole);
        case Submission(input, outcome) =>
          sent := Submit(input, outcome);
      }
    }
  }

  /** Initialisation makes both keys present. */
  lemma InitMakesReady(s: Store)
    ensures Ready(Initialized(s))
  {
  }

  /** Initialisation fills absent keys with the defaults and leaves present
      keys untouched. */
  lemma InitOnlyIfAbsent(s: Store)
    ensures Initialized(s).role == if s.role.Some? then s.role else Some(DefaultRole)
    ensures Initialized(s).messages == if s.messages.Some? then s.messages else Some([])
  {
  }

  /** Running initialisation again changes nothing. */
  lemma InitIdempotent(s: Store)
    ensures Initialized(Initialized(s)) == Initialized(s)
    ensures Ready(s) ==> Initialized(s) == s
  {
  }

  /** Applying a role leaves exactly the new role and an empty log, whatever
      the history was. */
  lemma ApplyRoleResets(s: Store, newRole: string)
    ensures RoleApplied(s, newRole).role == Some(newRole)
    ensures RoleApplied(s, newRole).messages == Some([])
  {
  }

  /** Empty text changes nothing. */
  lemma SubmitEmptyChangesNothing(s: Store, outcome: Outcome)
    requires Ready(s)
    ensures Submitted(s, "", outcome) == s
  {
  }

  /** On success the log grows by exactly two, the user's message then the reply,
      after the unchanged earlier log; the role is unchanged. */
  lemma SubmitSuccessAppendsTwo(s: Store, input: string, text: string)
    requires Ready(s) && input != ""
    ensures var t := Submitted(s, input, Success(text));
      var before := s.messages.value;
      t.role == s.role && t.messages.Some? &&
      |t.messages.value| == |before| + 2 &&
      t.messages.value[..|before|] == before &&
      t.messages.value[|before|] == Message("user", input) &&
      t.messages.value[|before| + 1] == Message("assistant", text)
  {
    var before := s.messages.value;
    var log := before + [UserMessage(input)] + [AssistantMessage(text)];
    assert log[..|before|] == before;
  }

  /** On failure the log grows by exactly one, the user's message, and no reply
      is logged; the role is unchanged. */
  lemma SubmitFailureAppendsOne(s: Store, input: string)
    requires Ready(s) && input != ""
    ensures var t := Submitted(s, input, Failure);
      var before := s.messages.value;
      t.role == s.role && t.messages.Some? &&
      |t.messages.value| == |before| + 1 &&
      t.messages.value[..|before|] == before &&
      t.messages.value[|before|] == Message("user", input)
  {
    var before := s.messages.value;
    assert (before + [UserMessage(input)])[..|before|] == before;
  }

  /** The prompt sent for a submission starts with the role and ends with the
      user's "사용자: <input>" segment. */
  lemma SentPromptFrames(s: Store, input: string)
    requires Ready(s)
    ensures s.role.value <= SentPrompt(s, input)
    ensures var p := SentPrompt(s, input);
      var tail := "\n사용자: " + input;
      |tail| <= |p| && p[|p| - |tail|..] == tail
  {
    PromptStartsWithRole(s.role.value, s.messages.value + [UserMessage(input)]);
    PromptEndsWithSubmitted(s.role.value, s.messages.value, input);
  }

  /** After a successful turn the next prompt carries the whole exchange: the
      previous prompt, the user's line, then the reply's line. */
  lemma NextPromptCarriesExchange(s: Store, input: string, text: string)
    requires Ready(s) && input != ""
    ensures var t := Submitted(s, input, Success(text));
      Prompt(t.role.value, t.messages.value)
        == Prompt(s.role.value, s.messages.value) + "\n사용자: " + input + "\nAI: " + text
  {
    var log := s.messages.value + [UserMessage(input)];
    PromptSnoc(s.role.value, s.messages.value, UserMessage(input));
    PromptSnoc(s.role.value, log, AssistantMessage(text));
    assert Segment(UserMessage(input)) == "사용자: " + input;
    assert Segment(AssistantMessage(text)) == "AI: " + text;
  }

  /** Every transition keeps the log well formed. */
  lemma ScriptRunKeepsWellFormed(s: Store, e: Event)
    requires WellFormed(s)
    ensures WellFormed(ScriptRun(s, e))
  {
    var t := Initialized(s);
    assert WellFormedLog(t.messages.value);
    if e.Submission? && e.input != "" {
      var log := t.messages.value + [UserMessage(e.input)];
      assert WellFormedLog(log) by {
        assert forall i :: 0 <= i < |t.messages.value| ==> log[i] == t.messages.value[i];
      }
      if e.outcome.Success? {
        var log2 := log + [AssistantMessage(e.outcome.text)];
        assert forall i :: 0 <= i < |log| ==> log2[i] == log[i];
      }
    }
  }

  /** From a session with no keys, any series of runs leaves a well-formed log. */
  lemma {:induction false} ReplayKeepsWellFormed(s: Store, events: seq<Event>)
    requires WellFormed(s)
    ensures WellFormed(Replay(s, events))
    decreases |events|
  {
    if events != [] {
      ScriptRunKeepsWellFormed(s, events[0]);
      ReplayKeepsWellFormed(ScriptRun(s, events[0]), events[1..]);
    }
  }

  /** Any run that applies a role leaves the log empty, whatever came before. */
  lemma {:induction false} LogEmptyAfterRoleApply(s: Store, events: seq<Event>, newRole: string)
    ensures Replay(s, events + [RoleApply(newRole)]).messages == Some([])
    ensures Replay(s, events + [RoleApply(newRole)]).role == Some(newRole)
    decreases |events|
  {
    if events == [] {
      assert Replay(s, [RoleApply(newRole)]) == ScriptRun(s, RoleApply(newRole));
    } else {
      assert (events + [RoleApply(newRole)])[1..] == events[1..] + [RoleApply(newRole)];
      LogEmptyAfterRoleApply(ScriptRun(s, events[0]), events[1..], newRole);
    }
  }

  /** First turn of a new session: the default role stays, and the log is the
      question followed by the answer. */
  lemma FirstTurn()
    ensures ScriptRun(Store(None, None), Submission("2+2?", Success("4")))
         == Store(Some(DefaultRole), Some([Message("user", "2+2?"), Message("assistant", "4")]))
  {
    assert "2+2?" != "" by { assert |"2+2?"| == 4; }
    assert [] + [UserMessage("2+2?")] + [AssistantMessage("4")]
        == [Message("user", "2+2?"), Message("assistant", "4")];
  }
}
