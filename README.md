# Gemini GPTs bot: session and prompt model

A Dafny model of the conversation logic of a one-page Streamlit chat app that forwards user text to the Gemini API. The app keeps two session keys: `role`, the persona text, and `messages`, the ordered log of `{"role", "content"}` entries. Three things change them:

- initialisation gives each key its default, but only when that key is absent;
- applying a role from the sidebar replaces the role and clears the log;
- submitting chat text appends the user's message, builds one prompt text from the role and the whole log, calls the model, and appends the reply if the call succeeds. On failure it appends nothing more.

Files:

- `messages.dfy` (module `Messages`) holds the log entry, the role names `"user"` and `"assistant"`, and the prompt labels `사용자` and `AI`.
- `assembler.dfy` (module `Assembler`) is the prompt assembler. `BuildPrompt` is the source's loop: a list seeded with the role gets one `label: content` segment per message and is then joined with `"\n"`. It is proved equal to the recursive specification `Prompt`, and lemmas state what that prompt looks like.
- `chat.dfy` (module `Chat`) is the session. `Store` is the pair of keys, each possibly absent (`Option`). The pure step functions `Initialized`, `RoleApplied` and `Submitted`, and `ScriptRun` (one run of the script), say what each transition does. The class `Session` has the two keys as fields. Its methods update those fields in place, and each method's postcondition ties the new state to the step function of the old state. The lemmas state the promises about turns.

The prompt has no space before `AI:` (`app.py:120`). The default role is the Korean text at `app.py:52`.

The model call is a parameter `Outcome = Success(text) | Failure`. `Failure` stands for any exception raised before the reply is appended (app.py:115-132).

## Model

| member | source | states |
|---|---|---|
| `Assembler.Label` | app.py:120 | the label is `사용자` exactly when the message role is `"user"`, and `AI` for every other role |
| `Assembler.Segments` | app.py:119-120 | one segment per message, in log order: segment i is message i's label, `": "` and its content |
| `Assembler.SegmentsSnoc` | app.py:119-120 | logging one more message appends exactly its segment to the segment list |
| `Assembler.JoinSnoc` | app.py:124 | joining one more part adds the separator and then that part at the end |
| `Assembler.BuildPrompt` | app.py:116-124 | the loop that seeds the context with the role, appends a labelled segment per message and joins with newlines returns exactly `Prompt(role, msgs)` |
| `Assembler.PromptEmpty` | app.py:116-124 | with an empty log the prompt is exactly the role |
| `Assembler.PromptStartsWithRole` | app.py:116 | the prompt always begins with the role, whatever the history |
| `Assembler.PromptSnoc` | app.py:119-124 | logging one more message extends the prompt by a newline and that message's segment, leaving the earlier prompt as its prefix |
| `Assembler.JoinHeadSegments` | app.py:116-124 | a head part followed by the segments joins to the head plus one newline and one segment per message |
| `Assembler.PromptIsRoleThenLines` | app.py:116-124 | the prompt equals the role followed, for each message in log order, by `"\n"` and its `label: content` segment (a definition independent of the join) |
| `Assembler.PromptEndsWithSubmitted` | app.py:109-124 | a prompt built after appending the user's message ends with `"\n사용자: " + input` |
| `Assembler.PromptOfExchange` | app.py:116-124 | a log of user `hi` then assistant `hello` gives the role, then `"\n사용자: hi\nAI: hello"` |
| `Chat.Session.constructor` | app.py:48-52 | a new session has neither key |
| `Chat.Session.Init` | app.py:48-52 | both keys become present; a present key keeps its value; the new state is `Initialized` of the old |
| `Chat.Session.ApplyRole` | app.py:72-74 | the role becomes exactly the new text and the log becomes empty |
| `Chat.Session.Submit` | app.py:107-143 | empty text changes nothing and sends nothing. Otherwise the new state is `Submitted` of the old, and the prompt handed to the model is built from the log with the user's message already appended |
| `Chat.Session.Rerun` | app.py:48-145 | one script run: initialise, then handle the event; the state is `ScriptRun` of the old. A non-empty submission sends `SentPrompt` of the initialised state; a refresh, a role apply or empty text sends nothing |
| `Chat.InitMakesReady` | app.py:48-52 | after initialisation both keys are present |
| `Chat.InitOnlyIfAbsent` | app.py:48-52 | a present key is left untouched; an absent role becomes the default role and an absent log becomes empty |
| `Chat.InitIdempotent` | app.py:48-52 | initialising twice is the same as once, and initialising a complete session changes nothing |
| `Chat.ApplyRoleResets` | app.py:72-74 | applying a role leaves exactly the new role and an empty log, whatever the prior history |
| `Chat.SubmitEmptyChangesNothing` | app.py:107 | empty (falsy) input leaves the whole state unchanged |
| `Chat.SubmitSuccessAppendsTwo` | app.py:107-133 | on success the log grows by exactly two: the user's message, then the assistant reply. The earlier log is its prefix and the role is unchanged |
| `Chat.SubmitFailureAppendsOne` | app.py:107-143 | on failure the log grows by exactly one, the user's message, after the unchanged earlier log. No reply is added and the role is unchanged |
| `Chat.SentPromptFrames` | app.py:109-124 | the prompt sent for a submission starts with the role and ends with `"\n사용자: " + input` |
| `Chat.NextPromptCarriesExchange` | app.py:109-133 | after a successful turn, the prompt of the new log is the old prompt, then `"\n사용자: " + input`, then `"\nAI: " + reply` |
| `Chat.ScriptRunKeepsWellFormed` | app.py:48-143 | every script run keeps the log well formed. Every role is `"user"` or `"assistant"`, and every reply comes straight after a user message |
| `Chat.ReplayKeepsWellFormed` | app.py:48-145 | any series of script runs from a well-formed state (a session with no keys, for one) leaves a well-formed log |
| `Chat.LogEmptyAfterRoleApply` | app.py:72-75 | whatever runs came before, a run that applies a role leaves exactly that role and an empty log |
| `Chat.FirstTurn` | app.py:48-133 | for a new session submitting `2+2?` with reply `4`, the default role stays and the log is the question then the answer |

## Left out

- Page configuration, CSS, the HTML rendering of the role banner and messages, sidebar widgets and the status spinner (app.py:6-45, 63-71, 78-102, 112, 135). These are presentation only.
- `st.rerun` (app.py:75, 145). The model treats each script run as one event (`Chat.Event`). A role apply ends its run, so no submission is handled in the same run.
- Gemini configuration, the API-key lookup and the fatal `st.stop` path (app.py:55-60). These are external I/O and secrets.
- `start_chat`, `send_message` and `response.text` (app.py:115, 123-132). These are library calls, reduced to the `Outcome` parameter. The model does not distinguish a failure that happens before the prompt is assembled from one after it, since assembly changes no state.
- An exception raised after the reply is appended (by `status.update` at app.py:135) is caught at app.py:137 with the reply already logged. In state terms that path is the `Success` case. The model does not represent the error display that follows it.
- `generation_config` (temperature 0.7, 2048 output tokens; app.py:125-128). This is opaque configuration passed to the library.
- The wording of the error message and of the exception text (app.py:138-143). These are presentation only.
- `chat_input` returns `None` when nothing is submitted. That is falsy exactly like `""`, so the model handles both as the empty string.
- Splitting a prompt back into messages. Content may itself contain newlines, so no round trip exists.
