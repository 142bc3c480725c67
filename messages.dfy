/** Values shared by the session store and the prompt assembler: the log entry
    kept in the session and the fixed role names and labels the app uses. */
module Messages {

  datatype Option<+T> = None | Some(value: T)

  /** One conversation log entry, the dict {"role": ..., "content": ...}. */
  datatype Message = Message(role: string, content: string)

  /** Role name written for the user's own messages. */
  const UserRole: string := "user"
  /** Role name written for replies from the model. */
  const AssistantRole: string := "assistant"

  /** Prompt label of a message whose role is the user's. */
  const UserLabel: string := "사용자"
  /** Prompt label of a message with any other role. */
  const OtherLabel: string := "AI"

  function UserMessage(input: string): Message {
    Message(UserRole, input)
  }

  function AssistantMessage(text: string): Message {
    Message(AssistantRole, text)
  }
}
