/** Chat messages as the session stores them and the backend receives them. */
module Messages {

  const SystemRole: string := "system"
  const UserRole: string := "user"
  const AssistantRole: string := "assistant"

  /** A `{"role": ..., "content": ...}` dictionary. The role is kept as text: a
      loaded record may carry any role, and only "user" and "assistant" are
      told apart by the code that reads messages. */
  datatype Message = Message(role: string, content: string)

  function UserMessage(content: string): Message { Message(UserRole, content) }

  function AssistantMessage(content: string): Message { Message(AssistantRole, content) }

  function SystemMessage(content: string): Message { Message(SystemRole, content) }
}
