/** Conversation turns as the chat server hands them to the prompt builders. */
module Chat {

  /** The `role` of a message: `"system"`, `"user"` or `"assistant"`. */
  datatype Role = System | User | Assistant

  /** A conversation turn: `{ role, content }`. */
  datatype Message = Message(role: Role, content: string)

  /** The role as the string the messages carry. */
  function RoleName(role: Role): string {
    match role
    case System => "system"
    case User => "user"
    case Assistant => "assistant"
  }
}
