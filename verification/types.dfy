/** The records the chat client and the relay exchange (lib/types.ts). */
module Types {

  /** The conventional Some/None datatype, used for values JavaScript leaves undefined. */
  datatype Option<+T> = None | Some(value: T)

  /** The author of a message. The browser only creates `User` and `Assistant`
      messages; `System` exists in the message list the relay sends upstream. */
  datatype Role = User | Assistant | System

  datatype Message = Message(role: Role, content: string)

  /** A saved conversation: a snapshot of the transcript with a short preview. */
  datatype HistoryItem = HistoryItem(id: string, timestamp: int, messages: seq<Message>, preview: string)
}
