/** The records the core stores and exchanges. */
module Records {
  import opened Wrappers

  /** One chat message `{role, txt}`; its identity is its position in the chat. */
  datatype Message = Message(role: string, txt: string)

  /**
   * A row of the `chats` table. `characterId` is `None` for JavaScript's
   * `null`/`undefined`; `timestamp` is the creation time in milliseconds.
   */
  datatype Chat = Chat(id: int, title: string, timestamp: int, content: seq<Message>, characterId: Option<int>)

  /** A row of the `characters` table. */
  datatype Character = Character(id: int, name: string, description: string, prompt: string)

  /** A predefined seed message `{role, message}` as the settings page stores it. */
  datatype Seed = Seed(role: string, message: string)

  /** One entry of the generation API's transcript `{role, parts: [{text}]}`. */
  datatype Entry = Entry(role: string, text: string)
}
