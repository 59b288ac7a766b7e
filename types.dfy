/** The records shared by the client and the relay (types.ts) and the fixed
    names from constants.ts. An optional field of the source (`x?: T`) is an
    `Option`, `None` standing for an absent key. */
module Types {
  import opened Wrappers

  const MockUserId: string := "You"
  const MockBotId: string := "RepoBot"
  const MockAiName: string := "RepoInsight AI"

  /** A message of the client's chat log. */
  datatype ChatMessage = ChatMessage(
    id: string,
    user: string,
    text: string,
    timestamp: int,
    isAIMessage: Option<bool>,
    isSystemMessage: Option<bool>,
    isOwnMessage: Option<bool>,
    roomId: Option<string>)

  /** A chat message as it travels over the channel: any key may be absent,
      and a reply carries the id of the message it answers. */
  datatype ChatPayload = ChatPayload(
    id: Option<string>,
    user: Option<string>,
    text: Option<string>,
    timestamp: Option<int>,
    roomId: Option<string>,
    isAIMessage: Option<bool>,
    isSystemMessage: Option<bool>,
    isOwnMessage: Option<bool>,
    parentMessageId: Option<string>)

  /** A question put to the language model and its outcome. `answer` is
      `null` until answered. */
  datatype AIConversation = AIConversation(
    id: string,
    question: string,
    answer: Option<string>,
    timestamp: int,
    isLoading: bool,
    error: Option<string>,
    repoFullName: string,
    user: Option<string>)

  datatype SocketStatus = Idle | Connecting | Connected | Disconnected | Error

  /** A system message from the bot, as the client writes one into its log. */
  function SystemMessage(id: string, text: string, now: int, room: string): ChatMessage {
    ChatMessage(id, MockBotId, text, now, None, Some(true), None, Some(room))
  }
}
