/** Data model of the chat screen: the props the screen is rendered from,
    the scroll event it receives, and the helpers it calls but whose
    bodies live elsewhere in the application. */
module ChatTypes {

  /** The session handle passed through to the network and activity helpers. */
  type Auth(==)
  /** The per-message flag store the unread filter consults. */
  type Flags
  /** The read-id store the unread counter consults. */
  type ReadIds

  type MessageId = int

  /** One element of a narrow; only `operand` is inspected by the screen. */
  datatype NarrowElement = NarrowElement(operator: string, operand: string)

  /** A narrow is the list of filter elements describing what is in view. */
  type Narrow = seq<NarrowElement>

  datatype Message = Message(id: MessageId)

  /** A stream record; only `name` and `invite_only` are inspected. */
  datatype Stream = Stream(name: string, inviteOnly: bool)

  /** A subscription record; only `name` is inspected. */
  datatype Subscription = Subscription(name: string)

  datatype Fetching = Fetching(older: bool, newer: bool)

  /** The props of the screen that the modelled logic reads.
      `hasMarkMessagesRead` is the truthiness of the optional
      `markMessagesRead` callback. */
  datatype Props = Props(
    auth: Auth,
    narrow: Narrow,
    needsInitialFetch: bool,
    fetching: Fetching,
    isOnline: bool,
    flags: Flags,
    messages: seq<Message>,
    readIds: ReadIds,
    subscriptions: seq<Subscription>,
    streams: seq<Stream>,
    hasMarkMessagesRead: bool)

  /** A scroll event of the message list, with layout measurements as integers. */
  datatype ScrollEvent = ScrollEvent(
    visibleIds: seq<MessageId>,
    contentHeight: int,
    contentOffsetY: int,
    layoutHeight: int)

  /** The imported helpers whose bodies are not part of this model. */
  datatype Helpers = Helpers(
    filterUnreadMessageIds: (seq<MessageId>, Flags) -> seq<MessageId>,
    countUnread: (seq<MessageId>, ReadIds) -> int,
    canSendToNarrow: Narrow -> bool,
    isStreamOrTopicNarrow: Narrow -> bool)

  /** The outcome of evaluating an expression that may throw a TypeError
      (a property read on `undefined`). */
  datatype Outcome<+T> = Returned(value: T) | Threw

  /** The calls the scroll handler emits to the outside world, in order. */
  datatype Call =
    | MarkMessagesRead(ids: seq<MessageId>)
    | QueueMarkAsRead(auth: Auth, ids: seq<MessageId>)
    | RegisterAppActivity(auth: Auth)
}
