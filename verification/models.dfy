/**
 * The values the Gitter adapter handles: the Dotbot domain model (User,
 * Room, Message, MessageEvent) and the decoded Faye envelope of a Gitter
 * chat message. All of them are immutable records in the source.
 */
module Models {
  import opened Wrappers

  /** A C# string reference: None stands for null. */
  type NString = Option<string>

  /** A Dotbot user: the bot itself, a remote participant, or a synthetic addressee. */
  datatype User = User(id: NString, username: NString, displayName: NString)

  /** A Dotbot room, as enumerated by the broker. */
  datatype Room = Room(id: NString, name: NString)

  /** The broker the adapter is bound to; events carry it so consumers can reply. */
  datatype BrokerRef = BrokerRef(handle: nat)

  /** A chat message: the sender is always built, the addressee only for directed text. */
  datatype Message = Message(sender: User, recipient: Option<User>, text: NString)

  /** One accepted inbound chat message, handed from the inbox to the outbox unchanged. */
  datatype MessageEvent = MessageEvent(bot: User, room: Room, message: Message, broker: BrokerRef)

  /** The Gitter user record nested in a chat message. */
  datatype GitterUser = GitterUser(id: NString, username: NString, displayName: NString)

  /** The Gitter chat message record: its author (null when unknown) and its text. */
  datatype GitterMessage = GitterMessage(fromUser: Option<GitterUser>, text: NString)

  /** A decoded Faye envelope: the operation tag and the nested chat message. */
  datatype Envelope = Envelope(operation: NString, model: GitterMessage)

  /**
   * The pair returned by the directed-message parser: Item1 is the
   * addressee token (null when the text is not directed), Item2 the body.
   */
  datatype Parts = Parts(addressee: NString, text: NString)
}
