/**
 * The inbound-message normaliser of the Gitter adapter (MessageReceived):
 * a decoded envelope becomes zero or one MessageEvent.
 */
module Normalizer {
  import opened Wrappers
  import opened Models
  import opened OrdinalIgnoreCase

  /** The operation filter: only "create" notifications carry new chat messages. */
  predicate IsCreate(operation: NString)
  {
    operation.Some? && EqualsIgnoreCase(operation.value, "create")
  }

  /** `sender?.Id`: the sender's id, null when there is no sender. */
  function SenderId(fromUser: Option<GitterUser>): NString
  {
    if fromUser.Some? then fromUser.value.id else None
  }

  /** The Dotbot user built from `sender?.Id`, `sender?.Username`, `sender?.DisplayName`. */
  function SenderUser(fromUser: Option<GitterUser>): User
  {
    match fromUser
    case None => User(None, None, None)
    case Some(g) => User(g.id, g.username, g.displayName)
  }

  /** The synthetic addressee: one user whose three fields are the parsed token. */
  function Addressee(token: NString): Option<User>
  {
    if token.Some? then Some(User(token, token, token)) else None
  }

  /**
   * The event that MessageReceived enqueues for `envelope`, received on the
   * channel of `room` by `bot`, or None when it drops the envelope.
   * The directed-message parser is a parameter.
   */
  function Normalize(envelope: Envelope, bot: User, room: Room, broker: BrokerRef,
                     parse: NString -> Parts): (r: Option<MessageEvent>)
    // dropped exactly for non-create operations and for the bot's own messages
    ensures r.None? <==> !IsCreate(envelope.operation) || SenderId(envelope.model.fromUser) == bot.id
    // an accepted event is never from the bot itself
    ensures r.Some? ==> r.value.message.sender.id != bot.id
    ensures r.Some? ==> r.value.bot == bot && r.value.room == room && r.value.broker == broker
    // the sender copies the Gitter author field by field; no author gives three nulls
    ensures r.Some? ==> match envelope.model.fromUser
                        case None => r.value.message.sender == User(None, None, None)
                        case Some(g) => r.value.message.sender.id == g.id &&
                                        r.value.message.sender.username == g.username &&
                                        r.value.message.sender.displayName == g.displayName
    // the recipient is absent exactly when the parser found no addressee, and otherwise
    // has the token as id, username and display name
    ensures r.Some? ==> (r.value.message.recipient.None? <==> parse(envelope.model.text).addressee.None?)
    ensures r.Some? && r.value.message.recipient.Some? ==>
              var u := r.value.message.recipient.value;
              u.id == u.username == u.displayName == parse(envelope.model.text).addressee
    ensures r.Some? ==> r.value.message.text == parse(envelope.model.text).text
  {
    if !IsCreate(envelope.operation) then None
    else
      var sender := envelope.model.fromUser;
      if SenderId(sender) == bot.id then None
      else
        var parts := parse(envelope.model.text);
        var message := Message(SenderUser(sender), Addressee(parts.addressee), parts.text);
        Some(MessageEvent(bot, room, message, broker))
  }

  /** The inbox entries one received envelope contributes: none or exactly one. */
  function Emitted(r: Option<MessageEvent>): seq<MessageEvent>
  {
    if r.Some? then [r.value] else []
  }

  /**
   * The operation filter ignores letter case: it accepts a tag exactly when
   * the tag spells "create" with each letter in either case.
   */
  lemma CreateInAnyCase(operation: string)
    ensures IsCreate(Some(operation)) <==>
              |operation| == 6 &&
              forall i :: 0 <= i < 6 ==> operation[i] == "create"[i] || operation[i] == "CREATE"[i]
  {
    EqualsLowerWord(operation, "create");
  }

  /** A create envelope without an author is dropped exactly when the bot's id is null too. */
  lemma AnonymousDroppedOnlyForNullBot(envelope: Envelope, bot: User, room: Room, broker: BrokerRef,
                                       parse: NString -> Parts)
    requires IsCreate(envelope.operation) && envelope.model.fromUser.None?
    ensures Normalize(envelope, bot, room, broker, parse).None? <==> bot.id.None?
  {
  }
}
