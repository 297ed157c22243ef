/**
 * Subscription planning of the Gitter adapter (Subscribe): one Faye
 * subscription per room the broker lists, on the room's chat-message
 * channel, with a callback bound to the bot and that room.
 */
module Subscriptions {
  import opened Wrappers
  import opened Models
  import opened Normalizer

  const ChannelPrefix: string := "/api/v1/rooms/"
  const ChannelSuffix: string := "/chatMessages"

  /** C# string interpolation renders a null reference as the empty string. */
  function Interpolated(s: NString): string
  {
    if s.Some? then s.value else ""
  }

  /** The channel path `$"/api/v1/rooms/{room.Id}/chatMessages"`. */
  function ChannelFor(roomId: NString): string
  {
    ChannelPrefix + Interpolated(roomId) + ChannelSuffix
  }

  /** Reads the room id back out of a room chat-message channel path. */
  function RoomIdOf(channel: string): Option<string>
  {
    var n := |channel|;
    if n >= |ChannelPrefix| + |ChannelSuffix|
       && channel[..|ChannelPrefix|] == ChannelPrefix
       && channel[n - |ChannelSuffix|..] == ChannelSuffix
    then Some(channel[|ChannelPrefix|..n - |ChannelSuffix|])
    else None
  }

  /** The channel path names its room: reading it back yields the interpolated room id. */
  lemma ChannelNamesRoom(roomId: NString)
    ensures RoomIdOf(ChannelFor(roomId)) == Some(Interpolated(roomId))
  {
  }

  /** Rooms with different (interpolated) ids listen on different channels. */
  lemma ChannelsSeparateRooms(a: NString, b: NString)
    requires Interpolated(a) != Interpolated(b)
    ensures ChannelFor(a) != ChannelFor(b)
  {
    ChannelNamesRoom(a);
    ChannelNamesRoom(b);
  }

  /**
   * One registration on the Faye client: the channel path and the values
   * the registered callback closes over.
   */
  datatype Subscription = Subscription(channel: string, bot: User, room: Room)

  /** The registration the loop body makes for one room. */
  function SubscriptionFor(bot: User, room: Room): Subscription
  {
    Subscription(ChannelFor(room.id), bot, room)
  }

  /** The registrations the foreach loop makes over `rooms`, in enumeration order. */
  function Plan(bot: User, rooms: seq<Room>): (subs: seq<Subscription>)
    ensures |subs| == |rooms|
  {
    if rooms == [] then []
    else Plan(bot, rooms[..|rooms| - 1]) + [SubscriptionFor(bot, rooms[|rooms| - 1])]
  }

  /**
   * Exactly one registration per room, in the broker's order: the i-th is
   * on the i-th room's chat-message channel and its callback is bound to
   * the bot and to that room.
   */
  lemma {:induction false} PlanAt(bot: User, rooms: seq<Room>, i: nat)
    requires i < |rooms|
    ensures Plan(bot, rooms)[i].channel == ChannelFor(rooms[i].id)
    ensures Plan(bot, rooms)[i].bot == bot && Plan(bot, rooms)[i].room == rooms[i]
  {
    if i < |rooms| - 1 {
      PlanAt(bot, rooms[..|rooms| - 1], i);
    }
  }

  /**
   * What a registered callback does with a received envelope: it runs the
   * normaliser with the bot and the room it was bound to.
   */
  function Deliver(sub: Subscription, envelope: Envelope, broker: BrokerRef,
                   parse: NString -> Parts): Option<MessageEvent>
  {
    Normalize(envelope, sub.bot, sub.room, broker, parse)
  }

  /** Each planned callback attributes what it receives to its own room. */
  lemma PlannedCallbackBoundToRoom(bot: User, rooms: seq<Room>, i: nat, envelope: Envelope,
                                   broker: BrokerRef, parse: NString -> Parts)
    requires i < |rooms|
    ensures var e := Deliver(Plan(bot, rooms)[i], envelope, broker, parse);
            e.Some? ==> e.value.room == rooms[i] && e.value.bot == bot
  {
    PlanAt(bot, rooms, i);
  }

  /** Rooms with pairwise different ids get pairwise different channels. */
  lemma PlanChannelsDistinct(bot: User, rooms: seq<Room>)
    requires forall i, j :: 0 <= i < j < |rooms| ==> Interpolated(rooms[i].id) != Interpolated(rooms[j].id)
    ensures forall i, j :: 0 <= i < j < |rooms| ==> Plan(bot, rooms)[i].channel != Plan(bot, rooms)[j].channel
  {
    var subs := Plan(bot, rooms);
    forall i, j | 0 <= i < j < |rooms|
      ensures subs[i].channel != subs[j].channel
    {
      PlanAt(bot, rooms, i);
      PlanAt(bot, rooms, j);
      ChannelsSeparateRooms(rooms[i].id, rooms[j].id);
    }
  }
}
