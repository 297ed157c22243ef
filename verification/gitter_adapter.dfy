/**
 * The Gitter adapter's lifecycle (Run, Subscribe, MessageReceived) as a
 * sequential model. The Faye client is represented by the trace of calls
 * the adapter makes on it; the broker's lookups and the client's failures
 * are inputs (a Collaborators value); the blocking inbox is represented by the
 * sequence of results its successive dequeues return before cancellation.
 */
module GitterAdapter {
  import opened Wrappers
  import opened Models
  import opened Normalizer
  import opened Subscriptions
  import opened Relay

  /** A call the adapter makes on the Faye client. */
  datatype ClientCall = Connect | Subscribe(sub: Subscription) | Disconnect

  /** The Faye client throws when asked to register the room at `index` of the broker's list. */
  datatype Rejection = Rejection(index: nat, fault: Fault)

  /**
   * How the collaborators behave during one run: whether Connect throws,
   * what GetCurrentUser and GetRooms return or throw, whether a
   * registration is rejected, and whether Disconnect throws.
   */
  datatype Collaborators = Collaborators(connect: Option<Fault>, currentUser: Attempt<User>,
                                         rooms: Attempt<seq<Room>>, rejection: Option<Rejection>,
                                         disconnect: Option<Fault>)

  /** How Run ends: it returns its continuation flag or lets an exception escape. */
  datatype Completion = Returned(keepRunning: bool) | Threw(fault: Fault)

  /** The trace entries for a sequence of registrations. */
  function Registrations(subs: seq<Subscription>): (calls: seq<ClientCall>)
    ensures |calls| == |subs|
  {
    if subs == [] then []
    else Registrations(subs[..|subs| - 1]) + [Subscribe(subs[|subs| - 1])]
  }

  /** The trace holds each registration, in order, as a Subscribe call. */
  lemma {:induction false} RegistrationsAt(subs: seq<Subscription>, i: nat)
    requires i < |subs|
    ensures Registrations(subs)[i] == Subscribe(subs[i])
  {
    if i < |subs| - 1 {
      RegistrationsAt(subs[..|subs| - 1], i);
    }
  }

  /** Whether the registration of the room at `index` of `rooms` throws. */
  predicate RejectedWithin(rooms: seq<Room>, rejection: Option<Rejection>)
  {
    rejection.Some? && rejection.value.index < |rooms|
  }

  /** How many rooms Subscribe registers: all of them, or those before the rejected one. */
  function RegisteredCount(rooms: seq<Room>, rejection: Option<Rejection>): nat
  {
    if RejectedWithin(rooms, rejection) then rejection.value.index else |rooms|
  }

  /** The registrations Subscribe completes. */
  function Registered(bot: User, rooms: seq<Room>, rejection: Option<Rejection>): seq<Subscription>
  {
    Plan(bot, rooms[..RegisteredCount(rooms, rejection)])
  }

  /** The exception Subscribe lets escape, if any. */
  function SubscribeFault(rooms: Attempt<seq<Room>>, rejection: Option<Rejection>): Option<Fault>
  {
    match rooms
    case Throw(f) => Some(f)
    case Ok(rs) => if RejectedWithin(rs, rejection) then Some(rejection.value.fault) else None
  }

  /** The client calls Subscribe makes. */
  function SubscribeCalls(bot: User, rooms: Attempt<seq<Room>>, rejection: Option<Rejection>): seq<ClientCall>
  {
    match rooms
    case Throw(_) => []
    case Ok(rs) => Registrations(Registered(bot, rs, rejection))
  }

  /** The exception that ends start-up, in the order Run meets them. */
  function StartupFault(s: Collaborators): Option<Fault>
  {
    if s.connect.Some? then s.connect
    else if s.currentUser.Throw? then Some(s.currentUser.fault)
    else SubscribeFault(s.rooms, s.rejection)
  }

  /** The calls Run makes on the Faye client: connect, the registrations, and the final disconnect. */
  function RunCalls(s: Collaborators): seq<ClientCall>
  {
    [Connect]
    + (if s.connect.None? && s.currentUser.Ok? then SubscribeCalls(s.currentUser.value, s.rooms, s.rejection) else [])
    + [Disconnect]
  }

  /** What Run puts in the outbox: nothing when start-up throws, otherwise the relayed events. */
  function RunForwarded(s: Collaborators, dequeued: seq<Option<MessageEvent>>): seq<MessageEvent>
  {
    if StartupFault(s).None? then Forwarded(dequeued) else []
  }

  /**
   * How Run completes. An exception from Disconnect in the finally block
   * replaces both `return true` and a start-up exception on its way out.
   */
  function RunResult(s: Collaborators): Completion
  {
    if s.disconnect.Some? then Threw(s.disconnect.value)
    else if StartupFault(s).Some? then Threw(StartupFault(s).value)
    else Returned(true)
  }

  /**
   * A well-bracketed session on the Faye client: one Connect first, one
   * Disconnect last, and only registrations in between.
   */
  predicate Bracketed(calls: seq<ClientCall>)
  {
    |calls| >= 2 && calls[0] == Connect && calls[|calls| - 1] == Disconnect &&
    multiset(calls)[Connect] == 1 && multiset(calls)[Disconnect] == 1 &&
    forall i :: 0 < i < |calls| - 1 ==> calls[i].Subscribe?
  }

  lemma BracketedAround(middle: seq<ClientCall>)
    requires forall i :: 0 <= i < |middle| ==> middle[i].Subscribe?
    ensures Bracketed([Connect] + middle + [Disconnect])
  {
  }

  /** The finally block: on every path, Run's session on the Faye client is bracketed. */
  lemma RunDisconnectsOnce(s: Collaborators)
    ensures Bracketed(RunCalls(s))
  {
    var middle := if s.connect.None? && s.currentUser.Ok?
                  then SubscribeCalls(s.currentUser.value, s.rooms, s.rejection) else [];
    forall i | 0 <= i < |middle|
      ensures middle[i].Subscribe?
    {
      var bot, rs := s.currentUser.value, s.rooms.value;
      RegistrationsAt(Registered(bot, rs, s.rejection), i);
    }
    BracketedAround(middle);
  }

  /** Appended to any earlier history, Run's own session stays bracketed. */
  lemma SessionBracketed(before: seq<ClientCall>, s: Collaborators)
    ensures Bracketed((before + RunCalls(s))[|before|..])
  {
    assert (before + RunCalls(s))[|before|..] == RunCalls(s);
    RunDisconnectsOnce(s);
  }

  /** Regrouping the trace: the calls Run appends one by one form one session. */
  lemma SessionAppended(before: seq<ClientCall>, middle: seq<ClientCall>)
    ensures before + [Connect] + middle + [Disconnect] == before + ([Connect] + middle + [Disconnect])
  {
  }

  /**
   * Run returns true exactly when neither start-up nor Disconnect throws;
   * otherwise the Disconnect exception escapes if there is one, and the
   * start-up exception if not.
   */
  lemma RunResultMatchesFaults(s: Collaborators)
    ensures RunResult(s) == Returned(true) <==> StartupFault(s).None? && s.disconnect.None?
    ensures RunResult(s).Returned? ==> RunResult(s).keepRunning
    ensures RunResult(s).Threw? && s.disconnect.Some? ==> RunResult(s).fault == s.disconnect.value
    ensures RunResult(s).Threw? && s.disconnect.None? ==> Some(RunResult(s).fault) == StartupFault(s)
  {
  }

  /** After a successful start-up, every room is registered once, in the broker's order. */
  lemma SuccessfulStartupRegistersEveryRoom(s: Collaborators)
    requires StartupFault(s).None?
    ensures s.currentUser.Ok? && s.rooms.Ok?
    ensures RunCalls(s) == [Connect] + Registrations(Plan(s.currentUser.value, s.rooms.value)) + [Disconnect]
  {
    var rs := s.rooms.value;
    assert rs[..|rs|] == rs;
  }

  /** Registering one more room extends the trace by that room's registration. */
  lemma RegistrationsStep(before: seq<ClientCall>, calls: seq<ClientCall>, bot: User, rooms: seq<Room>, i: nat)
    requires i < |rooms|
    requires calls == before + Registrations(Plan(bot, rooms[..i]))
    ensures calls + [Subscribe(SubscriptionFor(bot, rooms[i]))] == before + Registrations(Plan(bot, rooms[..i + 1]))
  {
    assert rooms[..i + 1][..i] == rooms[..i];
    var subs := Plan(bot, rooms[..i]);
    assert Plan(bot, rooms[..i + 1]) == subs + [SubscriptionFor(bot, rooms[i])];
    assert (subs + [SubscriptionFor(bot, rooms[i])])[..|subs|] == subs;
  }

  /** When the foreach loop stops, the registrations made are exactly those Subscribe completes. */
  lemma RegisteredAll(before: seq<ClientCall>, calls: seq<ClientCall>, bot: User, rooms: seq<Room>,
                      rejection: Option<Rejection>, i: nat)
    requires i <= RegisteredCount(rooms, rejection)
    requires i == |rooms| || (rejection.Some? && rejection.value.index == i)
    requires calls == before + Registrations(Plan(bot, rooms[..i]))
    ensures calls == before + Registrations(Registered(bot, rooms, rejection))
    ensures RejectedWithin(rooms, rejection) <==> i < |rooms|
  {
  }

  class Adapter {
    /** The broker the adapter is bound to. */
    const broker: BrokerRef
    /** The inbox: events produced by the Faye callbacks. */
    var inbox: seq<MessageEvent>
    /** The outbox: events handed to Dotbot, all on the run loop's thread. */
    var outbox: seq<MessageEvent>
    /**
     * The calls made so far on the Faye client. A Connect or Disconnect is
     * recorded even when it throws; a registration only when it returns.
     */
    var calls: seq<ClientCall>
    /** Whether the Faye client is connected. */
    var connected: bool

    constructor (broker: BrokerRef, outbox: seq<MessageEvent>)
      ensures this.broker == broker && this.outbox == outbox
      ensures inbox == [] && calls == [] && !connected
    {
      this.broker := broker;
      this.outbox := outbox;
      inbox := [];
      calls := [];
      connected := false;
    }

    /**
     * The Faye callback for a room: the normalised event, if any, is
     * appended to the inbox and nothing else changes.
     */
    method MessageReceived(bot: User, room: Room, envelope: Envelope, parse: NString -> Parts)
      modifies this`inbox
      ensures inbox == old(inbox) + Emitted(Normalize(envelope, bot, room, broker, parse))
      ensures |inbox| <= |old(inbox)| + 1
      ensures (|inbox| == |old(inbox)| + 1) <==>
                IsCreate(envelope.operation) && SenderId(envelope.model.fromUser) != bot.id
    {
      var event := Normalize(envelope, bot, room, broker, parse);
      if event.Some? {
        inbox := inbox + [event.value];
      }
    }

    /** Connects the Faye client, which throws `fault` when present. */
    method ConnectClient(fault: Option<Fault>) returns (thrown: Option<Fault>)
      modifies this`calls, this`connected
      ensures calls == old(calls) + [Connect]
      ensures connected == fault.None? && thrown == fault
    {
      calls := calls + [Connect];
      connected := fault.None?;
      thrown := fault;
    }

    /** Disconnects the Faye client, which throws `fault` when present. */
    method DisconnectClient(fault: Option<Fault>) returns (thrown: Option<Fault>)
      modifies this`calls, this`connected
      ensures calls == old(calls) + [Disconnect] && !connected
      ensures thrown == fault
    {
      calls := calls + [Disconnect];
      connected := false;
      thrown := fault;
    }

    /**
     * Subscribe: fetches the rooms from the broker (which may throw) and
     * registers one subscription per room; returns the exception that escapes.
     */
    method Subscribe(bot: User, rooms: Attempt<seq<Room>>, rejection: Option<Rejection>)
      returns (fault: Option<Fault>)
      modifies this`calls
      ensures calls == old(calls) + SubscribeCalls(bot, rooms, rejection)
      ensures fault == SubscribeFault(rooms, rejection)
    {
      match rooms
      case Throw(f) =>
        fault := Some(f);
      case Ok(rs) =>
        fault := RegisterRooms(bot, rs, rejection);
    }

    /**
     * The foreach loop of Subscribe: registers the rooms in the broker's
     * order, until the client rejects one.
     */
    method RegisterRooms(bot: User, rooms: seq<Room>, rejection: Option<Rejection>)
      returns (fault: Option<Fault>)
      modifies this`calls
      ensures calls == old(calls) + Registrations(Registered(bot, rooms, rejection))
      ensures fault == if RejectedWithin(rooms, rejection) then Some(rejection.value.fault) else None
    {
      var i := 0;
      while i < |rooms| && !(rejection.Some? && rejection.value.index == i)
        invariant 0 <= i <= RegisteredCount(rooms, rejection)
        invariant calls == old(calls) + Registrations(Plan(bot, rooms[..i]))
      {
        RegistrationsStep(old(calls), calls, bot, rooms, i);
        calls := calls + [ClientCall.Subscribe(SubscriptionFor(bot, rooms[i]))];
        i := i + 1;
      }
      RegisteredAll(old(calls), calls, bot, rooms, rejection, i);
      fault := if i < |rooms| then Some(rejection.value.fault) else None;
    }

    /**
     * The relay loop of Run: each dequeue result, until cancellation, is
     * forwarded to the outbox when present and skipped when absent.
     */
    method RelayInbox(dequeued: seq<Option<MessageEvent>>)
      modifies this`outbox
      ensures outbox == old(outbox) + Forwarded(dequeued)
    {
      var i := 0;
      while i < |dequeued|
        invariant 0 <= i <= |dequeued|
        invariant outbox == old(outbox) + Forwarded(dequeued[..i])
      {
        assert dequeued[..i + 1][..i] == dequeued[..i];
        var message := dequeued[i];
        if message.Some? {
          outbox := outbox + [message.value];
        }
        i := i + 1;
      }
      assert dequeued[..i] == dequeued;
    }

    /**
     * The run loop: connect, look up the bot, subscribe, relay the inbox
     * to the outbox until cancellation, and disconnect on every exit path.
     */
    method Run(s: Collaborators, dequeued: seq<Option<MessageEvent>>) returns (r: Completion)
      modifies this`calls, this`connected, this`outbox
      ensures calls == old(calls) + RunCalls(s)
      // Disconnect runs exactly once, last, whichever way Run ends
      ensures Bracketed(calls[|old(calls)|..])
      ensures outbox == old(outbox) + RunForwarded(s, dequeued)
      ensures r == RunResult(s)
      ensures !connected
    {
      ghost var middle: seq<ClientCall> := [];
      var fault := ConnectClient(s.connect);
      if fault.None? {
        match s.currentUser
        case Throw(f) =>
          fault := Some(f);
        case Ok(bot) =>
          fault := Subscribe(bot, s.rooms, s.rejection);
          middle := SubscribeCalls(bot, s.rooms, s.rejection);
          if fault.None? {
            RelayInbox(dequeued);
          }
      }
      assert fault == StartupFault(s);
      assert calls == old(calls) + [Connect] + middle;
      // the finally block
      var disconnectFault := DisconnectClient(s.disconnect);
      assert RunCalls(s) == [Connect] + middle + [Disconnect];
      SessionAppended(old(calls), middle);
      SessionBracketed(old(calls), s);
      r := if disconnectFault.Some? then Threw(disconnectFault.value)
           else if fault.Some? then Threw(fault.value)
           else Returned(true);
    }
  }
}
