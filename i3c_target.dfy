/** The blocking I3C target interface: the notification handler that hands
    one target notification from the callback thread to a waiting caller, and
    the classification of the device's replies to the target-mode commands. */
module I3cTarget {
  import opened Common

  /** A notification as the driver delivers it: a dictionary of named fields. */
  type Message = map<string, Field>

  /** The name the handler subscribes to and the only one its filter lets through. */
  const NotificationName := "I3C TARGET NOTIFICATION"

  /** `is_i3c_target_notification`: a message without a `name` entry raises
      `KeyError`; otherwise it is a target notification iff its name is exactly
      the subscribed one. */
  function IsTargetNotification(message: Message): (r: Result<bool>)
    ensures "name" !in message <==> r == Failure("KeyError")
    ensures "name" in message ==> r.Success? && (r.value <==> message["name"] == Text(NotificationName))
  {
    if "name" !in message then Failure("KeyError")
    else Success(message["name"] == Text(NotificationName))
  }

  /** The handler's three pieces of state: whether its event is set, the last
      message it stored, and whether a notification came in since the last wait. */
  datatype HandlerState = HandlerState(signalled: bool, message: Option<Message>, modified: bool)

  /** The state of a new handler: event clear, no message, not modified. */
  const Initial := HandlerState(false, None, false)

  /** Whenever the handler has been told of a notification (its event is set
      or its `modified` flag is up) it holds a message. */
  predicate Consistent(h: HandlerState) {
    (h.signalled || h.modified) ==> h.message.Some?
  }

  /** `handle_i3c_target_notification`: store the message, raise `modified`, set the event. */
  function AfterHandle(h: HandlerState, m: Message): (r: HandlerState)
    ensures Consistent(r) && r.message == Some(m)
  {
    HandlerState(true, Some(m), true)
  }

  /** What one `wait_for_notification` call returns and leaves behind.
      `arrival` is the notification the callback thread delivers while the
      caller is blocked, or `None` when the timeout runs out first.
      - `modified` up: return the stored message at once and lower the flag,
        leaving the event set;
      - event already set: return the stored message and clear the event;
      - otherwise a notification arriving during the wait is returned (its
        handler's `modified` is lowered again before returning), and a timeout
        erases the stored message and returns `(False, None)`. */
  datatype WaitResult = WaitResult(after: HandlerState, received: bool, message: Option<Message>)

  function Wait(h: HandlerState, arrival: Option<Message>): WaitResult {
    if h.modified then WaitResult(h.(modified := false), true, h.message)
    else if h.signalled then WaitResult(h.(signalled := false), true, h.message)
    else match arrival
      case Some(m) => WaitResult(HandlerState(false, Some(m), false), true, Some(m))
      case None => WaitResult(HandlerState(false, None, false), false, None)
  }

  /** A wait succeeds iff the handler was told of a notification before it was
      called or one arrives during it; a successful wait on a consistent
      handler returns a message, a failed one returns none; consistency is kept
      and `modified` is always down afterwards. */
  lemma WaitSpec(h: HandlerState, arrival: Option<Message>)
    requires Consistent(h)
    ensures var w := Wait(h, arrival);
            (w.received <==> h.modified || h.signalled || arrival.Some?) &&
            (w.received <==> w.message.Some?) &&
            Consistent(w.after) && !w.after.modified &&
            (w.received ==> w.after.message == w.message)
  {
  }

  /** A notification handled before the caller starts waiting is not lost:
      the next wait returns it whatever else happens. */
  lemma EarlyNotificationDelivered(h: HandlerState, m: Message, arrival: Option<Message>)
    ensures Wait(AfterHandle(h, m), arrival).received
    ensures Wait(AfterHandle(h, m), arrival).message == Some(m)
  {
  }

  /** Because the early path leaves the event set, the same notification is
      delivered a second time by the following wait, without any new arrival;
      only the third wait times out. */
  lemma EarlyNotificationDeliveredTwice(h: HandlerState, m: Message, a1: Option<Message>)
    ensures var w1 := Wait(AfterHandle(h, m), a1);
            var w2 := Wait(w1.after, None);
            var w3 := Wait(w2.after, None);
            w2.received && w2.message == Some(m) &&
            !w3.received && w3.message == None && w3.after == Initial
  {
  }

  /** A notification arriving during the wait is delivered exactly once: the
      next wait with no arrival times out. */
  lemma NotificationDuringWaitDeliveredOnce(m: Message)
    ensures var w1 := Wait(Initial, Some(m));
            var w2 := Wait(w1.after, None);
            w1.received && w1.message == Some(m) && !w2.received && w2.message == None
  {
  }

  /** `I3C_target_notification_handler`: the event, the stored message and the
      `modified` flag are fields updated in place by the callback and by the
      waiting caller. */
  class NotificationHandler {
    const subscribedName: string
    var signalled: bool
    var message: Option<Message>
    var modified: bool

    function State(): HandlerState
      reads this
    {
      HandlerState(signalled, message, modified)
    }

    ghost predicate Valid()
      reads this
    {
      Consistent(State())
    }

    /** A new handler subscribes to target notifications with a clear event and no message. */
    constructor ()
      ensures Valid() && State() == Initial && subscribedName == NotificationName
    {
      subscribedName := NotificationName;
      signalled := false;
      message := None;
      modified := false;
    }

    method Handle(m: Message)
      modifies this`signalled, this`message, this`modified
      ensures Valid() && State() == AfterHandle(old(State()), m)
    {
      modified := true;
      message := Some(m);
      signalled := true;
    }

    method WaitForNotification(arrival: Option<Message>) returns (received: bool, msg: Option<Message>)
      requires Valid()
      modifies this`signalled, this`message, this`modified
      ensures Valid()
      ensures Wait(old(State()), arrival) == WaitResult(State(), received, msg)
      ensures received <==> msg.Some?
    {
      if !modified {
        if signalled {
          received := true;
        } else if arrival.Some? {
          modified := true;
          message := arrival;
          signalled := true;
          received := true;
        } else {
          received := false;
        }
        signalled := false;
        if !received {
          message := None;
        }
      } else {
        received := true;
      }
      modified := false;
      msg := message;
    }
  }

  /** The entries of a target reply the interface reads. */
  datatype TargetReply = TargetReply(result: string, error: Field, data: Field)

  /** `target_init`: success iff the reply's result is the init-success status. */
  function TargetInit(reply: Submitted<TargetReply>): (o: Outcome)
    ensures reply.Raised? ==> o == BackendError(reply.cause)
    ensures reply.Replied? ==>
              o.Returned? && (o.ok <==> reply.reply.result == "I3C_TARGET_INIT_SUCCESS") &&
              o.value == Text(if o.ok then "Target intialized correctly" else "Couldn't intialize target")
  {
    match reply
    case Raised(cause) => BackendError(cause)
    case Replied(r) =>
      if r.result == "I3C_TARGET_INIT_SUCCESS" then Returned(true, Text("Target intialized correctly"))
      else Returned(false, Text("Couldn't intialize target"))
  }

  /** `set_configuration`: success iff the reply's result is the set-configuration-success status. */
  function SetConfiguration(reply: Submitted<TargetReply>): (o: Outcome)
    ensures reply.Raised? ==> o == BackendError(reply.cause)
    ensures reply.Replied? ==>
              o.Returned? && (o.ok <==> reply.reply.result == "I3C_TARGET_SET_CONF_SUCCESS") &&
              o.value == Text(if o.ok then "Target configured correctly" else "Couldn't configure target")
  {
    match reply
    case Raised(cause) => BackendError(cause)
    case Replied(r) =>
      if r.result == "I3C_TARGET_SET_CONF_SUCCESS" then Returned(true, Text("Target configured correctly"))
      else Returned(false, Text("Couldn't configure target"))
  }

  /** `write_memory`: `(True, None)` on the write-success status, otherwise
      `False` with the reply's error. */
  function WriteMemory(reply: Submitted<TargetReply>): (o: Outcome)
    ensures reply.Raised? ==> o == BackendError(reply.cause)
    ensures reply.Replied? ==>
              o.Returned? && (o.ok <==> reply.reply.result == "I3C_TARGET_WRITE_MEM_SUCCESS") &&
              o.value == (if o.ok then Null else reply.reply.error)
  {
    match reply
    case Raised(cause) => BackendError(cause)
    case Replied(r) =>
      if r.result == "I3C_TARGET_WRITE_MEM_SUCCESS" then Returned(true, Null)
      else Returned(false, r.error)
  }

  /** `read_memory`: the reply's data on the read-success status, otherwise
      `False` with the reply's error. */
  function ReadMemory(reply: Submitted<TargetReply>): (o: Outcome)
    ensures reply.Raised? ==> o == BackendError(reply.cause)
    ensures reply.Replied? ==>
              o.Returned? && (o.ok <==> reply.reply.result == "I3C_TARGET_READ_MEM_SUCCESS") &&
              o.value == (if o.ok then reply.reply.data else reply.reply.error)
  {
    match reply
    case Raised(cause) => BackendError(cause)
    case Replied(r) =>
      if r.result == "I3C_TARGET_READ_MEM_SUCCESS" then Returned(true, r.data)
      else Returned(false, r.error)
  }

  /** The bookkeeping entries removed from a notification before it reaches the caller. */
  const RemovedKeys: set<string> := {"id", "command", "name", "target_address"}

  /** The notification without its bookkeeping entries: every other entry,
      with its value, and nothing else. */
  function StripKeys(m: Message): (r: Message)
    ensures forall k :: k in r <==> k in m && k !in RemovedKeys
    ensures forall k :: k in r ==> r[k] == m[k]
  {
    map k | k in m && k !in RemovedKeys :: m[k]
  }

  /** Stripping twice is stripping once, and a message holding none of the
      bookkeeping entries comes through unchanged. */
  lemma StripKeysIdempotent(m: Message)
    ensures StripKeys(StripKeys(m)) == StripKeys(m)
    ensures (forall k :: k in m ==> k !in RemovedKeys) ==> StripKeys(m) == m
  {
  }

  /** What the interface's `wait_for_notification` hands back with its flag. */
  datatype Delivery = TimeoutMessage(text: string) | Payload(entries: Message)

  /** `SupernovaI3CTargetBlockingInterface`: the memory layout it starts with
      and the notification handler it owns. */
  class TargetInterface {
    const handler: NotificationHandler
    const memoryLayoutBytes: nat

    ghost predicate Valid()
      reads this, handler
    {
      handler.Valid()
    }

    /** A new interface: two-byte memory layout, a fresh subscribed handler. */
    constructor ()
      ensures Valid() && fresh(handler) && handler.State() == Initial && memoryLayoutBytes == 2
    {
      handler := new NotificationHandler();
      memoryLayoutBytes := 2;
    }

    /** `wait_for_notification`: the timeout message when nothing was received,
        otherwise the notification stripped of its bookkeeping entries. */
    method WaitForNotification(arrival: Option<Message>) returns (received: bool, delivery: Delivery)
      requires Valid()
      modifies handler`signalled, handler`message, handler`modified
      ensures Valid()
      ensures var w := Wait(old(handler.State()), arrival);
              handler.State() == w.after && received == w.received &&
              (received ==> delivery == Payload(StripKeys(w.message.value))) &&
              (!received ==> delivery == TimeoutMessage("Timeout occurred while waiting for the I3C Target notification"))
    {
      var msg;
      received, msg := handler.WaitForNotification(arrival);
      if !received {
        return false, TimeoutMessage("Timeout occurred while waiting for the I3C Target notification");
      }
      delivery := Payload(StripKeys(msg.value));
    }
  }
}
