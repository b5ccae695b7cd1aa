/** The host-side session (`SupernovaDevice`): transfer-id generation, opening
    the device and reading its version strings, and the routing of every
    inbound driver message to the transfer controller or the notification
    queue. The driver and the transfer controller are outside the model: what
    they return arrives as parameters. */
module Session {
  import opened Common

  /** The ids `id_gen(start)` yields first: start + 1, start + 2, ... */
  ghost function Ids(start: int, n: nat): seq<int> {
    seq(n, k => start + k + 1)
  }

  /** The generator's ids go up by one at a time, so none repeats; a default
      session (start 0) hands out 1 first. */
  lemma IdsIncreaseByOne(start: int, n: nat)
    ensures forall k :: 0 <= k < n - 1 ==> Ids(start, n)[k + 1] == Ids(start, n)[k] + 1
    ensures forall j, k :: 0 <= j < k < n ==> Ids(start, n)[j] < Ids(start, n)[k]
    ensures n > 0 && start == 0 ==> Ids(start, n)[0] == 1
  {
  }

  /** `id_gen`: the generator's state is the last id it yielded (`start` before the first). */
  class IdGenerator {
    var last: int

    constructor (start: int)
      ensures last == start
    {
      last := start;
    }

    method Next() returns (id: int)
      modifies this
      ensures id == old(last) + 1 && last == id
    {
      last := last + 1;
      id := last;
    }

    /** Draws `n` ids in turn. */
    method Take(n: nat) returns (ids: seq<int>)
      modifies this
      ensures ids == Ids(old(last), n) && last == old(last) + n
    {
      ids := [];
      var k := 0;
      while k < n
        invariant 0 <= k <= n
        invariant ids == Ids(old(last), k) && last == old(last) + k
      {
        var id := Next();
        ids := ids + [id];
        k := k + 1;
      }
    }
  }

  /** The version strings `open` reports. */
  datatype DeviceInfo = DeviceInfo(hwVersion: string, fwVersion: string, serialNumber: string)

  /** A GET USB STRING reply: its `message` entry, when it has one. */
  datatype UsbString = UsbString(message: Option<string>)

  /** `message[3:]`: the string without its three-character tag ("FW-1.1.0" gives "1.1.0"). */
  function DropTag(s: string): (r: string)
    ensures |s| >= 3 ==> s == s[..3] + r
    ensures |s| < 3 ==> r == ""
  {
    if |s| >= 3 then s[3..] else ""
  }

  /** `_process_device_info`: the three replies' messages without their tags; a
      missing reply or a reply without a message raises. */
  function ProcessDeviceInfo(replies: seq<UsbString>): (r: Result<DeviceInfo>)
    ensures r.Success? <==> |replies| >= 3 && replies[0].message.Some? &&
                            replies[1].message.Some? && replies[2].message.Some?
    ensures r.Success? ==> r.value.hwVersion == DropTag(replies[0].message.value) &&
                           r.value.fwVersion == DropTag(replies[1].message.value) &&
                           r.value.serialNumber == DropTag(replies[2].message.value)
    // The replies are read in order, and the first missing reply (IndexError)
    // or reply without a message (KeyError) decides the error.
    ensures |replies| == 0 ==> r == Failure("IndexError")
    ensures |replies| >= 1 && replies[0].message.None? ==> r == Failure("KeyError")
    ensures |replies| == 1 && replies[0].message.Some? ==> r == Failure("IndexError")
    ensures |replies| >= 2 && replies[0].message.Some? && replies[1].message.None? ==>
              r == Failure("KeyError")
    ensures |replies| == 2 && replies[0].message.Some? && replies[1].message.Some? ==>
              r == Failure("IndexError")
    ensures |replies| >= 3 && replies[0].message.Some? && replies[1].message.Some? &&
              replies[2].message.None? ==>
              r == Failure("KeyError")
  {
    if |replies| < 1 then Failure("IndexError")
    else if replies[0].message.None? then Failure("KeyError")
    else if |replies| < 2 then Failure("IndexError")
    else if replies[1].message.None? then Failure("KeyError")
    else if |replies| < 3 then Failure("IndexError")
    else if replies[2].message.None? then Failure("KeyError")
    else
      Success(DeviceInfo(DropTag(replies[0].message.value), DropTag(replies[1].message.value),
                         DropTag(replies[2].message.value)))
  }

  /** What `driver.open` returns. */
  datatype DriverOpenResult = DriverOpenResult(code: string, message: string)

  /** How `open` ends: the device information, a `DeviceOpenError`, or another
      exception raised on the way (by the submission or by the reply handling). */
  datatype OpenOutcome = Opened(info: DeviceInfo) | DeviceOpenError(message: string) | OpenRaised(cause: string)

  /** A driver message: the response dictionary (`None` when absent) and the system message. */
  datatype Response = Response(id: int, name: string, fields: map<string, Field>)
  datatype Event = Event(response: Option<Response>, systemMessage: Field)

  /** Where `_process_sdk_response` sends an event. */
  datatype Route = Dropped | Sequenced | Notified

  /** `_process_sdk_response`'s decision, where `handled` is what the transfer
      controller answered for the response (asked only when there is one). */
  function RouteOf(e: Event, handled: bool): (r: Route)
    ensures r == Notified <==> e.response.Some? && !handled && e.response.value.name == "I3C TRANSFER"
    ensures r == Sequenced <==> e.response.Some? && handled
    ensures e.response.None? ==> r == Dropped
  {
    if e.response.None? then Dropped
    else if handled then Sequenced
    else if e.response.value.name == "I3C TRANSFER" then Notified
    else Dropped
  }

  /** The events a run of `_process_sdk_response` calls puts on the notification
      queue, in order, when the controller answers `handled[i]` for `events[i]`. */
  function Forwarded(events: seq<Event>, handled: seq<bool>): seq<Event>
    requires |events| == |handled|
  {
    if events == [] then []
    else
      var n := |events| - 1;
      Forwarded(events[..n], handled[..n]) + (if RouteOf(events[n], handled[n]) == Notified then [events[n]] else [])
  }

  /** Only unhandled "I3C TRANSFER" responses reach the notification queue, and
      each one that is unhandled does. */
  lemma {:induction false} ForwardedExactly(events: seq<Event>, handled: seq<bool>)
    requires |events| == |handled|
    ensures forall e :: e in Forwarded(events, handled) <==>
              exists i :: 0 <= i < |events| && events[i] == e && RouteOf(events[i], handled[i]) == Notified
  {
    if events != [] {
      var n := |events| - 1;
      ForwardedExactly(events[..n], handled[..n]);
      forall e | e in Forwarded(events, handled)
        ensures exists i :: 0 <= i < |events| && events[i] == e && RouteOf(events[i], handled[i]) == Notified
      {
        if e !in Forwarded(events[..n], handled[..n]) {
          assert events[n] == e && RouteOf(events[n], handled[n]) == Notified;
        } else {
          var i :| 0 <= i < n && events[..n][i] == e && RouteOf(events[..n][i], handled[..n][i]) == Notified;
          assert events[i] == e && RouteOf(events[i], handled[i]) == Notified;
        }
      }
      forall e | exists i :: 0 <= i < |events| && events[i] == e && RouteOf(events[i], handled[i]) == Notified
        ensures e in Forwarded(events, handled)
      {
        var i :| 0 <= i < |events| && events[i] == e && RouteOf(events[i], handled[i]) == Notified;
        if i < n {
          assert events[..n][i] == e && RouteOf(events[..n][i], handled[..n][i]) == Notified;
        }
      }
    }
  }

  /** The notification queue never grows faster than events arrive, and no
      handled response is ever on it. */
  lemma {:induction false} ForwardedBounded(events: seq<Event>, handled: seq<bool>)
    requires |events| == |handled|
    ensures |Forwarded(events, handled)| <= |events|
    ensures (forall i :: 0 <= i < |handled| ==> handled[i]) ==> Forwarded(events, handled) == []
  {
    if events != [] {
      var n := |events| - 1;
      ForwardedBounded(events[..n], handled[..n]);
    }
  }

  /** Stands for the I2C and I3C blocking interfaces `open` builds; they are not part of this model. */
  class InterfaceHandle {
    constructor ()
    {
    }
  }

  /** What one pass of the pull loop did. */
  datatype PullStep = Stopped | TimedOut | Processed(e: Event, route: Route)

  /** `SupernovaDevice`: the two queues are sequences, the pull thread is one
      step at a time, and `handedToController` records the responses passed to
      the controller's `handle_response`. */
  class SupernovaDevice {
    const controller: IdGenerator
    var responseQueue: seq<Event>
    var notificationQueue: seq<Event>
    var handedToController: seq<Response>
    var running: bool
    var callbackRegistered: bool
    var i2c: InterfaceHandle?
    var i3c: InterfaceHandle?

    /** A new session: empty queues, the pull loop running, no interfaces, and
        a transfer controller whose first id will be `startId + 1`. */
    constructor (startId: int)
      ensures fresh(controller) && controller.last == startId
      ensures responseQueue == [] && notificationQueue == [] && handedToController == []
      ensures running && !callbackRegistered && i2c == null && i3c == null
    {
      controller := new IdGenerator(startId);
      responseQueue := [];
      notificationQueue := [];
      handedToController := [];
      running := true;
      callbackRegistered := false;
      i2c := null;
      i3c := null;
    }

    /** `open`: a driver result coded OPEN_CONNECTION_FAIL raises
        `DeviceOpenError` with the driver's message before anything changes;
        otherwise the event callback is registered, new I2C and I3C interfaces
        are built, and the three version strings are requested. */
    method Open(driverResult: DriverOpenResult, versionReplies: Submitted<seq<UsbString>>)
      returns (outcome: OpenOutcome)
      modifies this`callbackRegistered, this`i2c, this`i3c
      ensures driverResult.code == "OPEN_CONNECTION_FAIL" ==>
                outcome == DeviceOpenError(driverResult.message) &&
                unchanged(this`callbackRegistered, this`i2c, this`i3c)
      ensures driverResult.code != "OPEN_CONNECTION_FAIL" ==>
                callbackRegistered && fresh(i2c) && fresh(i3c)
      ensures driverResult.code != "OPEN_CONNECTION_FAIL" && versionReplies.Raised? ==>
                outcome == OpenRaised(versionReplies.cause)
      ensures driverResult.code != "OPEN_CONNECTION_FAIL" && versionReplies.Replied? ==>
                match ProcessDeviceInfo(versionReplies.reply)
                case Success(info) => outcome == Opened(info)
                case Failure(error) => outcome == OpenRaised(error)
    {
      if driverResult.code == "OPEN_CONNECTION_FAIL" {
        return DeviceOpenError(driverResult.message);
      }
      callbackRegistered := true;
      i2c := new InterfaceHandle();
      i3c := new InterfaceHandle();
      match versionReplies
      case Raised(cause) =>
        outcome := OpenRaised(cause);
      case Replied(replies) =>
        match ProcessDeviceInfo(replies)
        case Success(info) =>
          outcome := Opened(info);
        case Failure(error) =>
          outcome := OpenRaised(error);
    }

    /** `_push_sdk_response`: the transport callback appends the pair unchanged. */
    method PushResponse(e: Event)
      modifies this`responseQueue
      ensures responseQueue == old(responseQueue) + [e]
    {
      responseQueue := responseQueue + [e];
    }

    /** `_process_sdk_response`: a `None` response is dropped untouched; any other
        goes to the controller, and an unhandled "I3C TRANSFER" response is
        queued as a notification. */
    method ProcessResponse(e: Event, handled: bool) returns (route: Route)
      modifies this`handedToController, this`notificationQueue
      ensures route == RouteOf(e, handled)
      ensures handedToController == old(handedToController) + (if e.response.Some? then [e.response.value] else [])
      ensures notificationQueue == old(notificationQueue) + (if route == Notified then [e] else [])
    {
      if e.response.None? {
        return Dropped;
      }
      handedToController := handedToController + [e.response.value];
      if handled {
        return Sequenced;
      }
      if e.response.value.name == "I3C TRANSFER" {
        notificationQueue := notificationQueue + [e];
        route := Notified;
      } else {
        route := Dropped;
      }
    }

    /** One pass of `_pull_sdk_response`: nothing once `running` is false; a
        timeout when the response queue is empty; otherwise the oldest event is
        taken off the queue and processed. */
    method Pull(handled: bool) returns (step: PullStep)
      modifies this`responseQueue, this`handedToController, this`notificationQueue
      ensures !old(running) ==> step == Stopped && unchanged(this)
      ensures old(running) && old(responseQueue) == [] ==> step == TimedOut && unchanged(this)
      ensures old(running) && old(responseQueue) != [] ==>
                var e := old(responseQueue)[0];
                step == Processed(e, RouteOf(e, handled)) &&
                responseQueue == old(responseQueue)[1..] &&
                notificationQueue == old(notificationQueue) + (if step.route == Notified then [e] else []) &&
                handedToController == old(handedToController) + (if e.response.Some? then [e.response.value] else [])
    {
      if !running {
        return Stopped;
      }
      if responseQueue == [] {
        return TimedOut;
      }
      var e := responseQueue[0];
      responseQueue := responseQueue[1..];
      var route := ProcessResponse(e, handled);
      step := Processed(e, route);
    }

    /** `close`: the driver is closed (outside the model) and the pull loop stops at its next check. */
    method Close()
      modifies this`running
      ensures !running
    {
      running := false;
    }
  }
}
