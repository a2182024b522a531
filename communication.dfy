/**
 * The transport the robot talks to, seen only through what the robot does with it:
 * messages it sends, the per-joint status it resets, the confirmations and safety
 * states it waits for, and closing the connection. What the hardware answers is given
 * in advance as two sequences, consumed one item per wait or poll.
 */
module Communication {
  import opened Wrappers
  import opened Plans

  datatype JointState = Pending | Completed | Failed

  /** What one `wait_for_confirmation` comes back with. */
  datatype Confirmation = Confirmed | Rejected | NoReply

  datatype Service = SafetyService | ScanService | PickService | PlaceService

  datatype Payload = NoParams | ScanSpeed(speed: int) | Move(step: Step)

  datatype Message = Message(service: Service, payload: Payload)

  /** Everything the robot does to the transport, in the order it does it. */
  datatype Event =
    | StatusReset(joint: Joint)
    | Sent(msg: Message)
    | Awaited(joint: Joint, answer: Confirmation)
    | SafetyPolled(state: Option<string>)
    | Closed

  /**
   * The transport's state: the event log, `movement_status`, the confirmations still to
   * come, the safety states still to be observed (one per poll), whether the connection
   * is closed, whether the scan callback is registered, and the clock in half-second ticks.
   */
  datatype LinkState = LinkState(
    log: seq<Event>,
    status: map<Joint, JointState>,
    confirmations: seq<Confirmation>,
    safetyFeed: seq<Option<string>>,
    closed: bool,
    scanCallback: bool,
    clock: nat)

  function Rest<T>(s: seq<T>): seq<T>
  {
    if s == [] then [] else s[1..]
  }

  /** The next confirmation; once none is left, every wait times out. */
  function NextConfirmation(feed: seq<Confirmation>): Confirmation
  {
    if feed == [] then NoReply else feed[0]
  }

  /** The next observed `safety_status['state']`; once none is left, the state is absent. */
  function NextSafetyState(feed: seq<Option<string>>): Option<string>
  {
    if feed == [] then None else feed[0]
  }

  function AfterSend(s: LinkState, m: Message): LinkState
  {
    s.(log := s.log + [Sent(m)])
  }

  function AfterReset(s: LinkState, j: Joint): LinkState
  {
    s.(status := s.status[j := Pending], log := s.log + [StatusReset(j)])
  }

  /** A confirmed move marks the joint completed, a rejected one failed; a timeout leaves it pending. */
  function AfterAwait(s: LinkState, j: Joint): LinkState
  {
    var a := NextConfirmation(s.confirmations);
    s.(confirmations := Rest(s.confirmations),
       status := if a == Confirmed then s.status[j := Completed]
                 else if a == Rejected then s.status[j := Failed]
                 else s.status,
       log := s.log + [Awaited(j, a)])
  }

  function AfterPoll(s: LinkState): LinkState
  {
    s.(safetyFeed := Rest(s.safetyFeed), log := s.log + [SafetyPolled(NextSafetyState(s.safetyFeed))])
  }

  function AfterClose(s: LinkState): LinkState
  {
    s.(closed := true, log := s.log + [Closed])
  }

  function AfterRegister(s: LinkState, on: bool): LinkState
  {
    s.(scanCallback := on)
  }

  /** `time.sleep(0.5)`: one tick passes. */
  function AfterSleep(s: LinkState): LinkState
  {
    s.(clock := s.clock + 1)
  }

  /** The messages among some events, in order. */
  function Outbox(events: seq<Event>): seq<Message>
  {
    if events == [] then []
    else if events[0].Sent? then [events[0].msg] + Outbox(events[1..])
    else Outbox(events[1..])
  }

  lemma {:induction false} OutboxAppend(a: seq<Event>, b: seq<Event>)
    ensures Outbox(a + b) == Outbox(a) + Outbox(b)
  {
    if a == [] {
      assert a + b == b;
    } else {
      assert (a + b)[0] == a[0];
      assert (a + b)[1..] == a[1..] + b;
      OutboxAppend(a[1..], b);
    }
  }

  /** The `CommunicationManager` object the robot owns. */
  class CommunicationManager {
    var log: seq<Event>
    var movementStatus: map<Joint, JointState>
    var confirmations: seq<Confirmation>
    var safetyFeed: seq<Option<string>>
    var closed: bool
    var scanCallbackRegistered: bool
    var clock: nat

    function State(): LinkState
      reads this
    {
      LinkState(log, movementStatus, confirmations, safetyFeed, closed, scanCallbackRegistered, clock)
    }

    /** A fresh, open connection whose hardware will answer as `answers` and `safetyStates` say. */
    constructor (answers: seq<Confirmation>, safetyStates: seq<Option<string>>, now: nat)
      ensures State() == LinkState([], map[], answers, safetyStates, false, false, now)
    {
      log := [];
      movementStatus := map[];
      confirmations := answers;
      safetyFeed := safetyStates;
      closed := false;
      scanCallbackRegistered := false;
      clock := now;
    }

    method SendMessage(m: Message)
      modifies this
      ensures State() == AfterSend(old(State()), m)
    {
      log := log + [Sent(m)];
    }

    /** `movement_status[joint] = {'state': 'pending'}`. */
    method ResetStatus(j: Joint)
      modifies this
      ensures State() == AfterReset(old(State()), j)
    {
      movementStatus := movementStatus[j := Pending];
      log := log + [StatusReset(j)];
    }

    method WaitForConfirmation(j: Joint) returns (ok: bool)
      modifies this
      ensures State() == AfterAwait(old(State()), j)
      ensures ok <==> NextConfirmation(old(confirmations)) == Confirmed
    {
      var a := NextConfirmation(confirmations);
      confirmations := Rest(confirmations);
      if a == Confirmed {
        movementStatus := movementStatus[j := Completed];
      } else if a == Rejected {
        movementStatus := movementStatus[j := Failed];
      }
      log := log + [Awaited(j, a)];
      ok := a == Confirmed;
    }

    /** One read of `safety_status.get('state')`. */
    method PollSafetyState() returns (state: Option<string>)
      modifies this
      ensures State() == AfterPoll(old(State()))
      ensures state == NextSafetyState(old(safetyFeed))
    {
      state := NextSafetyState(safetyFeed);
      safetyFeed := Rest(safetyFeed);
      log := log + [SafetyPolled(state)];
    }

    method Close()
      modifies this
      ensures State() == AfterClose(old(State()))
    {
      closed := true;
      log := log + [Closed];
    }

    /** `register_callback('scan_service', ...)`: `on` is false for `None`. */
    method RegisterScanCallback(on: bool)
      modifies this
      ensures State() == AfterRegister(old(State()), on)
    {
      scanCallbackRegistered := on;
    }

    method Sleep()
      modifies this
      ensures State() == AfterSleep(old(State()))
    {
      clock := clock + 1;
    }
  }
}
