/**
 * The safety coordinator: after a failed movement, request the safety protocol and
 * poll its state every half second for less than 15 seconds.
 */
module Safety {
  import opened Wrappers
  import opened Communication

  /** The 15 s deadline in half-second ticks: polls happen at ticks 0..29 after the start. */
  const SafetyWindow: nat := 30

  const CompletedState: Option<string> := Some("completed")

  const SafetyMessage: Message := Message(SafetyService, NoParams)

  /** The safety state seen at poll `t`, counted from the first poll. */
  function Observe(feed: seq<Option<string>>, t: nat): Option<string>
  {
    if t < |feed| then feed[t] else None
  }

  function Drop<T>(s: seq<T>, n: nat): seq<T>
  {
    if n <= |s| then s[n..] else []
  }

  lemma ObserveRest(feed: seq<Option<string>>, t: nat)
    ensures Observe(Rest(feed), t) == Observe(feed, t + 1)
    ensures NextSafetyState(feed) == Observe(feed, 0)
  {
  }

  lemma DropRest<T>(s: seq<T>, n: nat)
    ensures Drop(Rest(s), n) == Drop(s, n + 1)
  {
  }

  /** The first of the next `w` polls that sees "completed", or `w` if none does. */
  function FirstCompleted(feed: seq<Option<string>>, w: nat): (k: nat)
    ensures k <= w
    ensures forall t :: 0 <= t < k ==> Observe(feed, t) != CompletedState
    ensures k < w ==> Observe(feed, k) == CompletedState
  {
    if w == 0 then 0
    else if Observe(feed, 0) == CompletedState then 0
    else
      var k' := FirstCompleted(Rest(feed), w - 1);
      assert forall t :: 0 <= t < k' + 1 ==> Observe(feed, t) != CompletedState by {
        forall t | 0 < t < k' + 1 ensures Observe(feed, t) != CompletedState {
          ObserveRest(feed, t - 1);
        }
      }
      ObserveRest(feed, k');
      1 + k'
  }

  /**
   * The poll loop of a handler that started at tick `start`: while fewer than 30 ticks
   * have passed, poll; stop recovered at "completed", else sleep one tick. Once the
   * window is over, close the connection.
   */
  function PollFrom(s: LinkState, start: nat): (LinkState, bool)
    decreases start + SafetyWindow - s.clock
  {
    if s.clock >= start + SafetyWindow then (AfterClose(s), false)
    else if NextSafetyState(s.safetyFeed) == CompletedState then (AfterPoll(s), true)
    else PollFrom(AfterSleep(AfterPoll(s)), start)
  }

  /** `handle_movement_failure`: the new transport state, and whether the system is safe again. */
  function Recovery(s: LinkState): (LinkState, bool)
  {
    PollFrom(AfterSend(s, SafetyMessage), s.clock)
  }

  /** The log entries of the first `n` polls. */
  function PollEvents(feed: seq<Option<string>>, n: nat): (es: seq<Event>)
    ensures |es| == n && forall t :: 0 <= t < n ==> es[t] == SafetyPolled(Observe(feed, t))
  {
    if n == 0 then [] else PollEvents(feed, n - 1) + [SafetyPolled(Observe(feed, n - 1))]
  }

  lemma PollEventsShift(feed: seq<Option<string>>, n: nat)
    ensures [SafetyPolled(Observe(feed, 0))] + PollEvents(Rest(feed), n) == PollEvents(feed, n + 1)
  {
    var a := [SafetyPolled(Observe(feed, 0))] + PollEvents(Rest(feed), n);
    var b := PollEvents(feed, n + 1);
    forall t | 0 <= t <= n ensures a[t] == b[t] {
      if t > 0 {
        ObserveRest(feed, t - 1);
      }
    }
  }

  /** The transport after `n` polls and `sleeps` sleeps, closed at the end when `close` holds. */
  function Polled(s: LinkState, n: nat, sleeps: nat, close: bool): LinkState
  {
    s.(log := s.log + PollEvents(s.safetyFeed, n) + (if close then [Closed] else []),
       safetyFeed := Drop(s.safetyFeed, n),
       closed := s.closed || close,
       clock := s.clock + sleeps)
  }

  lemma PolledAfterPoll(s: LinkState, n: nat, sleeps: nat, close: bool)
    ensures Polled(AfterSleep(AfterPoll(s)), n, sleeps, close) == Polled(s, n + 1, sleeps + 1, close)
  {
    var feed := s.safetyFeed;
    ObserveRest(feed, 0);
    PollEventsShift(feed, n);
    DropRest(feed, n);
    assert AfterPoll(s).log == s.log + [SafetyPolled(Observe(feed, 0))];
  }

  /** Where the poll loop ends with `w` ticks of the window left: at the first "completed", or closed. */
  function PollResult(s: LinkState, w: nat): LinkState
  {
    var k := FirstCompleted(s.safetyFeed, w);
    if k < w then Polled(s, k + 1, k, false) else Polled(s, w, w, true)
  }

  lemma PollResultStep(s: LinkState, w: nat)
    requires w > 0
    requires FirstCompleted(s.safetyFeed, w) == FirstCompleted(Rest(s.safetyFeed), w - 1) + 1
    ensures PollResult(AfterSleep(AfterPoll(s)), w - 1) == PollResult(s, w)
  {
    var k' := FirstCompleted(Rest(s.safetyFeed), w - 1);
    assert AfterSleep(AfterPoll(s)).safetyFeed == Rest(s.safetyFeed);
    if k' < w - 1 {
      PollResultStepFound(s, w, k');
    } else {
      PollResultStepMissed(s, w);
    }
  }

  lemma PollResultStepFound(s: LinkState, w: nat, k': nat)
    requires k' + 1 < w
    requires FirstCompleted(s.safetyFeed, w) == k' + 1
    requires FirstCompleted(AfterSleep(AfterPoll(s)).safetyFeed, w - 1) == k'
    ensures PollResult(AfterSleep(AfterPoll(s)), w - 1) == PollResult(s, w)
  {
    var s1 := AfterSleep(AfterPoll(s));
    assert PollResult(s1, w - 1) == Polled(s1, k' + 1, k', false);
    assert PollResult(s, w) == Polled(s, k' + 2, k' + 1, false);
    PolledAfterPoll(s, k' + 1, k', false);
  }

  lemma PollResultStepMissed(s: LinkState, w: nat)
    requires w > 0
    requires FirstCompleted(s.safetyFeed, w) == w
    requires FirstCompleted(AfterSleep(AfterPoll(s)).safetyFeed, w - 1) == w - 1
    ensures PollResult(AfterSleep(AfterPoll(s)), w - 1) == PollResult(s, w)
  {
    var s1 := AfterSleep(AfterPoll(s));
    assert PollResult(s1, w - 1) == Polled(s1, w - 1, w - 1, true);
    assert PollResult(s, w) == Polled(s, w, w, true);
    PolledAfterPoll(s, w - 1, w - 1, true);
  }

  lemma PollFromEnd(s: LinkState, start: nat)
    requires s.clock == start + SafetyWindow
    ensures !PollFrom(s, start).1
    ensures PollFrom(s, start).0 == PollResult(s, 0)
    ensures PollSpec(s, start)
  {
    assert PollEvents(s.safetyFeed, 0) == [];
    assert PollFrom(s, start).0 == Polled(s, 0, 0, true);
  }

  lemma PollFromHit(s: LinkState, start: nat)
    requires start <= s.clock < start + SafetyWindow && NextSafetyState(s.safetyFeed) == CompletedState
    ensures PollFrom(s, start).1
    ensures FirstCompleted(s.safetyFeed, start + SafetyWindow - s.clock) == 0
    ensures PollFrom(s, start).0 == PollResult(s, start + SafetyWindow - s.clock)
    ensures PollSpec(s, start)
  {
    ObserveRest(s.safetyFeed, 0);
    assert PollEvents(s.safetyFeed, 1) == [SafetyPolled(Observe(s.safetyFeed, 0))];
    assert PollFrom(s, start).0 == Polled(s, 1, 0, false);
  }

  lemma PollFromStep(s: LinkState, start: nat)
    requires s.clock < start + SafetyWindow && NextSafetyState(s.safetyFeed) != CompletedState
    ensures PollFrom(s, start) == PollFrom(AfterSleep(AfterPoll(s)), start)
    ensures var w := start + SafetyWindow - s.clock;
      FirstCompleted(s.safetyFeed, w) == FirstCompleted(Rest(s.safetyFeed), w - 1) + 1
  {
    ObserveRest(s.safetyFeed, 0);
  }

  /**
   * What the poll loop of a handler started at `start` does: it recovers exactly when
   * one of the polls left in the window sees "completed", and ends as `PollResult` says.
   */
  predicate PollSpec(s: LinkState, start: nat)
    requires start <= s.clock <= start + SafetyWindow
  {
    var w := start + SafetyWindow - s.clock;
    && (PollFrom(s, start).1 <==> FirstCompleted(s.safetyFeed, w) < w)
    && PollFrom(s, start).0 == PollResult(s, w)
  }

  lemma {:induction false} PollFromSpec(s: LinkState, start: nat)
    requires start <= s.clock <= start + SafetyWindow
    ensures PollSpec(s, start)
    decreases start + SafetyWindow - s.clock
  {
    if s.clock == start + SafetyWindow {
      PollFromEnd(s, start);
    } else if NextSafetyState(s.safetyFeed) == CompletedState {
      PollFromHit(s, start);
    } else {
      PollFromSpec(AfterSleep(AfterPoll(s)), start);
      PollSpecStep(s, start);
    }
  }

  lemma PollSpecStep(s: LinkState, start: nat)
    requires start <= s.clock < start + SafetyWindow && NextSafetyState(s.safetyFeed) != CompletedState
    requires PollSpec(AfterSleep(AfterPoll(s)), start)
    ensures PollSpec(s, start)
  {
    PollFromStep(s, start);
    PollResultStep(s, start + SafetyWindow - s.clock);
  }

  /**
   * The safety handler sends one safety message, then polls. It comes back recovered
   * exactly when some poll within the window sees "completed", and then stops at the
   * first such poll; otherwise it polls 30 times, sleeping after each, and closes the
   * connection once.
   */
  lemma RecoverySpec(s: LinkState)
    ensures Recovery(s).1 <==> exists t :: 0 <= t < SafetyWindow && Observe(s.safetyFeed, t) == CompletedState
    ensures Recovery(s).1 ==>
      var k := FirstCompleted(s.safetyFeed, SafetyWindow);
      && Observe(s.safetyFeed, k) == CompletedState
      && Recovery(s).0 == s.(log := s.log + [Sent(SafetyMessage)] + PollEvents(s.safetyFeed, k + 1),
                             safetyFeed := Drop(s.safetyFeed, k + 1),
                             clock := s.clock + k)
    ensures !Recovery(s).1 ==>
      Recovery(s).0 == s.(log := s.log + [Sent(SafetyMessage)] + PollEvents(s.safetyFeed, SafetyWindow) + [Closed],
                          safetyFeed := Drop(s.safetyFeed, SafetyWindow),
                          closed := true,
                          clock := s.clock + SafetyWindow)
  {
    RecoveredIff(s);
    if Recovery(s).1 {
      RecoveredState(s);
    } else {
      TimedOutState(s);
    }
  }

  lemma RecoveredIff(s: LinkState)
    ensures Recovery(s).1 <==> FirstCompleted(s.safetyFeed, SafetyWindow) < SafetyWindow
    ensures Recovery(s).1 <==> exists t :: 0 <= t < SafetyWindow && Observe(s.safetyFeed, t) == CompletedState
  {
    PollFromSpec(AfterSend(s, SafetyMessage), s.clock);
    var k := FirstCompleted(s.safetyFeed, SafetyWindow);
    if k < SafetyWindow {
      assert Observe(s.safetyFeed, k) == CompletedState;
    }
  }

  lemma RecoveredState(s: LinkState)
    requires Recovery(s).1
    ensures var k := FirstCompleted(s.safetyFeed, SafetyWindow);
      && Observe(s.safetyFeed, k) == CompletedState
      && Recovery(s).0 == s.(log := s.log + [Sent(SafetyMessage)] + PollEvents(s.safetyFeed, k + 1),
                             safetyFeed := Drop(s.safetyFeed, k + 1),
                             clock := s.clock + k)
  {
    PollFromSpec(AfterSend(s, SafetyMessage), s.clock);
  }

  lemma TimedOutState(s: LinkState)
    requires !Recovery(s).1
    ensures Recovery(s).0 == s.(log := s.log + [Sent(SafetyMessage)] + PollEvents(s.safetyFeed, SafetyWindow) + [Closed],
                                safetyFeed := Drop(s.safetyFeed, SafetyWindow),
                                closed := true,
                                clock := s.clock + SafetyWindow)
  {
    PollFromSpec(AfterSend(s, SafetyMessage), s.clock);
  }

  lemma {:induction false} OutboxOfPolls(feed: seq<Option<string>>, n: nat)
    ensures Outbox(PollEvents(feed, n)) == []
  {
    if n > 0 {
      OutboxOfPolls(feed, n - 1);
      OutboxAppend(PollEvents(feed, n - 1), [SafetyPolled(Observe(feed, n - 1))]);
    }
  }

  /** Polling, and closing, send nothing. */
  lemma OutboxOfPollsThen(feed: seq<Option<string>>, n: nat, close: bool)
    ensures Outbox(PollEvents(feed, n) + (if close then [Closed] else [])) == []
  {
    var tail: seq<Event> := if close then [Closed] else [];
    assert Outbox(tail) == [] by {
      if close {
        assert tail[1..] == [];
      }
    }
    OutboxOfPolls(feed, n);
    OutboxAppend(PollEvents(feed, n), tail);
  }

  /** The one message the safety handler sends is the safety request. */
  lemma RecoveryOutbox(s: LinkState)
    ensures Outbox(Recovery(s).0.log) == Outbox(s.log) + [SafetyMessage]
  {
    var s1 := AfterSend(s, SafetyMessage);
    PollFromSpec(s1, s.clock);
    var k := FirstCompleted(s.safetyFeed, SafetyWindow);
    var close := k >= SafetyWindow;
    var n := if k < SafetyWindow then k + 1 else SafetyWindow;
    var rest := PollEvents(s.safetyFeed, n) + (if close then [Closed] else []);
    assert Recovery(s).0.log == s1.log + rest by {
      var log := Recovery(s).0.log;
      assert log == s1.log + PollEvents(s.safetyFeed, n) + (if close then [Closed] else []);
      Assoc(s1.log, PollEvents(s.safetyFeed, n), if close then [Closed] else []);
    }
    assert Outbox([Sent(SafetyMessage)]) == [SafetyMessage] by {
      assert [Sent(SafetyMessage)][1..] == [];
    }
    OutboxOfPollsThen(s.safetyFeed, n, close);
    OutboxAppend(s.log, [Sent(SafetyMessage)]);
    OutboxAppend(s1.log, rest);
  }

  lemma Assoc<T>(a: seq<T>, b: seq<T>, c: seq<T>)
    ensures a + b + c == a + (b + c)
  {
  }
}
