/**
 * The movement sequencer: a plan runs strictly in order, one step at a time; the first
 * step that is not confirmed stops the plan and hands over to the safety handler.
 */
module Sequencer {
  import opened Plans
  import opened Communication
  import opened Safety

  /**
   * How a movement ends: every step confirmed; a step failed and the safety protocol
   * completed (`execute_movement` raises); or the safety protocol timed out (`exit(1)`).
   */
  datatype Outcome = AllConfirmed | Recovered | Fatal

  /** One step: reset the joint to pending, send the step, wait for its confirmation. */
  function StepOnce(service: Service, step: Step, s: LinkState): LinkState
  {
    var j := JointOf(step);
    AfterAwait(AfterSend(AfterReset(s, j), Message(service, Move(step))), j)
  }

  /** The loop of `execute_movement`: the state after it, and whether every step was confirmed. */
  function RunPlan(service: Service, plan: seq<Step>, s: LinkState): (LinkState, bool)
    decreases |plan|
  {
    if plan == [] then (s, true)
    else
      var s1 := StepOnce(service, plan[0], s);
      if NextConfirmation(s.confirmations) == Confirmed then RunPlan(service, plan[1..], s1) else (s1, false)
  }

  /** `execute_movement` with the safety handler run on the first failure. */
  function Execute(service: Service, plan: seq<Step>, s: LinkState): (LinkState, Outcome)
  {
    var r := RunPlan(service, plan, s);
    if r.1 then (r.0, AllConfirmed)
    else
      var f := Recovery(r.0);
      (f.0, if f.1 then Recovered else Fatal)
  }

  /** The answer to the `i`-th wait, counted from the first step of the plan. */
  function Answer(feed: seq<Confirmation>, i: nat): Confirmation
  {
    if i < |feed| then feed[i] else NoReply
  }

  lemma AnswerRest(feed: seq<Confirmation>, i: nat)
    ensures Answer(Rest(feed), i) == Answer(feed, i + 1)
    ensures NextConfirmation(feed) == Answer(feed, 0)
  {
  }

  /** The first of `n` steps whose wait is not confirmed, or `n` if all are. */
  function FirstRejection(feed: seq<Confirmation>, n: nat): (k: nat)
    ensures k <= n
    ensures forall i :: 0 <= i < k ==> Answer(feed, i) == Confirmed
    ensures k < n ==> Answer(feed, k) != Confirmed
  {
    if n == 0 then 0
    else if Answer(feed, 0) != Confirmed then 0
    else
      var k' := FirstRejection(Rest(feed), n - 1);
      assert forall i :: 0 <= i < k' + 1 ==> Answer(feed, i) == Confirmed by {
        forall i | 0 < i < k' + 1 ensures Answer(feed, i) == Confirmed {
          AnswerRest(feed, i - 1);
        }
      }
      AnswerRest(feed, k');
      1 + k'
  }

  /** How many steps of an `n`-step plan are sent: up to and including the first failure. */
  function StepsSent(feed: seq<Confirmation>, n: nat): (m: nat)
    ensures m <= n
  {
    if n == 0 then 0
    else if NextConfirmation(feed) == Confirmed then StepsSent(Rest(feed), n - 1) + 1
    else 1
  }

  /** The steps sent are those up to and including the first rejection, if there is one. */
  lemma {:induction false} StepsSentByRejection(feed: seq<Confirmation>, n: nat)
    ensures var k := FirstRejection(feed, n);
      StepsSent(feed, n) == if k < n then k + 1 else n
  {
    AnswerRest(feed, 0);
    if n > 0 && NextConfirmation(feed) == Confirmed {
      StepsSentByRejection(Rest(feed), n - 1);
      assert FirstRejection(feed, n) == FirstRejection(Rest(feed), n - 1) + 1;
    }
  }

  /** The messages that carry `steps` under `service`, in order. */
  function Messages(service: Service, steps: seq<Step>): (ms: seq<Message>)
    ensures |ms| == |steps| && forall i :: 0 <= i < |steps| ==> ms[i] == Message(service, Move(steps[i]))
  {
    if steps == [] then [] else [Message(service, Move(steps[0]))] + Messages(service, steps[1..])
  }

  /** What one step writes to the log: reset its joint, send it, await the answer `a`. */
  function Block(service: Service, step: Step, a: Confirmation): seq<Event>
  {
    [StatusReset(JointOf(step)), Sent(Message(service, Move(step))), Awaited(JointOf(step), a)]
  }

  /** The only message in a block is its step. */
  lemma BlockOutbox(service: Service, step: Step, a: Confirmation)
    ensures Outbox(Block(service, step, a)) == [Message(service, Move(step))]
  {
    var block := Block(service, step, a);
    var tail := block[1..][1..];
    assert tail == [Awaited(JointOf(step), a)];
    assert tail[1..] == [];
    assert Outbox(tail) == Outbox(tail[1..]) == [];
    assert Outbox(block[1..]) == [Message(service, Move(step))] + Outbox(tail);
  }

  lemma StepOnceLog(service: Service, step: Step, s: LinkState)
    ensures StepOnce(service, step, s).log == s.log + Block(service, step, NextConfirmation(s.confirmations))
    ensures StepOnce(service, step, s).confirmations == Rest(s.confirmations)
  {
  }

  /** A run reports success exactly when every step of the plan was confirmed. */
  lemma {:induction false} RunPlanSucceedsIff(service: Service, plan: seq<Step>, s: LinkState)
    ensures RunPlan(service, plan, s).1 <==> FirstRejection(s.confirmations, |plan|) == |plan|
    decreases |plan|
  {
    AnswerRest(s.confirmations, 0);
    if plan != [] && NextConfirmation(s.confirmations) == Confirmed {
      RunPlanSucceedsIff(service, plan[1..], StepOnce(service, plan[0], s));
      assert FirstRejection(s.confirmations, |plan|) == FirstRejection(Rest(s.confirmations), |plan| - 1) + 1;
    }
  }

  /** A run consumes exactly one answer per step it sends. */
  lemma {:induction false} RunPlanConsumes(service: Service, plan: seq<Step>, s: LinkState)
    ensures RunPlan(service, plan, s).0.confirmations == Drop(s.confirmations, StepsSent(s.confirmations, |plan|))
    decreases |plan|
  {
    var feed := s.confirmations;
    AnswerRest(feed, 0);
    if plan != [] && NextConfirmation(feed) == Confirmed {
      RunPlanConsumes(service, plan[1..], StepOnce(service, plan[0], s));
      DropRest(feed, StepsSent(Rest(feed), |plan| - 1));
    }
  }

  /** A run leaves the safety feed, the connection, the scan callback and the clock alone. */
  lemma {:induction false} RunPlanFrame(service: Service, plan: seq<Step>, s: LinkState)
    ensures var r := RunPlan(service, plan, s).0;
      r.safetyFeed == s.safetyFeed && r.closed == s.closed && r.scanCallback == s.scanCallback && r.clock == s.clock
    decreases |plan|
  {
    if plan != [] && NextConfirmation(s.confirmations) == Confirmed {
      RunPlanFrame(service, plan[1..], StepOnce(service, plan[0], s));
    }
  }

  /** The first step of a run, and then the rest of the plan if it was confirmed. */
  lemma RunPlanUnfold(service: Service, plan: seq<Step>, s: LinkState)
    requires plan != []
    ensures RunPlan(service, plan, s)
      == if NextConfirmation(s.confirmations) == Confirmed then RunPlan(service, plan[1..], StepOnce(service, plan[0], s))
         else (StepOnce(service, plan[0], s), false)
  {
  }

  lemma Chain<T>(x: seq<T>, y: seq<T>, a: seq<T>, b: seq<T>, c: seq<T>, bc: seq<T>)
    requires x == y + c && y == a + b && bc == b + c
    ensures x == a + bc
  {
  }

  /**
   * What a run writes to the log, given the answers it will get: one block per step,
   * stopping after the first step whose answer is not a confirmation.
   */
  function SentTrace(service: Service, plan: seq<Step>, feed: seq<Confirmation>): (t: seq<Event>)
    ensures |t| == 3 * StepsSent(feed, |plan|)
  {
    if plan == [] then []
    else
      var b := Block(service, plan[0], NextConfirmation(feed));
      if NextConfirmation(feed) == Confirmed then b + SentTrace(service, plan[1..], Rest(feed)) else b
  }

  /** Position by position, the i-th block of the trace of a run. */
  lemma {:induction false} SentTraceAt(service: Service, plan: seq<Step>, feed: seq<Confirmation>, i: nat)
    requires i < StepsSent(feed, |plan|)
    ensures var t := SentTrace(service, plan, feed);
      && t[3 * i] == StatusReset(JointOf(plan[i]))
      && t[3 * i + 1] == Sent(Message(service, Move(plan[i])))
      && t[3 * i + 2] == Awaited(JointOf(plan[i]), Answer(feed, i))
    decreases i
  {
    if i == 0 {
      SentTraceHead(service, plan, feed);
    } else {
      SentTraceCons(service, plan, feed);
      SentTraceAt(service, plan[1..], Rest(feed), i - 1);
      AnswerRest(feed, i - 1);
      SkipBlock(Block(service, plan[0], NextConfirmation(feed)), SentTrace(service, plan[1..], Rest(feed)), 3 * (i - 1));
    }
  }

  /** The first block of a trace is that of the first step. */
  lemma SentTraceHead(service: Service, plan: seq<Step>, feed: seq<Confirmation>)
    requires plan != []
    ensures var t := SentTrace(service, plan, feed);
      && |t| >= 3
      && t[0] == StatusReset(JointOf(plan[0]))
      && t[1] == Sent(Message(service, Move(plan[0])))
      && t[2] == Awaited(JointOf(plan[0]), Answer(feed, 0))
  {
    AnswerRest(feed, 0);
  }

  /** A confirmed first step is followed by the trace of the rest of the plan. */
  lemma SentTraceCons(service: Service, plan: seq<Step>, feed: seq<Confirmation>)
    requires plan != [] && StepsSent(feed, |plan|) > 1
    ensures NextConfirmation(feed) == Confirmed
    ensures StepsSent(feed, |plan|) == StepsSent(Rest(feed), |plan| - 1) + 1
    ensures SentTrace(service, plan, feed) == Block(service, plan[0], NextConfirmation(feed)) + SentTrace(service, plan[1..], Rest(feed))
  {
  }

  lemma SkipBlock<T>(b: seq<T>, r: seq<T>, j: nat)
    requires |b| == 3 && j + 2 < |r|
    ensures (b + r)[j + 3] == r[j] && (b + r)[j + 4] == r[j + 1] && (b + r)[j + 5] == r[j + 2]
  {
  }

  /** Every step before the last one sent was confirmed. */
  lemma {:induction false} ConfirmedBeforeLastSent(feed: seq<Confirmation>, n: nat, i: nat)
    requires i + 1 < StepsSent(feed, n)
    ensures Answer(feed, i) == Confirmed
    decreases i
  {
    AnswerRest(feed, 0);
    if i > 0 {
      ConfirmedBeforeLastSent(Rest(feed), n - 1, i - 1);
      AnswerRest(feed, i - 1);
    }
  }

  /** The messages in the trace of a run are its steps sent, in plan order. */
  lemma {:induction false} SentTraceOutbox(service: Service, plan: seq<Step>, feed: seq<Confirmation>)
    ensures var o := Outbox(SentTrace(service, plan, feed));
      |o| == StepsSent(feed, |plan|) && forall i :: 0 <= i < |o| ==> o[i] == Message(service, Move(plan[i]))
    decreases |plan|
  {
    if plan != [] {
      var b := Block(service, plan[0], NextConfirmation(feed));
      BlockOutbox(service, plan[0], NextConfirmation(feed));
      if NextConfirmation(feed) == Confirmed {
        var rest := SentTrace(service, plan[1..], Rest(feed));
        SentTraceOutbox(service, plan[1..], Rest(feed));
        OutboxAppend(b, rest);
      }
    }
  }

  /**
   * The log of a run is the old log followed by the trace of the run: nothing else is
   * written, and nothing at all after the first step that is not confirmed.
   */
  lemma {:induction false} RunPlanLog(service: Service, plan: seq<Step>, s: LinkState)
    ensures RunPlan(service, plan, s).0.log == s.log + SentTrace(service, plan, s.confirmations)
    decreases |plan|
  {
    if plan != [] {
      var s1 := StepOnce(service, plan[0], s);
      StepOnceLog(service, plan[0], s);
      RunPlanUnfold(service, plan, s);
      if NextConfirmation(s.confirmations) == Confirmed {
        RunPlanLog(service, plan[1..], s1);
        var b := Block(service, plan[0], NextConfirmation(s.confirmations));
        Chain(RunPlan(service, plan[1..], s1).0.log, s1.log, s.log, b,
          SentTrace(service, plan[1..], s1.confirmations), SentTrace(service, plan, s.confirmations));
      }
    }
  }

  /**
   * Running a plan sends exactly the steps up to and including the first one that is
   * not confirmed (all of them if every step is confirmed), in plan order.
   */
  lemma RunPlanOutbox(service: Service, plan: seq<Step>, s: LinkState)
    ensures Outbox(RunPlan(service, plan, s).0.log)
      == Outbox(s.log) + Messages(service, plan[..StepsSent(s.confirmations, |plan|)])
  {
    var t := SentTrace(service, plan, s.confirmations);
    RunPlanLog(service, plan, s);
    OutboxAppend(s.log, t);
    SentTraceOutbox(service, plan, s.confirmations);
    assert Outbox(t) == Messages(service, plan[..StepsSent(s.confirmations, |plan|)]);
  }

  /**
   * The log of a run, step by step: for each step sent, the joint is reset to pending,
   * then the step is sent, then its confirmation is awaited, and nothing else happens.
   */
  lemma RunPlanShape(service: Service, plan: seq<Step>, s: LinkState)
    ensures var n := StepsSent(s.confirmations, |plan|);
      var log := RunPlan(service, plan, s).0.log;
      && |log| == |s.log| + 3 * n
      && log[..|s.log|] == s.log
      && forall i :: 0 <= i < n ==>
        && log[|s.log| + 3 * i] == StatusReset(JointOf(plan[i]))
        && log[|s.log| + 3 * i + 1] == Sent(Message(service, Move(plan[i])))
        && log[|s.log| + 3 * i + 2] == Awaited(JointOf(plan[i]), Answer(s.confirmations, i))
  {
    var n := StepsSent(s.confirmations, |plan|);
    var t := SentTrace(service, plan, s.confirmations);
    var log := RunPlan(service, plan, s).0.log;
    RunPlanLog(service, plan, s);
    forall i | 0 <= i < n
      ensures && log[|s.log| + 3 * i] == StatusReset(JointOf(plan[i]))
        && log[|s.log| + 3 * i + 1] == Sent(Message(service, Move(plan[i])))
        && log[|s.log| + 3 * i + 2] == Awaited(JointOf(plan[i]), Answer(s.confirmations, i))
    {
      SentTraceAt(service, plan, s.confirmations, i);
    }
  }

  /** Every step's joint is reset to pending immediately before that step is sent. */
  lemma PendingBeforeEachSend(service: Service, plan: seq<Step>, s: LinkState, e: int)
    requires var log := RunPlan(service, plan, s).0.log; |s.log| <= e < |log| && log[e].Sent?
    ensures var log := RunPlan(service, plan, s).0.log;
      && e > |s.log|
      && log[e].msg.payload.Move?
      && log[e - 1] == StatusReset(JointOf(log[e].msg.payload.step))
  {
    var t := SentTrace(service, plan, s.confirmations);
    RunPlanLog(service, plan, s);
    var d := e - |s.log|;
    var i := d / 3;
    assert d == 3 * i + d % 3;
    SentTraceAt(service, plan, s.confirmations, i);
    assert RunPlan(service, plan, s).0.log[e] == t[d];
  }

  /** A step after the first is sent only once the step before it has been confirmed. */
  lemma SentOnlyAfterConfirmation(service: Service, plan: seq<Step>, s: LinkState, i: int)
    requires 0 < i < StepsSent(s.confirmations, |plan|)
    ensures var log := RunPlan(service, plan, s).0.log;
      |s.log| + 3 * i - 1 < |log| && log[|s.log| + 3 * i - 1] == Awaited(JointOf(plan[i - 1]), Confirmed)
  {
    RunPlanLog(service, plan, s);
    SentTraceAt(service, plan, s.confirmations, i - 1);
    ConfirmedBeforeLastSent(s.confirmations, |plan|, i - 1);
    assert |s.log| + 3 * i - 1 == |s.log| + 3 * (i - 1) + 2;
  }

  /** After a fully confirmed plan, every joint it moved is marked completed. */
  lemma {:induction false} RunPlanCompletesJoints(service: Service, plan: seq<Step>, s: LinkState)
    requires RunPlan(service, plan, s).1
    ensures var st := RunPlan(service, plan, s).0.status;
      forall i :: 0 <= i < |plan| ==> JointOf(plan[i]) in st && st[JointOf(plan[i])] == Completed
    decreases |plan|
  {
    if plan != [] {
      var s1 := StepOnce(service, plan[0], s);
      var st := RunPlan(service, plan, s).0.status;
      RunPlanCompletesJoints(service, plan[1..], s1);
      forall i | 0 <= i < |plan|
        ensures JointOf(plan[i]) in st && st[JointOf(plan[i])] == Completed
      {
        var j := JointOf(plan[i]);
        if i' :| 1 <= i' < |plan| && JointOf(plan[i']) == j {
          assert JointOf(plan[1..][i' - 1]) == j;
        } else {
          RunPlanKeepsOthers(service, plan[1..], s1, j);
        }
      }
    }
  }

  /** A joint that no step of the plan names keeps its status. */
  lemma {:induction false} RunPlanKeepsOthers(service: Service, plan: seq<Step>, s: LinkState, j: Joint)
    requires forall i :: 0 <= i < |plan| ==> JointOf(plan[i]) != j
    ensures var st := RunPlan(service, plan, s).0.status;
      (j in st <==> j in s.status) && (j in s.status ==> st[j] == s.status[j])
    decreases |plan|
  {
    if plan != [] && NextConfirmation(s.confirmations) == Confirmed {
      RunPlanKeepsOthers(service, plan[1..], StepOnce(service, plan[0], s), j);
    }
  }

  /**
   * `execute_movement` end to end: with every step confirmed it sends exactly the plan;
   * when step k (counting from 0) is the first not confirmed, it sends steps 0..k and then
   * one safety message, and the outcome is that of the safety handler.
   */
  lemma ExecuteSpec(service: Service, plan: seq<Step>, s: LinkState)
    ensures var k := FirstRejection(s.confirmations, |plan|);
      var r := Execute(service, plan, s);
      && (r.1 == AllConfirmed <==> k == |plan|)
      && (k == |plan| ==> Outbox(r.0.log) == Outbox(s.log) + Messages(service, plan))
      && (k < |plan| ==> Outbox(r.0.log) == Outbox(s.log) + Messages(service, plan[..k + 1]) + [SafetyMessage])
      && (k < |plan| ==> (r.1 == Recovered <==> exists t :: 0 <= t < SafetyWindow && Observe(s.safetyFeed, t) == CompletedState))
      && (r.1 == Fatal ==> r.0.closed)
      && (r.1 != Fatal ==> r.0.closed == s.closed)
  {
    RunPlanSucceedsIff(service, plan, s);
    RunPlanFrame(service, plan, s);
    RunPlanOutbox(service, plan, s);
    StepsSentByRejection(s.confirmations, |plan|);
    var r := RunPlan(service, plan, s);
    assert plan[..|plan|] == plan;
    if !r.1 {
      RecoverySpec(r.0);
      RecoveryOutbox(r.0);
    }
  }

  /**
   * Reference definition of what `execute_movement` sends, given the answers to come: the
   * whole plan when every step is confirmed, otherwise the steps up to and including the
   * first failing one followed by the safety request.
   */
  function ExecuteMessages(service: Service, plan: seq<Step>, feed: seq<Confirmation>): seq<Message>
  {
    var k := FirstRejection(feed, |plan|);
    if k == |plan| then Messages(service, plan) else Messages(service, plan[..k + 1]) + [SafetyMessage]
  }

  /** `execute_movement` sends exactly `ExecuteMessages`. */
  lemma ExecuteOutbox(service: Service, plan: seq<Step>, s: LinkState)
    ensures Outbox(Execute(service, plan, s).0.log) == Outbox(s.log) + ExecuteMessages(service, plan, s.confirmations)
  {
    ExecuteSpec(service, plan, s);
    var k := FirstRejection(s.confirmations, |plan|);
    if k < |plan| {
      Assoc(Outbox(s.log), Messages(service, plan[..k + 1]), [SafetyMessage]);
    }
  }

  /** Every message `execute_movement` sends is a step of the plan under its service, or the safety request. */
  lemma ExecuteMessagesServices(service: Service, plan: seq<Step>, feed: seq<Confirmation>)
    ensures var ms := ExecuteMessages(service, plan, feed);
      forall i :: 0 <= i < |ms| ==> ms[i].service == service || ms[i] == SafetyMessage
  {
  }

  /** The first message `execute_movement` sends is the first step. */
  lemma ExecuteMessagesStart(service: Service, plan: seq<Step>, feed: seq<Confirmation>)
    requires plan != []
    ensures var ms := ExecuteMessages(service, plan, feed);
      |ms| > 0 && ms[0] == Message(service, Move(plan[0]))
  {
  }
}
