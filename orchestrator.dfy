/**
 * The `Robot` itself: the scan registry it keeps in `scan_results`, the scan command,
 * the interactive selection, and the pick & place command that chains a pick plan and a
 * place plan through the movement sequencer.
 */
module Orchestrator {
  import opened Wrappers
  import opened Zones
  import opened Registry
  import opened Selection
  import opened Plans
  import opened Communication
  import opened Safety
  import opened Sequencer

  /**
   * An entry of `scan_results`: a record as the scan callback appended it, or an indexed
   * entry as `process_scan_results` left it. A scan that times out leaves raw records.
   */
  datatype Entry = Provisional(rec: Record) | Listed(obj: ScannedObject)

  /** What the selection dialog comes back with; `MissingIndex` is the crash on a raw record. */
  datatype Choice = Chosen(obj: ScannedObject) | NoChoice | MissingIndex

  /** How one pick & place command ends. */
  datatype PickPlaceResult =
    | NotScanned       // the catalog is empty: nothing is asked
    | ListingCrashed   // an entry has no index: the listing raises `KeyError`
    | NothingSelected  // 0, a non-number, or an index no entry has
    | PickFailed       // the pick plan failed and the safety protocol completed
    | PlaceFailed      // the place plan failed and the safety protocol completed
    | PickedAndPlaced  // both plans were confirmed step by step
    | Terminated       // the safety protocol timed out: `exit(1)`

  /** The speed the scan command asks for. */
  const ScanSpeedSetting: int := 20

  const ScanRequest: Message := Message(ScanService, ScanSpeed(ScanSpeedSetting))

  /** A registry of raw records; its records read back as `rs`. */
  function AsProvisional(rs: seq<Record>): (es: seq<Entry>)
    ensures |es| == |rs| && forall i :: 0 <= i < |rs| ==> es[i] == Provisional(rs[i])
    ensures AllProvisional(es) && Raws(es) == rs
  {
    seq(|rs|, i requires 0 <= i < |rs| => Provisional(rs[i]))
  }

  /** A processed registry; its entries read back as `os`. */
  function AsListed(os: seq<ScannedObject>): (es: seq<Entry>)
    ensures |es| == |os| && forall i :: 0 <= i < |os| ==> es[i] == Listed(os[i])
    ensures AllListed(es) && Objects(es) == os
  {
    seq(|os|, i requires 0 <= i < |os| => Listed(os[i]))
  }

  predicate AllListed(es: seq<Entry>)
  {
    forall i :: 0 <= i < |es| ==> es[i].Listed?
  }

  predicate AllProvisional(es: seq<Entry>)
  {
    forall i :: 0 <= i < |es| ==> es[i].Provisional?
  }

  function Objects(es: seq<Entry>): (os: seq<ScannedObject>)
    requires AllListed(es)
    ensures |os| == |es| && forall i :: 0 <= i < |es| ==> os[i] == es[i].obj
  {
    seq(|es|, i requires 0 <= i < |es| && es[i].Listed? => es[i].obj)
  }

  function Raws(es: seq<Entry>): (rs: seq<Record>)
    requires AllProvisional(es)
    ensures |rs| == |es| && forall i :: 0 <= i < |es| ==> rs[i] == es[i].rec
  {
    seq(|es|, i requires 0 <= i < |es| && es[i].Provisional? => es[i].rec)
  }

  /**
   * `select_object_interactively` on the entries `es` and the typed line: the first raw
   * record in the listing crashes it; otherwise the typed number picks the entry with
   * that index, if any.
   */
  function ChoiceFor(es: seq<Entry>, line: string): (c: Choice)
    ensures c == MissingIndex <==> !AllListed(es)
    ensures c.Chosen? ==> Listed(c.obj) in es && Some(c.obj.index) == ParseInt(line)
    ensures AllListed(es) && (ParseInt(line).None? || ParseInt(line) == Some(0)) ==> c == NoChoice
    ensures (&& AllListed(es) && ParseInt(line).Some? && ParseInt(line).value != 0
             && exists i :: 0 <= i < |es| && es[i].obj.index == ParseInt(line).value) ==> c.Chosen?
  {
    if !AllListed(es) then MissingIndex
    else
      var os := Objects(es);
      match Choose(os, line)
      case Some(o) =>
        assert exists i :: 0 <= i < |es| && os[i] == o;
        Chosen(o)
      case None => NoChoice
  }

  /** What the scan command does to the transport: register, request the scan, deregister. */
  function ScanLink(s: LinkState): LinkState
  {
    AfterRegister(AfterSend(AfterRegister(s, true), ScanRequest), false)
  }

  /** `handle_pick_place_command` from the entries `es`, the typed line and the transport `s`. */
  function PickPlaceRun(es: seq<Entry>, line: string, s: LinkState): (LinkState, PickPlaceResult)
  {
    if es == [] then (s, NotScanned)
    else match ChoiceFor(es, line)
      case MissingIndex => (s, ListingCrashed)
      case NoChoice => (s, NothingSelected)
      case Chosen(o) =>
        var p := Execute(PickService, PickPlan(o), s);
        if p.1 == Fatal then (p.0, Terminated)
        else if p.1 == Recovered then (p.0, PickFailed)
        else
          var q := Execute(PlaceService, PlacePlan(o), p.0);
          (q.0, if q.1 == Fatal then Terminated else if q.1 == Recovered then PlaceFailed else PickedAndPlaced)
  }

  /** A typed line that names an entry of an n-entry catalog. */
  predicate ValidSelection(line: string, n: nat)
  {
    ParseInt(line).Some? && 1 <= ParseInt(line).value <= n
  }

  class Robot {
    const transport: CommunicationManager
    var scanResults: seq<Entry>

    /** A robot on the transport `t`, with an empty registry and the scan callback registered. */
    constructor (t: CommunicationManager)
      modifies t
      ensures transport == t && scanResults == []
      ensures t.State() == AfterRegister(old(t.State()), true)
    {
      transport := t;
      scanResults := [];
      new;
      t.RegisterScanCallback(true);
    }

    /** `_update_object_registry`: append the record of one detection. */
    method UpdateObjectRegistry(d: Detection)
      modifies this
      ensures scanResults == old(scanResults) + [Provisional(RecordOf(d))]
    {
      var r := RecordOf(d);
      scanResults := scanResults + [Provisional(r)];
    }

    /** `_scan_callback`: a detection without a class changes nothing. */
    method ScanCallback(d: Detection)
      modifies this
      ensures scanResults == old(scanResults) + (if HasClass(d) then [Provisional(RecordOf(d))] else [])
    {
      if d.cls.Some? && d.cls.value != "" {
        UpdateObjectRegistry(d);
      }
    }

    /** `process_scan_results`: number the raw records 1..n in arrival order. */
    method ProcessScanResults()
      requires AllProvisional(scanResults)
      modifies this
      ensures scanResults == AsListed(Catalog(Raws(old(scanResults))))
    {
      if |scanResults| == 0 {
        return;
      }
      ghost var raws := Raws(scanResults);
      var processed: seq<ScannedObject> := [];
      var i := 0;
      while i < |scanResults|
        invariant 0 <= i <= |scanResults|
        invariant processed == Catalog(raws[..i])
      {
        var r := scanResults[i].rec;
        processed := processed + [ScannedObject(i + 1, r.angle, r.distance, r.cls, r.confidence, r.zone)];
        assert raws[..i + 1][..i] == raws[..i];
        i := i + 1;
      }
      assert raws[..i] == raws;
      scanResults := AsListed(processed);
    }

    /**
     * `handle_scan_command`. The detections the scan service reports while the command
     * waits are `detections`, delivered in order; `completed` says whether the
     * completion event fired within the timeout.
     */
    method HandleScanCommand(detections: seq<Detection>, completed: bool)
      modifies this, transport
      ensures transport.State() == ScanLink(old(transport.State()))
      ensures scanResults == if completed then AsListed(Catalog(Records(detections))) else AsProvisional(Records(detections))
    {
      scanResults := [];
      transport.RegisterScanCallback(true);
      transport.SendMessage(ScanRequest);
      ghost var sent := transport.State();
      var i := 0;
      while i < |detections|
        invariant 0 <= i <= |detections|
        invariant scanResults == AsProvisional(Records(detections[..i]))
        invariant transport.State() == sent
      {
        ScanCallback(detections[i]);
        RecordsAfterOneMore(detections[..i], detections[i]);
        assert detections[..i + 1] == detections[..i] + [detections[i]];
        i := i + 1;
      }
      assert detections[..i] == detections;
      if completed {
        assert Raws(scanResults) == Records(detections);
        ProcessScanResults();
      }
      transport.RegisterScanCallback(false);
    }

    /** `select_object_interactively`, answered with `line`. */
    method SelectObjectInteractively(line: string) returns (c: Choice)
      ensures c == ChoiceFor(scanResults, line)
    {
      var i := 0;
      while i < |scanResults|
        invariant 0 <= i <= |scanResults|
        invariant forall j :: 0 <= j < i ==> scanResults[j].Listed?
      {
        if scanResults[i].Provisional? {
          return MissingIndex;
        }
        i := i + 1;
      }
      var n := ParseInt(line);
      if n.None? || n.value == 0 {
        return NoChoice;
      }
      var found := FindByIndex(Objects(scanResults), n.value);
      c := if found.Some? then Chosen(found.value) else NoChoice;
    }

    /** `execute_movement`: the plan in order, the safety handler on the first failure. */
    method ExecuteMovement(service: Service, plan: seq<Step>) returns (r: Outcome)
      modifies transport
      ensures (transport.State(), r) == Execute(service, plan, old(transport.State()))
    {
      ghost var s0 := transport.State();
      var i := 0;
      while i < |plan|
        invariant 0 <= i <= |plan|
        invariant RunPlan(service, plan, s0) == RunPlan(service, plan[i..], transport.State())
      {
        ghost var st := transport.State();
        var j := JointOf(plan[i]);
        transport.ResetStatus(j);
        transport.SendMessage(Message(service, Move(plan[i])));
        var ok := transport.WaitForConfirmation(j);
        assert transport.State() == StepOnce(service, plan[i], st);
        RunPlanUnfold(service, plan[i..], st);
        assert plan[i..][0] == plan[i] && plan[i..][1..] == plan[i + 1..];
        if !ok {
          var recovered := HandleMovementFailure();
          return if recovered then Recovered else Fatal;
        }
        i := i + 1;
      }
      return AllConfirmed;
    }

    /** `handle_movement_failure`: request the safety protocol, then poll it for 15 s. */
    method HandleMovementFailure() returns (recovered: bool)
      modifies transport
      ensures (transport.State(), recovered) == Recovery(old(transport.State()))
    {
      ghost var s0 := transport.State();
      transport.SendMessage(SafetyMessage);
      var start := transport.clock;
      while transport.clock < start + SafetyWindow
        invariant start <= transport.clock <= start + SafetyWindow
        invariant Recovery(s0) == PollFrom(transport.State(), start)
        decreases start + SafetyWindow - transport.clock
      {
        var state := transport.PollSafetyState();
        if state == CompletedState {
          return true;
        }
        transport.Sleep();
      }
      transport.Close();
      return false;
    }

    /** `execute_pick_sequence`; its `True` is `AllConfirmed`. */
    method ExecutePickSequence(o: ScannedObject) returns (r: Outcome)
      modifies transport
      ensures (transport.State(), r) == Execute(PickService, PickPlan(o), old(transport.State()))
    {
      var plan := [BaseTurn(o.centerAngle, TurnSpeed), ArmMove(o.distance, Pick), GripperMove(Close), ArmMove(o.distance, Up)];
      r := ExecuteMovement(PickService, plan);
    }

    /** `execute_place_sequence`; its `True` is `AllConfirmed`. */
    method ExecutePlaceSequence(o: ScannedObject) returns (r: Outcome)
      modifies transport
      ensures (transport.State(), r) == Execute(PlaceService, PlacePlan(o), old(transport.State()))
    {
      var zone := o.zone;
      var plan := [BaseTurn(zone.angle, TurnSpeed), ArmMove(zone.distance, Place), GripperMove(Open),
        ArmMove(o.distance, Up), BaseTurn(RestAngle, ReturnSpeed)];
      r := ExecuteMovement(PlaceService, plan);
    }

    /** `handle_pick_place_command`, answered with `line`; the registry is left as it is. */
    method HandlePickPlaceCommand(line: string) returns (r: PickPlaceResult)
      modifies transport
      ensures (transport.State(), r) == PickPlaceRun(scanResults, line, old(transport.State()))
    {
      if |scanResults| == 0 {
        return NotScanned;
      }
      var c := SelectObjectInteractively(line);
      match c {
        case MissingIndex =>
          return ListingCrashed;
        case NoChoice =>
          return NothingSelected;
        case Chosen(o) =>
          var p := ExecutePickSequence(o);
          if p == Fatal {
            return Terminated;
          } else if p == Recovered {
            return PickFailed;
          }
          var q := ExecutePlaceSequence(o);
          r := if q == Fatal then Terminated else if q == Recovered then PlaceFailed else PickedAndPlaced;
      }
    }
  }

  /** The scan command sends exactly the scan request, at speed 20, and deregisters the callback. */
  lemma ScanLinkSpec(s: LinkState)
    ensures Outbox(ScanLink(s).log) == Outbox(s.log) + [Message(ScanService, ScanSpeed(20))]
    ensures !ScanLink(s).scanCallback
    ensures ScanLink(s).(log := s.log, scanCallback := s.scanCallback) == s
  {
    OutboxAppend(s.log, [Sent(ScanRequest)]);
    assert [Sent(ScanRequest)][1..] == [];
  }

  /** Some poll within the 15 s window sees the safety protocol completed. */
  predicate SafetyRecovers(feed: seq<Option<string>>)
  {
    exists t :: 0 <= t < SafetyWindow && Observe(feed, t) == CompletedState
  }

  lemma AnswerDrop(feed: seq<Confirmation>, n: nat, i: nat)
    ensures Answer(Drop(feed, n), i) == Answer(feed, n + i)
  {
  }

  /**
   * Choosing from a processed catalog: a typed number 1..n picks entry n, in arrival
   * order; anything else picks nothing.
   */
  lemma SelectFromCatalog(rs: seq<Record>, line: string)
    ensures var c := ChoiceFor(AsListed(Catalog(rs)), line);
      && (ValidSelection(line, |rs|) ==> c == Chosen(Catalog(rs)[ParseInt(line).value - 1]))
      && (!ValidSelection(line, |rs|) ==> c == NoChoice)
  {
    var es := AsListed(Catalog(rs));
    assert ChoiceFor(es, line) == ChoiceOf(Choose(Catalog(rs), line));
    if ParseInt(line).Some? {
      ChooseFromCatalog(rs, line, ParseInt(line).value);
    }
  }

  function ChoiceOf(r: Option<ScannedObject>): Choice
  {
    if r.Some? then Chosen(r.value) else NoChoice
  }

  /**
   * No movement without a valid selection: with an empty catalog, or a line that is not
   * a number, is 0, or names no entry, the command sends nothing and changes nothing.
   */
  lemma NoMovementWithoutSelection(rs: seq<Record>, line: string, s: LinkState)
    requires !ValidSelection(line, |rs|)
    ensures PickPlaceRun(AsListed(Catalog(rs)), line, s) == (s, if rs == [] then NotScanned else NothingSelected)
  {
    SelectFromCatalog(rs, line);
  }

  /** Cancelling with "0" sends nothing, whatever the catalog. */
  lemma CancelSendsNothing(rs: seq<Record>, s: LinkState)
    ensures PickPlaceRun(AsListed(Catalog(rs)), "0", s).0 == s
  {
    ParseDecimal(0);
    assert Decimal(0) == "0";
    NoMovementWithoutSelection(rs, "0", s);
  }

  /**
   * After a scan that timed out, the registry still holds raw records: a pick & place
   * command then only crashes in the listing, and sends nothing.
   */
  lemma TimedOutScanBlocksPicking(ds: seq<Detection>, line: string, s: LinkState)
    ensures PickPlaceRun(AsProvisional(Records(ds)), line, s) == (s, if Records(ds) == [] then NotScanned else ListingCrashed)
  {
    if Records(ds) != [] {
      assert !AsProvisional(Records(ds))[0].Listed?;
    }
  }

  /**
   * What a pick & place command on a chosen object sends: what the pick plan's run sends,
   * and only when all four pick steps were confirmed, then what the place plan's run
   * sends with the answers that remain.
   */
  lemma PickPlaceOutbox(es: seq<Entry>, line: string, s: LinkState, o: ScannedObject)
    requires ChoiceFor(es, line) == Chosen(o)
    ensures var k := FirstRejection(s.confirmations, 4);
      Outbox(PickPlaceRun(es, line, s).0.log)
        == Outbox(s.log) + ExecuteMessages(PickService, PickPlan(o), s.confirmations)
          + (if k == 4 then ExecuteMessages(PlaceService, PlacePlan(o), Drop(s.confirmations, 4)) else [])
  {
    var feed := s.confirmations;
    var p := Execute(PickService, PickPlan(o), s);
    ExecuteSpec(PickService, PickPlan(o), s);
    ExecuteOutbox(PickService, PickPlan(o), s);
    if p.1 == AllConfirmed {
      RunPlanConsumes(PickService, PickPlan(o), s);
      StepsSentByRejection(feed, 4);
      assert p.0.confirmations == Drop(feed, 4);
      ExecuteOutbox(PlaceService, PlacePlan(o), p.0);
      Assoc(Outbox(s.log), ExecuteMessages(PickService, PickPlan(o), feed),
        ExecuteMessages(PlaceService, PlacePlan(o), Drop(feed, 4)));
    }
  }

  /**
   * How a pick & place command on a chosen object ends: a failing pick step ends it
   * before any place step, and then the safety protocol decides between a failure and
   * termination; the place plan runs only after a fully confirmed pick. The connection
   * is closed exactly when the command terminates.
   */
  lemma PickPlaceOutcome(es: seq<Entry>, line: string, s: LinkState, o: ScannedObject)
    requires ChoiceFor(es, line) == Chosen(o)
    ensures var k := FirstRejection(s.confirmations, 4);
      var k2 := FirstRejection(Drop(s.confirmations, 4), 5);
      var r := PickPlaceRun(es, line, s);
      && r.1 == (if k < 4 then (if SafetyRecovers(s.safetyFeed) then PickFailed else Terminated)
                 else if k2 < 5 then (if SafetyRecovers(s.safetyFeed) then PlaceFailed else Terminated)
                 else PickedAndPlaced)
      && (r.0.closed <==> s.closed || r.1 == Terminated)
  {
    var feed := s.confirmations;
    var p := Execute(PickService, PickPlan(o), s);
    ExecuteSpec(PickService, PickPlan(o), s);
    if p.1 == AllConfirmed {
      RunPlanConsumes(PickService, PickPlan(o), s);
      RunPlanFrame(PickService, PickPlan(o), s);
      StepsSentByRejection(feed, 4);
      assert p.0.confirmations == Drop(feed, 4);
      ExecuteSpec(PlaceService, PlacePlan(o), p.0);
    }
  }

  /** Place is attempted only after pick succeeded: a failing pick sends no place step. */
  lemma PlaceOnlyAfterPick(es: seq<Entry>, line: string, s: LinkState, o: ScannedObject)
    requires ChoiceFor(es, line) == Chosen(o)
    requires FirstRejection(s.confirmations, 4) < 4
    ensures var out := Outbox(PickPlaceRun(es, line, s).0.log);
      && |Outbox(s.log)| <= |out| && out[..|Outbox(s.log)|] == Outbox(s.log)
      && forall i :: |Outbox(s.log)| <= i < |out| ==> out[i].service != PlaceService
  {
    PickPlaceOutbox(es, line, s, o);
    var ms := ExecuteMessages(PickService, PickPlan(o), s.confirmations);
    ExecuteMessagesServices(PickService, PickPlan(o), s.confirmations);
    var out := Outbox(PickPlaceRun(es, line, s).0.log);
    assert out == Outbox(s.log) + ms;
    forall i | |Outbox(s.log)| <= i < |out|
      ensures out[i].service != PlaceService
    {
      assert out[i] == ms[i - |Outbox(s.log)|];
    }
  }

  /** A valid selection from a processed catalog moves the arm: the base turns to the object first. */
  lemma SelectionStartsPick(rs: seq<Record>, line: string, s: LinkState)
    requires ValidSelection(line, |rs|)
    ensures var o := Catalog(rs)[ParseInt(line).value - 1];
      var out := Outbox(PickPlaceRun(AsListed(Catalog(rs)), line, s).0.log);
      && |Outbox(s.log)| < |out|
      && out[|Outbox(s.log)|] == Message(PickService, Move(BaseTurn(o.centerAngle, TurnSpeed)))
  {
    var o := Catalog(rs)[ParseInt(line).value - 1];
    SelectFromCatalog(rs, line);
    PickPlaceOutbox(AsListed(Catalog(rs)), line, s, o);
    ExecuteMessagesStart(PickService, PickPlan(o), s.confirmations);
  }

  /**
   * The gripper never confirms closing: the first two pick steps and the gripper step
   * are sent, then the safety request; the protocol completing ten seconds in (poll 20)
   * ends the command as a pick failure with the connection still open.
   */
  lemma GripperTimeoutRecovers(es: seq<Entry>, line: string, s: LinkState, o: ScannedObject)
    requires ChoiceFor(es, line) == Chosen(o) && !s.closed
    requires Answer(s.confirmations, 0) == Confirmed && Answer(s.confirmations, 1) == Confirmed
    requires Answer(s.confirmations, 2) == NoReply
    requires Observe(s.safetyFeed, 20) == CompletedState
    ensures var r := PickPlaceRun(es, line, s);
      && r.1 == PickFailed && !r.0.closed
      && Outbox(r.0.log) == Outbox(s.log) + Messages(PickService, PickPlan(o)[..3]) + [SafetyMessage]
  {
    GripperTimeout(s);
    PickPlaceOutcome(es, line, s, o);
    PickPlaceOutbox(es, line, s, o);
    assert SafetyRecovers(s.safetyFeed);
    Assoc(Outbox(s.log), Messages(PickService, PickPlan(o)[..3]), [SafetyMessage]);
  }

  /** As above, but the safety protocol never completes: the connection is closed and the process ends. */
  lemma GripperTimeoutTerminates(es: seq<Entry>, line: string, s: LinkState, o: ScannedObject)
    requires ChoiceFor(es, line) == Chosen(o)
    requires Answer(s.confirmations, 0) == Confirmed && Answer(s.confirmations, 1) == Confirmed
    requires Answer(s.confirmations, 2) == NoReply
    requires forall t :: 0 <= t < SafetyWindow ==> Observe(s.safetyFeed, t) != CompletedState
    ensures var r := PickPlaceRun(es, line, s);
      && r.1 == Terminated && r.0.closed
      && Outbox(r.0.log) == Outbox(s.log) + Messages(PickService, PickPlan(o)[..3]) + [SafetyMessage]
  {
    GripperTimeout(s);
    PickPlaceOutcome(es, line, s, o);
    PickPlaceOutbox(es, line, s, o);
    Assoc(Outbox(s.log), Messages(PickService, PickPlan(o)[..3]), [SafetyMessage]);
  }

  lemma GripperTimeout(s: LinkState)
    requires Answer(s.confirmations, 0) == Confirmed && Answer(s.confirmations, 1) == Confirmed
    requires Answer(s.confirmations, 2) != Confirmed
    ensures FirstRejection(s.confirmations, 4) == 2
  {
  }

  /** Nine confirmations in a row: the whole pick plan, then the whole place plan, are sent. */
  lemma FullCycle(es: seq<Entry>, line: string, s: LinkState, o: ScannedObject)
    requires ChoiceFor(es, line) == Chosen(o)
    requires forall i :: 0 <= i < 9 ==> Answer(s.confirmations, i) == Confirmed
    ensures var r := PickPlaceRun(es, line, s);
      && r.1 == PickedAndPlaced && r.0.closed == s.closed
      && Outbox(r.0.log) == Outbox(s.log) + Messages(PickService, PickPlan(o)) + Messages(PlaceService, PlacePlan(o))
  {
    var feed := s.confirmations;
    var k2 := FirstRejection(Drop(feed, 4), 5);
    if k2 < 5 {
      AnswerDrop(feed, 4, k2);
      assert false;
    }
    PickPlaceOutcome(es, line, s, o);
    PickPlaceOutbox(es, line, s, o);
  }
}
