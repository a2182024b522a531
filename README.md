# Robot arm orchestration: a verified model

This project models the `Robot` class of a robot-arm controller. The class drives a vision-guided
pick & place arm through a serial `CommunicationManager`. It keeps a registry of scanned objects.
It runs a scan: it requests a scan at speed 20, collects the detections the scan service reports,
and numbers them 1..n. It lets the operator pick an object by number. It then runs two fixed movement
plans: a 4-step pick plan and a 5-step place plan. It runs each plan step by step. Before each step
it resets the joint's status to pending, then sends the command and waits for the joint's confirmation.
On the first failed step it starts a safety protocol. The protocol polls the safety status every half
second for 15 seconds. If the safety status never becomes `completed`, the robot closes the connection
and exits.

The model has nine modules:

- `Zones`: the `placement_zones` table and the case-insensitive zone lookup with its default.
- `Registry`: detections, provisional records, and the numbered catalog that processing builds.
- `Selection`: Python's `int(...)` on a typed line, for ASCII decimals of at most 4300 digits surrounded by the whitespace `int` skips (ASCII tab, line feed, vertical tab, form feed, carriage return and space, and Unicode whitespace), and the search for the selected entry.
- `Plans`: the pick plan and the place plan.
- `Communication`: the transport. It is a class whose state is
  - an event log,
  - `movement_status`,
  - the confirmations and safety states the hardware will report, given in advance,
  - a closed flag,
  - the scan-callback registration,
  - and a half-second clock.

  Every method is specified by a function on that state.
- `Safety`: the safety protocol's polling window, as a function with its characterisation.
- `Sequencer`: `execute_movement` as a function on the transport state. Lemmas cover order, the pending reset, abort on the first failure, and the messages sent.
- `Orchestrator`: the `Robot` class. Each method is proved equal to the function that specifies it. The methods that stand for the program's loops carry one: `process_scan_results`, `handle_scan_command`, `select_object_interactively`, `execute_movement` and `handle_movement_failure`. The module also holds the lemmas about the whole pick & place command.
- `Wrappers`: `Option`.

Time is counted in half-second ticks. The 15 s window is 30 polls, at ticks 0..29 after the safety request.
Each `wait_for_confirmation` takes the next confirmation the hardware gives: `Confirmed`, `Rejected` or
`NoReply` (a timeout). Once the given confirmations run out, every wait times out. Each poll of the
safety status reads the next given state, and once those run out the state is absent. An exception from
a movement step, caught by the pick or place sequence, is the outcome `Recovered`. `exit(1)` is the
outcome `Fatal`.

On a scan timeout `handle_scan_command` keeps the unprocessed records in `scan_results`; it does not
reset the catalog (main.py:70-76). The next pick & place command on such a registry then fails inside
the listing, on the missing `index` key (`Orchestrator.TimedOutScanBlocksPicking`).

## Model

| member | source | states |
|---|---|---|
| Zones.ZoneFor | arm_system/main.py:100-102 | the zone of a class is the table's entry for its lower-cased name when that is apple, orange or bottle, and the default zone (270, 200) otherwise; the result is always a zone of the table |
| Zones.Lower | arm_system/main.py:101 | lower-casing keeps the length and lower-cases each character in place |
| Zones.LowerIdempotent | arm_system/main.py:101 | lower-casing twice is lower-casing once |
| Zones.LowerOfSameIgnoringCase | arm_system/main.py:101 | two class names that differ only in letter case lower-case to the same name |
| Zones.ZoneForIgnoresCase | arm_system/main.py:100-102 | two class names that differ only in case get the same zone |
| Zones.ZoneForOfLower | arm_system/main.py:100-102 | looking up the lower-cased name gives the same zone as the name itself |
| Zones.ZoneForIsDefaultIff | arm_system/main.py:19-24 | a class gets the default zone exactly when its lower-cased name is not apple, orange or bottle |
| Zones.AppleZoneIgnoresCase | arm_system/main.py:19-24 | "Apple" and "apple" both get the zone (90, 200) |
| Zones.UnmappedClassGetsDefault | arm_system/main.py:23 | an unmapped class such as "cup", and the empty class, get the default zone |
| Registry.RecordOf | arm_system/main.py:82-96 | a present class, angle, distance, confidence or image path is copied into the record; a missing one becomes `"default"`, 0, 0, 0.0 or `""`; the record's zone is the lookup of its class |
| Registry.AfterCallback | arm_system/main.py:78-80 | the scan callback's effect on the records: a detection with a non-empty class appends its record, any other leaves them as they are (characterised by `Registry.RecordsAfterOneMore`) |
| Registry.Records | arm_system/main.py:78-96 | the records a sequence of detections leaves are at most as many as the detections, and each has a non-empty class and the zone of that class |
| Registry.Classified | arm_system/main.py:79 | a detection is kept exactly when it occurs in the scan and has a non-empty class; no more are kept than were reported |
| Registry.ClassifiedAppend | arm_system/main.py:78-80 | one more detection adds itself to the accepted ones exactly when it has a non-empty class |
| Registry.RecordsAreClassified | arm_system/main.py:78-96 | there is one record per accepted detection, in order, and the i-th record is the record of the i-th accepted detection |
| Registry.RecordsAfterOneMore | arm_system/main.py:78-96 | a detection without a class leaves the records unchanged; any other appends exactly its own record |
| Registry.Catalog | arm_system/main.py:104-131 | processing keeps the count and order: entry i has index i+1 and the angle, distance, class, confidence and zone of the i-th record; an empty registry stays empty |
| Registry.CatalogIndexNamesOneEntry | arm_system/main.py:112-120 | no two catalog entries share an index |
| Registry.CatalogOfScan | arm_system/main.py:78-131 | after a scan, entry i of the catalog is the i-th detection that had a class, catalogued with index i+1: its angle, distance, class, confidence and zone are those of that detection's record |
| Registry.TwoObjectScan | arm_system/main.py:78-131 | an apple then a cup give entries 1 and 2, with zones (90, 200) and the default |
| Selection.DigitChar | arm_system/main.py:162 | a decimal digit character stands for its value |
| Selection.NatDigits | arm_system/main.py:162 | the decimal numeral of a natural number is a non-empty string of digits |
| Selection.NatDigitsValue | arm_system/main.py:162 | reading back a natural number's decimal numeral gives the number |
| Selection.ParseInt | arm_system/main.py:162 | `int(line)`: the line without surrounding whitespace must be ASCII digits with at most one leading sign and at most 4300 digits (Python's limit on converting strings to integers), otherwise `ValueError` (`None`); characterised by the `Selection` lemmas below |
| Selection.ParseDecimal | arm_system/main.py:162 | parsing the decimal numeral of any integer of at most 4300 digits gives that integer, negative numbers included |
| Selection.ParseIgnoresSurroundingSpace | arm_system/main.py:162 | a whitespace character that `int` skips (ASCII tab, line feed, vertical tab, form feed, carriage return, space, or Unicode whitespace) before or after a line does not change what it parses to |
| Selection.TrimEndAfterTrimStart | arm_system/main.py:162 | trailing whitespace is removed by stripping whatever leads the line |
| Selection.StripNoSpace | arm_system/main.py:162 | a line that neither starts nor ends with whitespace is its own stripped form |
| Selection.ParsedIsNumeral | arm_system/main.py:162 | a line that parses is, once stripped, at most 4300 digits with at most one leading sign |
| Selection.OverlongNumeralRejected | arm_system/main.py:162 | a numeral of more than 4300 digits, leading zeros counted and the sign not, is `ValueError` (`None`) whatever its sign |
| Selection.NoDigitNoNumber | arm_system/main.py:162 | a line without a digit does not parse, as `int` raises `ValueError` |
| Selection.TrimStartIsSuffix | arm_system/main.py:162 | stripping leading whitespace leaves a suffix of the line |
| Selection.TrimEndIsPrefix | arm_system/main.py:162 | stripping trailing whitespace leaves a prefix of the line |
| Selection.StripIsInfix | arm_system/main.py:162 | the stripped line is a contiguous part of the line |
| Selection.FindByIndex | arm_system/main.py:167 | the search returns the first entry of the list carrying the index (no earlier entry carries it), and returns nothing exactly when no entry carries it |
| Selection.Choose | arm_system/main.py:161-171 | a line that is no number, or is 0, selects nothing; a selection is an entry of the list whose index is the typed number; a nonzero typed number that some entry carries is selected |
| Selection.FindInCatalog | arm_system/main.py:167 | on a catalog of n entries, index k finds entry k exactly when 1 <= k <= n |
| Selection.NoBreakSpaceIsStripped | arm_system/main.py:162 | a no-break space (U+00A0) before "5" is stripped, and the line reads as 5 |
| Selection.FileSeparatorIsNotStripped | arm_system/main.py:162-171 | a file separator (0x1C) before "5" is not skipped: the line is invalid input and selects nothing |
| Selection.ChooseFromCatalog | arm_system/main.py:161-171 | on a catalog of n entries, a line parsing to k selects entry k exactly when 1 <= k <= n, and nothing otherwise |
| Selection.ChooseTypedNumber | arm_system/main.py:161-171 | typing the numeral of k (at most 4300 digits) selects entry k of an n-entry catalog exactly when 1 <= k <= n |
| Plans.Joints | arm_system/main.py:225 | a plan's joints are its steps' joints, in order |
| Plans.PickPlan | arm_system/main.py:175-180 | the pick plan is exactly: base to the object's angle at speed 30, arm pick at the object's distance, gripper close, arm up at the object's distance |
| Plans.PlacePlan | arm_system/main.py:190-197 | the place plan is exactly: base to the zone's angle at speed 30, arm place at the zone's distance, gripper open, arm up at the object's distance, base to 0 at speed 60 |
| Plans.PickPlaceCycle | arm_system/main.py:175-197 | a full cycle closes the gripper once and then opens it once, in nine steps, ending with the base at rest |
| Plans.PlacePlanDependsOnZone | arm_system/main.py:190-197 | place plans for objects in the same zone agree on every step but the fourth, which agrees exactly when the objects' distances do |
| Communication.OutboxAppend | arm_system/main.py:232 | the messages sent over two stretches of events are those of the first, then those of the second |
| Communication.CommunicationManager.constructor | arm_system/main.py:12 | a fresh connection is open, has sent nothing, has no joint status and no scan callback, and will answer as given |
| Communication.CommunicationManager.SendMessage | arm_system/main.py:232 | sending logs the message and changes nothing else |
| Communication.CommunicationManager.ResetStatus | arm_system/main.py:229 | sets the joint's status to pending, logs the reset, and changes nothing else |
| Communication.CommunicationManager.WaitForConfirmation | arm_system/main.py:235 | the wait returns true exactly when the next confirmation is `Confirmed`; it consumes that confirmation and marks the joint completed, failed, or (on a timeout) as it was |
| Communication.CommunicationManager.PollSafetyState | arm_system/main.py:253 | a poll returns the next safety state and consumes it |
| Communication.CommunicationManager.Close | arm_system/main.py:259 | closing marks the connection closed and logs it |
| Communication.CommunicationManager.RegisterScanCallback | arm_system/main.py:76 | registering sets the scan callback on or off and changes nothing else |
| Communication.CommunicationManager.Sleep | arm_system/main.py:256 | a half-second sleep advances the clock one tick |
| Safety.ObserveRest | arm_system/main.py:253 | after one poll consumes a state, the next poll reads the following state |
| Safety.DropRest | arm_system/main.py:253 | consuming one state and then n more is consuming n+1 |
| Safety.FirstCompleted | arm_system/main.py:252-255 | the first poll that sees `completed` within a window: no earlier poll sees it, and it does see it unless it is the window's end |
| Safety.PollFrom | arm_system/main.py:252-260 | the polling loop from the current tick to the window's end: a `completed` poll returns success, a miss sleeps one tick, an exhausted window closes the connection (characterised by `Safety.PollFromSpec`) |
| Safety.Recovery | arm_system/main.py:246-260 | `handle_movement_failure`: the safety request, then the polling loop over the 30-tick window (characterised by `Safety.RecoverySpec`) |
| Safety.PollEvents | arm_system/main.py:253 | n polls log the first n safety states, in order |
| Safety.PollEventsShift | arm_system/main.py:252-256 | one poll then n more log the same as n+1 polls |
| Safety.PolledAfterPoll | arm_system/main.py:252-256 | one poll and sleep, then the rest of a polling run, is the polling run one poll and one sleep longer |
| Safety.PollResultStep | arm_system/main.py:252-256 | when the first poll misses, polling the rest of the window ends where polling the whole window does |
| Safety.PollResultStepFound | arm_system/main.py:252-256 | the same, when `completed` is seen later in the window |
| Safety.PollResultStepMissed | arm_system/main.py:252-256 | the same, when no poll in the window sees `completed` |
| Safety.PollFromEnd | arm_system/main.py:252-260 | a window that has run out reports failure and then closes the connection |
| Safety.PollFromHit | arm_system/main.py:253-255 | a poll that sees `completed` inside the window returns success at once |
| Safety.PollFromStep | arm_system/main.py:252-256 | a poll that misses inside the window sleeps and goes on polling |
| Safety.PollFromSpec | arm_system/main.py:252-260 | from any point of the window, polling succeeds exactly when a remaining poll sees `completed`, and ends in the state that first hit or the window's end gives |
| Safety.PollSpecStep | arm_system/main.py:252-256 | the characterisation of the rest of the window extends to a window one missed poll longer |
| Safety.RecoverySpec | arm_system/main.py:246-260 | the handler sends `safety_service` once and succeeds exactly when one of the 30 polls sees `completed`; it then stops at the first such poll having slept once per miss, and otherwise polls 30 times, closes the connection and fails |
| Safety.RecoveredIff | arm_system/main.py:252-255 | the handler succeeds exactly when the first `completed` lies inside the window, which is exactly when some poll in the window sees it |
| Safety.RecoveredState | arm_system/main.py:249-255 | on success the log is the safety request followed by the polls up to and including the first `completed`, and the clock has advanced once per missed poll |
| Safety.TimedOutState | arm_system/main.py:249-260 | on failure the log is the safety request, 30 polls and the close; the connection is closed and 30 ticks have passed |
| Safety.OutboxOfPolls | arm_system/main.py:253 | polling sends no message |
| Safety.OutboxOfPollsThen | arm_system/main.py:253-259 | polling and then closing send no message |
| Safety.RecoveryOutbox | arm_system/main.py:249 | the handler sends exactly one message, the safety request |
| Sequencer.AnswerRest | arm_system/main.py:235 | after one wait consumes an answer, the next wait reads the following one |
| Sequencer.FirstRejection | arm_system/main.py:235-236 | the first step whose confirmation fails: every earlier step is confirmed, and it is not confirmed unless it is past the plan's end |
| Sequencer.StepsSent | arm_system/main.py:223-236 | a run sends at most as many steps as the plan has |
| Sequencer.StepsSentByRejection | arm_system/main.py:223-244 | if step k is the first to fail, exactly k+1 steps are sent (the failing one included); otherwise all are sent |
| Sequencer.Messages | arm_system/main.py:232 | the movement messages of some steps are one message per step, in order, with the service's tag and the step as payload |
| Sequencer.BlockOutbox | arm_system/main.py:229-235 | resetting, sending and waiting for one step sends exactly that step's message |
| Sequencer.StepOnceLog | arm_system/main.py:229-235 | one step logs a status reset, the command and the wait, and consumes one confirmation |
| Sequencer.RunPlan | arm_system/main.py:223-239 | the loop of `execute_movement`: each step resets its joint, sends its command and waits, and the loop stops at the first unconfirmed step (characterised by `Sequencer.RunPlanSucceedsIff`, `RunPlanShape` and the lemmas after it) |
| Sequencer.Execute | arm_system/main.py:219-244 | `execute_movement`: the plan's run, and on a failed step the safety handler, whose result decides `Recovered` or `Fatal` (characterised by `Sequencer.ExecuteSpec`) |
| Sequencer.RunPlanSucceedsIff | arm_system/main.py:223-236 | a plan runs to the end exactly when every step is confirmed |
| Sequencer.RunPlanConsumes | arm_system/main.py:235 | a run consumes one confirmation per step sent |
| Sequencer.RunPlanFrame | arm_system/main.py:223-239 | running the steps leaves the safety states, the connection, the scan callback and the clock untouched |
| Sequencer.RunPlanUnfold | arm_system/main.py:223-236 | a plan runs its first step, then the rest only if that step was confirmed |
| Sequencer.SentTrace | arm_system/main.py:223-236 | the run's events are three per step sent |
| Sequencer.SentTraceAt | arm_system/main.py:229-235 | the i-th step sent is logged as its joint's reset, then its command, then the wait for its joint with the i-th answer |
| Sequencer.SentTraceHead | arm_system/main.py:229-235 | a run starts with the first step's reset, command and wait |
| Sequencer.SentTraceCons | arm_system/main.py:223-236 | a run that sends a second step had its first step confirmed, and continues as the rest of the plan run on the remaining answers |
| Sequencer.ConfirmedBeforeLastSent | arm_system/main.py:235-236 | every step sent before the last one sent was confirmed |
| Sequencer.SentTraceOutbox | arm_system/main.py:232 | a run sends the plan's steps in plan order, one message per step sent |
| Sequencer.RunPlanLog | arm_system/main.py:223-236 | a run appends its events to the log and keeps the log's prefix |
| Sequencer.RunPlanOutbox | arm_system/main.py:232 | a run sends exactly the first n steps of the plan, n being the number of steps sent |
| Sequencer.RunPlanShape | arm_system/main.py:223-236 | the log grows by three events per step sent, keeps its prefix, and records each step as reset, command, wait |
| Sequencer.PendingBeforeEachSend | arm_system/main.py:229-232 | every command the run sends is a movement, directly preceded by resetting its joint to pending |
| Sequencer.SentOnlyAfterConfirmation | arm_system/main.py:235-236 | step i+1 is sent only right after step i was awaited and confirmed |
| Sequencer.RunPlanCompletesJoints | arm_system/main.py:223-239 | after a fully confirmed plan every joint of the plan is marked completed |
| Sequencer.RunPlanKeepsOthers | arm_system/main.py:229 | joints the plan does not move keep their status |
| Sequencer.ExecuteSpec | arm_system/main.py:219-260 | the outcome is success exactly when every step is confirmed, and then all steps are sent in order; if step k fails first, exactly steps 0..k are sent, then one safety request, and the failure is recovered exactly when a safety poll in the window sees `completed`; only a fatal outcome closes the connection |
| Sequencer.ExecuteOutbox | arm_system/main.py:219-260 | a movement run sends its plan's messages up to the first failure, followed by the safety request when there is one |
| Sequencer.ExecuteMessagesServices | arm_system/main.py:232-249 | every message of a movement run carries its service's tag, or is the safety request |
| Sequencer.ExecuteMessagesStart | arm_system/main.py:223-232 | a movement run on a non-empty plan sends the first step first |
| Orchestrator.ChoiceFor | arm_system/main.py:153-171 | the listing fails exactly when the registry holds a raw record; a selection is a registry entry whose index is the typed number; on a processed registry a non-number or 0 selects nothing, and a nonzero typed number that some entry carries is selected |
| Orchestrator.ScanLink | arm_system/main.py:63-76 | what the scan command does to the transport: register the callback, send the scan request, deregister (characterised by `Orchestrator.ScanLinkSpec`) |
| Orchestrator.PickPlaceRun | arm_system/main.py:134-151 | `handle_pick_place_command`: an empty registry asks nothing; selection; the pick plan, and the place plan only after a fully confirmed pick (characterised by `Orchestrator.PickPlaceOutcome`, `PickPlaceOutbox` and the lemmas after them) |
| Orchestrator.Robot.constructor | arm_system/main.py:11-16 | a new robot has an empty registry and registers the scan callback on its transport |
| Orchestrator.Robot.UpdateObjectRegistry | arm_system/main.py:82-96 | the registry gains exactly the detection's record at its end |
| Orchestrator.Robot.ScanCallback | arm_system/main.py:78-80 | a detection without a class changes nothing; any other appends exactly its record |
| Orchestrator.Robot.ProcessScanResults | arm_system/main.py:104-131 | the registry becomes the numbered catalog of its records, in arrival order |
| Orchestrator.Robot.HandleScanCommand | arm_system/main.py:60-76 | the registry starts empty, the scan request is sent, the callback is deregistered on both paths, and the registry ends as the catalog of the detections when the scan completes and as the raw records otherwise |
| Orchestrator.ScanLinkSpec | arm_system/main.py:64-76 | the scan command sends exactly one message, `scan_service` at speed 20, leaves the callback deregistered and changes nothing else on the transport |
| Orchestrator.Robot.SelectObjectInteractively | arm_system/main.py:153-171 | the selection is the one `ChoiceFor` gives on the registry and the typed line |
| Orchestrator.Robot.ExecuteMovement | arm_system/main.py:219-244 | the transport ends, and the outcome is, as the movement run on the plan gives |
| Orchestrator.Robot.HandleMovementFailure | arm_system/main.py:246-260 | the transport ends, and the result is, as the safety protocol function gives |
| Orchestrator.Robot.ExecutePickSequence | arm_system/main.py:173-185 | picking runs the pick plan of the object through the sequencer |
| Orchestrator.Robot.ExecutePlaceSequence | arm_system/main.py:187-202 | placing runs the place plan of the object through the sequencer |
| Orchestrator.Robot.HandlePickPlaceCommand | arm_system/main.py:134-151 | the command behaves as the pick & place function on the registry and the typed line, and leaves the registry as it is |
| Orchestrator.SelectFromCatalog | arm_system/main.py:153-171 | on a processed catalog of n entries, a line typing 1..n selects that entry and any other line selects nothing |
| Orchestrator.NoMovementWithoutSelection | arm_system/main.py:134-171 | with an empty catalog, a 0, a non-number or an index no entry has, the command sends nothing and changes nothing |
| Orchestrator.CancelSendsNothing | arm_system/main.py:163-165 | typing 0 sends nothing |
| Orchestrator.TimedOutScanBlocksPicking | arm_system/main.py:153-157 | after a timed-out scan, pick & place fails in the listing and sends nothing |
| Orchestrator.SelectionStartsPick | arm_system/main.py:140-148 | a valid selection moves the arm: the first message sent turns the base to the object at speed 30 |
| Orchestrator.PickPlaceOutbox | arm_system/main.py:148-151 | the command sends the pick run's messages and, only after all four pick steps were confirmed, the place run's messages on the remaining answers |
| Orchestrator.PickPlaceOutcome | arm_system/main.py:134-151 | a pick failure ends the command before any place step, and then the safety protocol decides between failure and termination; place failures likewise; both plans confirmed is success; the connection is closed exactly on termination |
| Orchestrator.PlaceOnlyAfterPick | arm_system/main.py:148-150 | when the pick fails, no place message is sent |
| Orchestrator.GripperTimeout | arm_system/main.py:235 | when the first two pick steps are confirmed and the gripper step is not (rejected or timed out), the pick fails at step 2 |
| Orchestrator.GripperTimeoutRecovers | arm_system/main.py:173-255 | a gripper close that never confirms sends the first three pick steps and the safety request; the protocol completing at poll 20 ends in a pick failure with the connection open and no place message |
| Orchestrator.GripperTimeoutTerminates | arm_system/main.py:173-260 | the same with a safety protocol that never completes ends in termination with the connection closed |
| Orchestrator.AnswerDrop | arm_system/main.py:235 | the answers left after n waits are the original answers from position n on |
| Orchestrator.FullCycle | arm_system/main.py:134-202 | nine confirmations in a row send the whole pick plan, then the whole place plan, and end in success with the connection as it was |

## Left out

- `CommunicationManager` internals are not part of this model: the serial port, framing, callback threads, `scan_complete_event` and `wait_for_angles_response`. The transport is the abstract state above, and the hardware's answers are given in advance as sequences.
- Asynchronous delivery: detections reach the scan callback in order, all before the completion event is checked. Races between the callback and processing are not modelled.
- `main_menu_loop`, `run` (connecting, `KeyboardInterrupt`, the closing `finally`) and `get_current_angles` are input/output plumbing and are not modelled. So are the `check_service` and `safety_service` menu commands, which each only send one message.
- Logging, `print` and the `:.2f` formatting are display only and are left out.
- Wall-clock time: the 15 s window is exactly 30 polls. The time spent polling and the drift of `time.sleep` are not modelled.
- Confidence is an opaque `real` that is only copied. Floating-point behaviour is not modelled.
- Zones.Lower: lower-cases ASCII letters only. Python's `str.lower` also lower-cases non-ASCII letters.
- Selection.ParseInt: accepts decimal numerals of ASCII digits with an optional sign, surrounded by the whitespace `int` skips: ASCII tab, line feed, vertical tab, form feed, carriage return and space, and Unicode whitespace. Digit separators (`_`) and non-ASCII digits, which `int` also accepts, are left out. The 4300-digit limit is the one `int` applies from Python 3.11 on, including the 3.7–3.10 security releases that adopted it; earlier interpreters had no limit.
- Registry.RecordOf: a class that is present but not a string would make `lower()` raise inside the `try`, which drops the record. Classes are strings in this model, so that path is not modelled.
- A `send_message` that fails is not modelled: every send is logged as sent.
- `scan_complete_event.clear()` after a completed scan is not modelled. The completion is a parameter of each scan command.
- Orchestrator.Robot.ProcessScanResults: requires every entry to be a raw record. Its only caller, the scan command, always gives it one, because it clears the registry first.
- The true/false result of `execute_pick_sequence` and `execute_place_sequence` is the outcome `AllConfirmed` versus `Recovered`. The handler's `exit(1)` is `Fatal`, and nothing catches it.
- Angles and distances are integers. The program copies whatever number the scan service reports, floating-point values included.
- `input()` at arm_system/main.py:162 can raise `EOFError` or `KeyboardInterrupt`, which escape the `except ValueError`. The typed line is a parameter of the model, so those paths are not modelled.
- `ListingCrashed` is a `KeyError` that nothing in `Robot` catches. It escapes the menu loop, `run` closes the connection in its `finally` block, and the program ends. The model stops at the outcome and does not model what happens after it.
