# SM-Money-Clicker, modelled in Dafny

SM-Money-Clicker drives the Super Mechs game client through its screens. It
restarts the client and dismisses start-up dialogs. Once per run it selects the
SMAC-MONEY team. Then it enters the Restoration of Earth campaign and replays
the OD8 battle until the game reports that the fuel has run out. Each decision
comes from a screenshot: a template image is matched against the screen, and
the button is clicked where the match is good enough.

The model has six modules:

- `Perception` models what `find_image` decides once the template matcher has
  run. The matcher's output is an input.
- `Catalog` holds the markers the script looks for and the threshold each
  lookup uses. It also maps the `DIFFICULTY` setting to a difficulty button.
- `Processes` models `is_app_running` (a case-insensitive substring match over
  the process list) and `kill_app` (exact-name termination that tolerates
  failures). The process list, with what terminating each process would do,
  is an input.
- `Controller` models `main` as a stage machine. Each stage is one query of
  the script: `is_app_running` in the first stage, one `find_image` in every
  other. `Step` takes the answer to that query (`found`) and returns the
  actions the script takes before its next query, plus the next stage. The
  actions are a click on a marker, kill, launch, a sleep in milliseconds, or
  an exit with a code. `Run` feeds `Step` a sequence of answers.
- `ControllerProofs` and `LoopProofs` prove properties of whole runs and of
  the script's loops.

## Model

| member | source | states |
|---|---|---|
| Perception.FindImage | SM-Money-Clicker/src/main.py:64-96 | No coordinate is reported when the template file is missing. Otherwise a coordinate is reported exactly when the best correlation reaches the threshold. The coordinate is the top-left corner plus half the template's size, rounded down, so it lies inside the matched rectangle. |
| Perception.StricterThresholdFindsLess | SM-Money-Clicker/src/main.py:89-96 | Raising the threshold can turn a hit into a miss. It never moves a hit, and it never turns a miss into a hit. |
| Catalog.Threshold | SM-Money-Clicker/src/main.py:249-284 | Every threshold is in (0, 1]. A lookup uses a threshold above the default 0.8 exactly for the HARD, INSANE and AUTO markers. |
| Catalog.DifficultyThresholds | SM-Money-Clicker/src/main.py:249-260 | The HARD button is looked up with threshold 1 and the INSANE button with 0.95. |
| Catalog.DifficultyOf | SM-Money-Clicker/src/main.py:249-260 | The setting selects HARD exactly when it is the string "HARD", and INSANE exactly when it is "INSANE". Any other string selects no difficulty. |
| Catalog.Lookup | SM-Money-Clicker/src/main.py:243-291 | A lookup reports a marker exactly when the template file exists and the best match reaches that marker's own threshold. A reported point lies inside the matched rectangle. |
| Processes.Lower | SM-Money-Clicker/src/main.py:102 | The lower-cased name has the same length and contains no upper-case ASCII letter. Every character that is not an upper-case letter stays as it was, and the result differs from the input only in the case of letters. |
| Processes.LowerIgnoresCase | SM-Money-Clicker/src/main.py:102 | Two strings lower-case to the same string exactly when they differ at most in the case of their ASCII letters. |
| Processes.NameMatchesIgnoresCase | SM-Money-Clicker/src/main.py:102 | Changing the case of letters, in the process name or in the application name, never changes whether `is_app_running` counts the process as a match. |
| Processes.ContainsIsWindow | SM-Money-Clicker/src/main.py:102 | The recursive substring test behind `in` holds exactly when the needle occurs as a contiguous window at some position of the name. |
| Processes.IsAppRunning | SM-Money-Clicker/src/main.py:99-104 | The result is `None` exactly when no process name contains the application name, ignoring case. Otherwise it is the first matching process in enumeration order. |
| Processes.KillApp | SM-Money-Clicker/src/main.py:107-128 | No more pids are recorded as killed than were targeted, and no more are targeted than there are processes. |
| Processes.KillAppSelects | SM-Money-Clicker/src/main.py:110-123 | Every targeted pid belongs to a process whose name equals the application name exactly, and every such process is targeted. The killed pids are exactly those among them whose termination succeeded. A failure on one process does not stop the walk. |
| Processes.KillAppAppend | SM-Money-Clicker/src/main.py:110-115 | Processes are handled one at a time in enumeration order. The report for a concatenated list is the concatenation of the two reports. |
| Processes.KillTargetsAreRunning | SM-Money-Clicker/src/main.py:99-115 | Every process `kill_app` targets also counts as running for `is_app_running`. |
| Processes.KillAppWithoutTargetIsNoOp | SM-Money-Clicker/src/main.py:125-128 | When no process has exactly the application's name, nothing is targeted and nothing is killed. |
| Processes.RunningButNotKilled | SM-Money-Clicker/src/main.py:102-112 | A process named "super mechs.exe" counts as running but is not killed. `is_app_running` ignores case and `kill_app` does not. |
| Controller.StepHaltsByExit | SM-Money-Clicker/src/main.py:131-360 | A halted script does nothing more. Otherwise a step halts the script exactly when its actions end with an exit. A halting step does exactly two things, a kill and then the exit, with code 0 or -1. A step that does not halt makes no exit. |
| Controller.StepExitCodes | SM-Money-Clicker/src/main.py:207-357 | Exit code 0 comes exactly from the NotEnoughFuel screen being found. Exit code -1 comes exactly from a required marker being missing. |
| Controller.StepKillsAndLaunches | SM-Money-Clicker/src/main.py:134-143 | The client is killed only in the first stage or right before an exit. It is launched exactly in the first stage, and no step returns to that stage. |
| Controller.StepInitialRun | SM-Money-Clicker/src/main.py:132-168 | `initial_run` is never set again once cleared. It is cleared on entry to the team setup, and the setup only moves forward. |
| Controller.StepStaysInBattleLoop | SM-Money-Clicker/src/main.py:242-345 | A step inside the battle loop either stays inside it or exits. |
| Controller.StepClicksFollowProbes | SM-Money-Clicker/src/main.py:146-340 | Every click targets the marker the current lookup has just found. The one exception is the VICTORY click, which targets the marker found by the lookup just before. |
| Controller.RunHaltsOnExit | SM-Money-Clicker/src/main.py:131-360 | A run that starts unhalted ends halted exactly when its actions end with an exit. That exit carries the code the run halted with. |
| Controller.RunExitsLast | SM-Money-Clicker/src/main.py:207-357 | In every run, an exit can only be the last action. It comes right after a kill, and its code is 0 or -1. |
| ControllerProofs.RunAppend | SM-Money-Clicker/src/main.py:131-360 | Running on two batches of answers is the same as running on the first batch and then on the second, from where the first stopped. |
| ControllerProofs.LaunchAtMostOnce | SM-Money-Clicker/src/main.py:134-146 | A run launches the client at most once, and only a run that starts at the first stage launches it at all. The inner `while True` has no exit back to the launch. |
| ControllerProofs.ScriptPicksInsane | SM-Money-Clicker/src/main.py:22 | With the shipped setting "INSANE", a found OD8 leads to the INSANE lookup, which uses threshold 0.95. |
| ControllerProofs.SetupClicksBounded | SM-Money-Clicker/src/main.py:167-205 | From any consistent state, the number of clicks on a team-setup button is bounded by what that state still allows. |
| ControllerProofs.SetupAtMostOnce | SM-Money-Clicker/src/main.py:167-205 | From the start of the script, each team-setup button (WORKSHOP, TEAMS, SMAC-MONEY, SELECT, BACK) is clicked at most once. |
| ControllerProofs.OnlyBattleLeadsToFuelCheck | SM-Money-Clicker/src/main.py:262-268 | The NotEnoughFuel lookup is reached only by finding and clicking BATTLE and then waiting 2 seconds. |
| ControllerProofs.CleanExitShape | SM-Money-Clicker/src/main.py:262-272 | A run that contains an exit with code 0 ends with a kill and that exit. Before them come the BATTLE click and its 2-second wait, unless the run started at the NotEnoughFuel lookup itself. |
| ControllerProofs.CleanExitOnlyAfterBattle | SM-Money-Clicker/src/main.py:262-272 | A run that exits with code 0 ends with exactly these four actions: click BATTLE, wait 2 s, kill the client, exit 0. |
| LoopProofs.RequiredAbsentEscalates | SM-Money-Clicker/src/main.py:170-357 | A missing required marker (WORKSHOP, TEAMS, SMAC-MONEY, SELECT, BACK, CAMPAIGN, RESTORATION OF EARTH, OD8 or BATTLE) kills the client and exits with -1. When the marker is present, it is clicked and the script carries on. |
| LoopProofs.BestEffortAbsentSkips | SM-Money-Clicker/src/main.py:147-340 | A missing best-effort marker produces no action. The script goes on to the lookup it would have made after clicking the marker. A missing CLAIM REWARDS also skips the OK lookup that follows it. |
| LoopProofs.MainScreenAbsentRound | SM-Money-Clicker/src/main.py:146-360 | Whatever the dialog lookups find, a missing main screen leads to a 5-second wait and a fresh CLOSE lookup. |
| LoopProofs.MainScreenPolledForever | SM-Money-Clicker/src/main.py:146-360 | The main-screen wait has no bound. For as long as nothing is found, each round is one 5-second sleep and the script ends where it started. |
| LoopProofs.MainScreenFound | SM-Money-Clicker/src/main.py:161-168 | A found main screen leads to a 2-second wait. The team setup comes next on the first pass, and CAMPAIGN on any later pass. The flag is clear either way. |
| LoopProofs.SetupBreaksToCampaign | SM-Money-Clicker/src/main.py:200-205 | A found BACK is clicked and followed by a 2-second wait. The `break` leaves only the setup loop, so the next lookup is CAMPAIGN and not the main screen. |
| LoopProofs.RunStep | SM-Money-Clicker/src/main.py:146-360 | A run that has not halted does its first lookup's actions and then continues from the stage that lookup led to. |
| LoopProofs.SetupFromTeams | SM-Money-Clicker/src/main.py:182-205 | When every lookup succeeds from TEAMS on, the script clicks TEAMS, SMAC-MONEY, SELECT and BACK with their waits, then goes on to CAMPAIGN. |
| LoopProofs.FirstPassRunsSetup | SM-Money-Clicker/src/main.py:161-205 | On the first pass, when every lookup succeeds, the setup runs in full: WORKSHOP, X, TEAMS, SMAC-MONEY, SELECT and BACK are clicked in that order, with the source's waits. The script then goes on to CAMPAIGN with the flag cleared. |
| LoopProofs.PollResolution | SM-Money-Clicker/src/main.py:286-295 | VICTORY is clicked exactly when it was seen. ABORT is clicked exactly when it was seen and VICTORY was not. The poll repeats exactly when neither was seen. No kill, launch or exit happens. |
| LoopProofs.PollRound | SM-Money-Clicker/src/main.py:288-291 | A poll round in which neither end screen shows is a single 5-second wait, after which the script polls again. |
| LoopProofs.VictoryAbortPolledWithoutBound | SM-Money-Clicker/src/main.py:286-291 | The end-screen poll has no timeout. For as long as neither screen shows, each round is one 5-second sleep, forever. |
| LoopProofs.BattleLoopStep | SM-Money-Clicker/src/main.py:242-345 | A step in the battle loop stays in the loop or exits. It launches nothing and kills only when it exits. |
| LoopProofs.BattleLoopStepClicks | SM-Money-Clicker/src/main.py:242-340 | A step in the battle loop never clicks a dialog, main-screen, team-setup or campaign-navigation marker. |
| LoopProofs.BattleLoopIsClosed | SM-Money-Clicker/src/main.py:242-345 | Once the script is in the battle loop, it leaves only by exiting. It never launches the client again and never clicks a marker from outside the loop. |
| LoopProofs.PostBattleStep | SM-Money-Clicker/src/main.py:292-340 | A step after a battle makes no kill, launch or exit. It keeps `initial_run`, and it moves strictly closer to the next OD8 lookup. |
| LoopProofs.PostBattleReturnsToOD8 | SM-Money-Clicker/src/main.py:292-340 | Whatever is on screen after a battle, the script is back at the OD8 lookup within at most four lookups. Nothing is killed, launched or exited on the way. |

## Left out

- Screen capture, reading the template image, and the correlation routine are not modelled. Their result is an input to `Perception.FindImage`. A template that exists but cannot be decoded would make `find_image` fail; the model assumes it can always be read.
- Process enumeration and termination are not modelled. The process list and each process's termination outcome are inputs to `KillApp`. In `Controller`, the whole of `kill_app` is a single `Kill` action.
- Processes.IsAppRunning: a process whose name the OS does not report makes the source's `lower()` call fail. The model gives every process a name, so that failure is left out.
- Processes.Lower: lowers ASCII letters only. Python's `str.lower` also lowers other Unicode letters, which the model does not.
- Clicks are recorded by marker, without the coordinate. Sleeps are recorded by their duration only, because time does not pass in the model. Launching the client is a single `Launch` action, without the executable's path.
- The `LOG` flag and every `print` are left out, because they do not change any decision.
- `get_resource_path` and the image paths (main.py lines 13-60) are left out. A missing template file is covered by the `fileExists` input of `FindImage`.
- The OK template (main.py line 41) is defined in the source but never looked up, so it has no marker.
- Exit codes are modelled as the integers the source passes to `exit` (0 and -1). The process status the operating system derives from -1 is left out.
- The ad-token clicker in the same repository is a separate script and is not part of this model.

## Notes

- Every missing required marker exits with code -1. The source uses the same code at every failure exit point (only the out-of-fuel exit uses 0), and the model follows the source rather than giving each failure its own code.
- `Step` treats a halted script as finished. `Run` stops at the first exit, or when the answers run out.
