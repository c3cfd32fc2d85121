/**
  The control flow of `main` as an explicit stage machine.

  Every stage stands for exactly one query the script makes: `is_app_running`
  for the first stage, `find_image` of one marker for every other. The answer
  to that query is the observation a step consumes; the step emits the actions
  the script performs before its next query and names the stage of that query.
  Clicks are recorded by marker only, and sleeps by their duration in
  milliseconds.
 */
module Controller {
  import opened Wrappers
  import opened Catalog

  datatype Action =
    | Click(marker: Marker)   // a click at the coordinate the marker was found at
    | Kill                    // `kill_app(APP_NAME)`
    | Launch                  // `os.startfile(APP_PATH)`
    | Sleep(ms: nat)
    | Exit(code: int)

  datatype Stage =
    | CheckRunning                    // is the client already running?
    | SeekClose | SeekX | SeekMain    // dismiss dialogs, then wait for the main screen
    | SeekWorkshop | SeekSetupX | SeekTeams | SeekTeam | SeekSelect | SeekBack   // one-time team setup
    | SeekCampaign | SeekRestoration  // campaign navigation
    | SeekOD8 | SeekDifficulty(difficulty: Difficulty) | SeekBattle | SeekFuel | SeekSpeed | SeekAuto   // battle entry
    | PollVictory | PollAbort(victorySeen: bool)   // wait for the battle's end screen
    | SeekVictoryContinue | SeekClaim | SeekOk2    // after a victory
    | SeekAbortContinue | SeekAbortX              // after an abort
    | SeekFinalX                                 // last dismissal before the next battle
    | Halted(code: int)                          // the script has exited with `code`

  /** The stage being run and the `initial_run` flag. */
  datatype State = State(stage: Stage, initialRun: bool)

  /** What the script has been built for. */
  datatype Config = Config(difficulty: string)

  /** A step's result: the state of the next query and the actions in between. */
  datatype Transition = Transition(next: State, actions: seq<Action>)

  /** The query a stage makes. */
  datatype Probe = ProcessProbe | ImageProbe(marker: Marker)

  const Init: State := State(CheckRunning, true)

  function ProbeOf(st: Stage): Option<Probe> {
    match st
    case CheckRunning => Some(ProcessProbe)
    case SeekClose => Some(ImageProbe(Close))
    case SeekX => Some(ImageProbe(X))
    case SeekMain => Some(ImageProbe(MainScreen))
    case SeekWorkshop => Some(ImageProbe(Workshop))
    case SeekSetupX => Some(ImageProbe(X))
    case SeekTeams => Some(ImageProbe(Teams))
    case SeekTeam => Some(ImageProbe(SmacMoney))
    case SeekSelect => Some(ImageProbe(Select))
    case SeekBack => Some(ImageProbe(Back))
    case SeekCampaign => Some(ImageProbe(Campaign))
    case SeekRestoration => Some(ImageProbe(RestorationOfEarth))
    case SeekOD8 => Some(ImageProbe(OD8))
    case SeekDifficulty(d) => Some(ImageProbe(ButtonOf(d)))
    case SeekBattle => Some(ImageProbe(Battle))
    case SeekFuel => Some(ImageProbe(NotEnoughFuel))
    case SeekSpeed => Some(ImageProbe(Speed))
    case SeekAuto => Some(ImageProbe(Auto))
    case PollVictory => Some(ImageProbe(Victory))
    case PollAbort(_) => Some(ImageProbe(Abort))
    case SeekVictoryContinue => Some(ImageProbe(Continue))
    case SeekClaim => Some(ImageProbe(ClaimRewards))
    case SeekOk2 => Some(ImageProbe(Ok2))
    case SeekAbortContinue => Some(ImageProbe(Continue))
    case SeekAbortX => Some(ImageProbe(X))
    case SeekFinalX => Some(ImageProbe(X))
    case Halted(_) => None
  }

  /** Stages whose marker must be present: its absence kills the client and exits. */
  predicate IsRequired(st: Stage) {
    || st.SeekWorkshop? || st.SeekTeams? || st.SeekTeam? || st.SeekSelect? || st.SeekBack?
    || st.SeekCampaign? || st.SeekRestoration? || st.SeekOD8? || st.SeekBattle?
  }

  /** Stages whose marker is clicked when present and skipped when absent. */
  predicate IsBestEffort(st: Stage) {
    || st.SeekClose? || st.SeekX? || st.SeekSetupX? || st.SeekDifficulty? || st.SeekSpeed? || st.SeekAuto?
    || st.SeekVictoryContinue? || st.SeekClaim? || st.SeekOk2? || st.SeekAbortContinue? || st.SeekAbortX?
    || st.SeekFinalX?
  }

  /** Position of a stage in the team-setup sub-sequence, 0 outside it. */
  function SetupRank(st: Stage): nat {
    match st
    case SeekWorkshop => 1
    case SeekSetupX => 2
    case SeekTeams => 3
    case SeekTeam => 4
    case SeekSelect => 5
    case SeekBack => 6
    case _ => 0
  }

  predicate IsSetup(st: Stage) {
    SetupRank(st) > 0
  }

  /** The stages of the `while True` battle loop, from OD8 to the last X. */
  predicate InBattleLoop(st: Stage) {
    || st.SeekOD8? || st.SeekDifficulty? || st.SeekBattle? || st.SeekFuel? || st.SeekSpeed? || st.SeekAuto?
    || st.PollVictory? || st.PollAbort?
    || IsPostBattle(st)
  }

  /** The stages between a battle's end screen and the next OD8 lookup. */
  predicate IsPostBattle(st: Stage) {
    || st.SeekVictoryContinue? || st.SeekClaim? || st.SeekOk2?
    || st.SeekAbortContinue? || st.SeekAbortX? || st.SeekFinalX?
  }

  /** The most lookups a post-battle stage needs before OD8 is looked up again. */
  function DistanceToOD8(st: Stage): nat {
    match st
    case SeekVictoryContinue => 4
    case SeekClaim => 3
    case SeekOk2 => 2
    case SeekAbortContinue => 3
    case SeekAbortX => 2
    case SeekFinalX => 1
    case _ => 0
  }

  /** Every exit is the last action and comes straight after a kill. */
  predicate ExitsFollowKill(acts: seq<Action>) {
    forall i :: 0 <= i < |acts| && acts[i].Exit? ==> i == |acts| - 1 && 0 < i && acts[i - 1] == Kill
  }

  predicate NoExit(acts: seq<Action>) {
    forall i :: 0 <= i < |acts| ==> !acts[i].Exit?
  }

  /** Every exit code is 0 or -1. */
  predicate ExitCodesKnown(acts: seq<Action>) {
    forall i :: 0 <= i < |acts| && acts[i].Exit? ==> acts[i].code == 0 || acts[i].code == -1
  }

  /** The actions end with an exit (the only place, by `ExitsFollowKill`, one can be). */
  predicate EndsWithExit(acts: seq<Action>) {
    |acts| > 0 && acts[|acts| - 1].Exit?
  }

  /** How a stage treats its marker: a best-effort marker is clicked when
      found and skipped otherwise; a required one is clicked when found and
      kills the client and exits with -1 otherwise. Either way the click is
      followed by a wait of `settle` milliseconds and the lookup of `next`.
      The remaining stages have their own rules, in `SpecialStep`. */
  datatype Rule =
    | BestEffort(marker: Marker, settle: nat, next: Stage)
    | Required(marker: Marker, settle: nat, next: Stage)
    | Special

  function RuleOf(cfg: Config, st: Stage): Rule {
    match st
    // main.py lines 146-158: dismiss dialogs
    case SeekClose => BestEffort(Close, 2000, SeekX)
    case SeekX => BestEffort(X, 2000, SeekMain)
    // main.py lines 167-227: the one-time team setup; the `break` after BACK leads to CAMPAIGN
    case SeekWorkshop => Required(Workshop, 2000, SeekSetupX)
    case SeekSetupX => BestEffort(X, 2000, SeekTeams)
    case SeekTeams => Required(Teams, 1000, SeekTeam)
    case SeekTeam => Required(SmacMoney, 1000, SeekSelect)
    case SeekSelect => Required(Select, 2000, SeekBack)
    case SeekBack => Required(Back, 2000, SeekCampaign)
    // main.py lines 230-284: campaign navigation and the battle entry of each round
    case SeekCampaign => Required(Campaign, 2000, SeekRestoration)
    case SeekRestoration => Required(RestorationOfEarth, 2000, SeekOD8)
    case SeekOD8 =>
      Required(OD8, 1000, match DifficultyOf(cfg.difficulty) case Some(d) => SeekDifficulty(d) case None => SeekBattle)
    case SeekDifficulty(d) => BestEffort(ButtonOf(d), 500, SeekBattle)
    case SeekBattle => Required(Battle, 2000, SeekFuel)
    case SeekSpeed => BestEffort(Speed, 500, SeekAuto)
    case SeekAuto => BestEffort(Auto, 500, PollVictory)
    // main.py lines 297-340: after the battle, back to OD8
    case SeekVictoryContinue => BestEffort(Continue, 2000, SeekClaim)
    case SeekOk2 => BestEffort(Ok2, 2000, SeekFinalX)
    case SeekAbortContinue => BestEffort(Continue, 2000, SeekAbortX)
    case SeekAbortX => BestEffort(X, 2000, SeekFinalX)
    case SeekFinalX => BestEffort(X, 2000, SeekOD8)
    case _ => Special
  }

  /** The stages with a rule of their own. */
  function SpecialStep(s: State, found: bool): Transition {
    match s.stage
    // main.py lines 134-143: kill a running client, then launch it
    case CheckRunning =>
      Transition(s.(stage := SeekClose), (if found then [Kill, Sleep(5000)] else []) + [Launch, Sleep(13000)])
    // main.py lines 160-168 and 358-360: wait for the main screen; the setup runs only while `initial_run` is set
    case SeekMain =>
      if !found then Transition(s.(stage := SeekClose), [Sleep(5000)])
      else if s.initialRun then Transition(State(SeekWorkshop, false), [Sleep(2000)])
      else Transition(s.(stage := SeekCampaign), [Sleep(2000)])
    // main.py lines 268-272: out of fuel ends the script
    case SeekFuel =>
      if found then Transition(s.(stage := Halted(0)), [Kill, Exit(0)])
      else Transition(s.(stage := SeekSpeed), [])
    // main.py lines 286-295 and 319-322: Victory, then Abort, then wait and look again; Victory wins a tie
    case PollVictory => Transition(s.(stage := PollAbort(found)), [])
    case PollAbort(victorySeen) =>
      if victorySeen then Transition(s.(stage := SeekVictoryContinue), [Click(Victory), Sleep(3000)])
      else if found then Transition(s.(stage := SeekAbortContinue), [Click(Abort), Sleep(3000)])
      else Transition(s.(stage := PollVictory), [Sleep(5000)])
    // main.py lines 303-311: three clicks on CLAIM REWARDS; OK is looked up only after them
    case SeekClaim =>
      if found then
        Transition(s.(stage := SeekOk2),
                   [Click(ClaimRewards), Sleep(5000), Click(ClaimRewards), Sleep(500), Click(ClaimRewards), Sleep(2000)])
      else Transition(s.(stage := SeekFinalX), [])
    case _ => Transition(s, [])
  }

  /** One query of `main` and what the script does with its answer `found`. */
  function Step(cfg: Config, s: State, found: bool): Transition {
    match RuleOf(cfg, s.stage)
    case BestEffort(m, settle, next) =>
      Transition(s.(stage := next), if found then [Click(m), Sleep(settle)] else [])
    case Required(m, settle, next) =>
      if found then Transition(s.(stage := next), [Click(m), Sleep(settle)])
      else Transition(s.(stage := Halted(-1)), [Kill, Exit(-1)])
    case Special => SpecialStep(s, found)
  }

  /** An exited script does nothing more; otherwise a step halts the script
      exactly when it ends with an exit, and then its only actions are a kill
      and an exit with code 0 or -1. */
  lemma StepHaltsByExit(cfg: Config, s: State, found: bool)
    ensures s.stage.Halted? ==> Step(cfg, s, found) == Transition(s, [])
    ensures !s.stage.Halted? ==> (Step(cfg, s, found).next.stage.Halted? <==> EndsWithExit(Step(cfg, s, found).actions))
    ensures !s.stage.Halted? && Step(cfg, s, found).next.stage.Halted? ==>
      var code := Step(cfg, s, found).next.stage.code;
      Step(cfg, s, found).actions == [Kill, Exit(code)] && (code == 0 || code == -1)
    ensures !Step(cfg, s, found).next.stage.Halted? ==> NoExit(Step(cfg, s, found).actions)
  {
  }

  /** Exit code 0 comes only from NotEnoughFuel; -1 exactly from a missing
      required marker. */
  lemma StepExitCodes(cfg: Config, s: State, found: bool)
    ensures Exit(0) in Step(cfg, s, found).actions <==> s.stage == SeekFuel && found
    ensures Exit(-1) in Step(cfg, s, found).actions <==> IsRequired(s.stage) && !found
  {
  }

  /** The client is killed only before launching it or right before exiting;
      it is launched only from the first stage, which is never re-entered. */
  lemma StepKillsAndLaunches(cfg: Config, s: State, found: bool)
    ensures Kill in Step(cfg, s, found).actions ==> s.stage == CheckRunning || EndsWithExit(Step(cfg, s, found).actions)
    ensures Launch in Step(cfg, s, found).actions <==> s.stage == CheckRunning
    ensures Step(cfg, s, found).next.stage != CheckRunning
  {
  }

  /** `initial_run` is never set again, it is cleared on entering the team
      setup, and the setup only moves forward. */
  lemma StepInitialRun(cfg: Config, s: State, found: bool)
    ensures Step(cfg, s, found).next.initialRun ==> s.initialRun
    ensures IsSetup(Step(cfg, s, found).next.stage) && !IsSetup(s.stage) ==>
      s.initialRun && !Step(cfg, s, found).next.initialRun
    ensures IsSetup(Step(cfg, s, found).next.stage) && IsSetup(s.stage) ==>
      SetupRank(s.stage) < SetupRank(Step(cfg, s, found).next.stage)
  {
  }

  /** No step leaves the battle loop except by exiting. */
  lemma StepStaysInBattleLoop(cfg: Config, s: State, found: bool)
    requires InBattleLoop(s.stage)
    ensures InBattleLoop(Step(cfg, s, found).next.stage) || Step(cfg, s, found).next.stage.Halted?
  {
  }

  /** A click targets the marker just found, or Victory, found by the lookup before. */
  lemma StepClicksFollowProbes(cfg: Config, s: State, found: bool)
    ensures forall i :: 0 <= i < |Step(cfg, s, found).actions| && Step(cfg, s, found).actions[i].Click? ==>
      (found && ProbeOf(s.stage) == Some(ImageProbe(Step(cfg, s, found).actions[i].marker)))
      || (s.stage == PollAbort(true) && Step(cfg, s, found).actions[i].marker == Victory)
  {
  }

  /** Actions without an exit followed by well-behaved actions are well behaved. */
  lemma AppendKeepsExitsLast(a: seq<Action>, b: seq<Action>)
    requires NoExit(a) && ExitsFollowKill(b) && ExitCodesKnown(b)
    ensures ExitsFollowKill(a + b) && ExitCodesKnown(a + b)
    ensures EndsWithExit(a + b) <==> EndsWithExit(b)
  {
    assert forall i :: |a| <= i < |a + b| ==> (a + b)[i] == b[i - |a|];
  }

  /** Feeds the observations to `Step` one by one, stopping when the script
      has exited or the observations run out. */
  function Run(cfg: Config, s: State, obs: seq<bool>): Transition
    decreases |obs|
  {
    if s.stage.Halted? || |obs| == 0 then Transition(s, [])
    else
      var t := Step(cfg, s, obs[0]);
      var rest := Run(cfg, t.next, obs[1..]);
      Transition(rest.next, t.actions + rest.actions)
  }

  /** A run that started has halted exactly when its actions end with an
      exit, and the exit's code is the one it halted with. */
  lemma {:induction false} RunHaltsOnExit(cfg: Config, s: State, obs: seq<bool>)
    requires !s.stage.Halted?
    ensures Run(cfg, s, obs).next.stage.Halted? <==> EndsWithExit(Run(cfg, s, obs).actions)
    ensures Run(cfg, s, obs).next.stage.Halted? ==>
      Run(cfg, s, obs).actions[|Run(cfg, s, obs).actions| - 1] == Exit(Run(cfg, s, obs).next.stage.code)
    decreases |obs|
  {
    if |obs| > 0 {
      var t := Step(cfg, s, obs[0]);
      StepHaltsByExit(cfg, s, obs[0]);
      if !t.next.stage.Halted? {
        RunHaltsOnExit(cfg, t.next, obs[1..]);
      }
    }
  }

  /** In every run, each exit is the last action, comes straight after a kill,
      and has code 0 or -1. */
  lemma {:induction false} RunExitsLast(cfg: Config, s: State, obs: seq<bool>)
    ensures ExitsFollowKill(Run(cfg, s, obs).actions) && ExitCodesKnown(Run(cfg, s, obs).actions)
    decreases |obs|
  {
    if !s.stage.Halted? && |obs| > 0 {
      var t := Step(cfg, s, obs[0]);
      var rest := Run(cfg, t.next, obs[1..]);
      StepHaltsByExit(cfg, s, obs[0]);
      RunExitsLast(cfg, t.next, obs[1..]);
      if !t.next.stage.Halted? {
        AppendKeepsExitsLast(t.actions, rest.actions);
      }
    }
  }
}
