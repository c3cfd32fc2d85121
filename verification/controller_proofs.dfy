/**
  Properties of whole runs of the stage machine: what can and cannot appear
  in the trace of actions, whatever the screen shows.
 */
module ControllerProofs {
  import opened Wrappers
  import opened Catalog
  import opened Controller

  /** The configuration the script ships with. */
  const Script: Config := Config(DIFFICULTY)

  /** As shipped, the script looks for INSANE after clicking OD8, with threshold 0.95. */
  lemma ScriptPicksInsane(initialRun: bool)
    ensures Step(Script, State(SeekOD8, initialRun), true).next.stage == SeekDifficulty(InsaneMode)
    ensures ProbeOf(SeekDifficulty(InsaneMode)) == Some(ImageProbe(Insane))
    ensures Threshold(Insane) == 0.95
  {
  }

  /** `n` copies of `block`, one after the other. */
  function Repeat<T>(n: nat, block: seq<T>): seq<T> {
    if n == 0 then [] else block + Repeat(n - 1, block)
  }

  /** No kill, no launch and no exit. */
  predicate Quiet(acts: seq<Action>) {
    Kill !in acts && Launch !in acts && NoExit(acts)
  }

  lemma QuietAppend(a: seq<Action>, b: seq<Action>)
    requires Quiet(a) && Quiet(b)
    ensures Quiet(a + b)
  {
    assert forall i :: |a| <= i < |a + b| ==> (a + b)[i] == b[i - |a|];
  }

  /** Running on two batches of observations is running on the first and then
      continuing from where it stopped. */
  lemma {:induction false} RunAppend(cfg: Config, s: State, a: seq<bool>, b: seq<bool>)
    ensures Run(cfg, s, a + b).next == Run(cfg, Run(cfg, s, a).next, b).next
    ensures Run(cfg, s, a + b).actions == Run(cfg, s, a).actions + Run(cfg, Run(cfg, s, a).next, b).actions
    decreases |a|
  {
    if s.stage.Halted? {
    } else if |a| == 0 {
      assert a + b == b;
    } else {
      assert (a + b)[0] == a[0];
      assert (a + b)[1..] == a[1..] + b;
      RunAppend(cfg, Step(cfg, s, a[0]).next, a[1..], b);
    }
  }

  // ---------------------------------------------------------------------------
  // Launch happens once

  /** The client is launched at most once per run: only the first stage
      launches, and no `break` ever leads back to it. */
  lemma {:induction false} LaunchAtMostOnce(cfg: Config, s: State, obs: seq<bool>)
    ensures multiset(Run(cfg, s, obs).actions)[Launch] <= if s.stage == CheckRunning then 1 else 0
    decreases |obs|
  {
    if !s.stage.Halted? && |obs| > 0 {
      var t := Step(cfg, s, obs[0]);
      StepKillsAndLaunches(cfg, s, obs[0]);
      LaunchAtMostOnce(cfg, t.next, obs[1..]);
      if s.stage == CheckRunning {
        assert multiset(t.actions)[Launch] == 1;
      } else {
        assert multiset(t.actions)[Launch] == 0;
      }
    }
  }

  // ---------------------------------------------------------------------------
  // The team setup runs at most once

  /** The buttons clicked only by the team setup. */
  predicate IsSetupButton(m: Marker) {
    m == Workshop || m == Teams || m == SmacMoney || m == Select || m == Back
  }

  /** The setup stage that looks for a setup button. */
  function SetupStageOf(m: Marker): (st: Stage)
    requires IsSetupButton(m)
    ensures IsSetup(st) && ProbeOf(st) == Some(ImageProbe(m))
  {
    match m
    case Workshop => SeekWorkshop
    case Teams => SeekTeams
    case SmacMoney => SeekTeam
    case Select => SeekSelect
    case Back => SeekBack
  }

  /** Reachable states never sit in the setup with `initial_run` still set. */
  predicate FlagConsistent(s: State) {
    IsSetup(s.stage) ==> !s.initialRun
  }

  /** How many more clicks on a setup button a state can still produce. */
  function SetupBudget(s: State, m: Marker): nat
    requires IsSetupButton(m)
  {
    if s.initialRun || (IsSetup(s.stage) && SetupRank(s.stage) <= SetupRank(SetupStageOf(m))) then 1 else 0
  }

  /** Only its own stage looks for a setup button. */
  lemma ProbeFindsSetupStage(st: Stage, m: Marker)
    requires IsSetupButton(m) && ProbeOf(st) == Some(ImageProbe(m))
    ensures st == SetupStageOf(m)
  {
  }

  /** A setup step makes no action or two, the second of which is not a click. */
  lemma SetupStepShape(cfg: Config, s: State, found: bool)
    requires IsSetup(s.stage)
    ensures |Step(cfg, s, found).actions| == 0
      || (|Step(cfg, s, found).actions| == 2 && !Step(cfg, s, found).actions[1].Click?)
  {
  }

  /** One step clicks a setup button only from its own stage, and then at most once. */
  lemma SetupClickStep(cfg: Config, s: State, found: bool, m: Marker)
    requires IsSetupButton(m)
    ensures multiset(Step(cfg, s, found).actions)[Click(m)] <= if s.stage == SetupStageOf(m) then 1 else 0
  {
    var t := Step(cfg, s, found);
    StepClicksFollowProbes(cfg, s, found);
    if s.stage == SetupStageOf(m) {
      SetupStepShape(cfg, s, found);
      if |t.actions| == 2 {
        assert multiset(t.actions) == multiset{t.actions[0], t.actions[1]};
      }
    } else if Click(m) in t.actions {
      var i :| 0 <= i < |t.actions| && t.actions[i] == Click(m);
      assert ProbeOf(s.stage) == Some(ImageProbe(m));
      ProbeFindsSetupStage(s.stage, m);
      assert false;
    } else {
      assert multiset(t.actions)[Click(m)] == 0;
    }
  }

  /** The state after a step never has more setup clicks left than the state
      before, less the ones the step made. */
  lemma SetupBudgetStep(cfg: Config, s: State, found: bool, m: Marker)
    requires IsSetupButton(m) && FlagConsistent(s)
    ensures FlagConsistent(Step(cfg, s, found).next)
    ensures multiset(Step(cfg, s, found).actions)[Click(m)] + SetupBudget(Step(cfg, s, found).next, m) <= SetupBudget(s, m)
  {
    var t := Step(cfg, s, found);
    StepInitialRun(cfg, s, found);
    SetupClickStep(cfg, s, found, m);
  }

  /** Each team-setup button is clicked at most once per run: `initial_run` is
      cleared before the first setup lookup and never set again. */
  lemma {:induction false} SetupClicksBounded(cfg: Config, s: State, obs: seq<bool>, m: Marker)
    requires IsSetupButton(m) && FlagConsistent(s)
    ensures multiset(Run(cfg, s, obs).actions)[Click(m)] <= SetupBudget(s, m)
    decreases |obs|
  {
    if !s.stage.Halted? && |obs| > 0 {
      var t := Step(cfg, s, obs[0]);
      SetupBudgetStep(cfg, s, obs[0], m);
      SetupClicksBounded(cfg, t.next, obs[1..], m);
    }
  }

  /** From the start of the script, the team setup is clicked through at most once. */
  lemma SetupAtMostOnce(cfg: Config, obs: seq<bool>, m: Marker)
    requires IsSetupButton(m)
    ensures multiset(Run(cfg, Init, obs).actions)[Click(m)] <= 1
  {
    SetupClicksBounded(cfg, Init, obs, m);
  }

  // ---------------------------------------------------------------------------
  // Exit code 0 only after BATTLE

  /** The NotEnoughFuel lookup is reached only by clicking BATTLE. */
  lemma OnlyBattleLeadsToFuelCheck(cfg: Config, s: State, found: bool)
    requires Step(cfg, s, found).next.stage == SeekFuel
    ensures s.stage == SeekBattle && found
    ensures Step(cfg, s, found).actions == [Click(Battle), Sleep(2000)]
  {
  }

  /** The last `k` elements of a concatenation come from its second part when it is long enough. */
  lemma SuffixOfAppend<T>(x: seq<T>, y: seq<T>, k: nat)
    requires k <= |y|
    ensures (x + y)[|x + y| - k..] == y[|y| - k..]
  {
  }

  /** The suffix facts `CleanExitShape` states, for one list of actions. */
  predicate EndsCleanly(acts: seq<Action>, fromFuelCheck: bool) {
    && |acts| >= 2
    && acts[|acts| - 2..] == [Kill, Exit(0)]
    && ((fromFuelCheck && |acts| == 2)
        || (|acts| >= 4 && acts[|acts| - 4..] == [Click(Battle), Sleep(2000), Kill, Exit(0)]))
  }

  /** Prepending the actions of a step that did not exit keeps a clean ending,
      and prepending the BATTLE click to the fuel check's own exit makes one. */
  lemma EndsCleanlyPrepend(pre: seq<Action>, acts: seq<Action>, fromFuelCheck: bool)
    requires EndsCleanly(acts, fromFuelCheck)
    requires fromFuelCheck && |acts| == 2 ==> pre == [Click(Battle), Sleep(2000)]
    ensures EndsCleanly(pre + acts, false)
  {
    SuffixOfAppend(pre, acts, 2);
    if fromFuelCheck && |acts| == 2 {
      assert pre + acts == [Click(Battle), Sleep(2000), Kill, Exit(0)];
    } else {
      SuffixOfAppend(pre, acts, 4);
    }
  }

  /** A run containing an exit with code 0 ends with a kill and that exit,
      after a BATTLE click unless it started at the NotEnoughFuel lookup itself. */
  lemma {:induction false} CleanExitShape(cfg: Config, s: State, obs: seq<bool>)
    requires Exit(0) in Run(cfg, s, obs).actions
    ensures EndsCleanly(Run(cfg, s, obs).actions, s.stage == SeekFuel)
    decreases |obs|
  {
    var t := Step(cfg, s, obs[0]);
    var rest := Run(cfg, t.next, obs[1..]);
    assert Run(cfg, s, obs).actions == t.actions + rest.actions;
    StepExitCodes(cfg, s, obs[0]);
    if Exit(0) in t.actions {
      assert t.actions == [Kill, Exit(0)] && rest.actions == [];
      assert t.actions + rest.actions == [Kill, Exit(0)];
    } else {
      assert Exit(0) in rest.actions;
      CleanExitShape(cfg, t.next, obs[1..]);
      if t.next.stage == SeekFuel && |rest.actions| == 2 {
        OnlyBattleLeadsToFuelCheck(cfg, s, obs[0]);
      }
      EndsCleanlyPrepend(t.actions, rest.actions, t.next.stage == SeekFuel);
      if s.stage == SeekFuel {
        assert EndsCleanly(t.actions + rest.actions, true);
      }
    }
  }

  /** A run that exits with code 0 ends by clicking BATTLE, waiting, seeing
      NotEnoughFuel, killing the client and exiting. */
  lemma CleanExitOnlyAfterBattle(cfg: Config, s: State, obs: seq<bool>)
    requires s.stage != SeekFuel
    requires Exit(0) in Run(cfg, s, obs).actions
    ensures |Run(cfg, s, obs).actions| >= 4
    ensures Run(cfg, s, obs).actions[|Run(cfg, s, obs).actions| - 4..] == [Click(Battle), Sleep(2000), Kill, Exit(0)]
  {
    CleanExitShape(cfg, s, obs);
    assert EndsCleanly(Run(cfg, s, obs).actions, false);
  }
}
