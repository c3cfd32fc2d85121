/**
  Properties of the script's three `while` loops: the main-screen wait, the
  end-screen poll, and the battle loop from OD8 to the last X.
 */
module LoopProofs {
  import opened Wrappers
  import opened Catalog
  import opened Controller
  import opened ControllerProofs

  /** The clicks a best-effort lookup of `m` makes, with the given settle time. */
  function ClickIf(found: bool, m: Marker, settle: nat): seq<Action> {
    if found then [Click(m), Sleep(settle)] else []
  }

  // ---------------------------------------------------------------------------
  // Per-step policies

  /** A missing required marker kills the client and exits with -1; a present
      one is clicked, and the script carries on. */
  lemma RequiredAbsentEscalates(cfg: Config, s: State)
    requires IsRequired(s.stage)
    ensures Step(cfg, s, false) == Transition(s.(stage := Halted(-1)), [Kill, Exit(-1)])
    ensures |Step(cfg, s, true).actions| == 2 && !Step(cfg, s, true).next.stage.Halted?
    ensures ProbeOf(s.stage).Some? && ProbeOf(s.stage).value.ImageProbe?
    ensures Step(cfg, s, true).actions[0] == Click(ProbeOf(s.stage).value.marker)
  {
  }

  /** A missing best-effort marker is skipped without any action, and the
      script goes on to the lookup it would have made after clicking it,
      except that a missing CLAIM REWARDS also skips the OK lookup after it. */
  lemma BestEffortAbsentSkips(cfg: Config, s: State)
    requires IsBestEffort(s.stage)
    ensures Step(cfg, s, false).actions == []
    ensures ProbeOf(s.stage).Some? && ProbeOf(s.stage).value.ImageProbe?
    ensures Step(cfg, s, true).actions[0] == Click(ProbeOf(s.stage).value.marker)
    ensures s.stage != SeekClaim ==> Step(cfg, s, false).next == Step(cfg, s, true).next
    ensures s.stage == SeekClaim ==>
      forall found :: Step(cfg, s, false).next == Step(cfg, Step(cfg, s, true).next, found).next
  {
  }

  // ---------------------------------------------------------------------------
  // The main-screen wait (main.py lines 146-160 and 358-360)

  /** One round of the wait: whatever the dialog lookups find, a missing main
      screen leads to a 5 second wait and back to the CLOSE lookup. */
  lemma MainScreenAbsentRound(cfg: Config, initialRun: bool, close: bool, x: bool)
    ensures Run(cfg, State(SeekClose, initialRun), [close, x, false])
      == Transition(State(SeekClose, initialRun), ClickIf(close, Close, 2000) + ClickIf(x, X, 2000) + [Sleep(5000)])
  {
    var s := State(SeekClose, initialRun);
    var obs := [close, x, false];
    var t1 := Step(cfg, s, close);
    var t2 := Step(cfg, t1.next, x);
    var t3 := Step(cfg, t2.next, false);
    assert Run(cfg, t2.next, obs[2..]) == Transition(t3.next, t3.actions + []);
    assert Run(cfg, t1.next, obs[1..]) == Transition(t3.next, t2.actions + (t3.actions + []));
  }

  /** The wait has no bound: as long as nothing is found, the script sleeps
      5 seconds per round and is back where it started, forever. */
  lemma {:induction false} MainScreenPolledForever(cfg: Config, initialRun: bool, n: nat)
    ensures Run(cfg, State(SeekClose, initialRun), Repeat(n, [false, false, false]))
      == Transition(State(SeekClose, initialRun), Repeat(n, [Sleep(5000)]))
  {
    var s := State(SeekClose, initialRun);
    if n > 0 {
      MainScreenAbsentRound(cfg, initialRun, false, false);
      assert Repeat(n, [false, false, false]) == [false, false, false] + Repeat(n - 1, [false, false, false]);
      assert Repeat(n, [Sleep(5000)]) == [Sleep(5000)] + Repeat(n - 1, [Sleep(5000)]);
      RunAppend(cfg, s, [false, false, false], Repeat(n - 1, [false, false, false]));
      MainScreenPolledForever(cfg, initialRun, n - 1);
    }
  }

  /** A main screen that is found leads, after a 2 second wait, to the team
      setup on the first pass and straight to CAMPAIGN on any later one; the
      flag is clear either way. */
  lemma MainScreenFound(cfg: Config, initialRun: bool)
    ensures Step(cfg, State(SeekMain, initialRun), true)
      == Transition(State(if initialRun then SeekWorkshop else SeekCampaign, false), [Sleep(2000)])
  {
  }

  /** The `break` after BACK leaves only the setup loop: the next lookup is
      CAMPAIGN, not the main screen. */
  lemma SetupBreaksToCampaign(cfg: Config, initialRun: bool)
    ensures Step(cfg, State(SeekBack, initialRun), true)
      == Transition(State(SeekCampaign, initialRun), [Click(Back), Sleep(2000)])
  {
  }

  /** A run from a state that has not halted: the first step's actions, then
      the run of the remaining answers from where that step led. */
  lemma RunStep(cfg: Config, s: State, obs: seq<bool>)
    requires !s.stage.Halted? && |obs| > 0
    ensures Run(cfg, s, obs)
      == Transition(Run(cfg, Step(cfg, s, obs[0]).next, obs[1..]).next,
                    Step(cfg, s, obs[0]).actions + Run(cfg, Step(cfg, s, obs[0]).next, obs[1..]).actions)
  {
  }

  /** Every answer in `obs` is yes. */
  predicate AllFound(obs: seq<bool>) {
    forall i :: 0 <= i < |obs| ==> obs[i]
  }

  /** The second half of the setup, with every button on screen: TEAMS,
      SMAC-MONEY, SELECT and BACK, then on to CAMPAIGN. */
  lemma SetupFromTeams(cfg: Config, obs: seq<bool>)
    requires |obs| == 4 && AllFound(obs)
    ensures Run(cfg, State(SeekTeams, false), obs)
      == Transition(State(SeekCampaign, false),
                    [Click(Teams), Sleep(1000), Click(SmacMoney), Sleep(1000), Click(Select), Sleep(2000), Click(Back), Sleep(2000)])
  {
    var done := State(SeekCampaign, false);
    assert Run(cfg, done, obs[4..]) == Transition(done, []);
    RunStep(cfg, State(SeekBack, false), obs[3..]);
    assert obs[3..][1..] == obs[4..];
    var r3 := Run(cfg, State(SeekBack, false), obs[3..]);
    assert r3 == Transition(done, [Click(Back), Sleep(2000)]);
    RunStep(cfg, State(SeekSelect, false), obs[2..]);
    assert obs[2..][1..] == obs[3..];
    var r2 := Run(cfg, State(SeekSelect, false), obs[2..]);
    assert r2 == Transition(done, [Click(Select), Sleep(2000)] + r3.actions);
    RunStep(cfg, State(SeekTeam, false), obs[1..]);
    assert obs[1..][1..] == obs[2..];
    var r1 := Run(cfg, State(SeekTeam, false), obs[1..]);
    assert r1 == Transition(done, [Click(SmacMoney), Sleep(1000)] + r2.actions);
    RunStep(cfg, State(SeekTeams, false), obs);
  }

  /** On the first pass, with every lookup successful, the setup clicks
      WORKSHOP, X, TEAMS, SMAC-MONEY, SELECT and BACK in that order, and the
      script goes on to CAMPAIGN with the flag cleared. */
  lemma FirstPassRunsSetup(cfg: Config, obs: seq<bool>)
    requires |obs| == 7 && AllFound(obs)
    ensures Run(cfg, State(SeekMain, true), obs)
      == Transition(State(SeekCampaign, false),
                    [Sleep(2000), Click(Workshop), Sleep(2000), Click(X), Sleep(2000), Click(Teams), Sleep(1000),
                     Click(SmacMoney), Sleep(1000), Click(Select), Sleep(2000), Click(Back), Sleep(2000)])
  {
    SetupFromTeams(cfg, obs[3..]);
    var r3 := Run(cfg, State(SeekTeams, false), obs[3..]);
    RunStep(cfg, State(SeekSetupX, false), obs[2..]);
    assert obs[2..][1..] == obs[3..];
    var r2 := Run(cfg, State(SeekSetupX, false), obs[2..]);
    assert r2 == Transition(r3.next, [Click(X), Sleep(2000)] + r3.actions);
    RunStep(cfg, State(SeekWorkshop, false), obs[1..]);
    assert obs[1..][1..] == obs[2..];
    var r1 := Run(cfg, State(SeekWorkshop, false), obs[1..]);
    assert r1 == Transition(r3.next, [Click(Workshop), Sleep(2000)] + r2.actions);
    RunStep(cfg, State(SeekMain, true), obs);
  }

  // ---------------------------------------------------------------------------
  // The end-screen poll (main.py lines 286-295 and 319-322)

  /** One round of the poll: the VICTORY lookup acts on nothing, then VICTORY
      wins over ABORT when both are on screen, and when neither is the script
      waits 5 seconds and polls again. */
  lemma PollResolution(cfg: Config, initialRun: bool, victory: bool, abort: bool)
    ensures Step(cfg, State(PollVictory, initialRun), victory) == Transition(State(PollAbort(victory), initialRun), [])
    ensures var t := Step(cfg, State(PollAbort(victory), initialRun), abort);
      && (Click(Victory) in t.actions <==> victory)
      && (Click(Abort) in t.actions <==> !victory && abort)
      && (t.next.stage == PollVictory <==> !victory && !abort)
      && Quiet(t.actions)
  {
  }

  /** A round in which neither end screen shows is a 5 second wait. */
  lemma PollRound(cfg: Config, initialRun: bool)
    ensures Run(cfg, State(PollVictory, initialRun), [false, false]) == Transition(State(PollVictory, initialRun), [Sleep(5000)])
  {
    var obs := [false, false];
    var s := State(PollAbort(false), initialRun);
    assert Run(cfg, s, obs[1..]) == Transition(State(PollVictory, initialRun), [Sleep(5000)] + []);
  }

  /** The poll has no timeout: as long as neither end screen shows, the script
      sleeps 5 seconds per round and is back where it started, forever. */
  lemma {:induction false} VictoryAbortPolledWithoutBound(cfg: Config, initialRun: bool, n: nat)
    ensures Run(cfg, State(PollVictory, initialRun), Repeat(n, [false, false]))
      == Transition(State(PollVictory, initialRun), Repeat(n, [Sleep(5000)]))
  {
    var s := State(PollVictory, initialRun);
    if n > 0 {
      PollRound(cfg, initialRun);
      assert Repeat(n, [false, false]) == [false, false] + Repeat(n - 1, [false, false]);
      assert Repeat(n, [Sleep(5000)]) == [Sleep(5000)] + Repeat(n - 1, [Sleep(5000)]);
      RunAppend(cfg, s, [false, false], Repeat(n - 1, [false, false]));
      VictoryAbortPolledWithoutBound(cfg, initialRun, n - 1);
    }
  }

  // ---------------------------------------------------------------------------
  // The battle loop (main.py lines 242-340)

  /** The buttons outside the battle loop: dialogs and main screen, the team
      setup, and the campaign navigation that leads to OD8. */
  predicate OutsideLoopButton(m: Marker) {
    || m == Close || m == MainScreen
    || m == Workshop || m == Teams || m == SmacMoney || m == Select || m == Back
    || m == Campaign || m == RestorationOfEarth
  }

  /** One step inside the battle loop stays in it (or exits), launches nothing
      and kills only to exit. */
  lemma BattleLoopStep(cfg: Config, s: State, found: bool)
    requires InBattleLoop(s.stage)
    ensures InBattleLoop(Step(cfg, s, found).next.stage) || Step(cfg, s, found).next.stage.Halted?
    ensures Launch !in Step(cfg, s, found).actions
    ensures Kill in Step(cfg, s, found).actions ==> Step(cfg, s, found).next.stage.Halted?
  {
    StepStaysInBattleLoop(cfg, s, found);
    StepKillsAndLaunches(cfg, s, found);
    StepHaltsByExit(cfg, s, found);
  }

  /** One step inside the battle loop clicks no button outside the loop. */
  lemma BattleLoopStepClicks(cfg: Config, s: State, found: bool, m: Marker)
    requires InBattleLoop(s.stage) && OutsideLoopButton(m)
    ensures Click(m) !in Step(cfg, s, found).actions
  {
    StepClicksFollowProbes(cfg, s, found);
  }

  /** Once in the battle loop, the script never leaves it except by exiting:
      it never launches the client again and never clicks a button of the
      dialogs, the team setup or the campaign navigation. */
  lemma {:induction false} BattleLoopIsClosed(cfg: Config, s: State, obs: seq<bool>, m: Marker)
    requires InBattleLoop(s.stage) && OutsideLoopButton(m)
    ensures InBattleLoop(Run(cfg, s, obs).next.stage) || Run(cfg, s, obs).next.stage.Halted?
    ensures Launch !in Run(cfg, s, obs).actions
    ensures Click(m) !in Run(cfg, s, obs).actions
    decreases |obs|
  {
    if |obs| > 0 {
      var t := Step(cfg, s, obs[0]);
      BattleLoopStep(cfg, s, obs[0]);
      BattleLoopStepClicks(cfg, s, obs[0], m);
      if !t.next.stage.Halted? {
        BattleLoopIsClosed(cfg, t.next, obs[1..], m);
      }
    }
  }

  /** After a battle the script makes no kill, launch or exit, and the stage
      after a post-battle step is nearer to the next OD8 lookup. */
  lemma PostBattleStep(cfg: Config, s: State, found: bool)
    requires IsPostBattle(s.stage)
    ensures Quiet(Step(cfg, s, found).actions)
    ensures Step(cfg, s, found).next.stage == SeekOD8
      || (IsPostBattle(Step(cfg, s, found).next.stage)
          && DistanceToOD8(Step(cfg, s, found).next.stage) < DistanceToOD8(s.stage))
    ensures Step(cfg, s, found).next.stage == SeekOD8 ==> DistanceToOD8(s.stage) == 1
    ensures Step(cfg, s, found).next.initialRun == s.initialRun
  {
  }

  /** Running on `obs` ends at the OD8 lookup, with the flag unchanged, and
      makes no kill, launch or exit on the way. */
  predicate BackAtOD8(cfg: Config, s: State, obs: seq<bool>) {
    Run(cfg, s, obs).next == s.(stage := SeekOD8) && Quiet(Run(cfg, s, obs).actions)
  }

  /** Whatever is on screen after a battle, the script is back at the OD8
      lookup within `DistanceToOD8` lookups, without killing, launching or
      exiting on the way. */
  lemma {:induction false} PostBattleReturnsToOD8(cfg: Config, s: State, obs: seq<bool>)
    requires IsPostBattle(s.stage) && |obs| >= DistanceToOD8(s.stage)
    ensures exists k :: 0 < k <= DistanceToOD8(s.stage) && BackAtOD8(cfg, s, obs[..k])
    decreases DistanceToOD8(s.stage)
  {
    var t := Step(cfg, s, obs[0]);
    PostBattleStep(cfg, s, obs[0]);
    if t.next.stage == SeekOD8 {
      var run := Run(cfg, s, obs[..1]);
      assert obs[..1][0] == obs[0] && obs[..1][1..] == [];
      assert Run(cfg, t.next, obs[..1][1..]) == Transition(t.next, []);
      assert run == Transition(t.next, t.actions + []);
      assert t.actions + [] == t.actions;
      assert BackAtOD8(cfg, s, obs[..1]);
    } else {
      PostBattleReturnsToOD8(cfg, t.next, obs[1..]);
      var k' :| 0 < k' <= DistanceToOD8(t.next.stage) && BackAtOD8(cfg, t.next, obs[1..][..k']);
      var k := k' + 1;
      assert obs[..k][0] == obs[0] && obs[..k][1..] == obs[1..][..k'];
      var rest := Run(cfg, t.next, obs[1..][..k']);
      assert Run(cfg, s, obs[..k]) == Transition(rest.next, t.actions + rest.actions);
      QuietAppend(t.actions, rest.actions);
      assert BackAtOD8(cfg, s, obs[..k]);
    }
  }
}
