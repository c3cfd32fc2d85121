/**
  Process selection: `is_app_running` and `kill_app`.

  Process enumeration and termination are not modelled: the process list, in
  enumeration order, is an input, and each process carries what terminating it
  (and waiting up to five seconds for it to exit) would do.
 */
module Processes {
  import opened Wrappers

  /** The outcome of `terminate()` followed by `wait(timeout=5)` on one process. */
  datatype Termination =
    | Terminated      // it exited in time
    | NoSuchProcess   // it had already gone
    | AccessDenied    // the OS refused
    | OtherFailure    // any other exception, a wait timeout included

  datatype Process = Process(pid: nat, name: string, termination: Termination)

  /** What `kill_app` did: the pids it tried to terminate and those it
      recorded as terminated, both in enumeration order. */
  datatype KillReport = KillReport(targeted: seq<nat>, killed: seq<nat>)

  /** The name of the game client's executable. */
  const APP_NAME: string := "Super Mechs.exe"

  predicate IsUpper(c: char) {
    'A' <= c <= 'Z'
  }

  /** Two characters are the same letter in either case, or simply equal. */
  predicate SameUpToCase(a: char, b: char) {
    || a == b
    || (IsUpper(a) && b as int == a as int + 32)
    || (IsUpper(b) && a as int == b as int + 32)
  }

  /** Two strings that differ at most in the case of ASCII letters. */
  predicate EqualUpToCase(x: string, y: string) {
    |x| == |y| && forall i :: 0 <= i < |x| ==> SameUpToCase(x[i], y[i])
  }

  function LowerChar(c: char): char {
    if IsUpper(c) then (c as int + 32) as char else c
  }

  /** Lower-casing of the ASCII letters: the result has no upper-case letter,
      keeps every other character, and differs from the input only in case. */
  function Lower(s: string): (r: string)
    ensures |r| == |s|
    ensures forall i :: 0 <= i < |r| ==> !IsUpper(r[i])
    ensures forall i :: 0 <= i < |s| && !IsUpper(s[i]) ==> r[i] == s[i]
    ensures EqualUpToCase(s, r)
  {
    seq(|s|, i requires 0 <= i < |s| => LowerChar(s[i]))
  }

  /** Two strings lower-case to the same string exactly when they differ at
      most in the case of their letters. */
  lemma LowerIgnoresCase(x: string, y: string)
    ensures Lower(x) == Lower(y) <==> EqualUpToCase(x, y)
  {
  }

  /** Python's `needle in hay` on strings: `needle` occurs somewhere in `hay`. */
  predicate Contains(hay: string, needle: string)
    decreases |hay|
  {
    needle <= hay || (|hay| > 0 && Contains(hay[1..], needle))
  }

  /** `needle` sits in `hay` starting at index `k`. */
  predicate OccursAt(hay: string, needle: string, k: int) {
    0 <= k && k + |needle| <= |hay| && hay[k..k + |needle|] == needle
  }

  /** An occurrence at any index is found by the substring test. */
  lemma {:induction false} OccurrenceIsContained(hay: string, needle: string, k: int)
    requires OccursAt(hay, needle, k)
    ensures Contains(hay, needle)
    decreases k
  {
    if k == 0 {
      assert hay[..|needle|] == needle;
    } else {
      assert OccursAt(hay[1..], needle, k - 1);
      OccurrenceIsContained(hay[1..], needle, k - 1);
    }
  }

  /** The substring test only succeeds where there is an occurrence. */
  lemma {:induction false} ContainedOccurs(hay: string, needle: string)
    requires Contains(hay, needle)
    ensures exists k :: OccursAt(hay, needle, k)
    decreases |hay|
  {
    if needle <= hay {
      assert OccursAt(hay, needle, 0);
    } else {
      ContainedOccurs(hay[1..], needle);
      var k :| OccursAt(hay[1..], needle, k);
      assert hay[1..][k..k + |needle|] == hay[k + 1..k + 1 + |needle|];
      assert OccursAt(hay, needle, k + 1);
    }
  }

  /** The substring test reads as "`needle` sits in `hay` at some index". */
  lemma ContainsIsWindow(hay: string, needle: string)
    ensures Contains(hay, needle) <==> exists k :: OccursAt(hay, needle, k)
  {
    if Contains(hay, needle) {
      ContainedOccurs(hay, needle);
    }
    if exists k :: OccursAt(hay, needle, k) {
      var k :| OccursAt(hay, needle, k);
      OccurrenceIsContained(hay, needle, k);
    }
  }

  /** The test `is_app_running` applies: the lower-cased process name contains
      the lower-cased application name. */
  predicate NameMatches(p: Process, appName: string) {
    Contains(Lower(p.name), Lower(appName))
  }

  /** Whether a name matches does not depend on the case of its letters, nor
      on the case of the application name. */
  lemma NameMatchesIgnoresCase(p: Process, q: Process, appName: string, otherName: string)
    requires EqualUpToCase(p.name, q.name) && EqualUpToCase(appName, otherName)
    ensures NameMatches(p, appName) <==> NameMatches(q, otherName)
  {
    LowerIgnoresCase(p.name, q.name);
    LowerIgnoresCase(appName, otherName);
  }

  /** The first process, in enumeration order, whose name matches; `None`
      exactly when no name matches. */
  function IsAppRunning(procs: seq<Process>, appName: string): (r: Option<Process>)
    ensures r.None? <==> forall i :: 0 <= i < |procs| ==> !NameMatches(procs[i], appName)
    ensures r.Some? ==> exists i ::
      (0 <= i < |procs| && procs[i] == r.value && NameMatches(procs[i], appName)
       && forall j :: 0 <= j < i ==> !NameMatches(procs[j], appName))
  {
    if |procs| == 0 then None
    else if NameMatches(procs[0], appName) then Some(procs[0])
    else
      var r := IsAppRunning(procs[1..], appName);
      assert forall i :: 1 <= i < |procs| ==> procs[i] == procs[1..][i - 1];
      r
  }

  /** Some process named exactly `appName` has pid `pid` (and, when
      `terminated` is set, terminated successfully). */
  predicate NamedPid(procs: seq<Process>, appName: string, pid: nat, terminated: bool) {
    exists i :: 0 <= i < |procs| && procs[i].pid == pid && procs[i].name == appName
      && (terminated ==> procs[i].termination == Terminated)
  }

  /** Terminates every process whose name equals `appName` exactly; a failed
      termination is left out of `killed` and the walk carries on. */
  function KillApp(procs: seq<Process>, appName: string): (r: KillReport)
    ensures |r.killed| <= |r.targeted| <= |procs|
  {
    if |procs| == 0 then KillReport([], [])
    else
      var p := procs[0];
      var rest := KillApp(procs[1..], appName);
      if p.name != appName then rest
      else KillReport([p.pid] + rest.targeted, if p.termination == Terminated then [p.pid] + rest.killed else rest.killed)
  }

  /** `kill_app` targets exactly the processes named `appName` and records
      exactly those among them that terminated. */
  lemma {:induction false} KillAppSelects(procs: seq<Process>, appName: string)
    ensures forall k :: 0 <= k < |KillApp(procs, appName).targeted| ==>
      NamedPid(procs, appName, KillApp(procs, appName).targeted[k], false)
    ensures forall i :: 0 <= i < |procs| && procs[i].name == appName ==> procs[i].pid in KillApp(procs, appName).targeted
    ensures forall k :: 0 <= k < |KillApp(procs, appName).killed| ==>
      NamedPid(procs, appName, KillApp(procs, appName).killed[k], true)
    ensures forall i :: 0 <= i < |procs| && procs[i].name == appName && procs[i].termination == Terminated ==>
      procs[i].pid in KillApp(procs, appName).killed
    decreases |procs|
  {
    if |procs| > 0 {
      var p, tail := procs[0], procs[1..];
      var r, rest := KillApp(procs, appName), KillApp(tail, appName);
      KillAppSelects(tail, appName);
      assert forall i :: 1 <= i < |procs| ==> procs[i] == tail[i - 1];
      var t := if p.name == appName then 1 else 0;
      var d := if p.name == appName && p.termination == Terminated then 1 else 0;
      assert r.targeted[t..] == rest.targeted;
      assert r.killed[d..] == rest.killed;
      forall k | 0 <= k < |r.targeted|
        ensures NamedPid(procs, appName, r.targeted[k], false)
      {
        if k < t {
          assert procs[0].pid == r.targeted[k];
        } else {
          assert r.targeted[k] == rest.targeted[k - t];
          var i :| 0 <= i < |tail| && tail[i].pid == rest.targeted[k - t] && tail[i].name == appName;
          assert procs[i + 1] == tail[i];
          assert procs[i + 1].pid == r.targeted[k] && procs[i + 1].name == appName;
        }
      }
      forall k | 0 <= k < |r.killed|
        ensures NamedPid(procs, appName, r.killed[k], true)
      {
        if k < d {
          assert procs[0].pid == r.killed[k];
        } else {
          assert r.killed[k] == rest.killed[k - d];
          var i :| 0 <= i < |tail| && tail[i].pid == rest.killed[k - d] && tail[i].name == appName
            && tail[i].termination == Terminated;
          assert procs[i + 1] == tail[i];
          assert procs[i + 1].pid == r.killed[k];
        }
      }
    }
  }

  /** Walking two lists one after the other is walking each: order is kept and
      a failure in the first part does not affect the second. */
  lemma {:induction false} KillAppAppend(a: seq<Process>, b: seq<Process>, appName: string)
    ensures KillApp(a + b, appName).targeted == KillApp(a, appName).targeted + KillApp(b, appName).targeted
    ensures KillApp(a + b, appName).killed == KillApp(a, appName).killed + KillApp(b, appName).killed
  {
    if |a| == 0 {
      assert a + b == b;
    } else {
      var ab := a + b;
      assert ab[0] == a[0];
      assert ab[1..] == a[1..] + b;
      KillAppAppend(a[1..], b, appName);
      var rest := KillApp(ab[1..], appName);
      assert KillApp(ab, appName) ==
        if a[0].name != appName then rest
        else KillReport([a[0].pid] + rest.targeted,
                        if a[0].termination == Terminated then [a[0].pid] + rest.killed else rest.killed);
    }
  }

  /** A process `kill_app` targets is one `is_app_running` would accept, so
      whenever `kill_app` targets anything, `is_app_running` finds a process. */
  lemma KillTargetsAreRunning(procs: seq<Process>, appName: string)
    ensures forall i :: 0 <= i < |procs| && procs[i].name == appName ==> NameMatches(procs[i], appName)
    ensures KillApp(procs, appName).targeted != [] ==> IsAppRunning(procs, appName).Some?
  {
    forall i | 0 <= i < |procs| && procs[i].name == appName
      ensures NameMatches(procs[i], appName)
    {
      assert Lower(appName) <= Lower(procs[i].name);
    }
    if KillApp(procs, appName).targeted != [] {
      KillAppSelects(procs, appName);
      var r := KillApp(procs, appName);
      assert 0 < |r.targeted|;
      assert NamedPid(procs, appName, r.targeted[0], false);
      var i :| 0 <= i < |procs| && procs[i].pid == r.targeted[0] && procs[i].name == appName;
      assert NameMatches(procs[i], appName);
    }
  }

  /** With no exact-name process, `kill_app` terminates nothing: stopping an
      application that is not running is a no-op. */
  lemma KillAppWithoutTargetIsNoOp(procs: seq<Process>, appName: string)
    requires forall i :: 0 <= i < |procs| ==> procs[i].name != appName
    ensures KillApp(procs, appName) == KillReport([], [])
  {
  }

  /** The two functions match names differently: a client whose process name
      differs from the configured one only in letter case is reported as
      running, yet `kill_app` leaves it alone. */
  lemma RunningButNotKilled()
    ensures var procs := [Process(7, "super mechs.exe", Terminated)];
      IsAppRunning(procs, APP_NAME) == Some(procs[0]) && KillApp(procs, APP_NAME) == KillReport([], [])
  {
    var procs := [Process(7, "super mechs.exe", Terminated)];
    assert Lower(procs[0].name) == Lower(APP_NAME);
    assert procs[0].name != APP_NAME;
  }
}
