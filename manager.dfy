/** The narrator's lifecycle: starting its agent session, stopping it and reporting its
    persisted record (internal/narrator/manager.go). */
module Manager {
  import opened Util
  import opened NarratorTypes
  import opened Platform

  /** The errors the lifecycle operations return. */
  datatype ManagerError =
    | AlreadyRunning      // the session exists and its agent is alive
    | NotRunning          // there is no session to stop
    | KillingZombie       // a session whose agent died could not be killed
    | CreatingDirectory
    | EnsuringSettings
    | BuildingCommand
    | CreatingSession
    | SavingState
    | WaitingForStart     // the agent did not come up in its session
    | CheckingSession     // the multiplexer could not say whether the session exists
    | KillingSession

  /** The record used when none has been saved yet. */
  function DefaultNarrator(): (n: Narrator)
    ensures n.state == Stopped && n.config == DefaultConfig()
    ensures n.startedAt == None && n.lastEventAt == None && n.narrativesGenerated == 0
  {
    Narrator(Stopped, None, DefaultConfig(), None, 0)
  }

  /** The record as loading it gives: the saved one, or the default. */
  function Loaded(saved: Option<Narrator>): Narrator
  {
    match saved
    case None => DefaultNarrator()
    case Some(n) => n
  }

  /** The record a successful start saves: the loaded one, running since `now`, with its
      configuration and counters kept. */
  function StartedRecord(saved: Option<Narrator>, now: Time): (n: Narrator)
    ensures n.state == Running && n.startedAt == Some(now)
    ensures n.config == Loaded(saved).config && n.lastEventAt == Loaded(saved).lastEventAt
    ensures n.narrativesGenerated == Loaded(saved).narrativesGenerated
  {
    Loaded(saved).(state := Running, startedAt := Some(now))
  }

  /** The record a successful stop saves: the loaded one, stopped, all else kept. */
  function StoppedRecord(saved: Option<Narrator>): (n: Narrator)
    ensures n.state == Stopped && n.startedAt == Loaded(saved).startedAt
    ensures n.config == Loaded(saved).config && n.lastEventAt == Loaded(saved).lastEventAt
    ensures n.narrativesGenerated == Loaded(saved).narrativesGenerated
  {
    Loaded(saved).(state := Stopped)
  }

  // ---------------------------------------------------------------------------------------
  // What decides the result of a start

  /** The error a single step of a start is fatal with, if it is: a live agent, the failure
      of the zombie kill, of the directory, of the settings, of the command, of the session,
      of the save or of the wait. Environment, theming, the dialog, the nudges and the kills
      that clean up after a failure are best-effort and never decide anything. */
  function StepVerdict(c: Call): Outcome<ManagerError>
  {
    match c
    case AgentQuery(_, running) => if running then Fail(AlreadyRunning) else Pass
    case Kill(_, withProcesses, ok) => if !withProcesses && !ok then Fail(KillingZombie) else Pass
    case MakeDir(_, ok) => if ok then Pass else Fail(CreatingDirectory)
    case Settings(_, _, ok) => if ok then Pass else Fail(EnsuringSettings)
    case StartupCommand(_, built) => if built.Some? then Pass else Fail(BuildingCommand)
    case Create(_, _, _, ok) => if ok then Pass else Fail(CreatingSession)
    case SaveRecord(_, ok) => if ok then Pass else Fail(SavingState)
    case WaitReady(_, ok) => if ok then Pass else Fail(WaitingForStart)
    case _ => Pass
  }

  /** The result of a start that made these calls: the error of the first fatal step. */
  function StartVerdict(steps: seq<Call>): Outcome<ManagerError>
  {
    if steps == [] then Pass
    else if StepVerdict(steps[0]).Fail? then StepVerdict(steps[0])
    else StartVerdict(steps[1..])
  }

  /** A run of calls whose every step passes or fails with an allowed error ends with one
      of those. */
  lemma {:induction false} VerdictAmong(steps: seq<Call>, allowed: set<Outcome<ManagerError>>)
    requires Pass in allowed
    requires forall k :: 0 <= k < |steps| ==> StepVerdict(steps[k]) in allowed
    ensures StartVerdict(steps) in allowed
    decreases |steps|
  {
    if steps != [] {
      var tail := steps[1..];
      assert forall k :: 0 <= k < |tail| ==> tail[k] == steps[k + 1];
      VerdictAmong(tail, allowed);
    }
  }

  /** Recording two runs of calls one after the other records the two together. */
  lemma LogExtended(log: seq<Call>, a: seq<Call>, b: seq<Call>)
    ensures log + a + b == log + (a + b)
  {
  }

  /** Once a run of calls has failed, nothing after it changes the verdict. */
  lemma {:induction false} VerdictConcat(a: seq<Call>, b: seq<Call>)
    ensures StartVerdict(a + b) == if StartVerdict(a).Fail? then StartVerdict(a) else StartVerdict(b)
    decreases |a|
  {
    if a == [] {
      assert a + b == b;
    } else {
      VerdictConcat(a[1..], b);
      assert (a + b)[1..] == a[1..] + b;
    }
  }

  /** A start succeeds exactly when none of its steps is fatal, and fails with the error of
      a fatal step that every earlier step survived. */
  lemma {:induction false} VerdictIsFirstFatalStep(steps: seq<Call>)
    ensures StartVerdict(steps) == Pass <==>
      forall k :: 0 <= k < |steps| ==> StepVerdict(steps[k]) == Pass
    ensures StartVerdict(steps).Fail? ==>
      exists k :: 0 <= k < |steps| && StepVerdict(steps[k]) == StartVerdict(steps)
        && forall j :: 0 <= j < k ==> StepVerdict(steps[j]) == Pass
    decreases |steps|
  {
    if steps != [] {
      var tail := steps[1..];
      VerdictIsFirstFatalStep(tail);
      assert forall k :: 1 <= k < |steps| ==> steps[k] == tail[k - 1];
      if StepVerdict(steps[0]).Pass? && StartVerdict(tail).Fail? {
        var k :| 0 <= k < |tail| && StepVerdict(tail[k]) == StartVerdict(tail)
          && forall j :: 0 <= j < k ==> StepVerdict(tail[j]) == Pass;
        assert StepVerdict(steps[k + 1]) == StartVerdict(steps);
        assert forall j :: 0 <= j < k + 1 ==> StepVerdict(steps[j]) == Pass by {
          forall j | 0 <= j < k + 1 ensures StepVerdict(steps[j]) == Pass {
            if j > 0 {
              assert steps[j] == tail[j - 1];
            }
          }
        }
      }
      if StepVerdict(steps[0]).Fail? {
        assert StepVerdict(steps[0]) == StartVerdict(steps);
      }
    }
  }

  /** Whether every wait for the agent in these calls comes after a successful save of the
      record (the record says Running before anyone waits on the agent). */
  predicate SavedBeforeWaiting(steps: seq<Call>)
  {
    forall k :: 0 <= k < |steps| && steps[k].WaitReady? ==>
      exists j :: 0 <= j < k && steps[j].SaveRecord? && steps[j].ok
  }

  /** Saving before waiting holds for a run of calls when it holds for each of two parts. */
  lemma SavedBeforeWaitingConcat(a: seq<Call>, b: seq<Call>)
    requires SavedBeforeWaiting(a) && SavedBeforeWaiting(b)
    ensures SavedBeforeWaiting(a + b)
  {
    var ab := a + b;
    forall k | 0 <= k < |ab| && ab[k].WaitReady?
      ensures exists j :: 0 <= j < k && ab[j].SaveRecord? && ab[j].ok
    {
      if k < |a| {
        assert ab[k] == a[k];
        var j :| 0 <= j < k && a[j].SaveRecord? && a[j].ok;
        assert ab[j] == a[j];
      } else {
        assert ab[k] == b[k - |a|];
        var j :| 0 <= j < k - |a| && b[j].SaveRecord? && b[j].ok;
        assert ab[j + |a|] == b[j];
      }
    }
  }

  /** No call follows a fatal step, except a single kill that cleans up after it. */
  predicate StopsAtFatal(steps: seq<Call>)
  {
    forall k :: 0 <= k < |steps| && StepVerdict(steps[k]).Fail? ==>
      k == |steps| - 1 || (k == |steps| - 2 && steps[|steps| - 1].Kill?)
  }

  /** Stopping at a fatal step holds after a run of calls none of which was fatal. */
  lemma StopsAtFatalConcat(a: seq<Call>, b: seq<Call>)
    requires StartVerdict(a) == Pass && StopsAtFatal(b)
    ensures StopsAtFatal(a + b)
  {
    VerdictIsFirstFatalStep(a);
    var ab := a + b;
    forall k | 0 <= k < |ab| && StepVerdict(ab[k]).Fail?
      ensures k == |ab| - 1 || (k == |ab| - 2 && ab[|ab| - 1].Kill?)
    {
      if k >= |a| {
        assert ab[k] == b[k - |a|];
        if k < |ab| - 1 {
          assert ab[k + 1] == b[k + 1 - |a|];
        }
      }
    }
  }

  /** The keys of the environment calls in a run of calls. */
  function EnvKeys(s: seq<Call>): set<string>
  {
    if s == [] then {}
    else EnvKeys(s[..|s| - 1]) + (if s[|s| - 1].SetEnv? then {s[|s| - 1].key} else {})
  }

  /** One more call adds its key when it is an environment call. */
  lemma EnvKeysSnoc(s: seq<Call>, c: Call)
    ensures EnvKeys(s + [c]) == EnvKeys(s) + (if c.SetEnv? then {c.key} else {})
  {
    assert (s + [c])[..|s|] == s;
  }

  /** The stages of a start, each with what its calls depend on. */
  datatype Stage =
    | Clearing(id: string, before: map<string, bool>)
    | Launching(id: string, dir: string)
    | Configuring(id: string, env: map<string, string>)
    | Persisting(id: string, record: Narrator)
    | Greeting(id: string)
    | Preparing(id: string, dir: string, env: map<string, string>)
    | Committing(id: string, record: Narrator)
    | BringingUp(id: string, dir: string, env: map<string, string>, record: Narrator)
    | Starting(id: string, dir: string, env: map<string, string>, before: map<string, bool>,
               record: Narrator)

  /** How deeply a stage nests the stages it is made of. */
  function Depth(stage: Stage): nat
  {
    match stage
    case Preparing(_, _, _) => 1
    case Committing(_, _) => 1
    case BringingUp(_, _, _, _) => 2
    case Starting(_, _, _, _, _) => 3
    case _ => 0
  }

  /** The calls a stage makes, a later part only when the part before it passed:
      - clearing, in a multiplexer holding `before`: the session check; when it reports the
        session, the agent check; when the agent is dead, the kill of the zombie session;
      - launching: the directory, the settings, the startup command and the session running
        that command, in that order, up to the first that fails;
      - configuring: one environment call per variable of `env`, with its value, then the
        theme;
      - persisting: the save of `record`; when it fails, the kill of the session; otherwise
        the wait and, when it fails, the kill of the session with its processes;
      - greeting: the permissions dialog, the startup nudge from the daemon and the
        propulsion nudge;
      - preparing: the four launch calls, the last successful, then the configuration; or a
        launch that ends with its failed step;
      - committing: the save and the wait, then the greeting when both passed;
      - bringing up: the preparation, then the commit when the preparation passed;
      - starting: the check for an existing session, then the bring-up when it passed. */
  predicate Staged(stage: Stage, s: seq<Call>)
    decreases Depth(stage)
  {
    match stage
    case Clearing(id, before) =>
      |s| >= 1 && s[0].SessionQuery? && s[0].id == id
      && (s[0].answer == None || s[0].answer == Some(id in before))
      && (s[0].answer != Some(true) ==> |s| == 1)
      && (s[0].answer == Some(true) ==>
            id in before && |s| >= 2 && s[1] == AgentQuery(id, before[id])
            && (before[id] ==> |s| == 2)
            && (!before[id] ==> |s| == 3 && s[2].Kill? && s[2].id == id && !s[2].withProcesses))
    case Launching(id, dir) =>
      1 <= |s| <= 4 && s[0].MakeDir? && s[0].path == dir
      && (|s| >= 2 ==> s[1].Settings? && s[1].dir == dir && s[1].role == "narrator")
      && (|s| >= 3 ==> s[2].StartupCommand? && s[2].role == "narrator")
      && (|s| == 4 ==> s[3].Create? && s[3].id == id && s[3].dir == dir
                       && s[2].built == Some(s[3].command))
      && (forall k :: 0 <= k < |s| - 1 ==> StepVerdict(s[k]) == Pass)
      && (|s| < 4 ==> StepVerdict(s[|s| - 1]).Fail?)
    case Configuring(id, env) =>
      |s| == |env.Keys| + 1 && s[|s| - 1].Theme? && s[|s| - 1].id == id
      && (forall k :: 0 <= k < |s| - 1 ==>
            s[k].SetEnv? && s[k].id == id && s[k].key in env && s[k].value == env[s[k].key])
      && EnvKeys(s) == env.Keys
    case Persisting(id, record) =>
      |s| >= 2 && s[0].SaveRecord? && s[0].record == record
      && (!s[0].ok ==> |s| == 2 && s[1].Kill? && s[1].id == id && !s[1].withProcesses)
      && (s[0].ok ==>
            s[1].WaitReady? && s[1].id == id
            && (s[1].ok ==> |s| == 2)
            && (!s[1].ok ==> |s| == 3 && s[2].Kill? && s[2].id == id && s[2].withProcesses))
    case Greeting(id) =>
      |s| == 3 && s[0].AcceptBypass? && s[0].id == id
      && s[1].StartupNotice? && s[1].id == id && s[1].recipient == "narrator"
      && s[1].sender == "daemon" && s[1].topic == "observe"
      && s[2].Nudge? && s[2].id == id
    case Preparing(id, dir, env) =>
      if |s| > 4 then
        Staged(Launching(id, dir), s[..4]) && StepVerdict(s[3]) == Pass
        && Staged(Configuring(id, env), s[4..])
      else Staged(Launching(id, dir), s) && StepVerdict(s[|s| - 1]).Fail?
    case Committing(id, record) =>
      if |s| >= 2 && StartVerdict(s[..2]) == Pass then
        Staged(Persisting(id, record), s[..2]) && Staged(Greeting(id), s[2..])
      else Staged(Persisting(id, record), s)
    case BringingUp(id, dir, env, record) =>
      var k := |env.Keys| + 5;
      if |s| >= k && StartVerdict(s[..k]) == Pass then
        Staged(Preparing(id, dir, env), s[..k]) && Staged(Committing(id, record), s[k..])
      else Staged(Preparing(id, dir, env), s)
    case Starting(id, dir, env, before, record) =>
      |s| >= 1 &&
      var k := if s[0].SessionQuery? && s[0].answer == Some(true) then 3 else 1;
      if |s| >= k && StartVerdict(s[..k]) == Pass then
        Staged(Clearing(id, before), s[..k]) && Staged(BringingUp(id, dir, env, record), s[k..])
      else Staged(Clearing(id, before), s)
  }

  /** The calls of the check for an existing session, in a multiplexer holding `before`.
      Where a caller has to establish or use one of these shapes whole, the contract compares
      it with `true`, which makes the verifier treat it as one fact instead of case by case. */
  predicate ClearCalls(id: string, before: map<string, bool>, s: seq<Call>)
  {
    Staged(Clearing(id, before), s)
  }

  /** The calls of a launch. */
  predicate LaunchCalls(id: string, dir: string, s: seq<Call>)
  {
    Staged(Launching(id, dir), s)
  }

  /** The calls that configure the session. */
  predicate ConfigureCalls(id: string, env: map<string, string>, s: seq<Call>)
  {
    Staged(Configuring(id, env), s)
  }

  /** The calls that save `record` and wait for the agent. */
  predicate PersistCalls(id: string, record: Narrator, s: seq<Call>)
  {
    Staged(Persisting(id, record), s)
  }

  /** The calls that greet the agent. */
  predicate GreetCalls(id: string, s: seq<Call>)
  {
    Staged(Greeting(id), s)
  }

  /** The calls of a launch followed by configuration. */
  predicate PrepareCalls(id: string, dir: string, env: map<string, string>, s: seq<Call>)
  {
    Staged(Preparing(id, dir, env), s)
  }

  /** The calls that persist and greet. */
  predicate CommitCalls(id: string, record: Narrator, s: seq<Call>)
  {
    Staged(Committing(id, record), s)
  }

  /** The calls after the check for an existing session. */
  predicate BringUpCalls(id: string, dir: string, env: map<string, string>, record: Narrator,
                         s: seq<Call>)
  {
    Staged(BringingUp(id, dir, env, record), s)
  }

  /** The calls of a whole start. */
  predicate StartCalls(id: string, dir: string, env: map<string, string>,
                       before: map<string, bool>, record: Narrator, s: seq<Call>)
  {
    Staged(Starting(id, dir, env, before, record), s)
  }

  /** One environment call per variable, then the theme, are the configuration calls. */
  lemma ConfigureCallsThemed(id: string, env: map<string, string>, vars: seq<Call>, theme: Call)
    requires |vars| == |env.Keys| && EnvKeys(vars) == env.Keys
    requires forall k :: 0 <= k < |vars| ==>
      vars[k].SetEnv? && vars[k].id == id && vars[k].key in env && vars[k].value == env[vars[k].key]
    requires theme.Theme? && theme.id == id
    ensures ConfigureCalls(id, env, vars + [theme])
  {
    var s := vars + [theme];
    EnvKeysSnoc(vars, theme);
    assert forall k :: 0 <= k < |vars| ==> s[k] == vars[k];
  }

  /** The configuration calls are never fatal and wait for nothing. */
  lemma ConfiguredHarmless(id: string, env: map<string, string>, s: seq<Call>)
    requires ConfigureCalls(id, env, s)
    ensures StartVerdict(s) == Pass && StopsAtFatal(s) && SavedBeforeWaiting(s)
  {
    assert forall k :: 0 <= k < |s| ==> StepVerdict(s[k]) == Pass;
    VerdictIsFirstFatalStep(s);
  }

  /** A launch that passed, followed by the configuration, is a preparation. */
  lemma PrepareJoin(id: string, dir: string, env: map<string, string>, a: seq<Call>, b: seq<Call>)
    requires LaunchCalls(id, dir, a) && |a| == 4 && StartVerdict(a) == Pass
    requires ConfigureCalls(id, env, b)
    ensures PrepareCalls(id, dir, env, a + b) && |a + b| == |env.Keys| + 5
  {
    VerdictIsFirstFatalStep(a);
    var s := a + b;
    assert s[..4] == a && s[4..] == b && s[3] == a[3];
  }

  /** A launch that failed is a whole preparation. */
  lemma PrepareAlone(id: string, dir: string, env: map<string, string>, a: seq<Call>)
    requires LaunchCalls(id, dir, a) && StartVerdict(a).Fail?
    ensures PrepareCalls(id, dir, env, a)
  {
    VerdictIsFirstFatalStep(a);
  }

  /** A launch fails only with the error of one of its own four steps. */
  lemma LaunchVerdicts(id: string, dir: string, s: seq<Call>)
    requires LaunchCalls(id, dir, s)
    ensures StartVerdict(s) in {Pass, Fail(CreatingDirectory), Fail(EnsuringSettings),
                                Fail(BuildingCommand), Fail(CreatingSession)}
  {
    VerdictAmong(s, {Pass, Fail(CreatingDirectory), Fail(EnsuringSettings),
                     Fail(BuildingCommand), Fail(CreatingSession)});
  }

  /** A launch that stopped before creating the session failed. */
  lemma LaunchStopped(id: string, dir: string, s: seq<Call>)
    requires LaunchCalls(id, dir, s) && |s| < 4
    ensures StartVerdict(s).Fail?
  {
    VerdictIsFirstFatalStep(s);
    assert StepVerdict(s[|s| - 1]).Fail?;
  }

  /** A launch passes when its last call, the session's creation, succeeded. */
  lemma LaunchPassed(id: string, dir: string, s: seq<Call>)
    requires LaunchCalls(id, dir, s) && |s| == 4 && StepVerdict(s[3]) == Pass
    ensures StartVerdict(s) == Pass
  {
    VerdictIsFirstFatalStep(s);
  }

  /** A preparation that passed made the four launch calls and the configuration calls; one
      that failed stopped within the launch, with the error of a launch step. */
  lemma PrepareShape(id: string, dir: string, env: map<string, string>, s: seq<Call>)
    requires PrepareCalls(id, dir, env, s) == true
    ensures StartVerdict(s) == Pass ==> |s| == |env.Keys| + 5
    ensures StartVerdict(s).Fail? ==> |s| <= 4
    ensures StartVerdict(s) in {Pass, Fail(CreatingDirectory), Fail(EnsuringSettings),
                                Fail(BuildingCommand), Fail(CreatingSession)}
  {
    if |s| > 4 {
      LaunchPassed(id, dir, s[..4]);
      ConfiguredHarmless(id, env, s[4..]);
      VerdictConcat(s[..4], s[4..]);
      assert s == s[..4] + s[4..];
    } else {
      VerdictIsFirstFatalStep(s);
      LaunchVerdicts(id, dir, s);
    }
  }

  /** A save and wait that passed, followed by the greeting, is a commit. */
  lemma CommitJoin(id: string, record: Narrator, a: seq<Call>, b: seq<Call>)
    requires PersistCalls(id, record, a) && |a| == 2 && StartVerdict(a) == Pass
    requires GreetCalls(id, b)
    ensures CommitCalls(id, record, a + b)
  {
    var s := a + b;
    assert s[..2] == a && s[2..] == b;
  }

  /** A save or wait that failed is a whole commit. */
  lemma CommitAlone(id: string, record: Narrator, a: seq<Call>)
    requires PersistCalls(id, record, a) && StartVerdict(a).Fail?
    ensures CommitCalls(id, record, a)
  {
    if a[0].ok {
      assert a[..2] == [a[0], a[1]];
      assert StartVerdict([a[1]]) == StepVerdict(a[1]);
      if a[1].ok {
        assert a == [a[0], a[1]];
      }
    } else {
      assert a[..2] == a;
    }
  }

  /** A preparation that passed, followed by a commit, is a bring-up. */
  lemma BringUpJoin(id: string, dir: string, env: map<string, string>, record: Narrator,
                    a: seq<Call>, b: seq<Call>)
    requires PrepareCalls(id, dir, env, a) == true && |a| == |env.Keys| + 5 && StartVerdict(a) == Pass
    requires CommitCalls(id, record, b) == true
    ensures BringUpCalls(id, dir, env, record, a + b)
  {
    var s := a + b;
    assert s[..|a|] == a && s[|a|..] == b;
  }

  /** A preparation that failed after at most four calls is a whole bring-up. */
  lemma BringUpAlone(id: string, dir: string, env: map<string, string>, record: Narrator, a: seq<Call>)
    requires PrepareCalls(id, dir, env, a) == true && |a| <= 4
    ensures BringUpCalls(id, dir, env, record, a)
  {
  }

  /** A check for an existing session that passed, followed by a bring-up, is a start. */
  lemma StartJoin(id: string, dir: string, env: map<string, string>, before: map<string, bool>,
                  record: Narrator, a: seq<Call>, b: seq<Call>)
    requires ClearCalls(id, before, a) && StartVerdict(a) == Pass
    requires BringUpCalls(id, dir, env, record, b)
    ensures StartCalls(id, dir, env, before, record, a + b)
  {
    var s := a + b;
    assert s[..|a|] == a && s[|a|..] == b;
  }

  /** A check for an existing session that failed is a whole start. */
  lemma StartAlone(id: string, dir: string, env: map<string, string>, before: map<string, bool>,
                   record: Narrator, a: seq<Call>)
    requires ClearCalls(id, before, a) && StartVerdict(a).Fail?
    ensures StartCalls(id, dir, env, before, record, a)
  {
    if |a| >= 3 {
      assert a[..3] == a;
    }
  }

  // ---------------------------------------------------------------------------------------
  // What the call sequences guarantee

  /** The check for an existing session stops at its fatal step and waits for nothing. */
  lemma ClearFacts(id: string, before: map<string, bool>, s: seq<Call>)
    requires ClearCalls(id, before, s)
    ensures StopsAtFatal(s) && SavedBeforeWaiting(s)
  {
  }

  /** The launch stops at its fatal step and waits for nothing. */
  lemma LaunchFacts(id: string, dir: string, s: seq<Call>)
    requires LaunchCalls(id, dir, s)
    ensures StopsAtFatal(s) && SavedBeforeWaiting(s)
  {
  }

  /** The save and wait stop at the fatal step, apart from the cleanup kill, and wait only
      after a successful save. */
  lemma PersistFacts(id: string, record: Narrator, s: seq<Call>)
    requires PersistCalls(id, record, s)
    ensures StopsAtFatal(s) && SavedBeforeWaiting(s)
  {
  }

  /** The greeting is never fatal and waits for nothing. */
  lemma GreetFacts(id: string, s: seq<Call>)
    requires GreetCalls(id, s)
    ensures StartVerdict(s) == Pass && StopsAtFatal(s) && SavedBeforeWaiting(s)
  {
    VerdictIsFirstFatalStep(s);
  }

  /** Two runs of calls, the first of which passed, keep both guarantees. */
  lemma FactsConcat(a: seq<Call>, b: seq<Call>)
    requires StartVerdict(a) == Pass && SavedBeforeWaiting(a)
    requires StopsAtFatal(b) && SavedBeforeWaiting(b)
    ensures StopsAtFatal(a + b) && SavedBeforeWaiting(a + b)
  {
    StopsAtFatalConcat(a, b);
    SavedBeforeWaitingConcat(a, b);
  }

  lemma PrepareFacts(id: string, dir: string, env: map<string, string>, s: seq<Call>)
    requires PrepareCalls(id, dir, env, s)
    ensures StopsAtFatal(s) && SavedBeforeWaiting(s)
  {
    if |s| > 4 {
      LaunchPassed(id, dir, s[..4]);
      LaunchFacts(id, dir, s[..4]);
      ConfiguredHarmless(id, env, s[4..]);
      FactsConcat(s[..4], s[4..]);
      assert s == s[..4] + s[4..];
    } else {
      LaunchFacts(id, dir, s);
    }
  }

  lemma CommitFacts(id: string, record: Narrator, s: seq<Call>)
    requires CommitCalls(id, record, s)
    ensures StopsAtFatal(s) && SavedBeforeWaiting(s)
  {
    if |s| >= 2 && StartVerdict(s[..2]) == Pass {
      PersistFacts(id, record, s[..2]);
      GreetFacts(id, s[2..]);
      FactsConcat(s[..2], s[2..]);
      assert s == s[..2] + s[2..];
    } else {
      PersistFacts(id, record, s);
    }
  }

  lemma BringUpFacts(id: string, dir: string, env: map<string, string>, record: Narrator, s: seq<Call>)
    requires BringUpCalls(id, dir, env, record, s)
    ensures StopsAtFatal(s) && SavedBeforeWaiting(s)
  {
    var k := |env.Keys| + 5;
    if |s| >= k && StartVerdict(s[..k]) == Pass {
      PrepareFacts(id, dir, env, s[..k]);
      CommitFacts(id, record, s[k..]);
      FactsConcat(s[..k], s[k..]);
      assert s == s[..k] + s[k..];
    } else {
      PrepareFacts(id, dir, env, s);
    }
  }

  /** Every start, whatever its collaborators answer, makes no call after a fatal step
      except the kill that cleans up after it, and waits for the agent only after the record
      was saved as running. */
  lemma StartFacts(id: string, dir: string, env: map<string, string>, before: map<string, bool>,
                   record: Narrator, s: seq<Call>)
    requires StartCalls(id, dir, env, before, record, s)
    ensures StopsAtFatal(s) && SavedBeforeWaiting(s)
  {
    var k := if s[0].SessionQuery? && s[0].answer == Some(true) then 3 else 1;
    if |s| >= k && StartVerdict(s[..k]) == Pass {
      ClearFacts(id, before, s[..k]);
      BringUpFacts(id, dir, env, record, s[k..]);
      FactsConcat(s[..k], s[k..]);
      assert s == s[..k] + s[k..];
    } else {
      ClearFacts(id, before, s);
    }
  }

  // ---------------------------------------------------------------------------------------
  // How a start ends

  /** The save and the wait fail with their own errors, the save's first. */
  lemma PersistVerdicts(id: string, record: Narrator, s: seq<Call>)
    requires PersistCalls(id, record, s)
    ensures StartVerdict(s) == if !s[0].ok then Fail(SavingState)
                               else if !s[1].ok then Fail(WaitingForStart) else Pass
  {
    var tail := s[1..];
    assert tail[0] == s[1];
    if s[0].ok && s[1].ok {
      assert tail[1..] == [];
      assert StartVerdict(tail) == StartVerdict(tail[1..]) == Pass;
    }
  }

  /** A commit fails only while saving or waiting. */
  lemma CommitVerdicts(id: string, record: Narrator, s: seq<Call>)
    requires CommitCalls(id, record, s)
    ensures StartVerdict(s) in {Pass, Fail(SavingState), Fail(WaitingForStart)}
  {
    if |s| >= 2 && StartVerdict(s[..2]) == Pass {
      GreetFacts(id, s[2..]);
      VerdictConcat(s[..2], s[2..]);
      assert s == s[..2] + s[2..];
    } else {
      PersistVerdicts(id, record, s);
    }
  }

  /** A bring-up never fails with an error of the check for an existing session. */
  lemma BringUpVerdicts(id: string, dir: string, env: map<string, string>, record: Narrator,
                        s: seq<Call>)
    requires BringUpCalls(id, dir, env, record, s)
    ensures StartVerdict(s) != Fail(AlreadyRunning) && StartVerdict(s) != Fail(KillingZombie)
  {
    var k := |env.Keys| + 5;
    if |s| >= k && StartVerdict(s[..k]) == Pass {
      CommittedVerdicts(id, record, s[..k], s[k..]);
      assert s == s[..k] + s[k..];
    } else {
      PrepareShape(id, dir, env, s);
    }
  }

  /** After a preparation that passed, the verdict is the commit's. */
  lemma CommittedVerdicts(id: string, record: Narrator, a: seq<Call>, b: seq<Call>)
    requires StartVerdict(a) == Pass && CommitCalls(id, record, b)
    ensures StartVerdict(a + b) != Fail(AlreadyRunning) && StartVerdict(a + b) != Fail(KillingZombie)
  {
    CommitVerdicts(id, record, b);
    VerdictConcat(a, b);
  }

  /** How the check for an existing session decides a start: a live agent makes it fail as
      already running after two calls; a dead one has its session killed first, and only a
      failed kill makes it fail as a zombie that could not be killed. No later step fails
      with either error. */
  predicate ClearDecides(id: string, before: map<string, bool>, s: seq<Call>)
  {
    |s| >= 1 && s[0].SessionQuery?
    && (StartVerdict(s) == Fail(AlreadyRunning) ==>
          id in before && before[id] && s == [SessionQuery(id, Some(true)), AgentQuery(id, true)])
    && ((id in before && !before[id] && s[0].answer.Some?) ==>
          |s| >= 3
          && s[..2] == [SessionQuery(id, Some(true)), AgentQuery(id, false)]
          && s[2].Kill? && s[2].id == id && !s[2].withProcesses
          && (s[2].ok <==> StartVerdict(s) != Fail(KillingZombie)))
    && (StartVerdict(s) == Fail(KillingZombie) ==>
          s == [SessionQuery(id, Some(true)), AgentQuery(id, false), Kill(id, false, false)])
    && (id in before && before[id] && s[0].answer.Some? ==> StartVerdict(s) == Fail(AlreadyRunning))
  }

  /** Every start is decided by its check for an existing session as `ClearDecides` says. */
  lemma StartOutcomes(id: string, dir: string, env: map<string, string>, before: map<string, bool>,
                      record: Narrator, s: seq<Call>)
    requires StartCalls(id, dir, env, before, record, s)
    ensures ClearDecides(id, before, s)
  {
    var k := if s[0].SessionQuery? && s[0].answer == Some(true) then 3 else 1;
    if |s| >= k && StartVerdict(s[..k]) == Pass {
      ClearedOutcomes(id, dir, env, before, record, s[..k], s[k..]);
      assert s == s[..k] + s[k..];
    } else {
      ClearOutcomes(id, before, s);
    }
  }

  /** A check that passed, followed by a bring-up, decides the start as the check did. */
  lemma ClearedOutcomes(id: string, dir: string, env: map<string, string>, before: map<string, bool>,
                        record: Narrator, a: seq<Call>, b: seq<Call>)
    requires ClearCalls(id, before, a) && StartVerdict(a) == Pass
    requires BringUpCalls(id, dir, env, record, b)
    ensures ClearDecides(id, before, a + b)
  {
    var s := a + b;
    BringUpVerdicts(id, dir, env, record, b);
    VerdictConcat(a, b);
    if |a| == 3 {
      ThreeVerdict(a);
      assert s[..2] == a[..2] == [a[0], a[1]];
      assert s[2] == a[2];
    }
    assert s[0] == a[0];
  }

  /** The verdict of the three calls for a dead agent is the kill's. */
  lemma ThreeVerdict(s: seq<Call>)
    requires |s| == 3 && StepVerdict(s[0]) == Pass && StepVerdict(s[1]) == Pass
    ensures StartVerdict(s) == StepVerdict(s[2])
  {
    var t := s[1..];
    assert t[0] == s[1];
    var u := t[1..];
    assert u == [s[2]] && u[1..] == [];
    assert StartVerdict(u) == StepVerdict(s[2]);
    assert StartVerdict(t) == StartVerdict(u);
  }

  /** A check for an existing session on its own decides the start by itself. */
  lemma ClearOutcomes(id: string, before: map<string, bool>, s: seq<Call>)
    requires ClearCalls(id, before, s)
    ensures ClearDecides(id, before, s)
  {
    if |s| == 3 {
      ThreeVerdict(s);
      assert s == [s[0], s[1], s[2]];
    } else if |s| == 2 {
      assert s[1..] == [s[1]] && s[1..][1..] == [];
      assert s == [s[0], s[1]];
      assert StartVerdict(s) == StartVerdict(s[1..]) == Fail(AlreadyRunning);
    } else {
      assert s[1..] == [];
      assert StartVerdict(s) == Pass;
    }
  }

  /** What a whole start guarantees about its calls: their shape, that none follows a fatal
      one except the cleanup kill, that the wait comes after the save, and how the check for
      an existing session decides it. Contracts compare it with `true`, as for the shapes. */
  predicate StartRun(id: string, dir: string, env: map<string, string>, before: map<string, bool>,
                     record: Narrator, s: seq<Call>)
  {
    StartCalls(id, dir, env, before, record, s) && StopsAtFatal(s) && SavedBeforeWaiting(s)
    && ClearDecides(id, before, s)
  }

  /** A check that passed, followed by a bring-up, is a whole start decided by the bring-up. */
  lemma StartJoined(id: string, dir: string, env: map<string, string>, before: map<string, bool>,
                    record: Narrator, a: seq<Call>, b: seq<Call>)
    requires ClearCalls(id, before, a) == true && StartVerdict(a) == Pass
    requires BringUpCalls(id, dir, env, record, b) == true
    ensures StartRun(id, dir, env, before, record, a + b)
    ensures StartVerdict(a + b) == StartVerdict(b)
    ensures |b| > 0 ==> (a + b)[|a + b| - 1] == b[|b| - 1]
  {
    StartJoin(id, dir, env, before, record, a, b);
    VerdictConcat(a, b);
    StartFacts(id, dir, env, before, record, a + b);
    StartOutcomes(id, dir, env, before, record, a + b);
  }

  /** A check that failed is a whole start on its own. */
  lemma StartStopped(id: string, dir: string, env: map<string, string>, before: map<string, bool>,
                     record: Narrator, a: seq<Call>)
    requires ClearCalls(id, before, a) == true && StartVerdict(a).Fail?
    ensures StartRun(id, dir, env, before, record, a)
  {
    StartAlone(id, dir, env, before, record, a);
    StartFacts(id, dir, env, before, record, a);
    StartOutcomes(id, dir, env, before, record, a);
  }

  // ---------------------------------------------------------------------------------------
  // The manager

  /** The lifecycle operations of one town's narrator. */
  class Manager {
    const townRoot: string
    /** The town-level session name prefix. */
    const sessionPrefix: string
    /** The environment the narrator's agent session gets in this town. */
    const agentEnv: map<string, string>

    constructor (townRoot: string, sessionPrefix: string, agentEnv: map<string, string>)
      ensures this.townRoot == townRoot && this.sessionPrefix == sessionPrefix
      ensures this.agentEnv == agentEnv
    {
      this.townRoot := townRoot;
      this.sessionPrefix := sessionPrefix;
      this.agentEnv := agentEnv;
    }

    /** The narrator's session name. */
    function SessionName(): string
    {
      sessionPrefix + "narrator"
    }

    /** The narrator's working directory. */
    function NarratorDir(): string
    {
      townRoot + "/narrator"
    }

    /** Starts the narrator's agent session. A live agent makes this an error and touches
        nothing; a session whose agent died is killed before anything is created. The calls
        are those of `StartCalls`, no call follows a fatal one except the kill that cleans
        up after it, and the result is the error of the first fatal step. A failure after
        the record was saved as Running still leaves that record. */
    method Start(host: Host, agentOverride: string, now: Time)
      returns (r: Outcome<ManagerError>, ghost steps: seq<Call>)
      modifies host`log, host`sessions, host`dirs, host`narratorRecord
      ensures host.log == old(host.log) + steps
      ensures StartRun(SessionName(), NarratorDir(), agentEnv, old(host.sessions),
                       StartedRecord(old(host.narratorRecord), now), steps) == true
      ensures r == StartVerdict(steps)
      ensures host.ledger == old(host.ledger) && host.files == old(host.files)
      ensures r == Fail(AlreadyRunning) || r == Fail(KillingZombie) ==>
        host.sessions == old(host.sessions) && host.dirs == old(host.dirs)
      ensures r.Fail? && r.error != WaitingForStart ==> host.narratorRecord == old(host.narratorRecord)
      ensures r == Pass || r == Fail(WaitingForStart) ==>
        host.narratorRecord == Some(StartedRecord(old(host.narratorRecord), now))
      ensures r == Pass ==>
        SessionName() in host.sessions && host.sessions[SessionName()] && NarratorDir() in host.dirs
      ensures r == Fail(SavingState) || r == Fail(WaitingForStart) ==>
        var last := steps[|steps| - 1];
        last.Kill? && last.id == SessionName() && (last.withProcesses <==> r == Fail(WaitingForStart))
    {
      ghost var log := host.log;
      var id := SessionName();
      ghost var record := StartedRecord(host.narratorRecord, now);
      ghost var before := host.sessions;
      r, steps := ClearZombie(host, id);
      if r.Fail? {
        StartStopped(id, NarratorDir(), agentEnv, before, record, steps);
        return;
      }
      ghost var rest;
      r, rest := BringUp(host, id, NarratorDir(), agentOverride, now);
      StartJoined(id, NarratorDir(), agentEnv, before, record, steps, rest);
      LogExtended(log, steps, rest);
      steps := steps + rest;
    }

    /** Everything after the check for an existing session: launch, configure, persist and
        greet, stopping at the first fatal failure. */
    method BringUp(host: Host, id: string, dir: string, agentOverride: string, now: Time)
      returns (r: Outcome<ManagerError>, ghost steps: seq<Call>)
      modifies host`log, host`sessions, host`dirs, host`narratorRecord
      ensures host.log == old(host.log) + steps && r == StartVerdict(steps)
      ensures BringUpCalls(id, dir, agentEnv, StartedRecord(old(host.narratorRecord), now), steps) == true
      ensures r in {Pass, Fail(CreatingDirectory), Fail(EnsuringSettings), Fail(BuildingCommand),
                    Fail(CreatingSession), Fail(SavingState), Fail(WaitingForStart)}
      ensures r.Fail? && r.error != WaitingForStart ==> host.narratorRecord == old(host.narratorRecord)
      ensures r == Pass || r == Fail(WaitingForStart) ==>
        host.narratorRecord == Some(StartedRecord(old(host.narratorRecord), now))
      ensures r == Pass ==> id in host.sessions && host.sessions[id] && dir in host.dirs
      ensures r == Fail(SavingState) || r == Fail(WaitingForStart) ==>
        var last := steps[|steps| - 1];
        last.Kill? && last.id == id && (last.withProcesses <==> r == Fail(WaitingForStart))
    {
      ghost var log := host.log;
      r, steps := Prepare(host, id, dir, agentOverride);
      PrepareShape(id, dir, agentEnv, steps);
      if r.Fail? {
        BringUpAlone(id, dir, agentEnv, StartedRecord(host.narratorRecord, now), steps);
        return;
      }
      ghost var committed;
      ghost var record := StartedRecord(host.narratorRecord, now);
      r, committed := Commit(host, id, dir, now);
      BringUpJoin(id, dir, agentEnv, record, steps, committed);
      VerdictConcat(steps, committed);
      LogExtended(log, steps, committed);
      steps := steps + committed;
    }

    /** Persists the record and waits for the agent, then greets it when both passed. */
    method Commit(host: Host, id: string, dir: string, now: Time)
      returns (r: Outcome<ManagerError>, ghost steps: seq<Call>)
      modifies host`log, host`sessions, host`narratorRecord
      ensures host.log == old(host.log) + steps && r == StartVerdict(steps)
      ensures CommitCalls(id, StartedRecord(old(host.narratorRecord), now), steps)
      ensures r == Pass || r == Fail(SavingState) || r == Fail(WaitingForStart)
      ensures r == Fail(SavingState) ==> host.narratorRecord == old(host.narratorRecord)
      ensures r != Fail(SavingState) ==>
        host.narratorRecord == Some(StartedRecord(old(host.narratorRecord), now))
      ensures r == Pass ==> id in host.sessions && host.sessions[id]
      ensures r.Fail? ==>
        var last := steps[|steps| - 1];
        last.Kill? && last.id == id && (last.withProcesses <==> r == Fail(WaitingForStart))
    {
      ghost var log := host.log;
      ghost var record := StartedRecord(host.narratorRecord, now);
      r, steps := Persist(host, id, now);
      if r.Fail? {
        CommitAlone(id, record, steps);
        return;
      }
      ghost var greeted := Greet(host, id, dir);
      CommitJoin(id, record, steps, greeted);
      VerdictConcat(steps, greeted);
      LogExtended(log, steps, greeted);
      steps := steps + greeted;
    }

    /** Launches the session and, when that passed, configures it. */
    method Prepare(host: Host, id: string, dir: string, agentOverride: string)
      returns (r: Outcome<ManagerError>, ghost steps: seq<Call>)
      modifies host`log, host`sessions, host`dirs
      ensures host.log == old(host.log) + steps && r == StartVerdict(steps)
      ensures PrepareCalls(id, dir, agentEnv, steps)
      ensures r == Pass ==> id in host.sessions && dir in host.dirs
    {
      ghost var log := host.log;
      r, steps := Launch(host, id, dir, agentOverride);
      if r.Fail? {
        PrepareAlone(id, dir, agentEnv, steps);
        return;
      }
      ghost var configured := Configure(host, id);
      ConfiguredHarmless(id, agentEnv, configured);
      PrepareJoin(id, dir, agentEnv, steps, configured);
      VerdictConcat(steps, configured);
      LogExtended(log, steps, configured);
      steps := steps + configured;
    }

    /** The check for an existing session: a live agent stops the start; a session whose
        agent died is killed, and a failed kill stops the start. A failed check counts as no
        session. */
    method ClearZombie(host: Host, id: string) returns (r: Outcome<ManagerError>, ghost steps: seq<Call>)
      modifies host`log, host`sessions
      ensures host.log == old(host.log) + steps && r == StartVerdict(steps)
      ensures ClearCalls(id, old(host.sessions), steps) == true
      ensures host.sessions == if |steps| == 3 && steps[2].ok then old(host.sessions) - {id}
                               else old(host.sessions)
      ensures ClearDecides(id, old(host.sessions), steps) == true
      ensures r == Pass || r == Fail(AlreadyRunning) || r == Fail(KillingZombie)
    {
      ghost var before := host.sessions;
      var answer := host.HasSession(id);
      steps := [SessionQuery(id, answer)];
      r := Pass;
      if answer == Some(true) {
        var alive := host.IsClaudeRunning(id);
        VerdictConcat(steps, [AgentQuery(id, alive)]);
        steps := steps + [AgentQuery(id, alive)];
        if alive {
          r := Fail(AlreadyRunning);
        } else {
          var killed := host.KillSession(id);
          VerdictConcat(steps, [Kill(id, false, killed)]);
          steps := steps + [Kill(id, false, killed)];
          if !killed {
            r := Fail(KillingZombie);
          }
        }
      }
      ClearOutcomes(id, before, steps);
    }

    /** Directory, settings, startup command and session creation, in that order, each
        fatal when it fails. */
    method Launch(host: Host, id: string, dir: string, agentOverride: string)
      returns (r: Outcome<ManagerError>, ghost steps: seq<Call>)
      modifies host`log, host`sessions, host`dirs
      ensures host.log == old(host.log) + steps && r == StartVerdict(steps)
      ensures LaunchCalls(id, dir, steps)
      ensures r == Pass ==> |steps| == 4
      ensures r == Pass ==> id in host.sessions && dir in host.dirs
      ensures r in {Pass, Fail(CreatingDirectory), Fail(EnsuringSettings), Fail(BuildingCommand),
                    Fail(CreatingSession)}
    {
      steps := [];
      var made := host.MkdirAll(dir);
      steps := steps + [MakeDir(dir, made)];
      if !made {
        return Fail(CreatingDirectory), steps;
      }
      var settled := host.EnsureSettingsForRole(dir, "narrator");
      VerdictConcat(steps, [Settings(dir, "narrator", settled)]);
      steps := steps + [Settings(dir, "narrator", settled)];
      if !settled {
        return Fail(EnsuringSettings), steps;
      }
      var command := host.BuildStartupCommand("narrator", townRoot, agentOverride);
      VerdictConcat(steps, [StartupCommand("narrator", command)]);
      steps := steps + [StartupCommand("narrator", command)];
      if command.None? {
        return Fail(BuildingCommand), steps;
      }
      var created := host.NewSessionWithCommand(id, dir, command.value);
      VerdictConcat(steps, [Create(id, dir, command.value, created)]);
      steps := steps + [Create(id, dir, command.value, created)];
      if !created {
        return Fail(CreatingSession), steps;
      }
      r := Pass;
    }

    /** The session's environment, one call per variable, and its theme, all best-effort. */
    method Configure(host: Host, id: string) returns (ghost steps: seq<Call>)
      modifies host`log
      ensures host.log == old(host.log) + steps
      ensures ConfigureCalls(id, agentEnv, steps)
    {
      ghost var vars := SetVariables(host, id);
      var themed := host.ConfigureGasTownSession(id);
      ConfigureCallsThemed(id, agentEnv, vars, Theme(id, themed));
      steps := vars + [Theme(id, themed)];
    }

    /** One environment call per variable of the agent's environment, in any order. */
    method SetVariables(host: Host, id: string) returns (ghost steps: seq<Call>)
      modifies host`log
      ensures host.log == old(host.log) + steps
      ensures |steps| == |agentEnv.Keys| && EnvKeys(steps) == agentEnv.Keys
      ensures forall k :: 0 <= k < |steps| ==>
        steps[k].SetEnv? && steps[k].id == id && steps[k].key in agentEnv
        && steps[k].value == agentEnv[steps[k].key]
    {
      steps := [];
      var env := agentEnv;
      var remaining := env.Keys;
      while remaining != {}
        invariant remaining <= env.Keys
        invariant host.log == old(host.log) + steps
        invariant |steps| + |remaining| == |env.Keys|
        invariant forall k :: 0 <= k < |steps| ==>
          steps[k].SetEnv? && steps[k].id == id && steps[k].key in env && steps[k].value == env[steps[k].key]
        invariant EnvKeys(steps) == env.Keys - remaining
        decreases |remaining|
      {
        var key :| key in remaining;
        var ok := host.SetEnvironment(id, key, env[key]);
        var call := SetEnv(id, key, env[key], ok);
        EnvKeysSnoc(steps, call);
        LogExtended(old(host.log), steps, [call]);
        steps := steps + [call];
        remaining := remaining - {key};
      }
    }

    /** Saves the record as Running since `now`, then waits for the agent; either failing
        is fatal and kills the session (with its processes, after the wait) best-effort. */
    method Persist(host: Host, id: string, now: Time) returns (r: Outcome<ManagerError>, ghost steps: seq<Call>)
      modifies host`log, host`sessions, host`narratorRecord
      ensures host.log == old(host.log) + steps && r == StartVerdict(steps)
      ensures PersistCalls(id, StartedRecord(old(host.narratorRecord), now), steps)
      ensures r == Pass || r == Fail(SavingState) || r == Fail(WaitingForStart)
      ensures r == Fail(SavingState) ==> host.narratorRecord == old(host.narratorRecord)
      ensures r != Fail(SavingState) ==>
        host.narratorRecord == Some(StartedRecord(old(host.narratorRecord), now))
      ensures r == Pass ==> id in host.sessions && host.sessions[id]
      ensures r.Fail? ==>
        var last := steps[|steps| - 1];
        last.Kill? && last.id == id && (last.withProcesses <==> r == Fail(WaitingForStart))
    {
      var record := StartedRecord(host.narratorRecord, now);
      var saved := host.SaveNarrator(record);
      steps := [SaveRecord(record, saved)];
      if !saved {
        var cleaned := host.KillSession(id);
        VerdictConcat(steps, [Kill(id, false, cleaned)]);
        steps := steps + [Kill(id, false, cleaned)];
        return Fail(SavingState), steps;
      }
      var ready := host.WaitForCommand(id);
      VerdictConcat(steps, [WaitReady(id, ready)]);
      steps := steps + [WaitReady(id, ready)];
      assert steps[0].SaveRecord? && steps[0].ok;
      if !ready {
        var cleaned := host.KillSessionWithProcesses(id);
        VerdictConcat(steps, [Kill(id, true, cleaned)]);
        steps := steps + [Kill(id, true, cleaned)];
        assert steps[0].SaveRecord? && steps[0].ok;
        return Fail(WaitingForStart), steps;
      }
      r := Pass;
    }

    /** The permissions dialog, the startup nudge and the propulsion nudge, all
        best-effort. */
    method Greet(host: Host, id: string, dir: string) returns (ghost steps: seq<Call>)
      modifies host`log
      ensures host.log == old(host.log) + steps && StartVerdict(steps) == Pass
      ensures GreetCalls(id, steps)
    {
      var accepted := host.AcceptBypassPermissionsWarning(id);
      var noticed := host.StartupNudge(id, "narrator", "daemon", "observe");
      var text := host.PropulsionNudgeForRole("narrator", dir);
      var nudged := host.NudgeSession(id, text);
      steps := [AcceptBypass(id, accepted), StartupNotice(id, "narrator", "daemon", "observe", noticed),
                Nudge(id, text, nudged)];
      VerdictIsFirstFatalStep(steps);
    }

    /** Stops the narrator's session and records it as stopped: the session check, the
        interrupt, the kill and the save, in that order. Without a session there is nothing
        to stop; a failed kill leaves both the session and the record as they were. */
    method Stop(host: Host) returns (r: Outcome<ManagerError>, ghost steps: seq<Call>)
      modifies host`log, host`sessions, host`narratorRecord
      ensures host.log == old(host.log) + steps
      ensures |steps| >= 1 && steps[0].SessionQuery? && steps[0].id == SessionName()
      ensures steps[0].answer == None ==> r == Fail(CheckingSession) && |steps| == 1
      ensures steps[0].answer == Some(false) ==> r == Fail(NotRunning) && |steps| == 1
      ensures steps[0].answer == Some(true) ==>
        |steps| >= 3 && steps[1].Keys? && steps[1].id == SessionName() && steps[1].keys == "C-c"
        && steps[2].Kill? && steps[2].id == SessionName() && !steps[2].withProcesses
      ensures steps[0].answer == Some(true) && !steps[2].ok ==>
        |steps| == 3 && r == Fail(KillingSession)
      ensures steps[0].answer == Some(true) && steps[2].ok ==>
        |steps| == 4 && steps[3].SaveRecord?
        && steps[3].record == StoppedRecord(old(host.narratorRecord))
        && (r == Pass <==> steps[3].ok)
      ensures r == Fail(NotRunning) ==> SessionName() !in old(host.sessions)
      ensures r == Fail(CheckingSession) || r == Fail(NotRunning) || r == Fail(KillingSession) ==>
        host.sessions == old(host.sessions) && host.narratorRecord == old(host.narratorRecord)
      ensures r == Pass || r == Fail(SavingState) ==>
        SessionName() in old(host.sessions) && host.sessions == old(host.sessions) - {SessionName()}
      ensures r == Pass ==> host.narratorRecord == Some(StoppedRecord(old(host.narratorRecord)))
      ensures r == Fail(SavingState) ==> host.narratorRecord == old(host.narratorRecord)
      ensures r in {Pass, Fail(NotRunning), Fail(CheckingSession), Fail(KillingSession), Fail(SavingState)}
    {
      var id := SessionName();
      var answer := host.HasSession(id);
      steps := [SessionQuery(id, answer)];
      if answer.None? {
        return Fail(CheckingSession), steps;
      }
      if !answer.value {
        return Fail(NotRunning), steps;
      }
      // Graceful interrupt first; best-effort.
      var interrupted := host.SendKeysRaw(id, "C-c");
      var killed := host.KillSession(id);
      steps := steps + [Keys(id, "C-c", interrupted), Kill(id, false, killed)];
      if !killed {
        return Fail(KillingSession), steps;
      }
      var record := StoppedRecord(host.narratorRecord);
      var saved := host.SaveNarrator(record);
      steps := steps + [SaveRecord(record, saved)];
      r := if saved then Pass else Fail(SavingState);
    }

    /** Whether the narrator's session exists, or None when the multiplexer cannot tell. */
    method IsRunning(host: Host) returns (running: Option<bool>)
      modifies host`log
      ensures running == None || running == Some(SessionName() in host.sessions)
      ensures host.log == old(host.log) + [SessionQuery(SessionName(), running)]
    {
      running := host.HasSession(SessionName());
    }

    /** The narrator's persisted record; the default one when none was saved. */
    method Status(host: Host) returns (n: Narrator)
      ensures host.narratorRecord.Some? ==> n == host.narratorRecord.value
      ensures host.narratorRecord.None? ==> n == DefaultNarrator()
    {
      n := Loaded(host.narratorRecord);
    }
  }
}
