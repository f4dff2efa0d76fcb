/** The external collaborators of the narrator and the mail router, gathered into one host:
    the terminal multiplexer's sessions, the file system, the narrator's persisted record,
    the `bd` work ledger and the agent configuration helpers. Every effectful call appends
    an entry, with its outcome, to a ghost log, and its success is chosen nondeterministically,
    so that the callers are verified against every possible behaviour of the collaborators. */
module Platform {
  import opened Util
  import opened NarratorTypes

  const Newline: byte := 10

  /** One call into a collaborator, with what it answered. */
  datatype Call =
    | SessionQuery(id: string, answer: Option<bool>)          // HasSession; None is an error
    | AgentQuery(id: string, running: bool)                   // IsClaudeRunning
    | Kill(id: string, withProcesses: bool, ok: bool)         // KillSession / KillSessionWithProcesses
    | Create(id: string, dir: string, command: string, ok: bool) // NewSessionWithCommand
    | SetEnv(id: string, key: string, value: string, ok: bool) // SetEnvironment
    | Theme(id: string, ok: bool)                             // ConfigureGasTownSession
    | WaitReady(id: string, ok: bool)                         // WaitForCommand
    | AcceptBypass(id: string, ok: bool)                      // AcceptBypassPermissionsWarning
    | StartupNotice(id: string, recipient: string, sender: string, topic: string, ok: bool)
    | Nudge(id: string, message: string, ok: bool)            // NudgeSession
    | Keys(id: string, keys: string, ok: bool)                // SendKeysRaw
    | Banner(id: string, from: string, subject: string, ok: bool) // SendNotificationBanner
    | MakeDir(path: string, ok: bool)                         // os.MkdirAll
    | Settings(dir: string, role: string, ok: bool)           // claude.EnsureSettingsForRole
    | StartupCommand(role: string, built: Option<string>)     // config.BuildAgentStartupCommand...
    | SaveRecord(record: Narrator, ok: bool)                  // StateManager.Save
    | Exec(dir: string, args: seq<string>, agentName: string, ok: bool, stderr: string)

  /** What opening a file gives. */
  datatype OpenResult = NotExist | OpenFailed | Opened(content: seq<byte>)

  /** The lines of a byte stream as a line scanner yields them: the pieces between newline
      bytes, the last one included only when it is not empty. */
  function Lines(data: seq<byte>): (lines: seq<seq<byte>>)
    ensures forall k :: 0 <= k < |lines| ==> Newline !in lines[k]
    ensures data == [] <==> lines == []
    decreases |data|
  {
    if data == [] then []
    else
      var i := IndexOf(data, Newline);
      if i == |data| then [data] else [data[..i]] + Lines(data[i + 1..])
  }

  /** A stream that is empty or ends with a newline holds only complete lines. */
  predicate WholeLines(data: seq<byte>)
  {
    data == [] || data[|data| - 1] == Newline
  }

  /** Scanning complete lines and then whatever follows gives the lines of the whole stream:
      a reader that resumes after complete lines neither loses nor repeats one. */
  lemma {:induction false} LinesAppend(a: seq<byte>, b: seq<byte>)
    requires WholeLines(a)
    ensures Lines(a + b) == Lines(a) + Lines(b)
    decreases |a|
  {
    if a == [] {
      assert a + b == b;
    } else {
      var line, rest := FirstLine(a);
      var tail := rest + b;
      assert a + b == line + [Newline] + tail;
      calc {
        Lines(a + b);
        { LinesCons(line, tail); }
        [line] + Lines(tail);
        { LinesAppend(rest, b); }
        [line] + (Lines(rest) + Lines(b));
        ([line] + Lines(rest)) + Lines(b);
        { LinesCons(line, rest); }
        Lines(a) + Lines(b);
      }
    }
  }

  /** A non-empty stream of complete lines is a first line, its newline and more complete
      lines. */
  lemma FirstLine(a: seq<byte>) returns (line: seq<byte>, rest: seq<byte>)
    requires WholeLines(a) && a != []
    ensures Newline !in line && a == line + [Newline] + rest && WholeLines(rest)
  {
    var i := IndexOf(a, Newline);
    line, rest := a[..i], a[i + 1..];
    assert a == line + [Newline] + rest;
    if rest != [] {
      assert rest[|rest| - 1] == a[|a| - 1];
    }
  }

  /** A newline-free piece followed by a newline is the first line. */
  lemma LinesCons(line: seq<byte>, rest: seq<byte>)
    requires Newline !in line
    ensures Lines(line + [Newline] + rest) == [line] + Lines(rest)
  {
    var s := line + [Newline] + rest;
    IndexOfFirst(s, Newline, |line|);
    assert s[..|line|] == line;
    assert s[|line| + 1..] == rest;
  }

  class Host {
    /** Live terminal sessions, each with whether the agent process inside it is running. */
    var sessions: map<string, bool>
    var dirs: set<string>
    var files: map<string, seq<byte>>
    /** The narrator's persisted record; None when no record has been written. */
    var narratorRecord: Option<Narrator>
    /** Argument lists of the records the `bd` ledger has created. */
    var ledger: seq<seq<string>>
    ghost var log: seq<Call>

    constructor ()
      ensures sessions == map[] && dirs == {} && files == map[]
      ensures narratorRecord == None && ledger == [] && log == []
    {
      sessions, dirs, files := map[], {}, map[];
      narratorRecord, ledger, log := None, [], [];
    }

    method HasSession(id: string) returns (answer: Option<bool>)
      modifies this`log
      ensures answer == None || answer == Some(id in sessions)
      ensures log == old(log) + [SessionQuery(id, answer)]
    {
      var failed: bool :| true;
      answer := if failed then None else Some(id in sessions);
      log := log + [SessionQuery(id, answer)];
    }

    method IsClaudeRunning(id: string) returns (running: bool)
      modifies this`log
      ensures running == (id in sessions && sessions[id])
      ensures log == old(log) + [AgentQuery(id, running)]
    {
      running := id in sessions && sessions[id];
      log := log + [AgentQuery(id, running)];
    }

    method KillSession(id: string) returns (ok: bool)
      modifies this`sessions, this`log
      ensures sessions == if ok then old(sessions) - {id} else old(sessions)
      ensures log == old(log) + [Kill(id, false, ok)]
    {
      ok :| true;
      if ok { sessions := sessions - {id}; }
      log := log + [Kill(id, false, ok)];
    }

    method KillSessionWithProcesses(id: string) returns (ok: bool)
      modifies this`sessions, this`log
      ensures sessions == if ok then old(sessions) - {id} else old(sessions)
      ensures log == old(log) + [Kill(id, true, ok)]
    {
      ok :| true;
      if ok { sessions := sessions - {id}; }
      log := log + [Kill(id, true, ok)];
    }

    /** Creates the session running `command`; the agent is not yet known to be up. */
    method NewSessionWithCommand(id: string, dir: string, command: string) returns (ok: bool)
      modifies this`sessions, this`log
      ensures sessions == if ok then old(sessions)[id := false] else old(sessions)
      ensures log == old(log) + [Create(id, dir, command, ok)]
    {
      ok :| true;
      if ok { sessions := sessions[id := false]; }
      log := log + [Create(id, dir, command, ok)];
    }

    method SetEnvironment(id: string, key: string, value: string) returns (ok: bool)
      modifies this`log
      ensures log == old(log) + [SetEnv(id, key, value, ok)]
    {
      ok :| true;
      log := log + [SetEnv(id, key, value, ok)];
    }

    method ConfigureGasTownSession(id: string) returns (ok: bool)
      modifies this`log
      ensures log == old(log) + [Theme(id, ok)]
    {
      ok :| true;
      log := log + [Theme(id, ok)];
    }

    /** Waits, bounded by a timeout, until the session runs the agent rather than a shell. */
    method WaitForCommand(id: string) returns (ok: bool)
      modifies this`sessions, this`log
      ensures ok ==> id in old(sessions)
      ensures sessions == if ok then old(sessions)[id := true] else old(sessions)
      ensures log == old(log) + [WaitReady(id, ok)]
    {
      ok :| id in sessions || !ok;
      if ok { sessions := sessions[id := true]; }
      log := log + [WaitReady(id, ok)];
    }

    method AcceptBypassPermissionsWarning(id: string) returns (ok: bool)
      modifies this`log
      ensures log == old(log) + [AcceptBypass(id, ok)]
    {
      ok :| true;
      log := log + [AcceptBypass(id, ok)];
    }

    method StartupNudge(id: string, recipient: string, sender: string, topic: string) returns (ok: bool)
      modifies this`log
      ensures log == old(log) + [StartupNotice(id, recipient, sender, topic, ok)]
    {
      ok :| true;
      log := log + [StartupNotice(id, recipient, sender, topic, ok)];
    }

    /** The propulsion text for a role; its wording is not part of this model. */
    method PropulsionNudgeForRole(role: string, dir: string) returns (text: string)
    {
      text :| true;
    }

    method NudgeSession(id: string, message: string) returns (ok: bool)
      modifies this`log
      ensures log == old(log) + [Nudge(id, message, ok)]
    {
      ok :| true;
      log := log + [Nudge(id, message, ok)];
    }

    method SendKeysRaw(id: string, keys: string) returns (ok: bool)
      modifies this`log
      ensures log == old(log) + [Keys(id, keys, ok)]
    {
      ok :| true;
      log := log + [Keys(id, keys, ok)];
    }

    method SendNotificationBanner(id: string, from: string, subject: string) returns (ok: bool)
      modifies this`log
      ensures log == old(log) + [Banner(id, from, subject, ok)]
    {
      ok :| true;
      log := log + [Banner(id, from, subject, ok)];
    }

    method MkdirAll(path: string) returns (ok: bool)
      modifies this`dirs, this`log
      ensures dirs == if ok then old(dirs) + {path} else old(dirs)
      ensures log == old(log) + [MakeDir(path, ok)]
    {
      ok :| true;
      if ok { dirs := dirs + {path}; }
      log := log + [MakeDir(path, ok)];
    }

    method EnsureSettingsForRole(dir: string, role: string) returns (ok: bool)
      modifies this`log
      ensures log == old(log) + [Settings(dir, role, ok)]
    {
      ok :| true;
      log := log + [Settings(dir, role, ok)];
    }

    /** The agent's startup command line, or None when it cannot be built. */
    method BuildStartupCommand(role: string, townRoot: string, agentOverride: string)
      returns (command: Option<string>)
      modifies this`log
      ensures log == old(log) + [StartupCommand(role, command)]
    {
      command :| true;
      log := log + [StartupCommand(role, command)];
    }

    /** Atomic write of the narrator record. */
    method SaveNarrator(record: Narrator) returns (ok: bool)
      modifies this`narratorRecord, this`log
      ensures narratorRecord == if ok then Some(record) else old(narratorRecord)
      ensures log == old(log) + [SaveRecord(record, ok)]
    {
      ok :| true;
      if ok { narratorRecord := Some(record); }
      log := log + [SaveRecord(record, ok)];
    }

    /** Runs `bd` with `args` in `dir`; a successful `create` adds a ledger record. */
    method RunBd(dir: string, args: seq<string>, agentName: string) returns (ok: bool, stderr: string)
      modifies this`ledger, this`log
      ensures ledger == if ok then old(ledger) + [args] else old(ledger)
      ensures log == old(log) + [Exec(dir, args, agentName, ok, stderr)]
    {
      ok :| true;
      stderr :| true;
      if ok { ledger := ledger + [args]; }
      log := log + [Exec(dir, args, agentName, ok, stderr)];
    }

    /** os.Open: a missing file is told apart from any other failure to open. */
    method Open(path: string) returns (r: OpenResult)
      ensures path !in files ==> r == NotExist
      ensures path in files ==> r == OpenFailed || r == Opened(files[path])
    {
      if path !in files {
        r := NotExist;
      } else {
        var failed: bool :| true;
        r := if failed then OpenFailed else Opened(files[path]);
      }
    }

    /** A line scanner over `data`: a clean scan yields every line; a scan that fails
        (an over-long line, a read error) yields the lines before the failure. */
    method Scan(data: seq<byte>) returns (lines: seq<seq<byte>>, failed: bool)
      ensures !failed ==> lines == Lines(data)
      ensures failed ==> lines <= Lines(data)
    {
      failed :| true;
      var all := Lines(data);
      if failed {
        var k :| 0 <= k <= |all|;
        lines := all[..k];
      } else {
        lines := all;
      }
    }
  }
}
