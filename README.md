# Gas Town narrator and mail router — a Dafny model

This project models three parts of Gas Town, a multi-agent coding workspace.

- **Narrator event reader** (`internal/narrator/events.go`). It reads the town's append-only
  activity log (`.events.jsonl`) from a byte offset and skips blank and malformed lines. Each
  event gets a significance tier, the rig and role of its actor, and a one-line summary
  filled in from its payload. Five filters keep order-preserving subsequences of the
  classified events.
- **Narrator lifecycle** (`internal/narrator/manager.go`, `internal/narrator/types.go`).
  `Start` brings up the narrator's agent session. On the way it replaces a zombie session
  (one whose agent process has died), saves the `Narrator` record as running and waits for
  the agent. `Stop` interrupts and kills the session and marks the record stopped. `Status`
  and `IsRunning` report.
- **Mail router** (`internal/mail/router.go`). `Send` stores a message as a `bd create`
  ledger issue. Each field becomes a flag, and the metadata becomes comma-joined labels.
  `Send` then shows a best-effort banner in the recipient's terminal session;
  `addressToSessionID` derives that session from the mail address.

Layout:

- `util.dfy` (`Util`): `Option`, `Outcome`, `byte`, and the Go string operations the core
  uses. `strings.Split`, `SplitN(_, _, 2)`, `Join`, `TrimSpace` and `%d` each have a partner
  lemma; `HasPrefix` is a plain definition.
- `narrator_types.dfy` (`NarratorTypes`): the persisted record and its configuration.
- `platform.dfy` (`Platform`): class `Host`, a single object standing for every external
  collaborator.
  - It holds the terminal multiplexer's sessions, the directories, the files, the
    `narrator.json` record and the `bd` ledger, plus a ghost log with one `Call` per
    collaborator call.
  - The outcome of each call is chosen nondeterministically (`:|`), so every proof holds for
    every success/failure pattern.
  - It also holds the line splitter that stands for the line scanner.
- `events.dfy` (`Events`): classification, extraction, summaries, filters and the
  `EventReader` class.
- `manager.dfy` (`Manager`): the `Manager` class.
  - `Start` is split into phase methods that follow the source's blocks. Each phase
    returns the calls it made, and `Staged` gives the exact shape of those calls for each
    phase (`LaunchCalls`, `ConfigureCalls`, ..., `StartCalls`).
  - The result of every phase is `StartVerdict` of its calls, the error of the first fatal
    step. The lemmas `StartFacts` and `StartOutcomes` draw the promised properties out of
    the shape of a whole start.
- `mail.dfy` (`MailRouter`): the session address, the `create` arguments and the `Router`
  class.

Where the code and its comments disagree, the model follows the code. `ReadAll` goes
through the same path as every read, so a clean `ReadAll` moves the offset to the end
of the file. This contradicts the doc comment on `ReadAll` (internal/narrator/events.go:98),
which says it does not update the offset.

A read that ends inside a half-written last line loses that line's event. The scanner
hands the fragment over as a line, the fragment does not decode and is skipped as
malformed, and the offset still moves to the end of the file. The next read then starts in
the middle of the completed line, so the completed event is never returned.
`Events.TornLineIsLost` shows this on a three-byte log. `Events.ResumeSeesEveryEventOnce`
proves the resumption property for a read that ended on a complete line.

## Model

| member | source | states |
|---|---|---|
| NarratorTypes.DefaultConfig | internal/narrator/types.go:62-74 | book style, no output directory, no type or rig filter; an empty filter admits every event type and every rig |
| Events.SignificanceOrder | internal/narrator/events.go:18-46 | the four tiers are ordered none < low < medium < high by their integers, and each tier has its own integer and its own name |
| Events.ClassifySignificance | internal/narrator/events.go:171-240 | None exactly for audit visibility, whatever the type; otherwise High exactly for the ten lifecycle types, Medium exactly for the ten coordination types, Low for every other type, listed or unknown |
| Events.GetPayloadString | internal/narrator/events.go:508-517 | a non-empty result is the string stored under the key; a string value under the key is returned; a nil payload, a missing key or a non-string gives "" |
| Events.GetPayloadInt | internal/narrator/events.go:519-528 | a non-zero result is the number stored under the key; a number under the key is returned; anything else gives 0 |
| Events.ExtractRig | internal/narrator/events.go:242-264 | a non-empty string payload "rig" wins; otherwise a non-empty result is the actor's first `/`-segment, not town-level; the result is empty exactly when that segment is empty or mayor/deacon/gt |
| Events.RigRole | internal/narrator/events.go:282-295 | witness/refinery/narrator stand for themselves, crew is crew, and every other second segment (polecats included) is polecat |
| Events.ExtractRole | internal/narrator/events.go:266-299 | empty actor gives ""; a single segment gives itself when town-level and "" otherwise; a longer path gives the rig role of its second segment; the role is always "", town-level or a rig role |
| Events.BuildSummary | internal/narrator/events.go:301-506 | an unknown type is summarised by its own name; every known type gets a non-empty summary |
| Events.SummaryFallback | internal/narrator/events.go:301-506 | types without a template always get their fixed text; for the others the summary is the fixed text exactly when a required string field is empty or the required count is not positive |
| Events.SelectMembers | internal/narrator/events.go:530-597 | an event is kept by a filter exactly when it is in the input and meets the filter's criterion |
| Events.SelectIsSubsequence | internal/narrator/events.go:530-597 | every filter keeps an order-preserving subsequence of its input |
| Events.SelectAppend | internal/narrator/events.go:530-597 | filtering distributes over concatenation |
| Events.SelectCommutes | internal/narrator/events.go:530-597 | any two filters compose in either order with the same result |
| Events.TypesPartition | internal/narrator/events.go:567-597 | for one type list, the events kept by FilterByTypes and by ExcludeTypes together are exactly the input (as a multiset, and so also by count) |
| Events.LowestThresholdKeepsAll | internal/narrator/events.go:541-550 | filtering at significance None keeps every event |
| Events.Retain | internal/narrator/events.go:530-597 | the shared filtering loop returns exactly the events meeting the criterion, in order |
| Events.FilterByRig | internal/narrator/events.go:530-539 | the events whose rig is the given rig, in order |
| Events.FilterBySignificance | internal/narrator/events.go:541-550 | the events whose tier is at least the minimum, in order |
| Events.FilterByTimeRange | internal/narrator/events.go:552-565 | the events whose timestamp parses to an instant in [start, end), in order; unparsable timestamps are dropped |
| Events.TypeSet | internal/narrator/events.go:569-572 | the set built from a type list holds exactly the listed types |
| Events.FilterByTypes | internal/narrator/events.go:567-581 | the events of a listed type, in order |
| Events.ExcludeTypes | internal/narrator/events.go:583-597 | the events of no listed type, in order |
| Events.DecodedMembers | internal/narrator/events.go:122-138 | an event is read exactly when some line is not blank and decodes to it |
| Events.DecodedNarrated | internal/narrator/events.go:153-169 | every event read carries the significance, rig, role and summary computed from its own event |
| Events.DecodedAppend | internal/narrator/events.go:122-138 | the events of two runs of lines are the events of each run, concatenated |
| Events.Unread | internal/narrator/events.go:114-120 | a non-positive start reads from the beginning, a start inside the file reads the bytes after it, a start at or past the end reads nothing |
| Events.PositionAfterScan | internal/narrator/events.go:144-148 | after a complete scan the position is the end of the file, or the start when the start lay beyond the end; never before either |
| Events.EventReader.constructor | internal/narrator/events.go:72-79 | the log path is the town root joined with the log's name, and the offset starts at 0 |
| Events.EventReader.Offset | internal/narrator/events.go:81-84 | returns the offset |
| Events.EventReader.SetOffset | internal/narrator/events.go:86-89 | sets the offset and nothing else |
| Events.EventReader.ReadFromOffset | internal/narrator/events.go:103-151 | a missing file gives no events, no error and the same offset; an open failure gives an error and no events; a scan error gives the events of the lines scanned so far, an error and the same offset; a clean scan gives the events of the non-blank decodable lines after the start and moves the offset to the scan's end position |
| Events.EventReader.DecodeLines | internal/narrator/events.go:122-138 | the scan loop yields exactly the events of the non-blank lines that decode, in order |
| Events.EventReader.ReadNew | internal/narrator/events.go:91-95 | reads from the current offset: a clean read yields the events of the lines after it and moves the offset to the scan's end; an open failure yields nothing; a scan failure yields the events of a prefix of those lines; the offset never decreases and changes only on a clean read; a missing log yields nothing and no error |
| Events.EventReader.ReadAll | internal/narrator/events.go:97-101 | reads from the start; a clean read yields the events of the whole log and moves the offset to its end |
| Events.ResumeSeesEveryEventOnce | internal/narrator/events.go:91-151 | when a clean read ended on a complete line, a read from the new offset of the grown log yields exactly the appended events, so the two reads together yield the events of one read over the grown log |
| Events.TornLineIsLost | internal/narrator/events.go:122-148 | for every decoder that accepts the lines `A` and `BC` and rejects the fragments `B` and `C`: a read of `A`, newline, `B` yields only `A`'s event, a read from the offset it left, after `C` and a newline were appended, yields nothing, while one read of the grown log yields both events |
| Events.BlankLineTrimsToEmpty | internal/narrator/events.go:126-129 | a line the reader treats as blank trims to "" under strings.TrimSpace, and a single-byte line that trims to "" is treated as blank |
| Platform.LinesAppend | internal/narrator/events.go:122-138 | the lines of complete lines followed by more bytes are the lines of each part, concatenated |
| Manager.DefaultNarrator | internal/narrator/manager.go:30-41 | with no saved record, the loaded record is stopped, has the default configuration, no instants and a zero counter |
| Manager.StartedRecord | internal/narrator/manager.go:122-126 | the record a start saves is running since now, keeping configuration, last-event time and counter |
| Manager.StoppedRecord | internal/narrator/manager.go:179-183 | the record a stop saves is stopped, keeping start time, configuration, last-event time and counter |
| Manager.VerdictConcat | internal/narrator/manager.go:68-155 | once a run of steps has failed, later steps never change the result |
| Manager.VerdictIsFirstFatalStep | internal/narrator/manager.go:68-155 | a start succeeds exactly when no step is fatal, and otherwise fails with the error of a fatal step that every earlier step survived |
| Manager.SavedBeforeWaitingConcat | internal/narrator/manager.go:122-136 | "the record was saved before any wait" holds over two runs of calls when it holds over each |
| Manager.StopsAtFatalConcat | internal/narrator/manager.go:68-155 | "no call follows a fatal step except the cleanup kill" holds after a run of calls none of which was fatal |
| Manager.LaunchVerdicts | internal/narrator/manager.go:87-107 | a launch passes or fails with the error of one of its own four steps |
| Manager.LaunchStopped | internal/narrator/manager.go:87-107 | a launch that made fewer than four calls failed |
| Manager.PrepareShape | internal/narrator/manager.go:87-120 | a preparation that passed made the four launch calls and one call per variable plus the theme; one that failed made at most the four launch calls and failed with a launch error |
| Manager.PersistVerdicts | internal/narrator/manager.go:122-136 | a failed save gives SavingState, otherwise a failed wait gives WaitingForStart, otherwise the persistence passes |
| Manager.CommitVerdicts | internal/narrator/manager.go:122-152 | a commit fails only with SavingState or WaitingForStart; the greeting is never fatal |
| Manager.BringUpVerdicts | internal/narrator/manager.go:87-152 | a bring-up never fails with AlreadyRunning or KillingZombie |
| Manager.PrepareFacts | internal/narrator/manager.go:87-120 | in the calls of a preparation no call follows a fatal step, and every wait comes after a successful save |
| Manager.CommitFacts | internal/narrator/manager.go:122-152 | the same two facts for the calls of a commit: no call follows a fatal step except the cleanup kill, and every wait comes after a successful save |
| Manager.BringUpFacts | internal/narrator/manager.go:87-152 | the same two facts for the calls of a bring-up |
| Manager.StartFacts | internal/narrator/manager.go:68-155 | the same two facts for the calls of a whole start |
| Manager.ClearOutcomes | internal/narrator/manager.go:74-85 | the check for an existing session on its own decides a start as `ClearDecides` says: a live agent gives AlreadyRunning after exactly the two queries, a dead agent's session is killed without its processes, and only a failed kill gives KillingZombie |
| Manager.StartOutcomes | internal/narrator/manager.go:68-155 | every whole start is decided by its check for an existing session as `ClearDecides` says; no later step fails with AlreadyRunning or KillingZombie |
| Manager.StartJoined | internal/narrator/manager.go:68-155 | a check that passed followed by a bring-up is a whole start (`StartRun`) whose result and last call are the bring-up's |
| Manager.StartStopped | internal/narrator/manager.go:74-85 | a check that failed is a whole start (`StartRun`) on its own |
| Manager.Manager.constructor | internal/narrator/manager.go:30-41 | the town root, the session prefix and the agent's environment table are fixed at construction |
| Manager.Manager.Start | internal/narrator/manager.go:68-155 | the calls are those of a whole start (`StartRun`): the session check first; for a live agent exactly the two queries and AlreadyRunning, with nothing changed; for a zombie the kill of its session before anything else, a failed kill giving KillingZombie with nothing created; after that the launch steps in order, the configuration, the save, the wait and the greeting; no call after the first fatal step except the cleanup kill; the save before any wait. The result is the first fatal step's error. A failure before the save keeps the record; a failed save or wait ends with the kill of the session, the wait's with its processes; a failed wait leaves the record running; success leaves the session live and the directory present; the ledger and files are never touched |
| Manager.Manager.ClearZombie | internal/narrator/manager.go:74-85 | the session check, then the agent check when the session is reported, then the kill when the agent is dead (`ClearCalls`); a failed check counts as no session; a live agent gives AlreadyRunning after exactly the two queries; a dead agent's session is killed without its processes, and the session is gone exactly when that kill succeeded; a failed kill gives KillingZombie |
| Manager.Manager.BringUp | internal/narrator/manager.go:87-152 | the calls are those of `BringUpCalls`: the preparation, then the commit only when the preparation passed; the result is the first fatal step's error, and is one of the launch, save or wait errors; the record, session and last-kill facts of the later phases |
| Manager.Manager.Prepare | internal/narrator/manager.go:87-120 | the calls are those of `PrepareCalls`: a launch whose four steps all passed followed by the configuration calls, or a launch that ends with its failed step and nothing after it; success leaves the session and directory present |
| Manager.Manager.Launch | internal/narrator/manager.go:87-107 | the calls are those of `LaunchCalls`: the directory, the settings, the startup command and the session running that command, in that order, ending at the first that fails, each with its own error |
| Manager.Manager.Configure | internal/narrator/manager.go:109-120 | the calls are those of `ConfigureCalls`: one environment call per variable of the agent's environment, with its value, then the theme; none of them is fatal |
| Manager.Manager.Commit | internal/narrator/manager.go:122-152 | the calls are those of `CommitCalls`: the save and the wait, then the greeting exactly when both passed; the record and last-kill facts of a failed save or wait |
| Manager.Manager.Persist | internal/narrator/manager.go:122-136 | saves the running record, then waits; a failed save kills the session and keeps the old record; a failed wait kills it with its processes and keeps the running record |
| Manager.Manager.Greet | internal/narrator/manager.go:138-152 | the calls are those of `GreetCalls`: the bypass-dialog accept, the startup nudge from the daemon to the narrator on the observe topic, and the propulsion nudge, in this order; none of them is fatal |
| Manager.Manager.Stop | internal/narrator/manager.go:157-184 | the session check first; a failed check gives CheckingSession and no session gives NotRunning, with no other call; otherwise the C-c interrupt, then the kill; a failed kill gives KillingSession; in all three error cases nothing changes; otherwise the session is gone and the stopped record, with every other field kept, is saved as the last call |
| Manager.Manager.IsRunning | internal/narrator/manager.go:186-190 | reports whether the session exists, or that the check failed |
| Manager.Manager.Status | internal/narrator/manager.go:192-195 | returns the saved record, or the default one, and writes nothing |
| MailRouter.AddressToSessionID | internal/mail/router.go:115-135 | any address starting with "mayor" gives gt-mayor; otherwise the result is empty exactly when there is no `/` or nothing after the first one; otherwise it is gt-, the part before the first `/`, -, and everything after it |
| MailRouter.MayorAddresses | internal/mail/router.go:118-121 | "mayor", "mayor/" and "mayorx" all give gt-mayor |
| MailRouter.RigAddress | internal/mail/router.go:123-134 | for any slash-free rig not starting with "mayor", rig/target gives gt-rig-target, and the target keeps any later slashes |
| MailRouter.SessionlessAddress | internal/mail/router.go:124-127 | for any slash-free rig not starting with "mayor", the empty one included, the bare rig name and the rig with an empty target give "" |
| MailRouter.Labels | internal/mail/router.go:52-64 | the sender's label first, then thread, reply-to and type in this fixed order, each exactly when present, and no other label |
| MailRouter.LabelsReadBack | internal/mail/router.go:52-64 | looking up each label prefix gives back the sender's identity, the thread and reply-to exactly when non-empty, and the type exactly when it is neither empty nor the notification type |
| MailRouter.LabelsJoinRoundTrip | internal/mail/router.go:66-68 | comma-free labels joined with commas split back into the same labels |
| MailRouter.CreateArgs | internal/mail/router.go:35-68 | the arguments always begin create --type message --title subject --assignee recipient, and the rest are flag/value pairs |
| MailRouter.CreateArgsReadBack | internal/mail/router.go:35-68 | read as flag/value pairs, the arguments give the type, title and assignee, a description exactly for a non-empty body, the priority always, and the joined labels always |
| MailRouter.Router.constructor | internal/mail/router.go:19-26 | the work directory is fixed at construction |
| MailRouter.Router.Send | internal/mail/router.go:28-89 | the create command runs first, in the work directory, as the sender; a failed create returns the trimmed error output when there is any, is a plain failure otherwise, adds nothing to the ledger and attempts no notification; a successful create adds the issue, notifies best-effort and succeeds whatever the notification does |
| MailRouter.Router.NotifyRecipient | internal/mail/router.go:96-113 | no session address means no call; a failed or negative session check means no banner; otherwise one banner with the sender and subject; only a failed banner is an error |
| MailRouter.BannerOnlyForLiveSession | internal/mail/router.go:96-113 | a banner goes only to the recipient's session, which the controller reported as existing, and always carries the message's sender and subject |
| Util.Split | internal/narrator/events.go:253 | strings.Split on one character: at least one piece, the first piece is the text before the first separator, one piece exactly when there is no separator, and no piece contains the separator |
| Util.JoinSplit | internal/narrator/events.go:253 | joining the pieces of a split with the separator gives back the text |
| Util.SplitJoin | internal/mail/router.go:67 | splitting a join of separator-free pieces gives back the pieces |
| Util.SplitOnce | internal/mail/router.go:124 | strings.SplitN(_, _, 2): one piece without a separator, two with one, and the two pieces around the first separator rebuild the text |
| Util.TrimSpace | internal/mail/router.go:78 | strings.TrimSpace keeps a contiguous middle part of the text cut only at white space, and the kept part neither starts nor ends with white space |
| Util.TrimSpaceEmpty | internal/narrator/events.go:127 | TrimSpace gives "" exactly for text that is all white space |
| Util.NatStringRoundTrip | internal/mail/router.go:50 | the %d rendering of a natural number reads back as the same number |
| Util.IntToString | internal/mail/router.go:50 | the %d rendering is never empty, and starts with '-' exactly for negative numbers |
| Util.IntStringRoundTrip | internal/mail/router.go:50 | after the '-' of a negative number, the %d rendering is a non-empty run of digits that reads back as the number's magnitude |

## Left out

- The collaborators are `Platform.Host` methods with nondeterministic outcomes, not models
  of their own code:
  - the terminal multiplexer driver and the agent-settings and startup-command builders;
  - the nudges, the `bd` executable, the filesystem and the record store.
- The record store's own load errors are not modelled. Loading gives the saved record, or
  the default when none was saved. The store's atomic-write code is not part of this
  model.
- JSON decoding of a log line is a function parameter of the reader (`decode`), returning
  None for malformed input. RFC 3339 timestamp parsing is a function parameter of
  `FilterByTimeRange`.
- `addressToIdentity` and `PriorityToBeads` are function parameters of the router. The
  town-level session prefix and the agent's environment table are constructor parameters of
  the manager.
- The wire strings of event types and of audit visibility are not part of this model.
  Event types are tags, with `Unknown(name)` for any other string, and each tag is assumed
  to stand for exactly one wire string.
- A message's type is `Untyped` (the empty type), `Notification`, or `Typed(name)` for any
  other type name.
- Payload numbers are integers. The float-to-int truncation of JSON numbers is floating
  point and is left out.
- Events.IsBlankLine: treats only single-byte white space as blank. A line made only of
  multi-byte Unicode white space counts as not blank. The Go code skips such a line as
  blank, but JSON decoding would reject it anyway, so the events read are the same.
- Platform.Host.Scan: the line scanner's token-size limit and its I/O errors are folded into
  one nondeterministic failure. A failed scan yields a prefix of the lines.
- Platform.Lines: the scanner's removal of a carriage return before the newline is not
  modelled. A line keeps a trailing carriage return and is handed to `decode` with it.
- Events.EventReader.ReadFromOffset: an error from seeking to the start, or from asking
  for the position after the scan, is not modelled, because a regular file does not give
  one. The offset written is the scan's end position.
- Path joining is `a + "/" + b`, without `filepath` cleaning.
- Sleeps, the agent start timeout and the multiplexer theme value have no timing or content
  model. Readiness is a nondeterministic pass or fail.
- Manager.Manager.Start: a failed session check counts as "no session", as in the code. The
  texts of the wrapped errors are not modelled; each error is one `ManagerError` value.
- MailRouter.Router.Send: the text of the wrapped "sending message" error is `SendFailed`
  without the underlying error.
- `Router.GetMailbox` (internal/mail/router.go:91-94) only constructs a mailbox value. The
  mailbox type is not part of this model.
- `SessionName` and `narratorDir` are `Manager.Manager.SessionName` and `NarratorDir`,
  without contracts of their own.
- The source's `len(labels) > 0` guard is kept in `CreateArgs`. It always holds;
  `CreateArgsReadBack` shows that the labels are always present.
