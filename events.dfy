/** Narrative classification of activity-log events, the filters over classified events and
    the offset-tracking reader of the append-only log (internal/narrator/events.go). */
module Events {
  import opened Util
  import Platform

  /** The event types the classifier knows, and every other type by its name. The wire
      strings of the known types belong to the events package; a tag stands for exactly one
      of them, and Unknown carries any other string. */
  datatype EventType =
    | Sling | Hook | Unhook | Handoff | Done | Mail | Spawn | Kill | Nudge | Boot | Halt
    | SessionStart | SessionEnd | SessionDeath | MassDeath
    | PatrolStarted | PatrolComplete | PolecatChecked | PolecatNudged
    | EscalationSent | EscalationAcked | EscalationClosed
    | MergeStarted | Merged | MergeFailed | MergeSkipped
    | Unknown(name: string)

  /** Audit-only records, or any other visibility by its wire name. */
  datatype Visibility = Audit | NonAudit(name: string)

  /** A decoded JSON payload value: numbers are read as integers. */
  datatype Value = Str(text: string) | Num(number: int) | OtherValue

  /** A string-keyed payload; None is a missing (nil) payload. */
  type Payload = Option<map<string, Value>>

  datatype Event = Event(
    timestamp: string,
    eventType: EventType,
    actor: string,
    payload: Payload,
    visibility: Visibility)

  datatype Significance = SignificanceNone | SignificanceLow | SignificanceMedium | SignificanceHigh

  /** An event together with its narrative metadata. */
  datatype NarratorEvent = NarratorEvent(
    event: Event,
    significance: Significance,
    rig: string,
    role: string,
    summary: string)

  // ---------------------------------------------------------------------------------------
  // Significance

  /** The integer behind each tier; filters compare tiers by it. */
  function Level(s: Significance): int
  {
    match s
    case SignificanceNone => 0
    case SignificanceLow => 1
    case SignificanceMedium => 2
    case SignificanceHigh => 3
  }

  function SignificanceString(s: Significance): string
  {
    match s
    case SignificanceNone => "none"
    case SignificanceLow => "low"
    case SignificanceMedium => "medium"
    case SignificanceHigh => "high"
  }

  /** Tiers are ordered none < low < medium < high by their integers, and each has its own
      name. */
  lemma SignificanceOrder(a: Significance, b: Significance)
    ensures Level(SignificanceNone) < Level(SignificanceLow) < Level(SignificanceMedium)
      < Level(SignificanceHigh)
    ensures Level(a) == Level(b) <==> a == b
    ensures SignificanceString(a) == SignificanceString(b) <==> a == b
    ensures 0 <= Level(a) <= 3
  {
    if SignificanceString(a) == SignificanceString(b) {
      assert SignificanceString(a)[0] == SignificanceString(b)[0];
    }
  }

  /** Lifecycle-defining events. */
  const HighTier: set<EventType> :=
    {Sling, Done, Handoff, Merged, MergeFailed, Spawn, Kill, Boot, Halt, MassDeath}

  /** Routine coordination events. */
  const MediumTier: set<EventType> :=
    {Hook, Unhook, Mail, Nudge, SessionDeath, EscalationSent, EscalationAcked, EscalationClosed,
     MergeStarted, MergeSkipped}

  /** The narrative importance of an event: audit-only events are never narrative material,
      whatever their type; otherwise the tier tables decide, and every type in neither table,
      listed as background or not known at all, is Low. */
  function ClassifySignificance(e: Event): (s: Significance)
    ensures s == SignificanceNone <==> e.visibility == Audit
    ensures e.visibility != Audit ==> (s == SignificanceHigh <==> e.eventType in HighTier)
    ensures e.visibility != Audit ==> (s == SignificanceMedium <==> e.eventType in MediumTier)
    ensures e.visibility != Audit ==>
      (s == SignificanceLow <==> e.eventType !in HighTier && e.eventType !in MediumTier)
  {
    if e.visibility == Audit then SignificanceNone
    else
      match e.eventType
      case Sling => SignificanceHigh
      case Done => SignificanceHigh
      case Handoff => SignificanceHigh
      case Merged => SignificanceHigh
      case MergeFailed => SignificanceHigh
      case Spawn => SignificanceHigh
      case Kill => SignificanceHigh
      case Boot => SignificanceHigh
      case Halt => SignificanceHigh
      case MassDeath => SignificanceHigh
      case Hook => SignificanceMedium
      case Unhook => SignificanceMedium
      case Mail => SignificanceMedium
      case Nudge => SignificanceMedium
      case SessionDeath => SignificanceMedium
      case EscalationSent => SignificanceMedium
      case EscalationAcked => SignificanceMedium
      case EscalationClosed => SignificanceMedium
      case MergeStarted => SignificanceMedium
      case MergeSkipped => SignificanceMedium
      case SessionStart => SignificanceLow
      case SessionEnd => SignificanceLow
      case PatrolStarted => SignificanceLow
      case PatrolComplete => SignificanceLow
      case PolecatChecked => SignificanceLow
      case PolecatNudged => SignificanceLow
      case Unknown(_) => SignificanceLow
  }

  // ---------------------------------------------------------------------------------------
  // Payload access

  /** The string under `key`; empty for a missing payload, a missing key or a non-string. */
  function GetPayloadString(p: Payload, key: string): (s: string)
    ensures s != "" ==> p.Some? && key in p.value && p.value[key] == Str(s)
    ensures p.Some? && key in p.value && p.value[key].Str? ==> s == p.value[key].text
  {
    if p.None? then ""
    else if key in p.value && p.value[key].Str? then p.value[key].text
    else ""
  }

  /** The number under `key`; zero for a missing payload, a missing key or a non-number. */
  function GetPayloadInt(p: Payload, key: string): (n: int)
    ensures n != 0 ==> p.Some? && key in p.value && p.value[key] == Num(n)
    ensures p.Some? && key in p.value && p.value[key].Num? ==> n == p.value[key].number
  {
    if p.None? then 0
    else if key in p.value && p.value[key].Num? then p.value[key].number
    else 0
  }

  // ---------------------------------------------------------------------------------------
  // Rig and role

  /** Town-level actors, which belong to no rig. */
  const TownLevel: set<string> := {"mayor", "deacon", "gt"}

  /** The roles a rig-level actor path can name. */
  const RigRoles: set<string> := {"witness", "refinery", "narrator", "polecat", "crew"}

  /** The rig an event relates to: a non-empty string payload field "rig" wins; otherwise the
      first segment of the actor path, unless that is a town-level actor; otherwise none. */
  function ExtractRig(e: Event): (rig: string)
    ensures GetPayloadString(e.payload, "rig") != "" ==> rig == GetPayloadString(e.payload, "rig")
    ensures GetPayloadString(e.payload, "rig") == "" && rig != "" ==>
      HasPrefix(e.actor, rig) && '/' !in rig && rig !in TownLevel
      && (|rig| == |e.actor| || e.actor[|rig|] == '/')
    ensures GetPayloadString(e.payload, "rig") == "" ==>
      (rig == "" <==> Before(e.actor, '/') == "" || Before(e.actor, '/') in TownLevel)
  {
    if e.payload.Some? && "rig" in e.payload.value && e.payload.value["rig"].Str?
      && e.payload.value["rig"].text != ""
    then e.payload.value["rig"].text
    else if e.actor != "" then
      var parts := Split(e.actor, '/');
      var first := parts[0];
      if first != "mayor" && first != "deacon" && first != "gt" then first else ""
    else ""
  }

  /** The second segment of an actor path. */
  function SecondSegment(actor: string): string
  {
    Before(After(actor, '/'), '/')
  }

  /** The role a rig-level path names by its second segment: the three named roles stand for
      themselves, "polecats" and any other worker name mean a polecat, "crew" means crew. */
  function RigRole(second: string): (role: string)
    ensures role in RigRoles
    ensures role == "crew" <==> second == "crew"
    ensures second in {"witness", "refinery", "narrator"} ==> role == second
    ensures second !in {"witness", "refinery", "narrator", "crew"} ==> role == "polecat"
  {
    if second == "witness" || second == "refinery" || second == "narrator" then second
    else if second == "crew" then "crew"
    else "polecat"
  }

  /** The actor's role: a single segment names a town-level role or nothing; two or more
      segments name a rig-level role by the second segment. */
  function ExtractRole(e: Event): (role: string)
    ensures e.actor == "" ==> role == ""
    ensures '/' !in e.actor ==> role == (if e.actor in TownLevel then e.actor else "")
    ensures '/' in e.actor ==> role == RigRole(SecondSegment(e.actor))
    ensures role == "" || role in TownLevel || role in RigRoles
  {
    if e.actor == "" then ""
    else
      var parts := Split(e.actor, '/');
      if |parts| == 1 && (parts[0] == "mayor" || parts[0] == "deacon" || parts[0] == "gt") then
        parts[0]
      else if |parts| >= 2 then
        var second := parts[1];
        if second == "witness" || second == "refinery" || second == "narrator" then second
        else if second == "polecats" then "polecat"
        else if second == "crew" then "crew"
        else "polecat"
      else ""
  }

  // ---------------------------------------------------------------------------------------
  // Summaries

  /** The text a summary falls back to when the payload lacks the fields its template needs;
      for the three types without a template it is their only text, and an unknown type is
      summarised by its own name. */
  function Fallback(t: EventType): string
  {
    match t
    case Sling => "Work assignment dispatched"
    case Hook => "Work hooked"
    case Unhook => "Work unhooked"
    case Done => "Work completed"
    case Handoff => "Session handoff"
    case Mail => "Mail sent"
    case Spawn => "Polecat spawned"
    case Kill => "Process killed"
    case Boot => "Rig booted"
    case Halt => "Services halted"
    case Nudge => "Agent nudged"
    case MergeStarted => "Merge started"
    case Merged => "Work merged"
    case MergeFailed => "Merge failed"
    case MergeSkipped => "Merge skipped"
    case SessionStart => "Session started"
    case SessionEnd => "Session ended"
    case SessionDeath => "Session died"
    case MassDeath => "Mass death event"
    case PatrolStarted => "Patrol started"
    case PatrolComplete => "Patrol complete"
    case PolecatChecked => "Polecat checked"
    case PolecatNudged => "Polecat nudged"
    case EscalationSent => "Escalation sent"
    case EscalationAcked => "Escalation acknowledged"
    case EscalationClosed => "Escalation closed"
    case Unknown(name) => name
  }

  /** Whether a type's summary can mention payload fields. */
  predicate HasTemplate(t: EventType)
  {
    !t.Unknown? && t != Halt && t != EscalationAcked && t != EscalationClosed
  }

  /** The string fields a type's template cannot do without (optional extras such as a
      reason or a topic are not listed). */
  function RequiredStrings(t: EventType): seq<string>
  {
    match t
    case Sling => ["bead", "target"]
    case Hook => ["bead"]
    case Unhook => ["bead"]
    case Done => ["bead"]
    case Handoff => ["subject"]
    case Mail => ["to", "subject"]
    case Spawn => ["polecat", "rig"]
    case Kill => ["target"]
    case Boot => ["rig"]
    case Nudge => ["target"]
    case MergeStarted => ["worker"]
    case Merged => ["worker"]
    case MergeFailed => ["worker"]
    case MergeSkipped => ["reason"]
    case SessionStart => ["role"]
    case SessionEnd => ["role"]
    case SessionDeath => ["agent"]
    case PolecatChecked => ["polecat", "status"]
    case PolecatNudged => ["polecat"]
    case EscalationSent => ["target", "to"]
    case _ => []
  }

  /** The count field a type's template cannot do without. */
  function CountKey(t: EventType): Option<string>
  {
    match t
    case MassDeath => Some("count")
    case PatrolStarted => Some("polecat_count")
    case PatrolComplete => Some("polecat_count")
    case _ => None
  }

  /** Whether the payload carries what the type's template needs: every required string
      non-empty and the count, if any, positive. */
  predicate FieldsPresent(e: Event)
  {
    (forall k :: 0 <= k < |RequiredStrings(e.eventType)| ==>
       GetPayloadString(e.payload, RequiredStrings(e.eventType)[k]) != "")
    && (CountKey(e.eventType).Some? ==> GetPayloadInt(e.payload, CountKey(e.eventType).value) > 0)
  }

  /** A brief human-readable description of an event, filled in from its payload. */
  function BuildSummary(e: Event): (s: string)
    ensures e.eventType.Unknown? ==> s == e.eventType.name
    ensures !e.eventType.Unknown? ==> s != ""
  {
    var p := e.payload;
    match e.eventType
    case Sling =>
      var bead := GetPayloadString(p, "bead");
      var target := GetPayloadString(p, "target");
      if bead != "" && target != "" then "Work " + bead + " slung to " + target
      else "Work assignment dispatched"
    case Hook =>
      var bead := GetPayloadString(p, "bead");
      if bead != "" then "Hooked work " + bead else "Work hooked"
    case Unhook =>
      var bead := GetPayloadString(p, "bead");
      if bead != "" then "Unhooked work " + bead else "Work unhooked"
    case Done =>
      var bead := GetPayloadString(p, "bead");
      if bead != "" then "Completed work " + bead else "Work completed"
    case Handoff =>
      var subject := GetPayloadString(p, "subject");
      if subject != "" then "Handoff: " + subject else "Session handoff"
    case Mail =>
      var to := GetPayloadString(p, "to");
      var subject := GetPayloadString(p, "subject");
      if to != "" && subject != "" then "Mail to " + to + ": " + subject else "Mail sent"
    case Spawn =>
      var polecat := GetPayloadString(p, "polecat");
      var rig := GetPayloadString(p, "rig");
      if polecat != "" && rig != "" then "Spawned polecat " + polecat + " in " + rig
      else "Polecat spawned"
    case Kill =>
      var target := GetPayloadString(p, "target");
      var reason := GetPayloadString(p, "reason");
      if target != "" then
        (if reason != "" then "Killed " + target + ": " + reason else "Killed " + target)
      else "Process killed"
    case Boot =>
      var rig := GetPayloadString(p, "rig");
      if rig != "" then "Booted rig " + rig else "Rig booted"
    case Halt => "Services halted"
    case Nudge =>
      var target := GetPayloadString(p, "target");
      var reason := GetPayloadString(p, "reason");
      if target != "" then
        (if reason != "" then "Nudged " + target + ": " + reason else "Nudged " + target)
      else "Agent nudged"
    case MergeStarted =>
      var worker := GetPayloadString(p, "worker");
      if worker != "" then "Merge started for " + worker else "Merge started"
    case Merged =>
      var worker := GetPayloadString(p, "worker");
      if worker != "" then "Merged work from " + worker else "Work merged"
    case MergeFailed =>
      var worker := GetPayloadString(p, "worker");
      var reason := GetPayloadString(p, "reason");
      if worker != "" then
        (if reason != "" then "Merge failed for " + worker + ": " + reason
         else "Merge failed for " + worker)
      else "Merge failed"
    case MergeSkipped =>
      var reason := GetPayloadString(p, "reason");
      if reason != "" then "Merge skipped: " + reason else "Merge skipped"
    case SessionStart =>
      var role := GetPayloadString(p, "role");
      var topic := GetPayloadString(p, "topic");
      if role != "" then
        (if topic != "" then role + " session started: " + topic else role + " session started")
      else "Session started"
    case SessionEnd =>
      var role := GetPayloadString(p, "role");
      if role != "" then role + " session ended" else "Session ended"
    case SessionDeath =>
      var agent := GetPayloadString(p, "agent");
      var reason := GetPayloadString(p, "reason");
      if agent != "" then
        (if reason != "" then "Session died: " + agent + " (" + reason + ")"
         else "Session died: " + agent)
      else "Session died"
    case MassDeath =>
      var count := GetPayloadInt(p, "count");
      var cause := GetPayloadString(p, "possible_cause");
      if count > 0 then
        (if cause != "" then "Mass death: " + IntToString(count) + " sessions (" + cause + ")"
         else "Mass death: " + IntToString(count) + " sessions")
      else "Mass death event"
    case PatrolStarted =>
      var count := GetPayloadInt(p, "polecat_count");
      if count > 0 then "Patrol started (" + IntToString(count) + " polecats)"
      else "Patrol started"
    case PatrolComplete =>
      var count := GetPayloadInt(p, "polecat_count");
      if count > 0 then "Patrol complete (" + IntToString(count) + " polecats)"
      else "Patrol complete"
    case PolecatChecked =>
      var polecat := GetPayloadString(p, "polecat");
      var status := GetPayloadString(p, "status");
      if polecat != "" && status != "" then "Checked " + polecat + ": " + status
      else "Polecat checked"
    case PolecatNudged =>
      var polecat := GetPayloadString(p, "polecat");
      if polecat != "" then "Nudged " + polecat else "Polecat nudged"
    case EscalationSent =>
      var target := GetPayloadString(p, "target");
      var to := GetPayloadString(p, "to");
      if target != "" && to != "" then "Escalated " + target + " to " + to
      else "Escalation sent"
    case EscalationAcked => "Escalation acknowledged"
    case EscalationClosed => "Escalation closed"
    case Unknown(name) => name
  }

  /** A summary falls back to its type's fixed text exactly when the payload lacks what the
      template needs: no filled-in template ever coincides with the fallback text. Types
      without a template always get their fixed text, and an unknown type its name. */
  lemma SummaryFallback(e: Event)
    ensures !HasTemplate(e.eventType) ==> BuildSummary(e) == Fallback(e.eventType)
    ensures HasTemplate(e.eventType) ==>
      (BuildSummary(e) == Fallback(e.eventType) <==> !FieldsPresent(e))
  {
    if HasTemplate(e.eventType) && FieldsPresent(e) {
      TemplateDiffers(e);
    } else {
      MissingFieldsFallBack(e);
    }
  }

  /** Without the fields its template needs, an event gets its type's fixed text. */
  lemma MissingFieldsFallBack(e: Event)
    requires !HasTemplate(e.eventType) || !FieldsPresent(e)
    ensures BuildSummary(e) == Fallback(e.eventType)
  {
    var req := RequiredStrings(e.eventType);
    if HasTemplate(e.eventType) && CountKey(e.eventType).None? {
      var k :| 0 <= k < |req| && GetPayloadString(e.payload, req[k]) == "";
    }
  }

  /** With the fields its template needs, an event's summary is not the fixed text. */
  lemma TemplateDiffers(e: Event)
    requires HasTemplate(e.eventType) && FieldsPresent(e)
    ensures BuildSummary(e) != Fallback(e.eventType)
  {
    var t := e.eventType;
    if t.Sling? || t.Hook? || t.Unhook? || t.Done? || t.Handoff? || t.Mail? || t.Spawn? {
      WorkTemplateDiffers(e);
    } else if t.Kill? || t.Boot? || t.Nudge? || t.MergeStarted? || t.Merged? || t.MergeFailed?
      || t.MergeSkipped? || t.SessionStart? {
      MergeTemplateDiffers(e);
    } else {
      PatrolTemplateDiffers(e);
    }
  }

  lemma WorkTemplateDiffers(e: Event)
    requires HasTemplate(e.eventType) && FieldsPresent(e)
    requires var t := e.eventType;
      t.Sling? || t.Hook? || t.Unhook? || t.Done? || t.Handoff? || t.Mail? || t.Spawn?
    ensures BuildSummary(e) != Fallback(e.eventType)
  {
    var s := BuildSummary(e);
    var f := Fallback(e.eventType);
    var p := e.payload;
    var req := RequiredStrings(e.eventType);
    match e.eventType
    case Sling =>
      assert req[0] == "bead" && req[1] == "target";
      SlingDiffers(GetPayloadString(p, "bead"), GetPayloadString(p, "target"));
    case Hook =>
      assert req[0] == "bead";
      assert s[0] != f[0];
    case Unhook =>
      assert req[0] == "bead";
      assert s[0] != f[0];
    case Done =>
      assert req[0] == "bead";
      assert s[0] != f[0];
    case Handoff =>
      assert req[0] == "subject";
      assert s[0] != f[0];
    case Mail =>
      assert req[0] == "to" && req[1] == "subject";
      assert s[5] != f[5];
    case Spawn =>
      assert req[0] == "polecat" && req[1] == "rig";
      assert s[0] != f[0];
  }

  lemma MergeTemplateDiffers(e: Event)
    requires HasTemplate(e.eventType) && FieldsPresent(e)
    requires var t := e.eventType;
      t.Kill? || t.Boot? || t.Nudge? || t.MergeStarted? || t.Merged? || t.MergeFailed?
      || t.MergeSkipped? || t.SessionStart?
    ensures BuildSummary(e) != Fallback(e.eventType)
  {
    var s := BuildSummary(e);
    var f := Fallback(e.eventType);
    var req := RequiredStrings(e.eventType);
    match e.eventType
    case Kill =>
      assert req[0] == "target";
      assert s[0] != f[0];
    case Boot =>
      assert req[0] == "rig";
      assert s[0] != f[0];
    case Nudge =>
      assert req[0] == "target";
      assert s[0] != f[0];
    case MergeStarted =>
      assert req[0] == "worker";
      assert |s| != |f|;
    case Merged =>
      assert req[0] == "worker";
      assert s[0] != f[0];
    case MergeFailed =>
      assert req[0] == "worker";
      assert |s| != |f|;
    case MergeSkipped =>
      assert req[0] == "reason";
      assert |s| != |f|;
    case SessionStart =>
      assert req[0] == "role";
      assert |s| != |f|;
  }

  lemma PatrolTemplateDiffers(e: Event)
    requires HasTemplate(e.eventType) && FieldsPresent(e)
    requires var t := e.eventType;
      t.SessionEnd? || t.SessionDeath? || t.MassDeath? || t.PatrolStarted? || t.PatrolComplete?
      || t.PolecatChecked? || t.PolecatNudged? || t.EscalationSent?
    ensures BuildSummary(e) != Fallback(e.eventType)
  {
    var s := BuildSummary(e);
    var f := Fallback(e.eventType);
    var p := e.payload;
    var req := RequiredStrings(e.eventType);
    match e.eventType
    case SessionEnd =>
      assert req[0] == "role";
      assert |s| != |f|;
    case SessionDeath =>
      assert req[0] == "agent";
      assert |s| != |f|;
    case MassDeath => assert s[10] != f[10];
    case PatrolStarted => assert |s| != |f|;
    case PatrolComplete => assert |s| != |f|;
    case PolecatChecked =>
      assert req[0] == "polecat" && req[1] == "status";
      assert s[0] != f[0];
    case PolecatNudged =>
      assert req[0] == "polecat";
      assert s[0] != f[0];
    case EscalationSent =>
      assert req[0] == "target" && req[1] == "to";
      assert s[8] != f[8];
  }

  /** The filled-in Sling template is never the Sling fallback text: where the template puts
      " slung", the fallback has no blank followed by an 's'. */
  lemma SlingDiffers(bead: string, target: string)
    requires bead != "" && target != ""
    ensures "Work " + bead + " slung to " + target != "Work assignment dispatched"
  {
    var s := "Work " + bead + " slung to " + target;
    var f := "Work assignment dispatched";
    var p := 5 + |bead|;
    assert s[p] == ' ' && s[p + 1] == 's';
    if |s| == |f| {
      assert 6 <= p <= 15;
      assert forall k | 6 <= k <= 15 :: !(f[k] == ' ' && f[k + 1] == 's');
    }
  }

  // ---------------------------------------------------------------------------------------
  // Filters

  /** What a filter keeps. A time range holds the timestamp parser (RFC 3339 on the wire) and
      keeps the events whose timestamp parses to an instant in [start, end). */
  datatype Criterion =
    | ByRig(rig: string)
    | AtLeast(min: Significance)
    | InTimeRange(parse: string -> Option<Time>, start: Time, end: Time)
    | OfTypes(types: set<EventType>)
    | NotOfTypes(types: set<EventType>)

  predicate Matches(ne: NarratorEvent, c: Criterion)
  {
    match c
    case ByRig(rig) => ne.rig == rig
    case AtLeast(min) => Level(ne.significance) >= Level(min)
    case InTimeRange(parse, start, end) =>
      var ts := parse(ne.event.timestamp);
      ts.Some? && start <= ts.value < end
    case OfTypes(types) => ne.event.eventType in types
    case NotOfTypes(types) => ne.event.eventType !in types
  }

  /** The events that meet a criterion, in their original order. */
  function Select(s: seq<NarratorEvent>, c: Criterion): seq<NarratorEvent>
  {
    if s == [] then []
    else Select(s[..|s| - 1], c) + (if Matches(s[|s| - 1], c) then [s[|s| - 1]] else [])
  }

  /** Selecting from two stretches separately and concatenating selects from the whole. */
  lemma {:induction false} SelectAppend(a: seq<NarratorEvent>, b: seq<NarratorEvent>, c: Criterion)
    ensures Select(a + b, c) == Select(a, c) + Select(b, c)
    decreases |b|
  {
    if b == [] {
      assert a + b == a;
    } else {
      var init := b[..|b| - 1];
      SelectAppend(a, init, c);
      assert (a + b)[..|a + b| - 1] == a + init;
    }
  }

  /** An event is kept exactly when it is in the input and meets the criterion. */
  lemma {:induction false} SelectMembers(s: seq<NarratorEvent>, c: Criterion, x: NarratorEvent)
    ensures x in Select(s, c) <==> x in s && Matches(x, c)
    decreases |s|
  {
    if s != [] {
      var init := s[..|s| - 1];
      SelectMembers(init, c, x);
      assert s == init + [s[|s| - 1]];
    }
  }

  /** `a` can be obtained from `b` by deleting elements. */
  predicate IsSubsequence(a: seq<NarratorEvent>, b: seq<NarratorEvent>)
    decreases |b|
  {
    a == [] ||
    (b != [] &&
     ((a[|a| - 1] == b[|b| - 1] && IsSubsequence(a[..|a| - 1], b[..|b| - 1]))
      || IsSubsequence(a, b[..|b| - 1])))
  }

  /** Filtering only deletes events: what is kept keeps its relative order. */
  lemma {:induction false} SelectIsSubsequence(s: seq<NarratorEvent>, c: Criterion)
    ensures IsSubsequence(Select(s, c), s)
    decreases |s|
  {
    if s != [] {
      var init := s[..|s| - 1];
      var x := s[|s| - 1];
      SelectIsSubsequence(init, c);
      var r := Select(s, c);
      if Matches(x, c) {
        assert r == Select(init, c) + [x];
        assert r[|r| - 1] == x && r[..|r| - 1] == Select(init, c);
      } else {
        assert r == Select(init, c);
      }
    }
  }

  /** Filters compose in either order. */
  lemma {:induction false} SelectCommutes(s: seq<NarratorEvent>, c1: Criterion, c2: Criterion)
    ensures Select(Select(s, c1), c2) == Select(Select(s, c2), c1)
    decreases |s|
  {
    if s != [] {
      var init := s[..|s| - 1];
      var x := s[|s| - 1];
      SelectCommutes(init, c1, c2);
      var x1 := if Matches(x, c1) then [x] else [];
      var x2 := if Matches(x, c2) then [x] else [];
      SelectAppend(Select(init, c1), x1, c2);
      SelectAppend(Select(init, c2), x2, c1);
      assert Select(x1, c2) == Select(x2, c1) by {
        assert x1 != [] ==> x1[..|x1| - 1] == [];
        assert x2 != [] ==> x2[..|x2| - 1] == [];
      }
    }
  }

  /** Keeping the events of some types and excluding them split the input between them. */
  lemma {:induction false} TypesPartition(s: seq<NarratorEvent>, types: set<EventType>)
    ensures multiset(Select(s, OfTypes(types))) + multiset(Select(s, NotOfTypes(types)))
      == multiset(s)
    ensures |Select(s, OfTypes(types))| + |Select(s, NotOfTypes(types))| == |s|
    decreases |s|
  {
    if s != [] {
      var init := s[..|s| - 1];
      var x := s[|s| - 1];
      TypesPartition(init, types);
      assert init + [x] == s;
      SelectSnoc(init, x, OfTypes(types));
      SelectSnoc(init, x, NotOfTypes(types));
      SplitOne(Select(init, OfTypes(types)), Select(init, NotOfTypes(types)), init, x,
               x.event.eventType in types);
    }
    var kept := Select(s, OfTypes(types));
    var dropped := Select(s, NotOfTypes(types));
    assert |multiset(kept)| == |kept| && |multiset(dropped)| == |dropped|;
  }

  /** One more element, sent to one side of a split, keeps the split. */
  lemma SplitOne<T>(a: seq<T>, b: seq<T>, whole: seq<T>, x: T, left: bool)
    requires multiset(a) + multiset(b) == multiset(whole)
    ensures multiset(a + (if left then [x] else [])) + multiset(b + (if left then [] else [x]))
      == multiset(whole + [x])
  {
    if left {
      assert b + [] == b;
    } else {
      assert a + [] == a;
    }
  }

  /** Selecting from a sequence extended by one event. */
  lemma SelectSnoc(s: seq<NarratorEvent>, x: NarratorEvent, c: Criterion)
    ensures Select(s + [x], c) == Select(s, c) + (if Matches(x, c) then [x] else [])
  {
    assert (s + [x])[..|s|] == s;
  }

  /** The lowest threshold keeps everything. */
  lemma {:induction false} LowestThresholdKeepsAll(s: seq<NarratorEvent>)
    ensures Select(s, AtLeast(SignificanceNone)) == s
    decreases |s|
  {
    if s != [] {
      LowestThresholdKeepsAll(s[..|s| - 1]);
      assert s == s[..|s| - 1] + [s[|s| - 1]];
    }
  }

  /** The single loop all filters share: one pass over the input, keeping what matches. */
  method Retain(evts: seq<NarratorEvent>, c: Criterion) returns (result: seq<NarratorEvent>)
    ensures result == Select(evts, c)
  {
    result := [];
    for i := 0 to |evts|
      invariant result == Select(evts[..i], c)
    {
      assert evts[..i + 1][..i] == evts[..i];
      if Matches(evts[i], c) {
        result := result + [evts[i]];
      }
    }
    assert evts[..|evts|] == evts;
  }

  /** The events of one rig. */
  method FilterByRig(evts: seq<NarratorEvent>, rig: string) returns (result: seq<NarratorEvent>)
    ensures result == Select(evts, ByRig(rig))
  {
    result := Retain(evts, ByRig(rig));
  }

  /** The events at or above a significance. */
  method FilterBySignificance(evts: seq<NarratorEvent>, minSig: Significance)
    returns (result: seq<NarratorEvent>)
    ensures result == Select(evts, AtLeast(minSig))
  {
    result := Retain(evts, AtLeast(minSig));
  }

  /** The events whose timestamp parses to an instant in [start, end); unparsable timestamps
      are dropped. */
  method FilterByTimeRange(evts: seq<NarratorEvent>, parse: string -> Option<Time>,
                           start: Time, end: Time)
    returns (result: seq<NarratorEvent>)
    ensures result == Select(evts, InTimeRange(parse, start, end))
  {
    result := Retain(evts, InTimeRange(parse, start, end));
  }

  /** The set of types a list names. */
  method TypeSet(types: seq<EventType>) returns (typeSet: set<EventType>)
    ensures forall t :: t in typeSet <==> t in types
  {
    typeSet := {};
    for j := 0 to |types|
      invariant forall t :: t in typeSet <==> t in types[..j]
    {
      assert types[..j + 1] == types[..j] + [types[j]];
      typeSet := typeSet + {types[j]};
    }
    assert types[..|types|] == types;
  }

  /** The events of any of the listed types. */
  method FilterByTypes(evts: seq<NarratorEvent>, types: seq<EventType>)
    returns (result: seq<NarratorEvent>)
    ensures result == Select(evts, OfTypes(set t | t in types))
  {
    var typeSet := TypeSet(types);
    assert typeSet == set t | t in types;
    result := Retain(evts, OfTypes(typeSet));
  }

  /** The events of none of the listed types. */
  method ExcludeTypes(evts: seq<NarratorEvent>, types: seq<EventType>)
    returns (result: seq<NarratorEvent>)
    ensures result == Select(evts, NotOfTypes(set t | t in types))
  {
    var typeSet := TypeSet(types);
    assert typeSet == set t | t in types;
    result := Retain(evts, NotOfTypes(typeSet));
  }

  // ---------------------------------------------------------------------------------------
  // Reading the log

  /** The activity log's file name under the town root. */
  const EventsFile: string := ".events.jsonl"

  /** A line that is empty or white space only (single-byte white space). */
  predicate IsBlankLine(line: seq<byte>)
  {
    forall k :: 0 <= k < |line| ==> (9 <= line[k] <= 13 || line[k] == 32)
  }

  /** A line's bytes read as characters, one character per byte: the string conversion of
      a line of ASCII text. */
  function AsText(line: seq<byte>): (t: string)
    ensures |t| == |line| && forall k :: 0 <= k < |line| ==> t[k] as int == line[k] as int
  {
    seq(|line|, k requires 0 <= k < |line| => line[k] as int as char)
  }

  /** The blank test agrees with strings.TrimSpace on the line's text: a blank line trims to
      nothing, and an ASCII line trims to nothing only when it is blank. */
  lemma BlankLineTrimsToEmpty(line: seq<byte>)
    ensures IsBlankLine(line) ==> TrimSpace(AsText(line)) == []
    ensures (forall k :: 0 <= k < |line| ==> line[k] < 128) && TrimSpace(AsText(line)) == []
      ==> IsBlankLine(line)
  {
    var t := AsText(line);
    TrimSpaceEmpty(t);
    if IsBlankLine(line) {
      forall k | 0 <= k < |t| ensures IsSpace(t[k]) {
        SpaceByte(line[k], t[k]);
      }
    }
    if (forall k :: 0 <= k < |line| ==> line[k] < 128) && AllSpace(t) {
      forall k | 0 <= k < |line| ensures 9 <= line[k] <= 13 || line[k] == 32 {
        SpaceByte(line[k], t[k]);
      }
    }
  }

  /** The characters of the single-byte white space are white space, and they are the only
      white space below 128. */
  lemma SpaceByte(b: byte, c: char)
    requires c as int == b as int
    ensures (9 <= b <= 13 || b == 32) ==> IsSpace(c)
    ensures b < 128 && IsSpace(c) ==> 9 <= b <= 13 || b == 32
  {
  }

  /** An event with its narrative metadata worked out. */
  function Narrate(e: Event): NarratorEvent
  {
    NarratorEvent(e, ClassifySignificance(e), ExtractRig(e), ExtractRole(e), BuildSummary(e))
  }

  /** Metadata consistent with the event it describes. */
  predicate Narrated(ne: NarratorEvent)
  {
    ne.significance == ClassifySignificance(ne.event) && ne.rig == ExtractRig(ne.event)
    && ne.role == ExtractRole(ne.event) && ne.summary == BuildSummary(ne.event)
  }

  /** The events a run of lines yields: blank lines and lines that do not decode are
      skipped. */
  function Decoded(lines: seq<seq<byte>>, decode: seq<byte> -> Option<Event>): seq<NarratorEvent>
  {
    if lines == [] then []
    else
      var line := lines[|lines| - 1];
      Decoded(lines[..|lines| - 1], decode)
      + (if !IsBlankLine(line) && decode(line).Some? then [Narrate(decode(line).value)] else [])
  }

  lemma {:induction false} DecodedAppend(a: seq<seq<byte>>, b: seq<seq<byte>>,
                                         decode: seq<byte> -> Option<Event>)
    ensures Decoded(a + b, decode) == Decoded(a, decode) + Decoded(b, decode)
    decreases |b|
  {
    if b == [] {
      assert a + b == a;
    } else {
      DecodedAppend(a, b[..|b| - 1], decode);
      assert (a + b)[..|a + b| - 1] == a + b[..|b| - 1];
    }
  }

  /** Whether a line yields a given event: it is not blank and decodes to the event, whose
      metadata is then worked out from it. */
  predicate Yields(line: seq<byte>, decode: seq<byte> -> Option<Event>, ne: NarratorEvent)
  {
    !IsBlankLine(line) && decode(line).Some? && ne == Narrate(decode(line).value)
  }

  /** Every event read comes from a line that yields it, and every line that yields an event
      contributes it. */
  lemma {:induction false} DecodedMembers(lines: seq<seq<byte>>, decode: seq<byte> -> Option<Event>,
                                          ne: NarratorEvent)
    ensures ne in Decoded(lines, decode) <==>
      exists k :: 0 <= k < |lines| && Yields(lines[k], decode, ne)
    decreases |lines|
  {
    if lines != [] {
      var init := lines[..|lines| - 1];
      var last := lines[|lines| - 1];
      DecodedMembers(init, decode, ne);
      assert Decoded(lines, decode) == Decoded(init, decode)
        + (if !IsBlankLine(last) && decode(last).Some? then [Narrate(decode(last).value)] else []);
      if ne in Decoded(init, decode) {
        var k :| 0 <= k < |init| && Yields(init[k], decode, ne);
        assert lines[k] == init[k];
      }
      if exists k :: 0 <= k < |lines| && Yields(lines[k], decode, ne) {
        var k :| 0 <= k < |lines| && Yields(lines[k], decode, ne);
        if k < |lines| - 1 {
          assert init[k] == lines[k];
        }
      }
    }
  }

  /** An event worked out from a decoded line carries metadata consistent with it. */
  lemma DecodedNarrated(lines: seq<seq<byte>>, decode: seq<byte> -> Option<Event>, ne: NarratorEvent)
    requires ne in Decoded(lines, decode)
    ensures Narrated(ne)
  {
    DecodedMembers(lines, decode, ne);
  }

  /** The bytes a read starting at `start` sees: a non-positive start reads from the
      beginning, and a start at or beyond the end sees nothing. */
  function Unread(content: seq<byte>, start: int): (rest: seq<byte>)
    ensures |rest| <= |content|
    ensures start <= 0 ==> rest == content
    ensures 0 < start <= |content| ==> content == content[..start] + rest
    ensures start >= |content| ==> rest == []
  {
    if start <= 0 then content
    else if start >= |content| then []
    else content[start..]
  }

  /** The file position once a scan has run to the end of the file: the end, or the start
      when the seek went beyond it. */
  function PositionAfterScan(start: int, size: nat): (pos: int)
    ensures pos >= start && pos >= size
    ensures pos == start || pos == size
  {
    if start > size then start else size
  }

  /** A read that did not finish. */
  datatype ReadError = OpeningFailed | ReadingFailed

  /** Reads events from the activity log, resuming from a byte offset. */
  class EventReader {
    const townRoot: string
    const eventsPath: string
    /** The JSON decoding of one line (an event, or None when malformed). */
    const decode: seq<byte> -> Option<Event>
    var offset: int

    constructor (townRoot: string, decode: seq<byte> -> Option<Event>)
      ensures this.townRoot == townRoot && eventsPath == townRoot + "/" + EventsFile
      ensures this.decode == decode && offset == 0
    {
      this.townRoot := townRoot;
      this.eventsPath := townRoot + "/" + EventsFile;
      this.decode := decode;
      offset := 0;
    }

    method Offset() returns (o: int)
      ensures o == offset
    {
      o := offset;
    }

    method SetOffset(o: int)
      modifies this`offset
      ensures offset == o
    {
      offset := o;
    }

    /** Reads the events from byte `start` on. No file yet means no events and no error; a
        file that cannot be opened is an error with no events; a read that breaks off
        returns the events of the lines scanned so far and an error; only a complete read
        moves the offset, to the position the scan ended at. */
    method ReadFromOffset(host: Platform.Host, start: int)
      returns (result: seq<NarratorEvent>, err: Option<ReadError>)
      modifies this`offset
      ensures eventsPath !in host.files ==> result == [] && err == None && offset == old(offset)
      ensures eventsPath in host.files ==>
        var lines := Platform.Lines(Unread(host.files[eventsPath], start));
        match err
        case None =>
          result == Decoded(lines, decode)
          && offset == PositionAfterScan(start, |host.files[eventsPath]|)
        case Some(OpeningFailed) => result == [] && offset == old(offset)
        case Some(ReadingFailed) =>
          (exists n :: 0 <= n <= |lines| && result == Decoded(lines[..n], decode))
          && offset == old(offset)
    {
      var file := host.Open(eventsPath);
      if file.NotExist? {
        return [], None;
      } else if file.OpenFailed? {
        return [], Some(OpeningFailed);
      }
      var content := file.content;
      var lines, failed := host.Scan(Unread(content, start));
      result := DecodeLines(lines);
      if failed {
        ghost var all := Platform.Lines(Unread(content, start));
        assert lines == all[..|lines|];
        return result, Some(ReadingFailed);
      }
      offset := PositionAfterScan(start, |content|);
      err := None;
    }

    /** The scan loop: each line in turn, skipping blank lines and lines that do not
        decode. */
    method DecodeLines(lines: seq<seq<byte>>) returns (result: seq<NarratorEvent>)
      ensures result == Decoded(lines, decode)
    {
      result := [];
      var i := 0;
      while i < |lines|
        invariant 0 <= i <= |lines|
        invariant result == Decoded(lines[..i], decode)
      {
        var line := lines[i];
        assert lines[..i + 1][..i] == lines[..i];
        i := i + 1;
        if IsBlankLine(line) {
          continue;
        }
        var event := decode(line);
        if event.None? {
          continue;
        }
        result := result + [Narrate(event.value)];
      }
      assert lines[..|lines|] == lines;
    }

    /** Reads the events appended since the last complete read. */
    method ReadNew(host: Platform.Host) returns (result: seq<NarratorEvent>, err: Option<ReadError>)
      modifies this`offset
      ensures eventsPath in host.files ==>
        var lines := Platform.Lines(Unread(host.files[eventsPath], old(offset)));
        match err
        case None =>
          result == Decoded(lines, decode)
          && offset == PositionAfterScan(old(offset), |host.files[eventsPath]|)
        case Some(OpeningFailed) => result == []
        case Some(ReadingFailed) => exists n :: 0 <= n <= |lines| && result == Decoded(lines[..n], decode)
      ensures offset >= old(offset)
      ensures err != None ==> offset == old(offset)
      ensures eventsPath !in host.files ==> result == [] && err == None && offset == old(offset)
    {
      result, err := ReadFromOffset(host, offset);
    }

    /** Reads every event from the beginning of the log. Like any complete read, it leaves
        the offset at the end of the file. */
    method ReadAll(host: Platform.Host) returns (result: seq<NarratorEvent>, err: Option<ReadError>)
      modifies this`offset
      ensures eventsPath in host.files ==>
        var lines := Platform.Lines(host.files[eventsPath]);
        match err
        case None => result == Decoded(lines, decode) && offset == |host.files[eventsPath]|
        case Some(OpeningFailed) => result == []
        case Some(ReadingFailed) => exists n :: 0 <= n <= |lines| && result == Decoded(lines[..n], decode)
      ensures err != None ==> offset == old(offset)
      ensures eventsPath !in host.files ==> result == [] && err == None && offset == old(offset)
    {
      result, err := ReadFromOffset(host, 0);
    }
  }

  /** Resuming loses nothing and repeats nothing: when the part of the log a read covered
      ended with a complete line, the events of a later read from the new offset are exactly
      the events appended since, so the two reads together yield the events of one read over
      the grown log. */
  lemma {:induction false} ResumeSeesEveryEventOnce(content: seq<byte>, more: seq<byte>, start: int,
                                                   decode: seq<byte> -> Option<Event>)
    requires start <= |content|
    requires Platform.WholeLines(Unread(content, start))
    ensures Decoded(Platform.Lines(Unread(content + more, start)), decode)
      == Decoded(Platform.Lines(Unread(content, start)), decode)
         + Decoded(Platform.Lines(Unread(content + more, PositionAfterScan(start, |content|))), decode)
  {
    var first := Unread(content, start);
    var grown := content + more;
    assert Unread(grown, start) == first + more by {
      if 0 < start {
        assert grown[start..] == content[start..] + more;
      }
    }
    assert Unread(grown, PositionAfterScan(start, |content|)) == more by {
      if |content| > 0 {
        assert grown[|content|..] == more;
      }
    }
    Platform.LinesAppend(first, more);
    DecodedAppend(Platform.Lines(first), Platform.Lines(more), decode);
  }

  /** A read that ends inside a half-written last line loses that line's event. The scan
      hands the fragment over as a line of its own, it does not decode and is skipped, and
      the offset moves past it; the next read then starts in the middle of the completed
      line. Here the log holds `A`, a newline and the fragment `B`; the writer then appends
      `C` and a newline, completing the line `BC`. For any decoder that accepts the two
      complete lines and rejects the fragments, two reads yield one event, where one read
      of the grown log yields two. */
  lemma TornLineIsLost(decode: seq<byte> -> Option<Event>, a: Event, b: Event)
    requires decode([65]) == Some(a) && decode([66, 67]) == Some(b)
    requires decode([66]) == None && decode([67]) == None
    ensures Decoded(Platform.Lines(Unread([65, 10, 66], 0)), decode) == [Narrate(a)]
    ensures Decoded(Platform.Lines(Unread([65, 10, 66, 67, 10], PositionAfterScan(0, 3))), decode) == []
    ensures Decoded(Platform.Lines(Unread([65, 10, 66, 67, 10], 0)), decode) == [Narrate(a), Narrate(b)]
  {
    TornFirstRead(decode, a);
    TornSecondRead(decode);
    TornWholeRead(decode, a, b);
  }

  /** The first read sees the complete line `A` and skips the fragment `B`. */
  lemma TornFirstRead(decode: seq<byte> -> Option<Event>, a: Event)
    requires decode([65]) == Some(a) && decode([66]) == None
    ensures Decoded(Platform.Lines(Unread([65, 10, 66], 0)), decode) == [Narrate(a)]
  {
    var x: seq<byte>, y: seq<byte> := [65], [66];
    TornLinesBefore();
    assert Platform.Lines(Unread([65, 10, 66], 0)) == [x, y];
    DecodedPair(x, y, decode);
  }

  /** The second read starts past the fragment and sees only `C`. */
  lemma TornSecondRead(decode: seq<byte> -> Option<Event>)
    requires decode([67]) == None
    ensures Decoded(Platform.Lines(Unread([65, 10, 66, 67, 10], PositionAfterScan(0, 3))), decode) == []
  {
    var z: seq<byte> := [67];
    assert Unread([65, 10, 66, 67, 10], PositionAfterScan(0, 3)) == [67, 10];
    TornLinesAppended();
    DecodedOne(z, decode);
  }

  /** One read of the grown log sees both complete lines. */
  lemma TornWholeRead(decode: seq<byte> -> Option<Event>, a: Event, b: Event)
    requires decode([65]) == Some(a) && decode([66, 67]) == Some(b)
    ensures Decoded(Platform.Lines(Unread([65, 10, 66, 67, 10], 0)), decode) == [Narrate(a), Narrate(b)]
  {
    var x: seq<byte>, xy: seq<byte> := [65], [66, 67];
    TornLinesAfter();
    assert Platform.Lines(Unread([65, 10, 66, 67, 10], 0)) == [x, xy];
    DecodedPair(x, xy, decode);
  }

  /** The lines of the torn log before the writer completes its last line. */
  lemma TornLinesBefore()
    ensures Platform.Lines([65, 10, 66]) == [[65], [66]]
  {
    var x: seq<byte>, y: seq<byte> := [65], [66];
    assert Platform.Lines(y) == [y] by {
      assert IndexOf(y, Platform.Newline) == 1;
    }
    Platform.LinesCons(x, y);
    assert x + [Platform.Newline] + y == [65, 10, 66];
  }

  /** The lines of the appended bytes. */
  lemma TornLinesAppended()
    ensures Platform.Lines([67, 10]) == [[67]]
  {
    var z: seq<byte> := [67];
    Platform.LinesCons(z, []);
    assert z + [Platform.Newline] + [] == [67, 10];
  }

  /** The lines of the grown log. */
  lemma TornLinesAfter()
    ensures Platform.Lines([65, 10, 66, 67, 10]) == [[65], [66, 67]]
  {
    var x: seq<byte>, yz: seq<byte> := [65], [66, 67];
    var nl: seq<byte> := [Platform.Newline];
    var grown := x + nl + (yz + nl);
    assert Platform.Lines(yz + nl) == [yz] by {
      Platform.LinesCons(yz, []);
      assert yz + nl + [] == yz + nl;
    }
    assert Platform.Lines(grown) == [x, yz] by {
      Platform.LinesCons(x, yz + nl);
    }
    assert grown == [65, 10, 66, 67, 10];
  }

  /** The events of two lines, neither of them blank. */
  lemma DecodedPair(x: seq<byte>, y: seq<byte>, decode: seq<byte> -> Option<Event>)
    requires |x| == 1 && x[0] == 65 && |y| >= 1 && y[0] == 66
    ensures Decoded([x, y], decode)
      == (if decode(x).Some? then [Narrate(decode(x).value)] else [])
       + (if decode(y).Some? then [Narrate(decode(y).value)] else [])
  {
    DecodedOne(x, decode);
    assert [x, y][..1] == [x];
  }

  /** The events of one line that is not blank. */
  lemma DecodedOne(x: seq<byte>, decode: seq<byte> -> Option<Event>)
    requires |x| >= 1 && 65 <= x[0] <= 67
    ensures Decoded([x], decode) == if decode(x).Some? then [Narrate(decode(x).value)] else []
  {
    assert [x][..0] == [];
    assert !IsBlankLine(x) by { assert !(9 <= x[0] <= 13 || x[0] == 32); }
  }
}
