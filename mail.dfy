/** Mail delivery through the beads ledger: the `bd create` argument list a message becomes,
    the recipient's session address and the best-effort banner (internal/mail/router.go). */
module MailRouter {
  import opened Util
  import opened Platform

  /** A non-empty message type name. */
  type TypeName = s: string | s != [] witness "task"

  /** A message's type: none given, the notification type, or any other type by its wire
      name (a non-empty name other than the notification type's). */
  datatype MessageType = Untyped | Notification | Typed(name: TypeName)

  datatype Message = Message(
    from: string,
    to: string,
    subject: string,
    body: string,
    priority: int,
    threadID: string,
    replyTo: string,
    msgType: MessageType)

  // ---------------------------------------------------------------------------------------
  // Session addresses

  /** The multiplexer session of a mail address: any address starting with "mayor" is the
      mayor's; otherwise the address must be `rig/target` with a non-empty target, split at
      the first slash only; anything else has no session (""). */
  function AddressToSessionID(address: string): (id: string)
    ensures HasPrefix(address, "mayor") ==> id == "gt-mayor"
    ensures !HasPrefix(address, "mayor") ==>
      (id == "" <==> '/' !in address || After(address, '/') == "")
    ensures !HasPrefix(address, "mayor") && id != "" ==>
      id == "gt-" + Before(address, '/') + "-" + After(address, '/')
      && Before(address, '/') + "/" + After(address, '/') == address
    ensures id != "" ==> HasPrefix(id, "gt-")
  {
    if HasPrefix(address, "mayor") then "gt-mayor"
    else
      var parts := SplitOnce(address, '/');
      if |parts| != 2 || parts[1] == "" then ""
      else "gt-" + parts[0] + "-" + parts[1]
  }

  /** Every address starting with "mayor" is the mayor's, with or without a slash. */
  lemma MayorAddresses()
    ensures AddressToSessionID("mayor") == "gt-mayor"
    ensures AddressToSessionID("mayor/") == "gt-mayor"
    ensures AddressToSessionID("mayorx") == "gt-mayor"
  {
    assert HasPrefix("mayor/", "mayor") && HasPrefix("mayorx", "mayor");
  }

  /** A rig address is split at its first slash only: the target keeps any later slashes,
      so `gastown/toast` is `gt-gastown-toast` and `a/b/c` is `gt-a-b/c`. */
  lemma RigAddress(rig: string, target: string)
    requires '/' !in rig && !HasPrefix(rig, "mayor") && target != ""
    ensures AddressToSessionID(rig + "/" + target) == "gt-" + rig + "-" + target
  {
    var address := rig + "/" + target;
    NotMayor(rig, target);
    assert address[|rig|] == '/';
    forall j | 0 <= j < |rig| ensures address[j] != '/' {
      assert address[j] == rig[j];
    }
    IndexOfFirst(address, '/', |rig|);
    assert address[..|rig|] == rig && address[|rig| + 1..] == target;
  }

  /** A bare rig name, or a rig with nothing after its slash, has no session. */
  lemma SessionlessAddress(rig: string)
    requires '/' !in rig && !HasPrefix(rig, "mayor")
    ensures AddressToSessionID(rig) == ""
    ensures AddressToSessionID(rig + "/") == ""
  {
    var address := rig + "/";
    NotMayor(rig, "");
    assert address == rig + "/" + "";
    forall j | 0 <= j < |rig| ensures address[j] != '/' {
      assert address[j] == rig[j];
    }
    IndexOfFirst(address, '/', |rig|);
  }

  /** A rig name that does not start with "mayor" keeps any address built on it from
      starting with "mayor": either its own first five characters differ, or its slash
      comes first. */
  lemma NotMayor(rig: string, rest: string)
    requires '/' !in rig && !HasPrefix(rig, "mayor")
    ensures !HasPrefix(rig + "/" + rest, "mayor")
  {
    var address := rig + "/" + rest;
    if |rig| >= 5 {
      assert address[..5] == rig[..5];
    } else {
      assert address[|rig|] == '/';
    }
  }

  // ---------------------------------------------------------------------------------------
  // The create command

  /** The metadata labels, in their fixed order: the sender always, then the thread, the
      message replied to and a non-notification type, each only when given. */
  function Labels(m: Message, fromIdentity: string): (labels: seq<string>)
    ensures |labels| == 1 + (if m.threadID != "" then 1 else 0) + (if m.replyTo != "" then 1 else 0)
      + (if m.msgType.Typed? then 1 else 0)
    ensures labels[0] == "from:" + fromIdentity
    ensures m.threadID != "" ==> labels[1] == "thread:" + m.threadID
    ensures m.replyTo != "" ==> labels[if m.threadID != "" then 2 else 1] == "reply-to:" + m.replyTo
    ensures m.msgType.Typed? ==> labels[|labels| - 1] == "msg-type:" + m.msgType.name
  {
    ["from:" + fromIdentity]
    + (if m.threadID != "" then ["thread:" + m.threadID] else [])
    + (if m.replyTo != "" then ["reply-to:" + m.replyTo] else [])
    + (if m.msgType.Typed? then ["msg-type:" + m.msgType.name] else [])
  }

  /** The value of the first label carrying `prefix`. */
  function LabelValue(labels: seq<string>, prefix: string): Option<string>
  {
    if labels == [] then None
    else if HasPrefix(labels[0], prefix) then Some(labels[0][|prefix|..])
    else LabelValue(labels[1..], prefix)
  }

  lemma {:induction false} LabelValueAppend(a: seq<string>, b: seq<string>, prefix: string)
    ensures LabelValue(a + b, prefix)
      == if LabelValue(a, prefix).Some? then LabelValue(a, prefix) else LabelValue(b, prefix)
    decreases |a|
  {
    if a == [] {
      assert a + b == b;
    } else {
      LabelValueAppend(a[1..], b, prefix);
      assert (a + b)[1..] == a[1..] + b;
    }
  }

  /** A label made of a tag and a value carries exactly those tags it starts with. */
  lemma TaggedLabel(tag: string, value: string, prefix: string)
    requires |tag| > 0 && |prefix| > 0 && (tag == prefix || tag[0] != prefix[0])
    ensures LabelValue([tag + value], prefix) == if tag == prefix then Some(value) else None
  {
    var l := tag + value;
    var single: seq<string> := [l];
    assert single[1..] == [];
    if tag == prefix {
      assert l[..|tag|] == tag && l[|tag|..] == value;
    } else {
      assert l[0] == tag[0];
    }
  }

  /** Reading the labels back by prefix recovers the sender's identity and exactly the
      optional metadata the message gives. */
  lemma LabelsReadBack(m: Message, fromIdentity: string)
    ensures LabelValue(Labels(m, fromIdentity), "from:") == Some(fromIdentity)
    ensures LabelValue(Labels(m, fromIdentity), "thread:")
      == if m.threadID != "" then Some(m.threadID) else None
    ensures LabelValue(Labels(m, fromIdentity), "reply-to:")
      == if m.replyTo != "" then Some(m.replyTo) else None
    ensures LabelValue(Labels(m, fromIdentity), "msg-type:")
      == if m.msgType.Typed? then Some(m.msgType.name) else None
  {
    LabelLookup(m, fromIdentity, "from:");
    LabelLookup(m, fromIdentity, "thread:");
    LabelLookup(m, fromIdentity, "reply-to:");
    LabelLookup(m, fromIdentity, "msg-type:");
  }

  /** The lookup of one of the four tags: the tags begin with four different letters, so
      only the label written with that tag can answer. */
  lemma LabelLookup(m: Message, fromIdentity: string, p: string)
    requires p == "from:" || p == "thread:" || p == "reply-to:" || p == "msg-type:"
    ensures LabelValue(Labels(m, fromIdentity), p) ==
      if p == "from:" then Some(fromIdentity)
      else if p == "thread:" then (if m.threadID != "" then Some(m.threadID) else None)
      else if p == "reply-to:" then (if m.replyTo != "" then Some(m.replyTo) else None)
      else if m.msgType.Typed? then Some(m.msgType.name) else None
  {
    var from := ["from:" + fromIdentity];
    var thread := if m.threadID != "" then ["thread:" + m.threadID] else [];
    var reply := if m.replyTo != "" then ["reply-to:" + m.replyTo] else [];
    var kind := if m.msgType.Typed? then ["msg-type:" + m.msgType.name] else [];
    assert Labels(m, fromIdentity) == from + (thread + (reply + kind));
    LabelValueAppend(from, thread + (reply + kind), p);
    LabelValueAppend(thread, reply + kind, p);
    LabelValueAppend(reply, kind, p);
    TaggedLabel("from:", fromIdentity, p);
    if m.threadID != "" { TaggedLabel("thread:", m.threadID, p); }
    if m.replyTo != "" { TaggedLabel("reply-to:", m.replyTo, p); }
    if m.msgType.Typed? { TaggedLabel("msg-type:", m.msgType.name, p); }
  }

  /** Joined with commas, labels free of commas split back into the same labels. */
  lemma LabelsJoinRoundTrip(m: Message, fromIdentity: string)
    requires ',' !in fromIdentity && ',' !in m.threadID && ',' !in m.replyTo
    requires m.msgType.Typed? ==> ',' !in m.msgType.name
    ensures Split(Join(Labels(m, fromIdentity), ","), ',') == Labels(m, fromIdentity)
  {
    var labels := Labels(m, fromIdentity);
    forall k | 0 <= k < |labels| ensures ',' !in labels[k] {
      assert ',' !in "from:" && ',' !in "thread:" && ',' !in "reply-to:" && ',' !in "msg-type:";
    }
    SplitJoin(labels, ',');
  }

  /** The `bd` arguments that store a message as a ledger issue: always the type, title and
      assignee, a description only for a non-empty body, always the priority and, since the
      sender label is always there, always the labels. */
  function CreateArgs(m: Message, fromIdentity: string, beadsPriority: int): (args: seq<string>)
    ensures |args| >= 7 && args[..7] == ["create", "--type", "message", "--title", m.subject, "--assignee", m.to]
    ensures |args| % 2 == 1
  {
    var labels := Labels(m, fromIdentity);
    ["create", "--type", "message", "--title", m.subject, "--assignee", m.to]
    + (if m.body != "" then ["--description", m.body] else [])
    + ["--priority", IntToString(beadsPriority)]
    + (if |labels| > 0 then ["--labels", Join(labels, ",")] else [])
  }

  /** The value following the first occurrence of `flag` in a list of flag/value pairs. */
  function FlagValue(pairs: seq<string>, flag: string): Option<string>
    decreases |pairs|
  {
    if |pairs| < 2 then None
    else if pairs[0] == flag then Some(pairs[1])
    else FlagValue(pairs[2..], flag)
  }

  lemma {:induction false} FlagValueAppend(a: seq<string>, b: seq<string>, flag: string)
    requires |a| % 2 == 0
    ensures FlagValue(a + b, flag) == if FlagValue(a, flag).Some? then FlagValue(a, flag) else FlagValue(b, flag)
    decreases |a|
  {
    if a == [] {
      assert a + b == b;
    } else {
      FlagValueAppend(a[2..], b, flag);
      assert (a + b)[2..] == a[2..] + b;
    }
  }

  /** Parsing the arguments after `create` as flag/value pairs gives back each field of the
      message: the fixed type, the subject, the recipient, the body exactly when non-empty,
      the priority and the joined labels. */
  lemma CreateArgsReadBack(m: Message, fromIdentity: string, beadsPriority: int)
    ensures var pairs := CreateArgs(m, fromIdentity, beadsPriority)[1..];
      FlagValue(pairs, "--type") == Some("message")
      && FlagValue(pairs, "--title") == Some(m.subject)
      && FlagValue(pairs, "--assignee") == Some(m.to)
      && FlagValue(pairs, "--description") == (if m.body != "" then Some(m.body) else None)
      && FlagValue(pairs, "--priority") == Some(IntToString(beadsPriority))
      && FlagValue(pairs, "--labels") == Some(Join(Labels(m, fromIdentity), ","))
  {
    ArgsLookup(m, fromIdentity, beadsPriority, "--type");
    ArgsLookup(m, fromIdentity, beadsPriority, "--title");
    ArgsLookup(m, fromIdentity, beadsPriority, "--assignee");
    ArgsLookup(m, fromIdentity, beadsPriority, "--description");
    ArgsLookup(m, fromIdentity, beadsPriority, "--priority");
    ArgsLookup(m, fromIdentity, beadsPriority, "--labels");
  }

  /** The lookup of one flag in the `create` arguments; no other flag is present. */
  lemma ArgsLookup(m: Message, fromIdentity: string, beadsPriority: int, f: string)
    ensures FlagValue(CreateArgs(m, fromIdentity, beadsPriority)[1..], f) ==
      if f == "--type" then Some("message")
      else if f == "--title" then Some(m.subject)
      else if f == "--assignee" then Some(m.to)
      else if f == "--description" then (if m.body != "" then Some(m.body) else None)
      else if f == "--priority" then Some(IntToString(beadsPriority))
      else if f == "--labels" then Some(Join(Labels(m, fromIdentity), ","))
      else None
  {
    var fixed := ["--type", "message", "--title", m.subject, "--assignee", m.to];
    var desc := if m.body != "" then ["--description", m.body] else [];
    var prio := ["--priority", IntToString(beadsPriority)];
    var lab := ["--labels", Join(Labels(m, fromIdentity), ",")];
    assert CreateArgs(m, fromIdentity, beadsPriority)[1..] == fixed + (desc + (prio + lab));
    FlagValueAppend(fixed, desc + (prio + lab), f);
    FlagValueAppend(desc, prio + lab, f);
    FlagValueAppend(prio, lab, f);
    FixedFlags(m.subject, m.to, f);
    assert lab[2..] == [] && prio[2..] == [];
    assert desc != [] ==> desc[2..] == [];
  }

  /** The flags every `create` carries first. */
  lemma FixedFlags(subject: string, to: string, f: string)
    ensures FlagValue(["--type", "message", "--title", subject, "--assignee", to], f) ==
      if f == "--type" then Some("message")
      else if f == "--title" then Some(subject)
      else if f == "--assignee" then Some(to)
      else None
  {
    var fixed := ["--type", "message", "--title", subject, "--assignee", to];
    var fixed1 := ["--title", subject, "--assignee", to];
    var fixed2 := ["--assignee", to];
    assert fixed[2..] == fixed1 && fixed1[2..] == fixed2 && fixed2[2..] == [];
    assert FlagValue(fixed2, f) == if f == "--assignee" then Some(to) else None;
    assert FlagValue(fixed1, f) == if f == "--title" then Some(subject) else FlagValue(fixed2, f);
  }

  // ---------------------------------------------------------------------------------------
  // The router

  /** Why a send failed: the command's trimmed error output, or no output at all. */
  datatype SendError = Stderr(text: string) | SendFailed

  /** A notification banner that could not be shown. */
  datatype NotifyError = BannerFailed

  /** Delivers messages by creating ledger issues in one work directory. */
  class Router {
    const workDir: string
    /** The sender's identity as labels and the agent name spell it. */
    const addressToIdentity: string -> string
    /** The ledger's priority number for a message priority. */
    const priorityToBeads: int -> int

    constructor (workDir: string, addressToIdentity: string -> string, priorityToBeads: int -> int)
      ensures this.workDir == workDir && this.addressToIdentity == addressToIdentity
      ensures this.priorityToBeads == priorityToBeads
    {
      this.workDir := workDir;
      this.addressToIdentity := addressToIdentity;
      this.priorityToBeads := priorityToBeads;
    }

    /** The create command a message becomes. */
    function ArgsFor(m: Message): seq<string>
    {
      CreateArgs(m, addressToIdentity(m.from), priorityToBeads(m.priority))
    }

    /** Stores a message as a ledger issue, then notifies the recipient best-effort. A failed
        create is reported, by its trimmed error output when there is any, and nothing else
        is attempted; after a successful create the result is success whatever the
        notification does. */
    method Send(host: Host, m: Message) returns (r: Outcome<SendError>)
      modifies host`ledger, host`log
      ensures |host.log| > |old(host.log)| && host.log[..|old(host.log)|] == old(host.log)
      ensures var create := host.log[|old(host.log)|];
        create.Exec? && create.dir == workDir && create.args == ArgsFor(m)
        && create.agentName == addressToIdentity(m.from)
        && (r == Pass <==> create.ok)
        && (r == Fail(SendFailed) <==> !create.ok && TrimSpace(create.stderr) == "")
        && (r.Fail? && r.error.Stderr? ==> !create.ok && r.error.text == TrimSpace(create.stderr))
      ensures r.Fail? ==> |host.log| == |old(host.log)| + 1 && host.ledger == old(host.ledger)
      ensures r.Fail? && r.error.Stderr? ==> r.error.text != ""
      ensures r == Pass ==> host.ledger == old(host.ledger) + [ArgsFor(m)]
      ensures r == Pass ==> NotifiedAs(host.log[|old(host.log)| + 1..], m)
    {
      var fromIdentity := addressToIdentity(m.from);
      var args := CreateArgs(m, fromIdentity, priorityToBeads(m.priority));
      var ok, stderr := host.RunBd(workDir, args, fromIdentity);
      if !ok {
        var errMsg := TrimSpace(stderr);
        if errMsg != "" {
          return Fail(Stderr(errMsg));
        }
        return Fail(SendFailed);
      }
      ghost var afterCreate := host.log;
      var _ := NotifyRecipient(host, m);
      assert host.log[|old(host.log)| + 1..] == host.log[|afterCreate|..];
      r := Pass;
    }

    /** Shows a banner in the recipient's session, only when the address names a session and
        the multiplexer reports that it exists. */
    method NotifyRecipient(host: Host, m: Message) returns (r: Outcome<NotifyError>)
      modifies host`log
      ensures |host.log| >= |old(host.log)| && host.log[..|old(host.log)|] == old(host.log)
      ensures NotifiedAs(host.log[|old(host.log)|..], m)
      ensures r == Fail(BannerFailed) <==>
        exists k :: |old(host.log)| <= k < |host.log| && host.log[k].Banner? && !host.log[k].ok
    {
      var id := AddressToSessionID(m.to);
      if id == "" {
        return Pass;
      }
      var hasSession := host.HasSession(id);
      if hasSession != Some(true) {
        return Pass;
      }
      var ok := host.SendNotificationBanner(id, m.from, m.subject);
      r := if ok then Pass else Fail(BannerFailed);
    }
  }

  /** The calls a notification makes: none without a session address; otherwise the
      session check and, only when it reports the session, a banner with the sender and the
      subject. */
  predicate NotifiedAs(steps: seq<Call>, m: Message)
  {
    var id := AddressToSessionID(m.to);
    if id == "" then steps == []
    else
      |steps| >= 1 && steps[0].SessionQuery? && steps[0].id == id
      && (if steps[0].answer == Some(true) then
            |steps| == 2 && steps[1].Banner? && steps[1].id == id
            && steps[1].from == m.from && steps[1].subject == m.subject
          else |steps| == 1)
  }

  /** A banner is shown only in a session that exists, and always carries the message's
      sender and subject. */
  lemma BannerOnlyForLiveSession(steps: seq<Call>, m: Message, sessions: map<string, bool>)
    requires NotifiedAs(steps, m)
    requires forall k :: 0 <= k < |steps| && steps[k].SessionQuery? ==>
      steps[k].answer == None || steps[k].answer == Some(steps[k].id in sessions)
    ensures forall k :: 0 <= k < |steps| && steps[k].Banner? ==>
      steps[k].id == AddressToSessionID(m.to) && steps[k].id in sessions
      && steps[k].from == m.from && steps[k].subject == m.subject
    ensures (exists k :: 0 <= k < |steps| && steps[k].Banner?) ==> AddressToSessionID(m.to) != ""
  {
  }
}
