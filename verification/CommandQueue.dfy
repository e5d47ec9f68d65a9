/**
 The command queue between the control plane and an instance's agent: commands are queued under an idempotency key,
 handed out in order, and reported started and finished. Each service call is one atomic step.
 */
module CommandQueue {
  import opened Options
  import opened Text
  import opened Wire

  datatype Status = Pending | Dispatched | Running | Succeeded | Failed

  /**
   A row of `instance_commands`; its id is its place in the table, counted from one. A row is altered
   if its JSON was changed outside the service and no longer decodes.
   */
  datatype Command = Command(
    instanceID: int,
    agentID: Option<string>,
    commandType: string,
    payload: Payload,
    status: Status,
    key: string,
    issuedBy: Option<int>,
    issuedAt: int,
    dispatchedAt: Option<int>,
    startedAt: Option<int>,
    finishedAt: Option<int>,
    timeoutSeconds: int,
    result: Option<string>,
    errorMessage: Option<string>,
    altered: bool)

  /** A value of a payload: absent, a number as Go holds it, or anything else. */
  datatype Value = Absent | Float(r: real) | Integer(i: int) | Other

  /**
   A payload and the values the service reads from it: `revision_id`, `skill_id`, and `target_name`,
   "" when it is no text. Stored payloads are encoded and decode to themselves, but for integers,
   which come back as floats.
   */
  datatype Payload = Payload(encoded: string, revision: Value, skill: Value, target: string)

  datatype Desired = Desired(power: string, revision: Option<int>)

  /** A row of `instance_skills`. */
  datatype InstanceSkill = InstanceSkill(status: string, removedAt: Option<int>, updatedAt: int)

  /**
   The commands, the desired state by instance, the desired revision in each instance's runtime row,
   the skill ids of each skill key, and the skills of instances, by instance and skill id.
   */
  datatype Queue = Queue(
    commands: seq<Command>,
    desired: map<int, Desired>,
    runtime: map<int, Option<int>>,
    skills: map<string, seq<int>>,
    installed: map<(int, int), InstanceSkill>)

  datatype Request = Request(commandType: string, payload: Payload, key: string, timeoutSeconds: int)

  datatype Report = Report(
    agentID: string, status: string, finishedAt: Option<int>, result: Option<string>, errorMessage: string)

  datatype Session = Session(instanceID: int, agentID: string)

  /** What fails during a call, if anything; of the accesses to the skill tables, the one after `done` that succeed. */
  datatype Fault =
    | NoFault | Lookup | Encode | Skills(done: nat) | Write | DesiredLookup | DesiredWrite | RuntimeRow

  datatype Reason = InvalidType | NotFound | WrongAgent | InvalidStatus | BadPayload | StoreFailed

  datatype Reply =
    | Queued(id: nat, command: Command)
    | Handed(id: nat, command: Command)
    | Nothing
    | Done
    | Refused(reason: Reason)

  const START := "start_openclaw"
  const STOP := "stop_openclaw"
  const RESTART := "restart_openclaw"
  const APPLY_REVISION := "apply_config_revision"
  const UNINSTALL_SKILL := "uninstall_skill"
  const DEFAULT_TIMEOUT := 300

  predicate Supported(commandType: string) {
    || commandType == START || commandType == STOP || commandType == RESTART || commandType == APPLY_REVISION
    || commandType == UNINSTALL_SKILL
    || commandType in {
         "collect_system_info", "reload_config", "health_check", "install_skill", "update_skill", "remove_skill",
         "disable_skill", "quarantine_skill", "handle_skill_risk", "sync_skill_inventory", "refresh_skill_inventory",
         "collect_skill_package"
       }
  }

  predicate Terminal(s: Status) {
    s.Succeeded? || s.Failed?
  }

  function Rank(s: Status): nat {
    match s
    case Pending => 0
    case Dispatched => 1
    case Running => 2
    case Succeeded => 3
    case Failed => 3
  }

  // The table

  predicate Keyed(c: Command, instanceID: int, key: string) {
    c.instanceID == instanceID && c.key == key
  }

  function FindKey(commands: seq<Command>, instanceID: int, key: string): (k: Option<nat>)
    ensures k.Some? ==> k.value < |commands| && Keyed(commands[k.value], instanceID, key)
    ensures k.None? ==> forall j :: 0 <= j < |commands| ==> !Keyed(commands[j], instanceID, key)
  {
    if commands == [] then None
    else
      var n := |commands| - 1;
      var earlier := FindKey(commands[..n], instanceID, key);
      if earlier.Some? then earlier else if Keyed(commands[n], instanceID, key) then Some(n) else None
  }

  predicate Waiting(c: Command, instanceID: int) {
    c.instanceID == instanceID && c.status.Pending?
  }

  /** Command `a` of the table comes before or at command `b` in the order of issue time, then id. */
  predicate InOrder(commands: seq<Command>, a: nat, b: nat)
    requires a < |commands| && b < |commands|
  {
    commands[a].issuedAt < commands[b].issuedAt || (commands[a].issuedAt == commands[b].issuedAt && a <= b)
  }

  /** `GetNextPendingByInstance`. */
  function NextPending(commands: seq<Command>, instanceID: int): (k: Option<nat>)
    ensures k.Some? ==>
      && k.value < |commands| && Waiting(commands[k.value], instanceID)
      && forall j :: 0 <= j < |commands| && Waiting(commands[j], instanceID) ==> InOrder(commands, k.value, j)
    ensures k.None? ==> forall j :: 0 <= j < |commands| ==> !Waiting(commands[j], instanceID)
  {
    if commands == [] then None
    else
      var n := |commands| - 1;
      var best := NextPending(commands[..n], instanceID);
      if Waiting(commands[n], instanceID) && (best.None? || commands[n].issuedAt < commands[best.value].issuedAt)
      then Some(n)
      else best
  }

  // What each call does to the queue

  function KeyOf(req: Request, nano: int): string {
    if Blank(req.key) then Trim(req.commandType) + "-" + Decimal(nano) else Trim(req.key)
  }

  function Timeout(seconds: int): int {
    if seconds <= 0 then DEFAULT_TIMEOUT else seconds
  }

  function NewCommand(instanceID: int, issuedBy: Option<int>, req: Request, nano: int, now: int): Command {
    Command(instanceID, None, Trim(req.commandType), req.payload, Pending, KeyOf(req, nano), issuedBy, now,
      None, None, None, Timeout(req.timeoutSeconds), None, None, false)
  }

  /** The power state a command type asks for. */
  function PowerOf(commandType: string): Option<string> {
    if commandType == START || commandType == RESTART then Some("running")
    else if commandType == STOP then Some("stopped")
    else None
  }

  /** Conversion of a float to an integer, towards zero. */
  function Truncate(r: real): int {
    if r >= 0.0 then r.Floor else -(-r).Floor
  }

  function Desire(d: Desired, commandType: string, revision: Value): Desired {
    if PowerOf(commandType).Some? then d.(power := PowerOf(commandType).value)
    else if commandType == APPLY_REVISION && revision.Float? then d.(revision := Some(Truncate(revision.r)))
    else d
  }

  /** Whether a command type makes the service write the desired state. */
  predicate Rewrites(d: Desired, commandType: string, revision: Value) {
    if PowerOf(commandType).Some? then d.power != PowerOf(commandType).value
    else commandType == APPLY_REVISION && revision.Float?
  }

  /** `applyDesiredStateSideEffects`, and whether it succeeded. */
  function SideEffects(q: Queue, instanceID: int, commandType: string, revision: Value, fault: Fault): (Queue, bool) {
    if fault.DesiredLookup? then (q, false)
    else if instanceID !in q.desired || !Rewrites(q.desired[instanceID], commandType, revision) then (q, true)
    else if fault.DesiredWrite? then (q, false)
    else
      var d := Desire(q.desired[instanceID], commandType, revision);
      var runtime :=
        if fault.RuntimeRow? || instanceID !in q.runtime then q.runtime else q.runtime[instanceID := d.revision];
      (q.(desired := q.desired[instanceID := d], runtime := runtime), true)
  }

  function Created(
    q: Queue, instanceID: int, issuedBy: Option<int>, req: Request, nano: int, now: int, fault: Fault
  ): (Queue, Reply) {
    if !Supported(Trim(req.commandType)) then (q, Refused(InvalidType))
    else if fault.Lookup? then (q, Refused(StoreFailed))
    else
      var existing := FindKey(q.commands, instanceID, KeyOf(req, nano));
      if existing.Some? then
        var c := q.commands[existing.value];
        (q, if c.altered then Refused(BadPayload) else Queued(existing.value + 1, c))
      else if fault.Encode? || fault.Write? then (q, Refused(StoreFailed))
      else
        var c := NewCommand(instanceID, issuedBy, req, nano, now);
        var (after, ok) :=
          SideEffects(q.(commands := q.commands + [c]), instanceID, c.commandType, req.payload.revision, fault);
        (after, if ok then Queued(|q.commands| + 1, c) else Refused(StoreFailed))
  }

  function Replace(q: Queue, k: nat, c: Command): Queue
    requires k < |q.commands|
  {
    q.(commands := q.commands[k := c])
  }

  function Hand(q: Queue, session: Session, now: int, fault: Fault): (Queue, Reply) {
    if fault.Lookup? then (q, Refused(StoreFailed))
    else
      var k := NextPending(q.commands, session.instanceID);
      if k.None? then (q, Nothing)
      else if fault.Write? then (q, Refused(StoreFailed))
      else
        var c := q.commands[k.value].(
          status := Dispatched, agentID := Some(session.agentID), dispatchedAt := Some(now));
        (Replace(q, k.value, c), if c.altered then Refused(BadPayload) else Handed(k.value + 1, c))
  }

  /** The session's instance owns the command. */
  predicate Owned(q: Queue, session: Session, id: int) {
    1 <= id <= |q.commands| && q.commands[id - 1].instanceID == session.instanceID
  }

  /** A time that is given and not zero, or the clock's. */
  function Given(at: Option<int>, now: int): int {
    if at.Some? && at.value != 0 then at.value else now
  }

  function Started(
    q: Queue, session: Session, id: int, startedAt: Option<int>, now: int, fault: Fault
  ): (Queue, Reply) {
    if fault.Lookup? then (q, Refused(StoreFailed))
    else if !Owned(q, session, id) then (q, Refused(NotFound))
    else
      var c := q.commands[id - 1];
      if c.status.Running? || Terminal(c.status) then (q, Done)
      else if fault.Write? then (q, Refused(StoreFailed))
      else
        var d := c.(status := Running, agentID := Some(session.agentID), startedAt := Some(Given(startedAt, now)));
        (Replace(q, id - 1, d), Done)
  }

  /** The two statuses an agent may finish a command with. */
  function Outcome(status: string): Option<Status> {
    if status == "succeeded" then Some(Succeeded) else if status == "failed" then Some(Failed) else None
  }

  function Settled(c: Command, session: Session, report: Report, outcome: Status, now: int): Command {
    c.(status := outcome,
      agentID := Some(session.agentID),
      finishedAt := Some(Given(report.finishedAt, now)),
      result := OrElse(report.result, c.result),
      errorMessage := if Blank(report.errorMessage) then c.errorMessage else Some(Trim(report.errorMessage)))
  }

  /** The skill id a stored payload names, if it names one. */
  function SkillID(p: Payload): Option<int> {
    match p.skill
    case Float(r) => if r > 0.0 then Some(Truncate(r)) else None
    case Integer(i) => if i > 0 then Some(i) else None
    case _ => None
  }

  /** The accesses to the skill tables that an uninstall needs. */
  datatype Access = Remove(skillID: int) | FindSkills

  function Removes(ids: seq<int>): seq<Access> {
    seq(|ids|, k requires 0 <= k < |ids| => Remove(ids[k]))
  }

  function Plan(skills: map<string, seq<int>>, p: Payload): seq<Access> {
    var byID := if SkillID(p).Some? then [Remove(SkillID(p).value)] else [];
    var key := Trim(p.target);
    var byKey := if key == "" then [] else [FindSkills] + Removes(if key in skills then skills[key] else []);
    byID + byKey
  }

  /** `MarkInstanceSkillRemoved`: a row that has moved on since is left alone. */
  function RemovedRow(row: InstanceSkill, at: int): InstanceSkill {
    if row.updatedAt > at then row else InstanceSkill("removed", Some(at), at)
  }

  /** The skills of an instance after these accesses. */
  function Removed(
    installed: map<(int, int), InstanceSkill>, instanceID: int, plan: seq<Access>, at: int
  ): map<(int, int), InstanceSkill> {
    map k | k in installed ::
      if k.0 == instanceID && Remove(k.1) in plan then RemovedRow(installed[k], at) else installed[k]
  }

  /** How many of the accesses succeed. */
  function Reached(plan: seq<Access>, fault: Fault): nat {
    if fault.Skills? && fault.done < |plan| then fault.done else |plan|
  }

  predicate Uninstalls(c: Command, outcome: Status) {
    c.commandType == UNINSTALL_SKILL && outcome.Succeeded?
  }

  function Finished(q: Queue, session: Session, id: int, report: Report, now: int, fault: Fault): (Queue, Reply) {
    if fault.Lookup? then (q, Refused(StoreFailed))
    else if !Owned(q, session, id) then (q, Refused(NotFound))
    else if Trim(report.agentID) != session.agentID then (q, Refused(WrongAgent))
    else if Outcome(report.status).None? then (q, Refused(InvalidStatus))
    else
      var c, outcome := q.commands[id - 1], Outcome(report.status).value;
      if Terminal(c.status) then (q, Done)
      else if fault.Encode? && report.result.Some? then (q, Refused(StoreFailed))
      else if c.altered && Uninstalls(c, outcome) then (q, Refused(BadPayload))
      else
        var plan := if Uninstalls(c, outcome) then Plan(q.skills, c.payload) else [];
        var reached := Reached(plan, fault);
        var removed :=
          q.(installed := Removed(q.installed, c.instanceID, plan[..reached], Given(report.finishedAt, now)));
        if reached < |plan| || fault.Write? then (removed, Refused(StoreFailed))
        else (Replace(removed, id - 1, Settled(c, session, report, outcome, now)), Done)
  }

  function RemoveOne(
    installed: map<(int, int), InstanceSkill>, instanceID: int, skillID: int, at: int
  ): map<(int, int), InstanceSkill> {
    if (instanceID, skillID) !in installed then installed
    else installed[(instanceID, skillID) := RemovedRow(installed[(instanceID, skillID)], at)]
  }

  lemma NothingRemoved(installed: map<(int, int), InstanceSkill>, instanceID: int, at: int)
    ensures Removed(installed, instanceID, [], at) == installed
  {
  }

  /** One access more, also one to a skill already removed, is one removal more. */
  lemma RemovedOneMore(
    installed: map<(int, int), InstanceSkill>, instanceID: int, plan: seq<Access>, access: Access, at: int
  )
    ensures Removed(installed, instanceID, plan + [access], at) ==
      var before := Removed(installed, instanceID, plan, at);
      match access
      case Remove(skillID) => RemoveOne(before, instanceID, skillID, at)
      case FindSkills => before
  {
    var all := plan + [access];
    assert forall a :: a in all <==> a in plan || a == access;
    if access.Remove? {
      var before := Removed(installed, instanceID, plan, at);
      var after := RemoveOne(before, instanceID, access.skillID, at);
      forall k | k in installed ensures k in after && Removed(installed, instanceID, all, at)[k] == after[k] {
      }
    }
  }

  class InstanceCommandService {
    var commands: seq<Command>
    var desired: map<int, Desired>
    var runtime: map<int, Option<int>>
    const skills: map<string, seq<int>>
    var installed: map<(int, int), InstanceSkill>

    constructor (
      desired: map<int, Desired>, runtime: map<int, Option<int>>, skills: map<string, seq<int>>,
      installed: map<(int, int), InstanceSkill>
    )
      ensures State() == Queue([], desired, runtime, skills, installed)
    {
      commands := [];
      this.desired, this.runtime, this.skills, this.installed := desired, runtime, skills, installed;
    }

    ghost function State(): Queue
      reads this
    {
      Queue(commands, desired, runtime, skills, installed)
    }

    method Create(instanceID: int, issuedBy: Option<int>, req: Request, nano: int, now: int, fault: Fault)
      returns (reply: Reply)
      modifies this
      ensures (State(), reply) == Created(old(State()), instanceID, issuedBy, req, nano, now, fault)
    {
      hide Supported, Trim, Decimal, Rewrites, Desire, Timeout;
      var commandType := Trim(req.commandType);
      if !Supported(commandType) {
        return Refused(InvalidType);
      }
      var idempotencyKey := Trim(req.key);
      if idempotencyKey == "" {
        idempotencyKey := commandType + "-" + Decimal(nano);
      }
      if fault.Lookup? {
        return Refused(StoreFailed);
      }
      var existing := FindKey(commands, instanceID, idempotencyKey);
      if existing.Some? {
        if commands[existing.value].altered {
          return Refused(BadPayload);
        }
        return Queued(existing.value + 1, commands[existing.value]);
      }
      if fault.Encode? {
        return Refused(StoreFailed);
      }
      var command := Command(instanceID, None, commandType, req.payload, Pending, idempotencyKey, issuedBy, now,
        None, None, None, Timeout(req.timeoutSeconds), None, None, false);
      if fault.Write? {
        return Refused(StoreFailed);
      }
      commands := commands + [command];
      var ok := ApplyDesiredStateSideEffects(instanceID, commandType, req.payload.revision, fault);
      if !ok {
        return Refused(StoreFailed);
      }
      reply := Queued(|commands|, command);
    }

    method ApplyDesiredStateSideEffects(instanceID: int, commandType: string, revision: Value, fault: Fault)
      returns (ok: bool)
      modifies this
      ensures (State(), ok) == SideEffects(old(State()), instanceID, commandType, revision, fault)
      ensures commands == old(commands)
    {
      if fault.DesiredLookup? {
        return false;
      }
      if instanceID !in desired {
        return true;
      }
      hide Desire, Rewrites;
      var state, updated := AdjustDesired(desired[instanceID], commandType, revision);
      if !updated {
        return true;
      }
      if fault.DesiredWrite? {
        return false;
      }
      desired := desired[instanceID := state];
      if !fault.RuntimeRow? && instanceID in runtime {
        runtime := runtime[instanceID := state.revision];
      }
      ok := true;
    }

    /** The switch over command types. */
    static method AdjustDesired(before: Desired, commandType: string, revision: Value)
      returns (state: Desired, updated: bool)
      ensures updated == Rewrites(before, commandType, revision)
      ensures state == if updated then Desire(before, commandType, revision) else before
    {
      hide Truncate;
      state, updated := before, false;
      match commandType {
        case "start_openclaw" | "restart_openclaw" =>
          if state.power != "running" {
            state, updated := state.(power := "running"), true;
          }
        case "stop_openclaw" =>
          if state.power != "stopped" {
            state, updated := state.(power := "stopped"), true;
          }
        case "apply_config_revision" =>
          if revision.Float? {
            state, updated := state.(revision := Some(Truncate(revision.r))), true;
          }
        case _ =>
      }
    }

    method GetNextForAgent(session: Session, now: int, fault: Fault) returns (reply: Reply)
      modifies this
      ensures (State(), reply) == Hand(old(State()), session, now, fault)
    {
      if fault.Lookup? {
        return Refused(StoreFailed);
      }
      var k := NextPending(commands, session.instanceID);
      if k.None? {
        return Nothing;
      }
      var command := commands[k.value];
      command := command.(status := Dispatched);
      command := command.(agentID := Some(session.agentID));
      command := command.(dispatchedAt := Some(now));
      if fault.Write? {
        return Refused(StoreFailed);
      }
      commands := commands[k.value := command];
      if command.altered {
        return Refused(BadPayload);
      }
      reply := Handed(k.value + 1, command);
    }

    method MarkStarted(session: Session, id: int, startedAt: Option<int>, now: int, fault: Fault) returns (reply: Reply)
      modifies this
      ensures (State(), reply) == Started(old(State()), session, id, startedAt, now, fault)
    {
      if fault.Lookup? {
        return Refused(StoreFailed);
      }
      if !(1 <= id <= |commands|) || commands[id - 1].instanceID != session.instanceID {
        return Refused(NotFound);
      }
      var command := commands[id - 1];
      if command.status.Running? || command.status.Succeeded? || command.status.Failed? {
        return Done;
      }
      var at := startedAt;
      if at.None? || at.value == 0 {
        at := Some(now);
      }
      command := command.(status := Running);
      command := command.(agentID := Some(session.agentID));
      command := command.(startedAt := at);
      if fault.Write? {
        return Refused(StoreFailed);
      }
      commands := commands[id - 1 := command];
      reply := Done;
    }

    method MarkFinished(session: Session, id: int, report: Report, now: int, fault: Fault) returns (reply: Reply)
      modifies this
      ensures (State(), reply) == Finished(old(State()), session, id, report, now, fault)
    {
      hide Trim, Plan, Removed, Settled;
      if fault.Lookup? {
        return Refused(StoreFailed);
      }
      if !(1 <= id <= |commands|) || commands[id - 1].instanceID != session.instanceID {
        return Refused(NotFound);
      }
      if Trim(report.agentID) != session.agentID {
        return Refused(WrongAgent);
      }
      var outcome := Outcome(report.status);
      if outcome.None? {
        return Refused(InvalidStatus);
      }
      var command := commands[id - 1];
      if command.status.Succeeded? || command.status.Failed? {
        return Done;
      }
      var finishedAt := report.finishedAt;
      if finishedAt.None? || finishedAt.value == 0 {
        finishedAt := Some(now);
      }
      if report.result.Some? && fault.Encode? {
        return Refused(StoreFailed);
      }
      command := FillIn(command, session, report, outcome.value, finishedAt.value, now);
      if command.commandType == UNINSTALL_SKILL && outcome.value.Succeeded? {
        if command.altered {
          return Refused(BadPayload);
        }
        var removed := MarkUninstalledSkillRemoved(command, finishedAt.value, fault);
        if !removed {
          return Refused(StoreFailed);
        }
      } else {
        ghost var none: seq<Access> := [];
        assert none[..0] == [];
        NothingRemoved(installed, command.instanceID, finishedAt.value);
      }
      if fault.Write? {
        return Refused(StoreFailed);
      }
      commands := commands[id - 1 := command];
      reply := Done;
    }

    /** The report's fields are filled into the command; what it leaves out stays. */
    static method FillIn(
      before: Command, session: Session, report: Report, outcome: Status, finishedAt: int, ghost now: int
    )
      returns (command: Command)
      requires finishedAt == Given(report.finishedAt, now)
      ensures command == Settled(before, session, report, outcome, now)
      ensures (command.instanceID, command.commandType, command.payload, command.altered)
        == (before.instanceID, before.commandType, before.payload, before.altered)
    {
      hide Trim;
      command := before.(status := outcome, agentID := Some(session.agentID), finishedAt := Some(finishedAt));
      if report.result.Some? {
        command := command.(result := report.result);
      }
      if !Blank(report.errorMessage) {
        command := command.(errorMessage := Some(Trim(report.errorMessage)));
      }
    }

    /** Removal of an uninstalled skill, by id and by key, until an access fails. */
    method MarkUninstalledSkillRemoved(command: Command, observedAt: int, fault: Fault) returns (ok: bool)
      modifies this`installed
      ensures
        var plan := Plan(skills, command.payload);
        var reached := Reached(plan, fault);
        && installed == Removed(old(installed), command.instanceID, plan[..reached], observedAt)
        && (ok <==> reached == |plan|)
    {
      hide Plan;
      var plan := Plan(skills, command.payload);
      NothingRemoved(installed, command.instanceID, observedAt);
      for k := 0 to |plan|
        invariant installed == Removed(old(installed), command.instanceID, plan[..k], observedAt)
        invariant fault.Skills? ==> k <= fault.done
      {
        if fault.Skills? && fault.done == k {
          return false;
        }
        hide Removed;
        assert plan[..k + 1] == plan[..k] + [plan[k]];
        RemovedOneMore(old(installed), command.instanceID, plan[..k], plan[k], observedAt);
        match plan[k] {
          case Remove(skillID) => MarkInstanceSkillRemoved(command.instanceID, skillID, observedAt);
          case FindSkills =>
        }
      }
      assert plan[..|plan|] == plan;
      ok := true;
    }

    method MarkInstanceSkillRemoved(instanceID: int, skillID: int, observedAt: int)
      modifies this`installed
      ensures installed == RemoveOne(old(installed), instanceID, skillID, observedAt)
    {
      if (instanceID, skillID) !in installed {
        return;
      }
      var item := installed[(instanceID, skillID)];
      if item.updatedAt > observedAt {
        return;
      }
      item := item.(status := "removed", removedAt := Some(observedAt), updatedAt := observedAt);
      installed := installed[(instanceID, skillID) := item];
    }
  }
}
