/**
 What the command queue's calls put on record, told by the columns, and whose calls a record is due to.
 */
module CommandRecords {
  import opened Options
  import opened Text
  import opened Wire
  import opened CommandQueue
  import opened CommandRuns

  // Creating

  /** The command types an instance's agent understands. */
  const COMMAND_TYPES := {
    "start_openclaw", "stop_openclaw", "restart_openclaw", "apply_config_revision", "uninstall_skill",
    "collect_system_info", "reload_config", "health_check", "install_skill", "update_skill", "remove_skill",
    "disable_skill", "quarantine_skill", "handle_skill_risk", "sync_skill_inventory", "refresh_skill_inventory",
    "collect_skill_package"
  }

  /** The key a request goes by: its own, or one made of its type and the clock. */
  function RequestKey(req: Request, nano: int): string {
    if Trim(req.key) != "" then Trim(req.key) else Trim(req.commandType) + "-" + Decimal(nano)
  }

  /** A command of the instance stands under the key. */
  predicate Known(commands: seq<Command>, instanceID: int, key: string) {
    exists k :: 0 <= k < |commands| && commands[k].instanceID == instanceID && commands[k].key == key
  }

  /** A request of an unknown type is refused; one under a key not in use is stored as it was made, to be dispatched. */
  lemma CreateStores(q: Queue, instanceID: int, issuedBy: Option<int>, req: Request, nano: int, now: int)
    ensures
      var (after, reply) := Created(q, instanceID, issuedBy, req, nano, now, NoFault);
      var commandType, key := Trim(req.commandType), RequestKey(req, nano);
      if commandType !in COMMAND_TYPES then after == q && reply == Refused(InvalidType)
      else if Known(q.commands, instanceID, key) then after == q
      else
        var timeout := if req.timeoutSeconds > 0 then req.timeoutSeconds else 300;
        var c := Command(instanceID, None, commandType, req.payload, Pending, key, issuedBy, now, None, None, None,
          timeout, None, None, false);
        && after.commands == q.commands + [c] && reply == Queued(|q.commands| + 1, c)
        && (after.desired != q.desired && instanceID in q.runtime ==>
              instanceID in after.desired
              && after.runtime == q.runtime[instanceID := after.desired[instanceID].revision])
  {
    hide Trim, Decimal, FindKey, Desire, Rewrites;
    var key := RequestKey(req, nano);
    assert KeyOf(req, nano) == key;
    FoundIfKnown(q.commands, instanceID, key);
  }

  lemma FoundIfKnown(commands: seq<Command>, instanceID: int, key: string)
    ensures FindKey(commands, instanceID, key).Some? <==> Known(commands, instanceID, key)
  {
    var k := FindKey(commands, instanceID, key);
    if j :| 0 <= j < |commands| && commands[j].instanceID == instanceID && commands[j].key == key {
      assert Keyed(commands[j], instanceID, key);
    }
  }

  // Polling and starting

  /** A poll stamps the command it dispatches with its agent and the clock, and touches no other. */
  lemma PollStamps(q: Queue, session: Session, now: int)
    ensures
      var (after, reply) := Hand(q, session, now, NoFault);
      match NextPending(q.commands, session.instanceID)
      case None => after == q && reply == Nothing
      case Some(k) =>
        var c := q.commands[k];
        && c.instanceID == session.instanceID && c.status.Pending?
        && after.commands ==
             q.commands[k := c.(status := Dispatched, agentID := Some(session.agentID), dispatchedAt := Some(now))]
  {
  }

  /** A start puts a command of the session's instance to work, unless it works or is finished, at the time given. */
  lemma StartStamps(q: Queue, session: Session, id: int, startedAt: Option<int>, now: int)
    ensures
      var (after, reply) := Started(q, session, id, startedAt, now, NoFault);
      if !(1 <= id <= |q.commands|) || q.commands[id - 1].instanceID != session.instanceID then
        after == q && reply == Refused(NotFound)
      else if q.commands[id - 1].status.Pending? || q.commands[id - 1].status.Dispatched? then
        && reply == Done
        && after.commands == q.commands[id - 1 := q.commands[id - 1].(
             status := Running, agentID := Some(session.agentID),
             startedAt := Some(if startedAt == None || startedAt == Some(0) then now else startedAt.value))]
      else after == q && reply == Done
  {
  }

  // Finishing

  /** The report comes from the agent the session is of, about a command of its instance. */
  predicate FromOwnAgent(q: Queue, session: Session, id: int, report: Report) {
    1 <= id <= |q.commands| && q.commands[id - 1].instanceID == session.instanceID
    && Trim(report.agentID) == session.agentID
  }

  /**
   A report by the command's own agent finishes a command that is not finished yet: as succeeded or failed, as it
   says, with its result and message where it has them. With any other status it is refused.
   */
  lemma FinishRecords(q: Queue, session: Session, id: int, report: Report, now: int)
    requires FromOwnAgent(q, session, id, report)
    requires var c := q.commands[id - 1]; !c.altered && !c.status.Succeeded? && !c.status.Failed?
    ensures
      var (after, reply) := Finished(q, session, id, report, now, NoFault);
      var c := q.commands[id - 1];
      if report.status == "succeeded" || report.status == "failed" then
        && reply == Done
        && after.commands == q.commands[id - 1 := c.(
             status := if report.status == "succeeded" then Succeeded else Failed,
             agentID := Some(session.agentID),
             finishedAt := Some(if report.finishedAt == None || report.finishedAt == Some(0) then now
                                else report.finishedAt.value),
             result := if report.result.Some? then report.result else c.result,
             errorMessage :=
               if Trim(report.errorMessage) != "" then Some(Trim(report.errorMessage)) else c.errorMessage)]
      else after == q && reply == Refused(InvalidStatus)
  {
    hide Trim, Plan, Removed;
  }

  /** The call reports, by the command's own agent, that it ended with this status. */
  predicate Reports(call: Call, id: int, instanceID: int, status: string) {
    call.Finish? && call.id == id && call.session.instanceID == instanceID && call.report.status == status
    && Trim(call.report.agentID) == call.session.agentID
  }

  /** The status by which a command is reported to have ended. */
  predicate EndedAs(c: Command, status: string) {
    (status == "succeeded" && c.status.Succeeded?) || (status == "failed" && c.status.Failed?)
  }

  lemma EndsByReport(q: Queue, call: Call, id: int, status: string)
    requires 1 <= id <= |Step(q, call).0.commands| && EndedAs(Step(q, call).0.commands[id - 1], status)
    ensures
      || (id <= |q.commands| && EndedAs(q.commands[id - 1], status))
      || Reports(call, id, Step(q, call).0.commands[id - 1].instanceID, status)
  {
    hide Trim, Plan, Removed, FindKey, NextPending, SideEffects, KeyOf, Supported;
    if call.Create? {
      CreatedCommands(q, call.instanceID, call.issuedBy, call.req, call.nano, call.now, call.fault);
      hide Step;
    } else if call.Finish? {
      FinishEnds(q, call, id, status);
    }
  }

  lemma FinishEnds(q: Queue, call: Call, id: int, status: string)
    requires call.Finish? && 1 <= id <= |Step(q, call).0.commands| && EndedAs(Step(q, call).0.commands[id - 1], status)
    ensures
      || (id <= |q.commands| && EndedAs(q.commands[id - 1], status))
      || Reports(call, id, Step(q, call).0.commands[id - 1].instanceID, status)
  {
    hide Trim, Plan, Removed;
  }

  /**
   In every run a command has succeeded, or failed, only if its own agent reported so for it, or it had before the
   run.
   */
  lemma {:induction false} EndsWereReported(q: Queue, calls: seq<Call>, id: int, status: string)
    requires 1 <= id <= |Run(q, calls).commands| && EndedAs(Run(q, calls).commands[id - 1], status)
    ensures
      || (id <= |q.commands| && EndedAs(q.commands[id - 1], status))
      || exists k :: 0 <= k < |calls| && Reports(calls[k], id, Run(q, calls).commands[id - 1].instanceID, status)
    decreases |calls|
  {
    if calls != [] {
      hide Step, Reports, EndedAs, Grown;
      var n := |calls| - 1;
      var before := Run(q, calls[..n]);
      EndsByReport(before, calls[n], id, status);
      if id <= |before.commands| && EndedAs(before.commands[id - 1], status) {
        EndsWereReported(q, calls[..n], id, status);
        StepGrows(before, calls[n]);
        SameInstance(before.commands, Step(before, calls[n]).0.commands, id);
      }
    }
  }

  lemma SameInstance(a: seq<Command>, b: seq<Command>, id: int)
    requires Grown(a, b) && 1 <= id <= |a|
    ensures id <= |b| && a[id - 1].instanceID == b[id - 1].instanceID
  {
    assert Advanced(a[id - 1], b[id - 1]);
  }

  // Uninstalling

  /** The command names the skill: by id, a positive number cut to an integer, or by a key the skill goes by. */
  predicate NamesSkill(skills: map<string, seq<int>>, p: Payload, skillID: int) {
    || (p.skill.Float? && p.skill.r > 0.0 && skillID == Truncate(p.skill.r))
    || (p.skill.Integer? && p.skill.i > 0 && skillID == p.skill.i)
    || (var key := Trim(p.target); key != "" && key in skills && skillID in skills[key])
  }

  lemma RemovesAll(ids: seq<int>, skillID: int)
    ensures Remove(skillID) in Removes(ids) <==> skillID in ids
  {
    if k :| 0 <= k < |ids| && ids[k] == skillID {
      assert Removes(ids)[k] == Remove(skillID);
    }
  }

  lemma PlanNames(skills: map<string, seq<int>>, p: Payload, skillID: int)
    ensures Remove(skillID) in Plan(skills, p) <==> NamesSkill(skills, p, skillID)
  {
    hide Trim, Truncate, Removes;
    var key := Trim(p.target);
    RemovesAll(if key in skills then skills[key] else [], skillID);
  }

  /**
   An uninstall that its agent reports to have succeeded marks the named skills of the instance removed at the time
   of its finish, those that have not moved on since; no other report touches any skill.
   */
  lemma UninstallRemoves(q: Queue, session: Session, id: int, report: Report, now: int, skill: (int, int))
    requires FromOwnAgent(q, session, id, report) && skill in q.installed
    requires var c := q.commands[id - 1]; !c.altered && !c.status.Succeeded? && !c.status.Failed?
    ensures
      var after := Finished(q, session, id, report, now, NoFault).0.installed;
      var c, row := q.commands[id - 1], q.installed[skill];
      var at := if report.finishedAt == None || report.finishedAt == Some(0) then now else report.finishedAt.value;
      && skill in after
      && after[skill] ==
           if && c.commandType == "uninstall_skill" && report.status == "succeeded" && skill.0 == session.instanceID
              && NamesSkill(q.skills, c.payload, skill.1) && row.updatedAt <= at
           then InstanceSkill("removed", Some(at), at)
           else row
  {
    hide Trim, Plan, Settled, NamesSkill;
    var plan := Plan(q.skills, q.commands[id - 1].payload);
    assert plan[..|plan|] == plan;
    PlanNames(q.skills, q.commands[id - 1].payload, skill.1);
  }

  // Instances apart

  /** The call is made for the instance, or by an agent of it. */
  predicate About(call: Call, instanceID: int) {
    if call.Create? then call.instanceID == instanceID else call.session.instanceID == instanceID
  }

  /** The instance has the same commands. */
  predicate SameCommands(a: seq<Command>, b: seq<Command>, instanceID: int) {
    && |a| <= |b|
    && (forall k :: 0 <= k < |a| && a[k].instanceID == instanceID ==> b[k] == a[k])
    && (forall k :: 0 <= k < |b| && b[k].instanceID == instanceID ==> k < |a| && a[k].instanceID == instanceID)
  }

  /** The instance has the same desired state, runtime row and skills. */
  ghost predicate SameState(a: Queue, b: Queue, instanceID: int) {
    && (instanceID in b.desired <==> instanceID in a.desired)
    && (instanceID in a.desired ==> b.desired[instanceID] == a.desired[instanceID])
    && (instanceID in b.runtime <==> instanceID in a.runtime)
    && (instanceID in a.runtime ==> b.runtime[instanceID] == a.runtime[instanceID])
    && (forall s :: (instanceID, s) in b.installed <==> (instanceID, s) in a.installed)
    && (forall s :: (instanceID, s) in a.installed ==> b.installed[(instanceID, s)] == a.installed[(instanceID, s)])
  }

  lemma OneChanged(commands: seq<Command>, k: nat, c: Command, i: int)
    requires k < |commands| && commands[k].instanceID == c.instanceID != i
    ensures SameCommands(commands, commands[k := c], i)
  {
  }

  lemma NoneChanged(commands: seq<Command>, i: int)
    ensures SameCommands(commands, commands, i)
  {
  }

  lemma CreateApart(q: Queue, call: Call, i: int)
    requires call.Create? && !About(call, i)
    ensures SameCommands(q.commands, Step(q, call).0.commands, i) && SameState(q, Step(q, call).0, i)
  {
    hide Trim, FindKey, KeyOf, Supported, Desire, Rewrites, SameCommands;
    CreatedCommands(q, call.instanceID, call.issuedBy, call.req, call.nano, call.now, call.fault);
    NoneChanged(q.commands, i);
    OneAdded(q.commands, NewCommand(call.instanceID, call.issuedBy, call.req, call.nano, call.now), i);
  }

  lemma OneAdded(commands: seq<Command>, c: Command, i: int)
    ensures c.instanceID != i ==> SameCommands(commands, commands + [c], i)
  {
  }

  lemma FinishApart(q: Queue, call: Call, i: int)
    requires call.Finish? && !About(call, i)
    ensures SameCommands(q.commands, Step(q, call).0.commands, i) && SameState(q, Step(q, call).0, i)
  {
    FinishedCommands(q, call.session, call.id, call.report, call.now, call.fault);
    FinishKeepsState(q, call, i);
    NoneChanged(q.commands, i);
    hide Trim, Finished, Outcome, SameCommands, SameState;
    if Step(q, call).0.commands != q.commands {
      var c, outcome := q.commands[call.id - 1], Outcome(call.report.status).value;
      FinishIsOwn(q, call);
      SettledIs(c, call.session, call.report, outcome, call.now);
      OneChanged(q.commands, call.id - 1, Settled(c, call.session, call.report, outcome, call.now), i);
    }
  }

  lemma FinishIsOwn(q: Queue, call: Call)
    requires call.Finish? && Step(q, call).0 != q
    ensures Owned(q, call.session, call.id)
  {
    hide Trim, Plan, Removed, Settled;
  }

  lemma RemovedApart(
    installed: map<(int, int), InstanceSkill>, instanceID: int, plan: seq<Access>, at: int, key: (int, int)
  )
    requires key.0 != instanceID
    ensures
      var after := Removed(installed, instanceID, plan, at);
      (key in after <==> key in installed) && (key in installed ==> after[key] == installed[key])
  {
  }

  /** A finish report removes skills of its own instance, and writes no desired state. */
  lemma FinishRemoves(q: Queue, call: Call)
    requires call.Finish?
    ensures
      var after := Step(q, call).0;
      && after.desired == q.desired && after.runtime == q.runtime
      && (after.installed != q.installed ==>
            exists plan, at :: after.installed == Removed(q.installed, call.session.instanceID, plan, at))
  {
    hide Trim, Plan, Settled, Outcome, Removed;
  }

  lemma FinishKeepsState(q: Queue, call: Call, i: int)
    requires call.Finish? && !About(call, i)
    ensures SameState(q, Step(q, call).0, i)
  {
    FinishRemoves(q, call);
    hide Step, Removed;
    var after := Step(q, call).0;
    if after.installed != q.installed {
      var plan, at :| after.installed == Removed(q.installed, call.session.instanceID, plan, at);
      forall s ensures (i, s) in after.installed <==> (i, s) in q.installed
          ensures (i, s) in q.installed ==> after.installed[(i, s)] == q.installed[(i, s)] {
        RemovedApart(q.installed, call.session.instanceID, plan, at, (i, s));
      }
    }
  }

  lemma StartApart(q: Queue, call: Call, i: int)
    requires call.Start? && !About(call, i)
    ensures SameCommands(q.commands, Step(q, call).0.commands, i) && SameState(q, Step(q, call).0, i)
  {
    hide SameCommands, Given;
    NoneChanged(q.commands, i);
    if Step(q, call).0.commands != q.commands {
      OneChanged(q.commands, call.id - 1, Step(q, call).0.commands[call.id - 1], i);
    }
  }

  lemma PollApart(q: Queue, call: Call, i: int)
    requires call.Poll? && !About(call, i)
    ensures SameCommands(q.commands, Step(q, call).0.commands, i) && SameState(q, Step(q, call).0, i)
  {
    hide SameCommands, NextPending, InOrder;
    NoneChanged(q.commands, i);
    var k := NextPending(q.commands, call.session.instanceID);
    if Step(q, call).0.commands != q.commands {
      OneChanged(q.commands, k.value, Step(q, call).0.commands[k.value], i);
    }
  }

  lemma StepApart(q: Queue, call: Call, i: int)
    requires !About(call, i)
    ensures SameCommands(q.commands, Step(q, call).0.commands, i) && SameState(q, Step(q, call).0, i)
  {
    hide Step, SameCommands, SameState, About;
    match call
    case Create(_, _, _, _, _, _) => CreateApart(q, call, i);
    case Finish(_, _, _, _, _) => FinishApart(q, call, i);
    case Start(_, _, _, _, _) => StartApart(q, call, i);
    case Poll(_, _, _) => PollApart(q, call, i);
  }

  /** In every run, calls about other instances leave an instance's commands, desired state and skills alone. */
  lemma {:induction false} InstancesApart(q: Queue, calls: seq<Call>, i: int)
    requires forall k :: 0 <= k < |calls| ==> !About(calls[k], i)
    ensures SameCommands(q.commands, Run(q, calls).commands, i) && SameState(q, Run(q, calls), i)
    decreases |calls|
  {
    if calls != [] {
      hide Step, About;
      var n := |calls| - 1;
      InstancesApart(q, calls[..n], i);
      StepApart(Run(q, calls[..n]), calls[n], i);
    }
  }
}
