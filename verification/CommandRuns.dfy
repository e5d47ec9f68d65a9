/**
 Runs of service calls on the command queue, with any of their store accesses failing.
 */
module CommandRuns {
  import opened Options
  import opened Text
  import opened CommandQueue

  datatype Call =
    | Create(instanceID: int, issuedBy: Option<int>, req: Request, nano: int, now: int, fault: Fault)
    | Poll(session: Session, now: int, fault: Fault)
    | Start(session: Session, id: int, startedAt: Option<int>, now: int, fault: Fault)
    | Finish(session: Session, id: int, report: Report, now: int, fault: Fault)

  function Step(q: Queue, call: Call): (Queue, Reply) {
    match call
    case Create(instanceID, issuedBy, req, nano, now, fault) => Created(q, instanceID, issuedBy, req, nano, now, fault)
    case Poll(session, now, fault) => Hand(q, session, now, fault)
    case Start(session, id, startedAt, now, fault) => Started(q, session, id, startedAt, now, fault)
    case Finish(session, id, report, now, fault) => Finished(q, session, id, report, now, fault)
  }

  function Run(q: Queue, calls: seq<Call>): Queue {
    if calls == [] then q else Step(Run(q, calls[..|calls| - 1]), calls[|calls| - 1]).0
  }

  // Commands only advance

  predicate SameOrder(c: Command, d: Command) {
    && c.instanceID == d.instanceID && c.commandType == d.commandType && c.payload == d.payload && c.key == d.key
    && c.issuedBy == d.issuedBy && c.issuedAt == d.issuedAt && c.timeoutSeconds == d.timeoutSeconds
    && c.altered == d.altered
  }

  /** What time may do to a command: its status never falls, and what a status has recorded stays. */
  predicate Advanced(c: Command, d: Command) {
    && SameOrder(c, d)
    && Rank(c.status) <= Rank(d.status)
    && (Rank(c.status) >= 1 ==> d.dispatchedAt == c.dispatchedAt)
    && (Rank(c.status) >= 2 ==> d.startedAt == c.startedAt)
    && (c.status.Succeeded? || c.status.Failed? ==> d == c)
  }

  predicate Grown(a: seq<Command>, b: seq<Command>) {
    |a| <= |b| && forall k :: 0 <= k < |a| ==> Advanced(a[k], b[k])
  }

  lemma GrownTransitive(a: seq<Command>, b: seq<Command>, c: seq<Command>)
    requires Grown(a, b) && Grown(b, c)
    ensures Grown(a, c)
  {
    forall k | 0 <= k < |a| ensures Advanced(a[k], c[k]) {
      assert Advanced(a[k], b[k]) && Advanced(b[k], c[k]);
    }
  }

  /** `Created` changes the table by at most one new command at its end. */
  lemma CreatedCommands(
    q: Queue, instanceID: int, issuedBy: Option<int>, req: Request, nano: int, now: int, fault: Fault
  )
    ensures
      var after := Created(q, instanceID, issuedBy, req, nano, now, fault).0;
      if Stores(q, instanceID, req, nano, fault)
      then after.commands == q.commands + [NewCommand(instanceID, issuedBy, req, nano, now)]
      else after == q
  {
    hide Supported, NewCommand, KeyOf, Rewrites, Desire;
  }

  /** Whether a create call inserts a new command. */
  predicate Stores(q: Queue, instanceID: int, req: Request, nano: int, fault: Fault) {
    && Supported(Trim(req.commandType)) && FindKey(q.commands, instanceID, KeyOf(req, nano)).None?
    && !fault.Lookup? && !fault.Encode? && !fault.Write?
  }

  /** A finish report changes its own command, or none. */
  lemma FinishedCommands(q: Queue, session: Session, id: int, report: Report, now: int, fault: Fault)
    ensures
      var after, outcome := Finished(q, session, id, report, now, fault).0, Outcome(report.status);
      && after.desired == q.desired
      && (after.commands == q.commands
          || (&& 1 <= id <= |q.commands| && !Terminal(q.commands[id - 1].status) && outcome.Some?
              && after.commands ==
                   q.commands[id - 1 := Settled(q.commands[id - 1], session, report, outcome.value, now)]))
  {
    hide Trim, Plan, Removed, Settled;
  }

  lemma OneAdvances(commands: seq<Command>, k: nat, d: Command)
    requires k < |commands| && Advanced(commands[k], d)
    ensures Grown(commands, commands[k := d])
  {
  }

  lemma FinishGrows(q: Queue, call: Call)
    requires call.Finish?
    ensures Grown(q.commands, Step(q, call).0.commands)
  {
    FinishedCommands(q, call.session, call.id, call.report, call.now, call.fault);
    OutcomeTerminal(call.report.status);
    hide Trim, Finished, Outcome, Given, Grown;
    if Step(q, call).0.commands != q.commands {
      var c, outcome := q.commands[call.id - 1], Outcome(call.report.status).value;
      OneAdvances(q.commands, call.id - 1, Settled(c, call.session, call.report, outcome, call.now));
    } else {
      NoneAdvances(q.commands);
    }
  }

  lemma NoneAdvances(commands: seq<Command>)
    ensures Grown(commands, commands)
  {
  }

  lemma PollGrows(q: Queue, call: Call)
    requires call.Poll?
    ensures Grown(q.commands, Step(q, call).0.commands)
  {
    hide NextPending, InOrder, Grown;
    var k := NextPending(q.commands, call.session.instanceID);
    if k.Some? && !call.fault.Lookup? && !call.fault.Write? {
      OneAdvances(q.commands, k.value, Step(q, call).0.commands[k.value]);
    } else {
      NoneAdvances(q.commands);
    }
  }

  lemma StartGrows(q: Queue, call: Call)
    requires call.Start?
    ensures Grown(q.commands, Step(q, call).0.commands)
  {
    hide Grown, Given;
    if Step(q, call).0.commands != q.commands {
      OneAdvances(q.commands, call.id - 1, Step(q, call).0.commands[call.id - 1]);
    } else {
      NoneAdvances(q.commands);
    }
  }

  lemma CreateGrows(q: Queue, call: Call)
    requires call.Create?
    ensures Grown(q.commands, Step(q, call).0.commands)
  {
    CreatedCommands(q, call.instanceID, call.issuedBy, call.req, call.nano, call.now, call.fault);
    hide Created, NewCommand, Stores;
  }

  lemma StepGrows(q: Queue, call: Call)
    ensures Grown(q.commands, Step(q, call).0.commands)
  {
    hide Step, Grown;
    match call
    case Create(_, _, _, _, _, _) => CreateGrows(q, call);
    case Poll(_, _, _) => PollGrows(q, call);
    case Start(_, _, _, _, _) => StartGrows(q, call);
    case Finish(_, _, _, _, _) => FinishGrows(q, call);
  }

  lemma OutcomeTerminal(status: string)
    ensures Outcome(status).Some? ==> Terminal(Outcome(status).value)
  {
  }

  /**
   Over every run no command disappears, no status falls back, no dispatch or start time is rewritten, and a command
   that has succeeded or failed is never touched again.
   */
  lemma {:induction false} CommandsOnlyAdvance(q: Queue, calls: seq<Call>)
    ensures Grown(q.commands, Run(q, calls).commands)
    decreases |calls|
  {
    if calls != [] {
      hide Step, Grown;
      var n := |calls| - 1;
      CommandsOnlyAdvance(q, calls[..n]);
      StepGrows(Run(q, calls[..n]), calls[n]);
      GrownTransitive(q.commands, Run(q, calls[..n]).commands, Run(q, calls).commands);
    }
  }

  /**
   What every command the service stores is like: a supported type, a key, a deadline, JSON that
   decodes, and the stamps its status calls for.
   */
  predicate Sound(c: Command) {
    && Supported(c.commandType) && c.key != "" && c.timeoutSeconds > 0 && !c.altered
    && (c.agentID.None? <==> c.status.Pending?)
    && (c.finishedAt.Some? <==> c.status.Succeeded? || c.status.Failed?)
    && (c.status.Pending? ==> c.dispatchedAt.None?)
    && (c.status.Dispatched? ==> c.dispatchedAt.Some?)
    && (Rank(c.status) <= 1 ==> c.startedAt.None?)
    && (c.status.Running? ==> c.startedAt.Some?)
    && (!c.status.Succeeded? && !c.status.Failed? ==> c.result.None? && c.errorMessage.None?)
  }

  predicate AllSound(commands: seq<Command>) {
    forall k :: 0 <= k < |commands| ==> Sound(commands[k])
  }

  lemma NewIsSound(call: Call)
    requires call.Create? && Supported(Trim(call.req.commandType))
    ensures Sound(NewCommand(call.instanceID, call.issuedBy, call.req, call.nano, call.now))
  {
    var c := NewCommand(call.instanceID, call.issuedBy, call.req, call.nano, call.now);
    assert |c.key| >= 1;
    hide Supported;
  }

  lemma StepStaysSound(q: Queue, call: Call)
    requires AllSound(q.commands)
    ensures AllSound(Step(q, call).0.commands)
  {
    hide Supported, Trim, KeyOf, NewCommand, Created, Finished, Outcome, NextPending, Given;
    match call
    case Create(instanceID, issuedBy, req, nano, now, fault) =>
      CreatedCommands(q, instanceID, issuedBy, req, nano, now, fault);
      if Stores(q, instanceID, req, nano, fault) {
        NewIsSound(call);
      }
    case Poll(session, now, fault) =>
    case Start(session, id, startedAt, now, fault) =>
    case Finish(session, id, report, now, fault) =>
      FinishedCommands(q, session, id, report, now, fault);
      OutcomeTerminal(report.status);
  }

  /** Over every run every command is sound. */
  lemma {:induction false} CommandsAreSound(q: Queue, calls: seq<Call>)
    requires AllSound(q.commands)
    ensures AllSound(Run(q, calls).commands)
    decreases |calls|
  {
    if calls != [] {
      hide AllSound, Step;
      CommandsAreSound(q, calls[..|calls| - 1]);
      StepStaysSound(Run(q, calls[..|calls| - 1]), calls[|calls| - 1]);
    }
  }

  // One command per key

  /** No instance has two commands under one key. */
  predicate Unique(commands: seq<Command>) {
    forall j, k :: 0 <= j < k < |commands| ==>
      commands[j].instanceID != commands[k].instanceID || commands[j].key != commands[k].key
  }

  lemma GrownStaysUnique(a: seq<Command>, b: seq<Command>)
    requires Grown(a, b) && |a| == |b| && Unique(a)
    ensures Unique(b)
  {
    forall j, k | 0 <= j < k < |b| ensures b[j].instanceID != b[k].instanceID || b[j].key != b[k].key {
      assert Advanced(a[j], b[j]) && Advanced(a[k], b[k]);
      assert a[j].instanceID != a[k].instanceID || a[j].key != a[k].key;
    }
  }

  lemma OnlyCreateAppends(q: Queue, call: Call)
    requires !call.Create?
    ensures |Step(q, call).0.commands| == |q.commands| && Step(q, call).0.desired == q.desired
  {
    hide Trim, NextPending, Finished;
    if call.Finish? {
      FinishedCommands(q, call.session, call.id, call.report, call.now, call.fault);
    }
  }

  lemma StepStaysUnique(q: Queue, call: Call)
    requires Unique(q.commands)
    ensures Unique(Step(q, call).0.commands)
  {
    if call.Create? {
      hide Supported, Trim, KeyOf, Created;
      CreatedCommands(q, call.instanceID, call.issuedBy, call.req, call.nano, call.now, call.fault);
    } else {
      hide Unique, Step, Grown;
      StepGrows(q, call);
      OnlyCreateAppends(q, call);
      GrownStaysUnique(q.commands, Step(q, call).0.commands);
    }
  }

  /** Over every run an instance has at most one command per idempotency key. */
  lemma {:induction false} OneCommandPerKey(q: Queue, calls: seq<Call>)
    requires Unique(q.commands)
    ensures Unique(Run(q, calls).commands)
    decreases |calls|
  {
    if calls != [] {
      hide Unique, Step;
      OneCommandPerKey(q, calls[..|calls| - 1]);
      StepStaysUnique(Run(q, calls[..|calls| - 1]), calls[|calls| - 1]);
    }
  }

  lemma KeyFound(commands: seq<Command>, instanceID: int, key: string, k: nat)
    requires Unique(commands) && k < |commands| && Keyed(commands[k], instanceID, key)
    ensures FindKey(commands, instanceID, key) == Some(k)
  {
    var found := FindKey(commands, instanceID, key);
    assert found.Some?;
    assert Keyed(commands[found.value], commands[k].instanceID, commands[k].key);
  }

  /**
   Once a command stands under a key, creating again under that key answers with that very command, as far as it has
   come by then, or with an error if its JSON was altered, and changes nothing: whatever ran in between, and whatever
   else the second request asks for.
   */
  lemma CreateAgain(q: Queue, k: nat, calls: seq<Call>, again: Call)
    requires Unique(q.commands) && k < |q.commands|
    requires again.Create? && !again.fault.Lookup? && Supported(Trim(again.req.commandType))
    requires q.commands[k].instanceID == again.instanceID && q.commands[k].key == KeyOf(again.req, again.nano)
    ensures
      var later := Run(q, calls);
      && |q.commands| <= |later.commands| && Advanced(q.commands[k], later.commands[k])
      && Step(later, again) ==
           (later, if q.commands[k].altered then Refused(BadPayload) else Queued(k + 1, later.commands[k]))
  {
    hide Supported, Trim, KeyOf, Unique, Run, SideEffects, NewCommand, Terminal, Rank;
    CommandsOnlyAdvance(q, calls);
    OneCommandPerKey(q, calls);
    var later := Run(q, calls);
    assert Advanced(q.commands[k], later.commands[k]);
    hide Grown, Advanced;
    KeyFound(later.commands, again.instanceID, KeyOf(again.req, again.nano), k);
  }

  // Dispatch

  /** The commands of an instance that a run's polls dispatched, in order. */
  function Handouts(q: Queue, calls: seq<Call>, instanceID: int): seq<nat> {
    if calls == [] then []
    else
      var n := |calls| - 1;
      Handouts(q, calls[..n], instanceID) + Handout(Run(q, calls[..n]), calls[n], instanceID)
  }

  /** The command a poll dispatches: it hands it out, or fails to decode it. */
  function Handout(q: Queue, call: Call, instanceID: int): seq<nat> {
    var k, reply := NextPending(q.commands, instanceID), Step(q, call).1;
    if call.Poll? && call.session.instanceID == instanceID && k.Some? && (reply.Handed? || reply == Refused(BadPayload))
    then [k.value + 1]
    else []
  }

  predicate HandedOut(commands: seq<Command>, ids: seq<nat>) {
    forall k :: 0 <= k < |ids| ==> 1 <= ids[k] <= |commands| && Rank(commands[ids[k] - 1].status) >= 1
  }

  predicate Distinct(ids: seq<nat>) {
    forall j, k :: 0 <= j < k < |ids| ==> ids[j] != ids[k]
  }

  lemma HandedStays(a: seq<Command>, b: seq<Command>, ids: seq<nat>)
    requires Grown(a, b) && HandedOut(a, ids)
    ensures HandedOut(b, ids)
  {
    forall k | 0 <= k < |ids| ensures 1 <= ids[k] <= |b| && Rank(b[ids[k] - 1].status) >= 1 {
      assert Advanced(a[ids[k] - 1], b[ids[k] - 1]);
    }
  }

  /** A call dispatches at most one command: one that was waiting, and waits no longer. */
  lemma HandoutWaited(q: Queue, call: Call, instanceID: int)
    ensures
      var ids, after := Handout(q, call, instanceID), Step(q, call).0.commands;
      && |ids| <= 1
      && (ids != [] ==>
            && NextPending(q.commands, instanceID) == Some(ids[0] - 1)
            && Waiting(q.commands[ids[0] - 1], instanceID)
            && ids[0] <= |after| == |q.commands| && after[ids[0] - 1].status.Dispatched?
            && forall j :: 0 <= j < |after| && j != ids[0] - 1 ==> after[j] == q.commands[j])
  {
    hide NextPending, Created, Started, Finished;
  }

  lemma {:induction false} HandedAtMostOnce(q: Queue, calls: seq<Call>, instanceID: int)
    ensures Distinct(Handouts(q, calls, instanceID))
    ensures HandedOut(Run(q, calls).commands, Handouts(q, calls, instanceID))
    decreases |calls|
  {
    if calls != [] {
      hide Step, Handout, Grown, Waiting, HandedOut, Distinct;
      var n := |calls| - 1;
      var before, ids := Run(q, calls[..n]), Handouts(q, calls[..n], instanceID);
      HandedAtMostOnce(q, calls[..n], instanceID);
      StepGrows(before, calls[n]);
      HandedStays(before.commands, Step(before, calls[n]).0.commands, ids);
      HandoutIsNew(before, calls[n], instanceID, ids);
    }
  }

  lemma HandoutIsNew(q: Queue, call: Call, instanceID: int, ids: seq<nat>)
    requires HandedOut(q.commands, ids) && HandedOut(Step(q, call).0.commands, ids) && Distinct(ids)
    ensures HandedOut(Step(q, call).0.commands, ids + Handout(q, call, instanceID))
    ensures Distinct(ids + Handout(q, call, instanceID))
  {
    HandoutWaited(q, call, instanceID);
    hide Step, Handout, NextPending;
  }

  /** A command that has once left the waiting state, dispatched or started unasked, is dispatched by no later poll. */
  lemma {:induction false} NeverHanded(q: Queue, calls: seq<Call>, instanceID: int, id: nat)
    requires 1 <= id <= |q.commands| && Rank(q.commands[id - 1].status) >= 1
    ensures id !in Handouts(q, calls, instanceID)
    decreases |calls|
  {
    if calls != [] {
      hide Step, Handout, Grown, Advanced, NextPending, Run, Handouts;
      var n := |calls| - 1;
      var front := calls[..n];
      NeverHanded(q, front, instanceID, id);
      StaysHanded(q, front, id);
      NotHanded(Run(q, front), calls[n], instanceID, id);
      HandoutsSnoc(q, calls, instanceID);
    }
  }

  lemma NotHanded(q: Queue, call: Call, instanceID: int, id: nat)
    requires 1 <= id <= |q.commands| && Rank(q.commands[id - 1].status) >= 1
    ensures id !in Handout(q, call, instanceID)
  {
    HandoutWaited(q, call, instanceID);
    hide Step, Handout, NextPending;
  }

  lemma StaysHanded(q: Queue, calls: seq<Call>, id: nat)
    requires 1 <= id <= |q.commands| && Rank(q.commands[id - 1].status) >= 1
    ensures id <= |Run(q, calls).commands| && Rank(Run(q, calls).commands[id - 1].status) >= 1
  {
    hide Run;
    CommandsOnlyAdvance(q, calls);
    assert Advanced(q.commands[id - 1], Run(q, calls).commands[id - 1]);
  }

  lemma HandoutsSnoc(q: Queue, calls: seq<Call>, instanceID: int)
    requires calls != []
    ensures
      var n := |calls| - 1;
      Handouts(q, calls, instanceID) ==
        Handouts(q, calls[..n], instanceID) + Handout(Run(q, calls[..n]), calls[n], instanceID)
  {
  }

  /**
   A poll dispatches the next command for good. It hands it out exactly if the command's JSON was not
   altered; and whether it did so or not, or its reply was lost on the way, no later poll will.
   */
  lemma PollIsFinal(q: Queue, poll: Call, k: nat, calls: seq<Call>)
    requires poll.Poll? && NextPending(q.commands, poll.session.instanceID) == Some(k)
    requires !poll.fault.Lookup? && !poll.fault.Write?
    ensures
      var (after, reply) := Step(q, poll);
      && k < |after.commands| && after.commands[k].status.Dispatched?
      && (reply == if q.commands[k].altered then Refused(BadPayload) else Handed(k + 1, after.commands[k]))
      && k + 1 !in Handouts(after, calls, poll.session.instanceID)
  {
    hide NextPending;
    var after := Step(q, poll).0;
    hide Run, Handouts;
    NeverHanded(after, calls, poll.session.instanceID, k + 1);
  }

  // Finishing

  /**
   Repeating a removal that stopped part of the way completes it exactly when the second time of
   observation is not the earlier one, or the first removal changed nothing.
   */
  lemma RemovalResumes(
    installed: map<(int, int), InstanceSkill>, instanceID: int, plan: seq<Access>, reached: nat, first: int, second: int
  )
    requires reached <= |plan|
    ensures
      var part := Removed(installed, instanceID, plan[..reached], first);
      Removed(part, instanceID, plan, second) == Removed(installed, instanceID, plan, second) <==>
        first <= second || part == installed
  {
    assert forall a :: a in plan[..reached] ==> a in plan;
    var part := Removed(installed, instanceID, plan[..reached], first);
    if part != installed {
      var k :| k in installed && part[k] != installed[k];
      assert part[k] == InstanceSkill("removed", Some(first), first);
      assert first > second ==>
        Removed(part, instanceID, plan, second)[k] != Removed(installed, instanceID, plan, second)[k];
    }
  }

  /**
   A finish report may be tried again until it goes through. Whatever failed the first time, and however
   many skills were removed before, the queue ends as if the second try had been the only one exactly
   when the first changed nothing, or both put the finish at the same time, or the first failed and the
   second puts it later.
   */
  lemma FinishAgain(q: Queue, session: Session, id: int, report: Report, now: int, fault: Fault, later: int)
    ensures
      var (once, reply) := Finished(q, session, id, report, now, fault);
      var first, second := Given(report.finishedAt, now), Given(report.finishedAt, later);
      Finished(once, session, id, report, later, NoFault).0 == Finished(q, session, id, report, later, NoFault).0 <==>
        once == q || first == second || (reply != Done && first < second)
  {
    hide Trim, Plan, Removed, Settled, Given, Outcome, Uninstalls, Reached;
    OutcomeTerminal(report.status);
    if Owned(q, session, id) && Outcome(report.status).Some? {
      var c, outcome := q.commands[id - 1], Outcome(report.status).value;
      var plan := if Uninstalls(c, outcome) then Plan(q.skills, c.payload) else [];
      assert plan[..|plan|] == plan;
      var first, second := Given(report.finishedAt, now), Given(report.finishedAt, later);
      ReachedWithin(plan, fault);
      RemovalResumes(q.installed, c.instanceID, plan, Reached(plan, fault), first, second);
      SettledIs(c, session, report, outcome, now);
      SettledSame(c, session, report, outcome, now, later);
    }
  }

  lemma ReachedWithin(plan: seq<Access>, fault: Fault)
    ensures Reached(plan, fault) <= |plan| && Reached(plan, NoFault) == |plan|
  {
  }

  lemma SettledIs(c: Command, session: Session, report: Report, outcome: Status, now: int)
    ensures Settled(c, session, report, outcome, now).status == outcome
    ensures Settled(c, session, report, outcome, now).instanceID == c.instanceID
  {
  }

  lemma SettledSame(c: Command, session: Session, report: Report, outcome: Status, now: int, later: int)
    ensures Settled(c, session, report, outcome, now) == Settled(c, session, report, outcome, later) <==>
      Given(report.finishedAt, now) == Given(report.finishedAt, later)
  {
  }

  // The order of dispatch

  /** The table lists the commands in the order they were issued. */
  predicate Chronological(commands: seq<Command>) {
    forall j, k :: 0 <= j <= k < |commands| ==> commands[j].issuedAt <= commands[k].issuedAt
  }

  /** The clock does not fall behind the newest command in the table. */
  predicate OnTime(q: Queue, call: Call) {
    call.Create? ==> forall k :: 0 <= k < |q.commands| ==> q.commands[k].issuedAt <= call.now
  }

  predicate Punctual(q: Queue, calls: seq<Call>) {
    calls == [] || (Punctual(q, calls[..|calls| - 1]) && OnTime(Run(q, calls[..|calls| - 1]), calls[|calls| - 1]))
  }

  predicate Increasing(ids: seq<nat>) {
    forall j, k :: 0 <= j < k < |ids| ==> ids[j] < ids[k]
  }

  /** Everything of the instance that is handed out comes before everything that waits. */
  predicate Ahead(ids: seq<nat>, commands: seq<Command>, instanceID: int) {
    forall k, j :: 0 <= k < |ids| && 0 <= j < |commands| && Waiting(commands[j], instanceID) ==> ids[k] < j + 1
  }

  lemma GrownStaysChronological(a: seq<Command>, b: seq<Command>)
    requires Grown(a, b) && |a| == |b| && Chronological(a)
    ensures Chronological(b)
  {
    forall j, k | 0 <= j <= k < |b| ensures b[j].issuedAt <= b[k].issuedAt {
      assert Advanced(a[j], b[j]) && Advanced(a[k], b[k]);
    }
  }

  lemma StepStaysChronological(q: Queue, call: Call)
    requires Chronological(q.commands) && OnTime(q, call)
    ensures Chronological(Step(q, call).0.commands)
  {
    if call.Create? {
      hide Supported, Trim, KeyOf, Created, FindKey;
      CreatedCommands(q, call.instanceID, call.issuedBy, call.req, call.nano, call.now, call.fault);
    } else {
      hide Chronological, OnTime, Step, Grown;
      StepGrows(q, call);
      OnlyCreateAppends(q, call);
      GrownStaysChronological(q.commands, Step(q, call).0.commands);
    }
  }

  lemma GrownStaysAhead(a: seq<Command>, b: seq<Command>, ids: seq<nat>, instanceID: int)
    requires Grown(a, b) && HandedOut(a, ids) && Ahead(ids, a, instanceID)
    ensures Ahead(ids, b, instanceID)
  {
    forall k, j | 0 <= k < |ids| && 0 <= j < |b| && Waiting(b[j], instanceID) ensures ids[k] < j + 1 {
      if j < |a| {
        assert Advanced(a[j], b[j]);
        assert Waiting(a[j], instanceID);
      }
    }
  }

  /** The next command dispatched is the first in the table that waits, so it stays ahead of the others. */
  lemma HandoutIsFirst(q: Queue, call: Call, instanceID: int)
    requires Chronological(q.commands)
    ensures Ahead(Handout(q, call, instanceID), Step(q, call).0.commands, instanceID)
  {
    HandoutWaited(q, call, instanceID);
    hide Step, Handout, NextPending;
    var ids, after := Handout(q, call, instanceID), Step(q, call).0.commands;
    forall k, j | 0 <= k < |ids| && 0 <= j < |after| && Waiting(after[j], instanceID) ensures ids[k] < j + 1 {
      var first := ids[0] - 1;
      assert j != first && Waiting(q.commands[j], instanceID);
      assert InOrder(q.commands, first, j);
    }
  }

  /**
   While the clock never runs behind the table, commands go out in the order they were issued: ids increase, and with
   them, the table being chronological, the times of issue.
   */
  lemma {:induction false} HandedInOrder(q: Queue, calls: seq<Call>, instanceID: int)
    requires Chronological(q.commands) && Punctual(q, calls)
    ensures Chronological(Run(q, calls).commands)
    ensures Increasing(Handouts(q, calls, instanceID))
    ensures Ahead(Handouts(q, calls, instanceID), Run(q, calls).commands, instanceID)
    decreases |calls|
  {
    if calls != [] {
      hide Step, Handout, Grown, Chronological, OnTime, Ahead, Increasing;
      var n := |calls| - 1;
      var front, call := calls[..n], calls[n];
      var before, ids := Run(q, front), Handouts(q, front, instanceID);
      HandedInOrder(q, front, instanceID);
      HandedAtMostOnce(q, front, instanceID);
      StepStaysChronological(before, call);
      StepGrows(before, call);
      GrownStaysAhead(before.commands, Step(before, call).0.commands, ids, instanceID);
      HandoutIsFirst(before, call, instanceID);
      HandoutIsNext(before, call, instanceID, ids);
    }
  }

  lemma HandoutIsNext(q: Queue, call: Call, instanceID: int, ids: seq<nat>)
    requires Increasing(ids) && Ahead(ids, q.commands, instanceID)
    requires
      var after := Step(q, call).0.commands;
      Ahead(ids, after, instanceID) && Ahead(Handout(q, call, instanceID), after, instanceID)
    ensures Increasing(ids + Handout(q, call, instanceID))
    ensures Ahead(ids + Handout(q, call, instanceID), Step(q, call).0.commands, instanceID)
  {
    HandoutWaited(q, call, instanceID);
    hide Step, Handout, NextPending, Waiting;
  }

  // Polling

  function WaitingCount(commands: seq<Command>, instanceID: int): nat {
    if commands == [] then 0
    else
      WaitingCount(commands[..|commands| - 1], instanceID)
      + if Waiting(commands[|commands| - 1], instanceID) then 1 else 0
  }

  lemma {:induction false} WaitingUpdated(commands: seq<Command>, k: nat, c: Command, instanceID: int)
    requires k < |commands| && Waiting(commands[k], instanceID) && !Waiting(c, instanceID)
    ensures WaitingCount(commands[k := c], instanceID) == WaitingCount(commands, instanceID) - 1
    decreases |commands|
  {
    hide Waiting;
    var n := |commands| - 1;
    if k == n {
      assert commands[k := c][..n] == commands[..n];
    } else {
      WaitingUpdated(commands[..n], k, c, instanceID);
      assert commands[k := c][..n] == commands[..n][k := c];
    }
  }

  lemma {:induction false} NoneWaiting(commands: seq<Command>, instanceID: int)
    ensures WaitingCount(commands, instanceID) == 0 <==> NextPending(commands, instanceID).None?
    decreases |commands|
  {
    if commands != [] {
      NoneWaiting(commands[..|commands| - 1], instanceID);
    }
  }

  function Polls(session: Session, times: seq<int>): seq<Call> {
    seq(|times|, k requires 0 <= k < |times| => Poll(session, times[k], NoFault))
  }

  lemma PollTakesOne(q: Queue, session: Session, now: int)
    ensures
      var i := session.instanceID;
      var waiting := WaitingCount(q.commands, i);
      WaitingCount(Step(q, Poll(session, now, NoFault)).0.commands, i) == if waiting == 0 then 0 else waiting - 1
    ensures
      |Handout(q, Poll(session, now, NoFault), session.instanceID)|
      == if WaitingCount(q.commands, session.instanceID) == 0 then 0 else 1
  {
    hide WaitingCount, NextPending, InOrder;
    var i := session.instanceID;
    NoneWaiting(q.commands, i);
    var k := NextPending(q.commands, i);
    if k.Some? {
      var c := q.commands[k.value].(
        status := Dispatched, agentID := Some(session.agentID), dispatchedAt := Some(now));
      WaitingUpdated(q.commands, k.value, c, i);
    }
  }

  /** Polling as often as commands wait for the instance dispatches all of them. */
  lemma {:induction false} PollingDrains(q: Queue, session: Session, times: seq<int>)
    ensures
      var i := session.instanceID;
      var waiting, polls := WaitingCount(q.commands, i), Polls(session, times);
      && WaitingCount(Run(q, polls).commands, i) == (if waiting <= |times| then 0 else waiting - |times|)
      && |Handouts(q, polls, i)| == (if waiting <= |times| then waiting else |times|)
    decreases |times|
  {
    if times != [] {
      hide WaitingCount, Step, Handout, Handouts, Run, Polls;
      var n := |times| - 1;
      PollingDrains(q, session, times[..n]);
      PollsSnoc(q, session, times);
      PollTakesOne(Run(q, Polls(session, times[..n])), session, times[n]);
    } else {
      NoPolls(q, session);
    }
  }

  lemma PollsSnoc(q: Queue, session: Session, times: seq<int>)
    requires times != []
    ensures
      var n, i := |times| - 1, session.instanceID;
      var before, poll := Run(q, Polls(session, times[..n])), Poll(session, times[n], NoFault);
      && Run(q, Polls(session, times)) == Step(before, poll).0
      && Handouts(q, Polls(session, times), i) == Handouts(q, Polls(session, times[..n]), i) + Handout(before, poll, i)
  {
    hide Step, Handout;
    assert Polls(session, times)[..|times| - 1] == Polls(session, times[..|times| - 1]);
  }

  lemma NoPolls(q: Queue, session: Session)
    ensures Run(q, Polls(session, [])) == q && Handouts(q, Polls(session, []), session.instanceID) == []
  {
  }

  // The desired state

  /** The power state a command is for. */
  function Power(c: Command): Option<string> {
    match c.commandType
    case "start_openclaw" => Some("running")
    case "restart_openclaw" => Some("running")
    case "stop_openclaw" => Some("stopped")
    case _ => None
  }

  /** The configuration revision a command is for: the float it names, cut to an integer. */
  function Revision(c: Command): Option<int> {
    if c.commandType == "apply_config_revision" && c.payload.revision.Float? then Some(Truncate(c.payload.revision.r))
    else None
  }

  /** A float is cut to the integer next to it, towards zero. */
  lemma TruncateCuts(r: real)
    ensures r >= 0.0 ==> (Truncate(r) as real) <= r < (Truncate(r) as real) + 1.0
    ensures r <= 0.0 ==> (Truncate(r) as real) - 1.0 < r <= (Truncate(r) as real)
  {
  }

  /** What the newest power and revision commands of the instance ask for, of those after the first `from`. */
  function Asked(initial: Desired, commands: seq<Command>, from: nat, instanceID: int): Desired {
    if |commands| <= from then initial
    else
      var n := |commands| - 1;
      Asking(Asked(initial, commands[..n], from, instanceID), commands[n], instanceID)
  }

  /** The desired state of the instance, with what one more command asks for. */
  function Asking(d: Desired, c: Command, instanceID: int): Desired {
    if c.instanceID != instanceID then d
    else
      d.(power := if Power(c).Some? then Power(c).value else d.power,
         revision := OrElse(Revision(c), d.revision))
  }

  /** Since `start`, the desired state of every instance has followed its newest commands. */
  predicate Follows(start: Queue, q: Queue) {
    && q.desired.Keys == start.desired.Keys
    && forall i :: i in q.desired ==> q.desired[i] == Asked(start.desired[i], q.commands, |start.commands|, i)
  }

  /** The call stores a command, but fails to write the desired state it asks for. */
  predicate Drops(q: Queue, call: Call) {
    && call.Create? && Stores(q, call.instanceID, call.req, call.nano, call.fault)
    && call.instanceID in q.desired
    && (call.fault.DesiredLookup? || call.fault.DesiredWrite?)
    && var c := NewCommand(call.instanceID, call.issuedBy, call.req, call.nano, call.now);
       Asking(q.desired[call.instanceID], c, call.instanceID) != q.desired[call.instanceID]
  }

  lemma {:induction false} AskedSame(initial: Desired, a: seq<Command>, b: seq<Command>, from: nat, instanceID: int)
    requires |a| == |b| && Grown(a, b)
    ensures Asked(initial, a, from, instanceID) == Asked(initial, b, from, instanceID)
    decreases |a|
  {
    if from < |a| {
      var n := |a| - 1;
      assert Advanced(a[n], b[n]);
      AskedSame(initial, a[..n], b[..n], from, instanceID);
    }
  }

  lemma AskedSnoc(initial: Desired, commands: seq<Command>, c: Command, from: nat, instanceID: int)
    requires from <= |commands|
    ensures Asked(initial, commands + [c], from, instanceID) ==
      Asking(Asked(initial, commands, from, instanceID), c, instanceID)
  {
    hide Asking;
    assert (commands + [c])[..|commands|] == commands;
  }

  /** The service's switch writes what a command asks for, and writes at all if that is news. */
  lemma DesireIsAsking(d: Desired, c: Command)
    ensures
      var after := Asking(d, c, c.instanceID);
      && (Rewrites(d, c.commandType, c.payload.revision) ==> Desire(d, c.commandType, c.payload.revision) == after)
      && (!Rewrites(d, c.commandType, c.payload.revision) ==> d == after)
  {
    hide Truncate;
  }

  /** What a create call that stores a command makes of the desired states. */
  lemma CreatedDesired(q: Queue, call: Call, i: int)
    requires call.Create? && Stores(q, call.instanceID, call.req, call.nano, call.fault)
    ensures
      var after := Step(q, call).0.desired;
      var c := NewCommand(call.instanceID, call.issuedBy, call.req, call.nano, call.now);
      && after.Keys == q.desired.Keys
      && (i in after ==>
            after[i] == if Drops(q, call) then q.desired[i] else Asking(q.desired[i], c, i))
  {
    hide Supported, Trim, KeyOf, FindKey, Timeout, Asking, Desire, Rewrites;
    var c := NewCommand(call.instanceID, call.issuedBy, call.req, call.nano, call.now);
    assert c.instanceID == call.instanceID && c.payload == call.req.payload;
    if call.instanceID in q.desired {
      DesireIsAsking(q.desired[call.instanceID], c);
    }
    if i != call.instanceID && i in q.desired {
      AskingOther(q.desired[i], c, i);
    }
  }

  lemma AskingOther(d: Desired, c: Command, i: int)
    requires c.instanceID != i
    ensures Asking(d, c, i) == d
  {
  }

  /** A call keeps the desired state in step with the commands exactly when it does not drop a write. */
  lemma StepFollows(start: Queue, q: Queue, call: Call)
    requires |start.commands| <= |q.commands| && Follows(start, q)
    ensures Follows(start, Step(q, call).0) <==> !Drops(q, call)
  {
    hide Supported, Trim, KeyOf, FindKey, Asking, Asked;
    var after := Step(q, call).0;
    if call.Create? && Stores(q, call.instanceID, call.req, call.nano, call.fault) {
      hide Stores;
      CreatedCommands(q, call.instanceID, call.issuedBy, call.req, call.nano, call.now, call.fault);
      var c := NewCommand(call.instanceID, call.issuedBy, call.req, call.nano, call.now);
      assert Drops(q, call) ==>
        call.instanceID in q.desired
        && Asking(q.desired[call.instanceID], c, call.instanceID) != q.desired[call.instanceID];
      hide Step, NewCommand, Drops;
      forall i | i in q.desired
        ensures i in after.desired
        ensures after.desired[i] == (if Drops(q, call) then q.desired[i] else Asking(q.desired[i], c, i))
        ensures Asked(start.desired[i], after.commands, |start.commands|, i) == Asking(q.desired[i], c, i)
      {
        CreatedDesired(q, call, i);
        AskedSnoc(start.desired[i], q.commands, c, |start.commands|, i);
      }
      CreatedDesired(q, call, call.instanceID);
    } else if call.Create? {
      CreatedCommands(q, call.instanceID, call.issuedBy, call.req, call.nano, call.now, call.fault);
    } else {
      StepGrows(q, call);
      OnlyCreateAppends(q, call);
      hide Step, Grown;
      forall i | i in q.desired
        ensures Asked(start.desired[i], after.commands, |start.commands|, i)
          == Asked(start.desired[i], q.commands, |start.commands|, i)
      {
        AskedSame(start.desired[i], q.commands, after.commands, |start.commands|, i);
      }
    }
  }

  predicate NoneDropped(q: Queue, calls: seq<Call>) {
    calls == [] || (NoneDropped(q, calls[..|calls| - 1]) && !Drops(Run(q, calls[..|calls| - 1]), calls[|calls| - 1]))
  }

  /** Over every run that drops no write, each instance is to be as its newest power and revision commands ask. */
  lemma {:induction false} DesiredFollowsCommands(q: Queue, calls: seq<Call>)
    requires NoneDropped(q, calls)
    ensures Follows(q, Run(q, calls))
    decreases |calls|
  {
    if calls != [] {
      hide Step, Follows, Drops;
      DesiredFollowsCommands(q, calls[..|calls| - 1]);
      CommandsOnlyAdvance(q, calls[..|calls| - 1]);
      StepFollows(q, Run(q, calls[..|calls| - 1]), calls[|calls| - 1]);
    }
  }

  /**
   Trying again does not repair a dropped write: the command stands under its key, so the second request is answered
   with it and the desired state stays what it was.
   */
  lemma RetryDoesNotRepair(q: Queue, call: Call, again: Call)
    requires Unique(q.commands) && Drops(q, call)
    requires again.Create? && again.instanceID == call.instanceID && Supported(Trim(again.req.commandType))
    requires KeyOf(again.req, again.nano) == KeyOf(call.req, call.nano) && !again.fault.Lookup?
    ensures Step(q, call).1 == Refused(StoreFailed)
    ensures
      var once := Step(q, call).0;
      once.desired == q.desired && Step(once, again).0 == once && Step(once, again).1.Queued?
  {
    hide KeyOf, Unique, Supported, Trim;
    var once := Step(q, call).0;
    StepStaysUnique(q, call);
    CreatedCommands(q, call.instanceID, call.issuedBy, call.req, call.nano, call.now, call.fault);
    NewCommandKey(call);
    DroppedAnswer(q, call);
    hide Step, Drops, Stores, NewCommand, Grown;
    CreateAgain(once, |q.commands|, [], again);
  }

  lemma NewCommandKey(call: Call)
    requires call.Create?
    ensures
      var c := NewCommand(call.instanceID, call.issuedBy, call.req, call.nano, call.now);
      Keyed(c, call.instanceID, KeyOf(call.req, call.nano))
  {
  }

  lemma DroppedAnswer(q: Queue, call: Call)
    requires Drops(q, call)
    ensures Step(q, call).1 == Refused(StoreFailed) && Step(q, call).0.desired == q.desired
  {
    hide Supported, Trim, KeyOf, FindKey, Timeout, Truncate;
  }
}
