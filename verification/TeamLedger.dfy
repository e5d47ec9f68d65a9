/**
 The team workflow ledger: root tasks, workflow phases, events and the event outbox.
 Transactions are one step each; any statement in them can fail, and then nothing stays.
 */
module TeamLedger {
  import opened Options
  import opened Text
  import opened WorkItems

  /** A root task; `details` stands for the columns no ledger operation touches. */
  datatype Task = Task(
    teamID: int,
    details: string,
    status: string,
    workflowState: string,
    planVersion: int,
    ledgerVersion: int,
    currentPhaseID: Option<string>,
    acceptedCompletionID: Option<string>,
    result: Option<string>,
    errorMessage: Option<string>,
    finishedAt: Option<Time>,
    updatedAt: Time)

  datatype PhaseKey = PhaseKey(rootTaskID: int, phaseID: string, planVersion: int)

  datatype Phase = Phase(
    id: int,
    details: string,
    status: string,
    dependsOn: Option<string>,
    nextPhaseID: Option<string>,
    completionPolicy: Option<string>,
    createdAt: Time,
    completedAt: Option<Time>,
    updatedAt: Time)

  datatype Event = Event(
    teamID: int,
    eventID: Option<string>,
    completionID: Option<string>,
    streamID: Option<string>,
    body: string,
    sequenceNo: int,
    createdAt: Time)

  datatype Outbox = Outbox(
    teamID: int,
    sourceEventID: string,
    destination: string,
    messageID: string,
    payload: string,
    status: string,
    attempts: int,
    availableAt: Time,
    lastError: Option<string>,
    deliveredAt: Option<Time>,
    createdAt: Time,
    updatedAt: Time)

  datatype Ledger = Ledger(
    tasks: map<int, Task>,
    phases: map<PhaseKey, Phase>,
    events: map<int, Event>,
    outbox: map<int, Outbox>,
    items: map<Key, WorkItem>,
    nextPhaseRow: int,
    nextEvent: int,
    nextOutbox: int,
    nextItem: int)

  const EMPTY := Ledger(map[], map[], map[], map[], map[], 1, 1, 1, 1)

  /** The statement, if any, at which the database fails. */
  datatype Fault = NoFault | AtTask | AtPhases | AtItem | AtEvent | AtSequence | AtOutbox | AtCommit

  // Events

  predicate SameID(a: Option<string>, b: Option<string>) {
    a.Some? && a == b
  }

  /** The event repeats a stream id, event id or completion id of its team. */
  predicate Repeats(e: Event, stored: Event) {
    stored.teamID == e.teamID &&
    (SameID(e.streamID, stored.streamID) || SameID(e.eventID, stored.eventID)
     || SameID(e.completionID, stored.completionID))
  }

  predicate KnownEvent(events: map<int, Event>, e: Event) {
    exists id :: id in events && Repeats(e, events[id])
  }

  lemma SameEvent(events: map<int, Event>, e: Event, row: Event)
    requires row == e.(createdAt := row.createdAt)
    ensures KnownEvent(events, row) <==> KnownEvent(events, e)
  {
    assert forall id :: id in events ==> (Repeats(row, events[id]) <==> Repeats(e, events[id]));
  }

  function StoredEvent(e: Event, id: int, now: Time): Event {
    e.(createdAt := OrNow(e.createdAt, now), sequenceNo := if e.sequenceNo <= 0 && id > 0 then id else e.sequenceNo)
  }

  function AddEvent(l: Ledger, e: Event, now: Time): Ledger {
    if KnownEvent(l.events, e) then l
    else l.(events := l.events[l.nextEvent := StoredEvent(e, l.nextEvent, now)], nextEvent := l.nextEvent + 1)
  }

  predicate EventFails(l: Ledger, e: Event, fault: Fault) {
    fault.AtEvent? || (fault.AtSequence? && !KnownEvent(l.events, e) && e.sequenceNo <= 0 && l.nextEvent > 0)
  }

  // Outbox

  datatype MessageKey = MessageKey(teamID: int, destination: string, messageID: string)

  function KeyOfMessage(o: Outbox): MessageKey {
    MessageKey(o.teamID, o.destination, o.messageID)
  }

  predicate KnownMessage(outbox: map<int, Outbox>, key: MessageKey) {
    exists id :: id in outbox && KeyOfMessage(outbox[id]) == key
  }

  function StoredMessage(o: Outbox, now: Time): Outbox {
    o.(status := if o.status == "" then "pending" else o.status, availableAt := OrNow(o.availableAt, now),
       createdAt := OrNow(o.createdAt, now), updatedAt := OrNow(o.updatedAt, now))
  }

  function AddMessage(l: Ledger, o: Outbox, now: Time): Ledger {
    if KnownMessage(l.outbox, KeyOfMessage(o)) then l
    else l.(outbox := l.outbox[l.nextOutbox := StoredMessage(o, now)], nextOutbox := l.nextOutbox + 1)
  }

  // Acceptance of a root task's completion

  /** The root task row a completion proposes, and the ledger version it was read at. */
  datatype Completion = Completion(
    taskID: int,
    proposal: Task,
    expectedLedgerVersion: int,
    event: Event,
    message: Outbox)

  function AcceptedTask(row: Task, p: Task): Task {
    p.(teamID := row.teamID, details := row.details)
  }

  /** The guard of the update: the version that was read, nothing accepted yet, not finished. */
  predicate Acceptable(l: Ledger, c: Completion) {
    c.taskID in l.tasks && l.tasks[c.taskID].ledgerVersion == c.expectedLedgerVersion
    && l.tasks[c.taskID].acceptedCompletionID.None? && !Terminal(l.tasks[c.taskID].status)
  }

  /** Another task of the team has accepted a completion under the id the row would carry. */
  predicate Clashes(tasks: map<int, Task>, taskID: int, row: Task) {
    exists t ::
      && t in tasks && t != taskID && tasks[t].teamID == row.teamID
      && SameID(row.acceptedCompletionID, tasks[t].acceptedCompletionID)
  }

  predicate CompletionTaken(l: Ledger, c: Completion) {
    c.taskID in l.tasks && Clashes(l.tasks, c.taskID, AcceptedTask(l.tasks[c.taskID], c.proposal))
  }

  /** A phase that the completion closes: of its plan, and not cancelled or superseded. */
  predicate Closes(c: Completion, key: PhaseKey, phase: Phase) {
    key.rootTaskID == c.taskID && (c.proposal.planVersion == 0 || key.planVersion == c.proposal.planVersion)
    && phase.status != "cancelled" && phase.status != "superseded"
  }

  function ClosedPhase(phase: Phase, at: Time): Phase {
    phase.(status := "completed", completedAt := Some(at), updatedAt := at)
  }

  function ClosePhases(phases: map<PhaseKey, Phase>, c: Completion): map<PhaseKey, Phase> {
    map k | k in phases :: if Closes(c, k, phases[k]) then ClosedPhase(phases[k], c.proposal.updatedAt) else phases[k]
  }

  /** Everything an acceptance commits, in one piece. */
  function Committed(l: Ledger, c: Completion, now: Time): Ledger
    requires c.taskID in l.tasks
  {
    var closed := l.(
      tasks := l.tasks[c.taskID := AcceptedTask(l.tasks[c.taskID], c.proposal)],
      phases := ClosePhases(l.phases, c));
    AddMessage(AddEvent(closed, c.event, now), c.message, now)
  }

  /** The outcome of a call: the ledger, the flag it returns, and whether it returns without error. */
  datatype Outcome = Outcome(l: Ledger, accepted: bool, ok: bool)

  function Accept(l: Ledger, c: Completion, fault: Fault, now: Time): Outcome {
    if c.taskID <= 0 || fault.AtTask? then Outcome(l, false, false)
    else if !Acceptable(l, c) then Outcome(l, false, !fault.AtCommit?)
    else if CompletionTaken(l, c) then Outcome(l, false, false)
    else if fault.AtPhases? || EventFails(l, c.event, fault) || fault.AtOutbox? || fault.AtCommit? then
      Outcome(l, true, false)
    else Outcome(Committed(l, c, now), true, true)
  }

  // The other operations

  function Confirm(l: Ledger, item: WorkItem, e: Event, o: Outbox, fault: Fault, now: Time): Outcome {
    if fault.AtItem? || EventFails(l, e, fault) || fault.AtOutbox? || fault.AtCommit? then Outcome(l, false, false)
    else
      var put := l.(
        items := l.items[KeyOf(item) := Put(At(l.items, KeyOf(item)), item, l.nextItem, now)],
        nextItem := if KeyOf(item) in l.items then l.nextItem else l.nextItem + 1);
      Outcome(AddMessage(AddEvent(put, e, now), o, now), false, true)
  }

  /** `CreateEvent` on its own: a repeated event is an error, and a failed sequence update leaves the row. */
  function CreateEvent(l: Ledger, e: Event, fault: Fault, now: Time): Outcome {
    if fault.AtEvent? || KnownEvent(l.events, e) then Outcome(l, false, false)
    else if EventFails(l, e, fault) then
      var row := e.(createdAt := OrNow(e.createdAt, now));
      Outcome(l.(events := l.events[l.nextEvent := row], nextEvent := l.nextEvent + 1), false, false)
    else Outcome(AddEvent(l, e, now), false, true)
  }

  function CreateMessage(l: Ledger, o: Outbox, fault: Fault, now: Time): Outcome {
    if fault.AtOutbox? then Outcome(l, false, false) else Outcome(AddMessage(l, o, now), false, true)
  }

  function MarkDelivered(l: Ledger, id: int, at: Time, fault: Fault): Outcome {
    if id <= 0 then Outcome(l, false, true)
    else if fault.AtOutbox? then Outcome(l, false, false)
    else if id !in l.outbox then Outcome(l, false, true)
    else
      Outcome(l.(outbox := l.outbox[id := l.outbox[id].(
        status := "delivered", deliveredAt := Some(at), lastError := None, updatedAt := at)]), false, true)
  }

  function MarkFailed(l: Ledger, id: int, availableAt: Time, cause: string, fault: Fault, now: Time): Outcome {
    if id <= 0 then Outcome(l, false, true)
    else if fault.AtOutbox? then Outcome(l, false, false)
    else if id !in l.outbox then Outcome(l, false, true)
    else
      Outcome(l.(outbox := l.outbox[id := l.outbox[id].(
        status := "pending", attempts := l.outbox[id].attempts + 1, availableAt := availableAt,
        lastError := Some(cause), updatedAt := now)]), false, true)
  }

  function MergePhase(stored: Phase, p: Phase, now: Time): Phase {
    p.(id := stored.id, createdAt := stored.createdAt, dependsOn := OrElse(p.dependsOn, stored.dependsOn),
       nextPhaseID := OrElse(p.nextPhaseID, stored.nextPhaseID),
       completionPolicy := OrElse(p.completionPolicy, stored.completionPolicy),
       completedAt := OrElse(p.completedAt, stored.completedAt), updatedAt := OrNow(p.updatedAt, now))
  }

  function UpsertPhase(l: Ledger, key: PhaseKey, p: Phase, fault: Fault, now: Time): Outcome {
    if key.rootTaskID <= 0 || Blank(key.phaseID) || fault.AtPhases? then Outcome(l, false, false)
    else
      var k := if key.planVersion <= 0 then key.(planVersion := 1) else key;
      if k in l.phases then Outcome(l.(phases := l.phases[k := MergePhase(l.phases[k], p, now)]), false, true)
      else
        var row := p.(id := l.nextPhaseRow, createdAt := OrNow(p.createdAt, now), updatedAt := OrNow(p.updatedAt, now));
        Outcome(l.(phases := l.phases[k := row], nextPhaseRow := l.nextPhaseRow + 1), false, true)
  }

  /** `UpdateTask`: the whole row is overwritten. */
  function UpdateTask(l: Ledger, taskID: int, row: Task, fault: Fault): Outcome {
    if fault.AtTask? then Outcome(l, false, false)
    else if taskID !in l.tasks then Outcome(l, false, true)
    else if Clashes(l.tasks, taskID, row) then Outcome(l, false, false)
    else Outcome(l.(tasks := l.tasks[taskID := row]), false, true)
  }

  /** `CreateTask`, under an id not in use. */
  function CreateTask(l: Ledger, taskID: int, row: Task, fault: Fault): Outcome {
    if fault.AtTask? || taskID in l.tasks || Clashes(l.tasks, taskID, row) then Outcome(l, false, false)
    else Outcome(l.(tasks := l.tasks[taskID := row]), false, true)
  }

  /** A message waits to be sent at `now`. */
  predicate Due(o: Outbox, now: Time) {
    o.status == "pending" && o.availableAt <= now
  }

  predicate Sooner(outbox: map<int, Outbox>, a: int, b: int)
    requires a in outbox && b in outbox
  {
    outbox[a].availableAt < outbox[b].availableAt || (outbox[a].availableAt == outbox[b].availableAt && a < b)
  }

  /** `ids` are the first due messages by availability and id, `limit` of them or as many as there are. */
  ghost predicate Listing(outbox: map<int, Outbox>, now: Time, limit: nat, ids: seq<int>) {
    && (forall k :: 0 <= k < |ids| ==> ids[k] in outbox && Due(outbox[ids[k]], now))
    && (forall j, k :: 0 <= j < k < |ids| ==> Sooner(outbox, ids[j], ids[k]))
    && |ids| <= limit
    && (forall id :: id in outbox && Due(outbox[id], now) && id !in ids ==>
          |ids| == limit && forall k :: 0 <= k < |ids| ==> Sooner(outbox, ids[k], id))
  }

  class TeamRepository {
    const workItems: WorkItemTable
    var tasks: map<int, Task>
    var phases: map<PhaseKey, Phase>
    var events: map<int, Event>
    var outbox: map<int, Outbox>
    var nextPhaseRow: int
    var nextEvent: int
    var nextOutbox: int

    constructor ()
      ensures State() == EMPTY && fresh(workItems)
    {
      workItems := new WorkItemTable();
      tasks, phases, events, outbox := map[], map[], map[], map[];
      nextPhaseRow, nextEvent, nextOutbox := 1, 1, 1;
    }

    function State(): Ledger
      reads this, workItems
    {
      Ledger(tasks, phases, events, outbox, workItems.rows, nextPhaseRow, nextEvent, nextOutbox, workItems.nextID)
    }

    /** The insert and the sequence update of `CreateEvent`; `repeated` is its duplicate error. */
    method InsertEvent(event: Event, fault: Fault, now: Time) returns (ok: bool, repeated: bool)
      modifies this`events, this`nextEvent
      ensures repeated == (!fault.AtEvent? && KnownEvent(old(events), event))
      ensures ok == (!repeated && !EventFails(old(State()), event, fault))
      ensures ok ==> State() == AddEvent(old(State()), event, now)
      ensures repeated || fault.AtEvent? ==> State() == old(State())
      ensures !ok && !repeated && !fault.AtEvent? ==>
        State() == old(State()).(
          events := old(events)[old(nextEvent) := event.(createdAt := OrNow(event.createdAt, now))],
          nextEvent := old(nextEvent) + 1)
    {
      repeated := false;
      var row := event;
      if row.createdAt == UNSET {
        row := row.(createdAt := now);
      }
      if fault.AtEvent? {
        return false, false;
      }
      SameEvent(events, event, row);
      if KnownEvent(events, row) {
        return false, true;
      }
      var id := nextEvent;
      events := events[id := row];
      nextEvent := nextEvent + 1;
      if row.sequenceNo <= 0 && id > 0 {
        if fault.AtSequence? {
          return false, false;
        }
        events := events[id := row.(sequenceNo := id)];
        assert events == old(events)[id := StoredEvent(event, id, now)];
      }
      ok := true;
    }

    /** The defaults and the insert of an outbox row; a repeated message is no error. */
    method InsertMessage(message: Outbox, fault: Fault, now: Time) returns (ok: bool)
      modifies this`outbox, this`nextOutbox
      ensures ok == !fault.AtOutbox?
      ensures State() == if ok then AddMessage(old(State()), message, now) else old(State())
    {
      var row := message;
      if row.status == "" {
        row := row.(status := "pending");
      }
      if row.availableAt == UNSET {
        row := row.(availableAt := now);
      }
      if row.createdAt == UNSET {
        row := row.(createdAt := now);
      }
      if row.updatedAt == UNSET {
        row := row.(updatedAt := now);
      }
      if fault.AtOutbox? {
        return false;
      }
      if !KnownMessage(outbox, KeyOfMessage(row)) {
        outbox := outbox[nextOutbox := row];
        nextOutbox := nextOutbox + 1;
      }
      ok := true;
    }

    /** `AcceptRootCompletion`. */
    method AcceptRootCompletion(c: Completion, fault: Fault, now: Time) returns (accepted: bool, ok: bool)
      modifies this`tasks, this`phases, this`events, this`outbox, this`nextEvent, this`nextOutbox
      ensures Outcome(State(), accepted, ok) == Accept(old(State()), c, fault, now)
    {
      accepted := false;
      if c.taskID <= 0 {
        return false, false;
      }
      if fault.AtTask? {
        return false, false;
      }
      var affected := 0;
      if c.taskID in tasks && tasks[c.taskID].ledgerVersion == c.expectedLedgerVersion
         && tasks[c.taskID].acceptedCompletionID.None? && !Terminal(tasks[c.taskID].status) {
        if CompletionTaken(State(), c) {
          return false, false;
        }
        affected := 1;
      }
      if affected != 1 {
        return false, !fault.AtCommit?;
      }
      var saved := (tasks, phases, events, outbox, nextEvent, nextOutbox);
      ghost var before := State();
      tasks := tasks[c.taskID := AcceptedTask(tasks[c.taskID], c.proposal)];
      accepted := true;
      ok := AcceptRest(c, fault, now);
      if !ok {
        tasks, phases, events, outbox, nextEvent, nextOutbox := saved.0, saved.1, saved.2, saved.3, saved.4, saved.5;
      }
    }

    /** The statements of the transaction after the root task row was taken. */
    method AcceptRest(c: Completion, fault: Fault, now: Time) returns (ok: bool)
      modifies this`phases, this`events, this`outbox, this`nextEvent, this`nextOutbox
      ensures ok == !(fault.AtPhases? || EventFails(old(State()), c.event, fault) || fault.AtOutbox? || fault.AtCommit?)
      ensures
        var closed := old(State()).(phases := ClosePhases(old(phases), c));
        ok ==> State() == AddMessage(AddEvent(closed, c.event, now), c.message, now)
    {
      if fault.AtPhases? {
        return false;
      }
      phases := map k | k in phases ::
        if Closes(c, k, phases[k]) then
          phases[k].(
            status := "completed", completedAt := Some(c.proposal.updatedAt), updatedAt := c.proposal.updatedAt)
        else phases[k];
      assert phases == ClosePhases(old(phases), c);
      ok := Announce(c.event, c.message, fault, now);
    }

    /** `ConfirmWorkItemResult`. */
    method ConfirmWorkItemResult(item: WorkItem, event: Event, message: Outbox, fault: Fault, now: Time)
      returns (ok: bool)
      modifies this`events, this`outbox, this`nextEvent, this`nextOutbox, workItems
      ensures State() == Confirm(old(State()), item, event, message, fault, now).l
      ensures ok == Confirm(old(State()), item, event, message, fault, now).ok
    {
      hide Put, KnownEvent, AddEvent, AddMessage;
      if fault.AtItem? {
        return false;
      }
      var saved := (workItems.rows, workItems.nextID, events, outbox, nextEvent, nextOutbox);
      workItems.UpsertWorkItem(item, now);
      ok := Announce(event, message, fault, now);
      if !ok {
        workItems.rows, workItems.nextID := saved.0, saved.1;
        events, outbox, nextEvent, nextOutbox := saved.2, saved.3, saved.4, saved.5;
      }
    }

    /** The event and the outbox row that end a transaction, and its commit. */
    method Announce(event: Event, message: Outbox, fault: Fault, now: Time) returns (ok: bool)
      modifies this`events, this`outbox, this`nextEvent, this`nextOutbox
      ensures ok == !(EventFails(old(State()), event, fault) || fault.AtOutbox? || fault.AtCommit?)
      ensures ok ==> State() == AddMessage(AddEvent(old(State()), event, now), message, now)
    {
      var stored, repeated := InsertEvent(event, fault, now);
      if !stored && !repeated {
        return false;
      }
      var sent := InsertMessage(message, fault, now);
      ok := sent && !fault.AtCommit?;
    }

    method OverwriteTask(taskID: int, row: Task, fault: Fault) returns (ok: bool)
      modifies this`tasks
      ensures Outcome(State(), false, ok) == UpdateTask(old(State()), taskID, row, fault)
    {
      if fault.AtTask? {
        return false;
      }
      if taskID in tasks {
        if Clashes(tasks, taskID, row) {
          return false;
        }
        tasks := tasks[taskID := row];
      }
      ok := true;
    }

    method RecordEvent(event: Event, fault: Fault, now: Time) returns (ok: bool)
      modifies this`events, this`nextEvent
      ensures State() == CreateEvent(old(State()), event, fault, now).l
      ensures ok == CreateEvent(old(State()), event, fault, now).ok
    {
      var repeated;
      ok, repeated := InsertEvent(event, fault, now);
    }

    method CreateEventOutbox(message: Outbox, fault: Fault, now: Time) returns (ok: bool)
      modifies this`outbox, this`nextOutbox
      ensures Outcome(State(), false, ok) == CreateMessage(old(State()), message, fault, now)
    {
      ok := InsertMessage(message, fault, now);
    }

    method MarkEventOutboxDelivered(id: int, deliveredAt: Time, fault: Fault) returns (ok: bool)
      modifies this`outbox
      ensures Outcome(State(), false, ok) == MarkDelivered(old(State()), id, deliveredAt, fault)
    {
      if id <= 0 {
        return true;
      }
      if fault.AtOutbox? {
        return false;
      }
      if id in outbox {
        outbox := outbox[id := outbox[id].(
          status := "delivered", deliveredAt := Some(deliveredAt), lastError := None, updatedAt := deliveredAt)];
      }
      ok := true;
    }

    method MarkEventOutboxFailed(id: int, availableAt: Time, cause: string, fault: Fault, now: Time) returns (ok: bool)
      modifies this`outbox
      ensures Outcome(State(), false, ok) == MarkFailed(old(State()), id, availableAt, cause, fault, now)
    {
      if id <= 0 {
        return true;
      }
      if fault.AtOutbox? {
        return false;
      }
      if id in outbox {
        outbox := outbox[id := outbox[id].(
          status := "pending", attempts := outbox[id].attempts + 1, availableAt := availableAt,
          lastError := Some(cause), updatedAt := now)];
      }
      ok := true;
    }

    /** `UpsertWorkflowPhase`. */
    method UpsertWorkflowPhase(rawKey: PhaseKey, phase: Phase, fault: Fault, now: Time) returns (ok: bool)
      modifies this`phases, this`nextPhaseRow
      ensures Outcome(State(), false, ok) == UpsertPhase(old(State()), rawKey, phase, fault, now)
    {
      if rawKey.rootTaskID <= 0 || Blank(rawKey.phaseID) {
        return false;
      }
      var key := rawKey;
      if key.planVersion <= 0 {
        key := key.(planVersion := 1);
      }
      if fault.AtPhases? {
        return false;
      }
      if key in phases {
        var row := MergePhaseInto(phases[key], phase, now);
        phases := phases[key := row];
        return true;
      }
      var row := phase.(
        id := nextPhaseRow, createdAt := OrNow(phase.createdAt, now), updatedAt := OrNow(phase.updatedAt, now));
      phases := phases[key := row];
      nextPhaseRow := nextPhaseRow + 1;
      ok := true;
    }

    static method MergePhaseInto(existing: Phase, phase: Phase, now: Time) returns (row: Phase)
      ensures row == MergePhase(existing, phase, now)
    {
      var dependsOn, nextPhaseID := phase.dependsOn, phase.nextPhaseID;
      var completionPolicy, completedAt := phase.completionPolicy, phase.completedAt;
      var updatedAt := phase.updatedAt;
      if dependsOn.None? {
        dependsOn := existing.dependsOn;
      }
      if nextPhaseID.None? {
        nextPhaseID := existing.nextPhaseID;
      }
      if completionPolicy.None? {
        completionPolicy := existing.completionPolicy;
      }
      if completedAt.None? {
        completedAt := existing.completedAt;
      }
      if updatedAt == UNSET {
        updatedAt := now;
      }
      row := phase.(
        id := existing.id, createdAt := existing.createdAt, dependsOn := dependsOn, nextPhaseID := nextPhaseID,
        completionPolicy := completionPolicy, completedAt := completedAt, updatedAt := updatedAt);
    }

    /** `ListPendingEventOutbox`: the query's order and limit. */
    method ListPendingEventOutbox(now: Time, limit: int) returns (ids: seq<int>)
      ensures Listing(outbox, now, if limit <= 0 then 100 else limit, ids)
    {
      var count := if limit <= 0 then 100 else limit;
      var rest := set id | id in outbox && Due(outbox[id], now);
      ids := [];
      while |ids| < count && rest != {}
        invariant |ids| <= count
        invariant forall id :: id in rest ==> id in outbox && Due(outbox[id], now) && id !in ids
        invariant forall id :: id in outbox && Due(outbox[id], now) ==> id in rest || id in ids
        invariant forall k :: 0 <= k < |ids| ==> ids[k] in outbox && Due(outbox[ids[k]], now)
        invariant forall j, k :: 0 <= j < k < |ids| ==> Sooner(outbox, ids[j], ids[k])
        invariant forall k, id :: 0 <= k < |ids| && id in rest ==> Sooner(outbox, ids[k], id)
        decreases rest
      {
        ghost var some :| some in rest;
        ghost var soonest := Soonest(outbox, rest, some);
        var first :| first in rest && forall id :: id in rest && id != first ==> Sooner(outbox, first, id);
        ids := ids + [first];
        rest := rest - {first};
      }
    }
  }

  lemma {:induction false} Soonest(outbox: map<int, Outbox>, ids: set<int>, some: int) returns (first: int)
    requires some in ids && forall id :: id in ids ==> id in outbox
    ensures first in ids && forall id :: id in ids && id != first ==> Sooner(outbox, first, id)
    decreases ids
  {
    first := some;
    var others := ids - {some};
    if other :| other in others {
      hide Sooner;
      var least := Soonest(outbox, others, other);
      SoonerOrder(outbox, some, least);
      first := if Sooner(outbox, some, least) then some else least;
      forall id | id in ids && id != first ensures Sooner(outbox, first, id) {
        if id != some && id != least {
          assert id in others;
          SoonerThrough(outbox, some, least, id);
        }
      }
    } else {
      assert forall id :: id in ids && id != some ==> id in others;
    }
  }

  lemma SoonerOrder(outbox: map<int, Outbox>, a: int, b: int)
    requires a in outbox && b in outbox && a != b
    ensures Sooner(outbox, a, b) || Sooner(outbox, b, a)
  {
  }

  lemma SoonerThrough(outbox: map<int, Outbox>, a: int, b: int, c: int)
    requires a in outbox && b in outbox && c in outbox
    ensures Sooner(outbox, a, b) && Sooner(outbox, b, c) ==> Sooner(outbox, a, c)
  {
  }
}
