/**
 Runs of the team ledger: calls from any number of callers, in any order, with any of their
 statements failing.
 */
module LedgerRuns {
  import opened Options
  import opened Text
  import opened WorkItems
  import opened TeamLedger

  datatype Call =
    | Accepting(c: Completion, fault: Fault, now: Time)
    | Confirming(item: WorkItem, event: Event, message: Outbox, fault: Fault, now: Time)
    | Recording(event: Event, fault: Fault, now: Time)
    | Sending(message: Outbox, fault: Fault, now: Time)
    | Delivering(id: int, at: Time, fault: Fault)
    | Failing(id: int, availableAt: Time, cause: string, fault: Fault, now: Time)
    | Phasing(key: PhaseKey, phase: Phase, fault: Fault, now: Time)
    | Rewriting(taskID: int, row: Task, fault: Fault)
    | Adding(taskID: int, row: Task, fault: Fault)

  function Do(l: Ledger, call: Call): Outcome {
    match call
    case Accepting(c, fault, now) => Accept(l, c, fault, now)
    case Confirming(item, event, message, fault, now) => Confirm(l, item, event, message, fault, now)
    case Recording(event, fault, now) => CreateEvent(l, event, fault, now)
    case Sending(message, fault, now) => CreateMessage(l, message, fault, now)
    case Delivering(id, at, fault) => MarkDelivered(l, id, at, fault)
    case Failing(id, availableAt, cause, fault, now) => MarkFailed(l, id, availableAt, cause, fault, now)
    case Phasing(key, phase, fault, now) => UpsertPhase(l, key, phase, fault, now)
    case Rewriting(taskID, row, fault) => UpdateTask(l, taskID, row, fault)
    case Adding(taskID, row, fault) => CreateTask(l, taskID, row, fault)
  }

  function After(l: Ledger, calls: seq<Call>): Ledger {
    if calls == [] then l else Do(After(l, calls[..|calls| - 1]), calls[|calls| - 1]).l
  }

  // Acceptance

  /** The k-th call of a run is an acceptance of the root task that returns true without error. */
  predicate Wins(l: Ledger, calls: seq<Call>, k: nat, taskID: int)
    requires k < |calls|
  {
    calls[k].Accepting? && calls[k].c.taskID == taskID &&
    Do(After(l, calls[..k]), calls[k]).accepted && Do(After(l, calls[..k]), calls[k]).ok
  }

  /** Whole-row updates of the root task leave its accepted completion alone. */
  predicate Steady(l: Ledger, calls: seq<Call>, taskID: int) {
    forall k :: 0 <= k < |calls| && calls[k].Rewriting? && calls[k].taskID == taskID ==>
      var before := After(l, calls[..k]);
      taskID in before.tasks ==> calls[k].row.acceptedCompletionID == before.tasks[taskID].acceptedCompletionID
  }

  /** Any outcome but true without error leaves every table as it was. */
  lemma RefusedLeavesAll(l: Ledger, c: Completion, fault: Fault, now: Time)
    ensures
      var o := Accept(l, c, fault, now);
      !(o.accepted && o.ok) ==> o.l == l
  {
    hide Committed;
  }

  /** An event or a repetition of it is stored. */
  predicate Recorded(before: Ledger, after: Ledger, e: Event, now: Time) {
    (KnownEvent(before.events, e) && after.events == before.events)
    || after.events == before.events[before.nextEvent := StoredEvent(e, before.nextEvent, now)]
  }

  /**
   A call returns true without error exactly when its guard, the unique completion id and every
   statement hold; it then commits the root task, every live phase of its plan, the event and the
   acknowledgement together.
   */
  lemma AcceptanceCommits(l: Ledger, c: Completion, fault: Fault, now: Time)
    ensures
      var o := Accept(l, c, fault, now);
      && (o.accepted && o.ok <==>
            && c.taskID > 0 && Acceptable(l, c) && !CompletionTaken(l, c)
            && (fault.NoFault? || fault.AtItem? || (fault.AtSequence? && !EventFails(l, c.event, fault))))
      && (o.accepted && o.ok ==>
            && o.l.tasks == l.tasks[c.taskID := AcceptedTask(l.tasks[c.taskID], c.proposal)]
            && o.l.phases.Keys == l.phases.Keys
            && (forall k :: k in l.phases ==>
                  o.l.phases[k] ==
                    if Closes(c, k, l.phases[k]) then ClosedPhase(l.phases[k], c.proposal.updatedAt) else l.phases[k])
            && Recorded(l, o.l, c.event, now)
            && KnownMessage(o.l.outbox, KeyOfMessage(c.message))
            && o.l.items == l.items)
  {
    var o := Accept(l, c, fault, now);
    if o.accepted && o.ok {
      var closed := l.(
        tasks := l.tasks[c.taskID := AcceptedTask(l.tasks[c.taskID], c.proposal)],
        phases := ClosePhases(l.phases, c));
      MessageAdded(AddEvent(closed, c.event, now), c.message, now, KeyOfMessage(c.message));
    }
  }

  /**
   A call returns true together with an error exactly when its guard and the completion id let it
   pass, and a later statement or the commit fails. Nothing stays of it, and the same call without a
   fault is then accepted without error.
   */
  lemma AcceptedWithError(l: Ledger, c: Completion, fault: Fault, now: Time, later: Time)
    ensures
      var o, again := Accept(l, c, fault, now), Accept(Accept(l, c, fault, now).l, c, NoFault, later);
      && (o.accepted && !o.ok <==>
            && c.taskID > 0 && !fault.AtTask? && Acceptable(l, c) && !CompletionTaken(l, c)
            && (fault.AtPhases? || EventFails(l, c.event, fault) || fault.AtOutbox? || fault.AtCommit?))
      && (o.accepted && !o.ok ==> o.l == l && again.accepted && again.ok)
  {
    hide Committed, Acceptable, CompletionTaken;
  }

  /**
   The same call again is accepted again exactly if it carried no completion id, left the row
   unfinished and its version alone.
   */
  lemma RepeatedAcceptance(l: Ledger, c: Completion, now: Time, later: Time)
    requires Accept(l, c, NoFault, now).accepted && Accept(l, c, NoFault, now).ok
    ensures
      var again := Accept(Accept(l, c, NoFault, now).l, c, NoFault, later);
      again.accepted <==>
        c.proposal.acceptedCompletionID.None? && !Finished(c.proposal.status)
        && c.proposal.ledgerVersion == c.expectedLedgerVersion
  {
    hide AddEvent, AddMessage, ClosePhases;
    CommittedTasks(l, c, now);
  }

  lemma CommittedTasks(l: Ledger, c: Completion, now: Time)
    requires c.taskID in l.tasks
    ensures Committed(l, c, now).tasks == l.tasks[c.taskID := AcceptedTask(l.tasks[c.taskID], c.proposal)]
  {
    hide KnownEvent, KnownMessage, StoredEvent, StoredMessage, ClosePhases;
  }

  /** What a call does to the root task rows. */
  lemma TasksAfter(l: Ledger, call: Call)
    ensures
      var o := Do(l, call);
      match call
      case Accepting(c, _, _) =>
        o.l.tasks ==
          if o.accepted && o.ok then l.tasks[c.taskID := AcceptedTask(l.tasks[c.taskID], c.proposal)] else l.tasks
      case Rewriting(t, row, _) => o.l.tasks == if o.ok && t in l.tasks then l.tasks[t := row] else l.tasks
      case Adding(t, row, _) =>
        o.l.tasks == (if o.ok then l.tasks[t := row] else l.tasks) && (o.ok ==> t !in l.tasks)
      case _ => o.l.tasks == l.tasks
  {
    hide KnownEvent, KnownMessage, StoredEvent, StoredMessage, ClosePhases, Put, MergePhase, Blank, Committed, Clashes;
    if call.Accepting? && call.c.taskID in l.tasks {
      CommittedTasks(l, call.c, call.now);
    }
  }

  predicate HasAccepted(l: Ledger, taskID: int) {
    taskID in l.tasks && l.tasks[taskID].acceptedCompletionID.Some?
  }

  lemma AcceptedStaysStep(l: Ledger, call: Call, taskID: int)
    requires HasAccepted(l, taskID)
    requires call.Rewriting? && call.taskID == taskID ==>
      call.row.acceptedCompletionID == l.tasks[taskID].acceptedCompletionID
    ensures HasAccepted(Do(l, call).l, taskID)
    ensures call.Accepting? && call.c.taskID == taskID ==> Do(l, call).l == l && !Do(l, call).accepted
  {
    TasksAfter(l, call);
    hide Do;
    if call.Accepting? && call.c.taskID == taskID {
      NotAcceptable(l, call);
    }
  }

  lemma NotAcceptable(l: Ledger, call: Call)
    requires call.Accepting? && HasAccepted(l, call.c.taskID)
    ensures Do(l, call).l == l && !Do(l, call).accepted
  {
    hide Committed, Clashes;
  }

  lemma {:induction false} AcceptedStays(l: Ledger, calls: seq<Call>, j: nat, k: nat, taskID: int)
    requires j <= k <= |calls| && Steady(l, calls, taskID) && HasAccepted(After(l, calls[..j]), taskID)
    ensures HasAccepted(After(l, calls[..k]), taskID)
    decreases k - j
  {
    if j < k {
      hide Do;
      AcceptedStays(l, calls, j, k - 1, taskID);
      assert calls[..k][..k - 1] == calls[..k - 1] && calls[..k][k - 1] == calls[k - 1];
      AcceptedStaysStep(After(l, calls[..k - 1]), calls[k - 1], taskID);
    }
  }

  /**
   Exactly once: after a call for a root task has returned true with a completion id, every later call
   for that task returns false and changes nothing, whatever other calls come between.
   */
  lemma AcceptedOnce(l: Ledger, calls: seq<Call>, taskID: int, j: nat, k: nat)
    requires j < k < |calls| && Steady(l, calls, taskID)
    requires Wins(l, calls, j, taskID) && calls[j].c.proposal.acceptedCompletionID.Some?
    requires calls[k].Accepting? && calls[k].c.taskID == taskID
    ensures !Do(After(l, calls[..k]), calls[k]).accepted
    ensures Do(After(l, calls[..k]), calls[k]).l == After(l, calls[..k])
  {
    var before := After(l, calls[..j]);
    assert calls[..j + 1][..j] == calls[..j] && calls[..j + 1][j] == calls[j];
    TasksAfter(before, calls[j]);
    AcceptanceCommits(before, calls[j].c, calls[j].fault, calls[j].now);
    hide Do, Steady;
    AcceptedStays(l, calls, j + 1, k, taskID);
    NotAcceptable(After(l, calls[..k]), calls[k]);
  }

  /**
   So of the calls of a run that carry a completion id for a root task at most one wins, and where
   one does, every other one, earlier or later, leaves every table as it was.
   */
  lemma AtMostOneWinner(l: Ledger, calls: seq<Call>, taskID: int, j: nat, k: nat)
    requires j < |calls| && k < |calls| && j != k && Steady(l, calls, taskID)
    requires Wins(l, calls, j, taskID) && calls[j].c.proposal.acceptedCompletionID.Some?
    requires calls[k].Accepting? && calls[k].c.taskID == taskID && calls[k].c.proposal.acceptedCompletionID.Some?
    ensures !Wins(l, calls, k, taskID)
    ensures Do(After(l, calls[..k]), calls[k]).l == After(l, calls[..k])
  {
    if j < k {
      AcceptedOnce(l, calls, taskID, j, k);
    } else {
      if Wins(l, calls, k, taskID) {
        AcceptedOnce(l, calls, taskID, k, j);
      }
      RefusedLeavesAll(After(l, calls[..k]), calls[k].c, calls[k].fault, calls[k].now);
    }
  }

  /** No two tasks of a team have accepted the same completion. */
  ghost predicate CompletionsUnique(l: Ledger) {
    forall s, t :: s in l.tasks && t in l.tasks && s != t && l.tasks[s].teamID == l.tasks[t].teamID ==>
      !SameID(l.tasks[s].acceptedCompletionID, l.tasks[t].acceptedCompletionID)
  }

  lemma RowKeepsUnique(l: Ledger, taskID: int, row: Task, m: Ledger)
    requires CompletionsUnique(l) && !Clashes(l.tasks, taskID, row) && m.tasks == l.tasks[taskID := row]
    ensures CompletionsUnique(m)
  {
    forall s, t | s in m.tasks && t in m.tasks && s != t && m.tasks[s].teamID == m.tasks[t].teamID
      ensures !SameID(m.tasks[s].acceptedCompletionID, m.tasks[t].acceptedCompletionID)
    {
      if s == taskID {
        assert m.tasks[t] == l.tasks[t];
      } else if t == taskID {
        assert m.tasks[s] == l.tasks[s];
      } else {
        assert m.tasks[s] == l.tasks[s] && m.tasks[t] == l.tasks[t];
      }
    }
  }

  lemma UniqueStep(l: Ledger, call: Call)
    requires CompletionsUnique(l)
    ensures CompletionsUnique(Do(l, call).l)
  {
    TasksAfter(l, call);
    RowAdmitted(l, call);
    hide Do, Clashes, CompletionsUnique;
    var m := Do(l, call).l;
    match call
    case Accepting(c, _, _) =>
      if m.tasks != l.tasks {
        RowKeepsUnique(l, c.taskID, AcceptedTask(l.tasks[c.taskID], c.proposal), m);
      } else {
        SameTasksUnique(l, m);
      }
    case Rewriting(t, row, _) =>
      if m.tasks != l.tasks {
        RowKeepsUnique(l, t, row, m);
      } else {
        SameTasksUnique(l, m);
      }
    case Adding(t, row, _) =>
      if m.tasks != l.tasks {
        RowKeepsUnique(l, t, row, m);
      } else {
        SameTasksUnique(l, m);
      }
    case _ => SameTasksUnique(l, m);
  }

  lemma SameTasksUnique(l: Ledger, m: Ledger)
    requires CompletionsUnique(l) && l.tasks == m.tasks
    ensures CompletionsUnique(m)
  {
  }

  lemma RowAdmitted(l: Ledger, call: Call)
    ensures call.Accepting? && Do(l, call).accepted && Do(l, call).ok ==>
      call.c.taskID in l.tasks
      && !Clashes(l.tasks, call.c.taskID, AcceptedTask(l.tasks[call.c.taskID], call.c.proposal))
    ensures call.Rewriting? && Do(l, call).ok && call.taskID in l.tasks ==> !Clashes(l.tasks, call.taskID, call.row)
    ensures call.Adding? && Do(l, call).ok ==> !Clashes(l.tasks, call.taskID, call.row)
  {
    hide Clashes, Committed;
  }

  /** In every run a completion id is accepted by one task of a team at most. */
  lemma {:induction false} CompletionsStayUnique(calls: seq<Call>)
    ensures CompletionsUnique(After(EMPTY, calls))
    decreases |calls|
  {
    if calls != [] {
      hide Do, CompletionsUnique;
      CompletionsStayUnique(calls[..|calls| - 1]);
      UniqueStep(After(EMPTY, calls[..|calls| - 1]), calls[|calls| - 1]);
    }
  }

  /** The root task stands accepted with this completion, in this team. */
  predicate Holds(l: Ledger, taskID: int, teamID: int, id: string) {
    taskID in l.tasks && l.tasks[taskID].teamID == teamID && l.tasks[taskID].acceptedCompletionID == Some(id)
  }

  /** Whole-row updates of the root task leave it in its team. */
  predicate StaysInTeam(l: Ledger, calls: seq<Call>, taskID: int) {
    forall k :: 0 <= k < |calls| && calls[k].Rewriting? && calls[k].taskID == taskID ==>
      var before := After(l, calls[..k]);
      taskID in before.tasks ==> calls[k].row.teamID == before.tasks[taskID].teamID
  }

  lemma HoldsStep(l: Ledger, call: Call, taskID: int, teamID: int, id: string)
    requires Holds(l, taskID, teamID, id)
    requires call.Rewriting? && call.taskID == taskID ==>
      call.row.acceptedCompletionID == l.tasks[taskID].acceptedCompletionID && call.row.teamID == teamID
    ensures Holds(Do(l, call).l, taskID, teamID, id)
  {
    TasksAfter(l, call);
    hide Do;
    if call.Accepting? && call.c.taskID == taskID {
      NotAcceptable(l, call);
    }
  }

  lemma {:induction false} HoldsOn(l: Ledger, calls: seq<Call>, j: nat, k: nat, taskID: int, teamID: int, id: string)
    requires j <= k <= |calls| && Steady(l, calls, taskID) && StaysInTeam(l, calls, taskID)
    requires Holds(After(l, calls[..j]), taskID, teamID, id)
    ensures Holds(After(l, calls[..k]), taskID, teamID, id)
    decreases k - j
  {
    if j < k {
      hide Do;
      HoldsOn(l, calls, j, k - 1, taskID, teamID, id);
      assert calls[..k][..k - 1] == calls[..k - 1] && calls[..k][k - 1] == calls[k - 1];
      HoldsStep(After(l, calls[..k - 1]), calls[k - 1], taskID, teamID, id);
    }
  }

  /** A winning call leaves its root task holding its completion, in the team the row was in. */
  lemma WinnerHolds(l: Ledger, calls: seq<Call>, taskID: int, j: nat)
    requires j < |calls| && Wins(l, calls, j, taskID) && calls[j].c.proposal.acceptedCompletionID.Some?
    ensures taskID in After(l, calls[..j]).tasks
    ensures Holds(After(l, calls[..j + 1]), taskID, After(l, calls[..j]).tasks[taskID].teamID,
      calls[j].c.proposal.acceptedCompletionID.value)
  {
    var before := After(l, calls[..j]);
    assert calls[..j + 1][..j] == calls[..j] && calls[..j + 1][j] == calls[j];
    TasksAfter(before, calls[j]);
    AcceptanceCommits(before, calls[j].c, calls[j].fault, calls[j].now);
  }

  /**
   Across root tasks: in every run a completion id wins at most once in a team, whichever root tasks
   the calls name.
   */
  lemma CompletionWinsOnce(calls: seq<Call>, s: int, j: nat, t: int, k: nat)
    requires j < k < |calls| && Wins(EMPTY, calls, j, s) && Wins(EMPTY, calls, k, t)
    requires Steady(EMPTY, calls, s) && StaysInTeam(EMPTY, calls, s)
    requires calls[j].c.proposal.acceptedCompletionID.Some?
    requires calls[k].c.proposal.acceptedCompletionID == calls[j].c.proposal.acceptedCompletionID
    ensures s in After(EMPTY, calls[..j]).tasks && t in After(EMPTY, calls[..k]).tasks
    ensures After(EMPTY, calls[..j]).tasks[s].teamID != After(EMPTY, calls[..k]).tasks[t].teamID
  {
    hide Do, Steady, StaysInTeam;
    WinnerHolds(EMPTY, calls, s, j);
    WinnerHolds(EMPTY, calls, t, k);
    var id := calls[j].c.proposal.acceptedCompletionID.value;
    HoldsOn(EMPTY, calls, j + 1, k + 1, s, After(EMPTY, calls[..j]).tasks[s].teamID, id);
    CompletionsStayUnique(calls[..k + 1]);
    if s == t {
      AcceptedOnce(EMPTY, calls, s, j, k);
    }
  }

  // The outbox

  lemma MessageAdded(l: Ledger, o: Outbox, now: Time, key: MessageKey)
    ensures l.nextOutbox !in l.outbox ==>
      (KnownMessage(AddMessage(l, o, now).outbox, key) <==> KnownMessage(l.outbox, key) || key == KeyOfMessage(o))
    ensures KnownMessage(AddMessage(l, o, now).outbox, KeyOfMessage(o))
  {
    var m := AddMessage(l, o, now);
    if !KnownMessage(l.outbox, KeyOfMessage(o)) {
      assert KeyOfMessage(m.outbox[l.nextOutbox]) == KeyOfMessage(o);
      if l.nextOutbox !in l.outbox {
        forall id | id in l.outbox ensures m.outbox[id] == l.outbox[id] {
        }
        if KnownMessage(l.outbox, key) {
          var id :| id in l.outbox && KeyOfMessage(l.outbox[id]) == key;
          assert KeyOfMessage(m.outbox[id]) == key;
        }
      }
    }
  }

  /** The message a call commits to the outbox. */
  function Sent(l: Ledger, call: Call): Option<Outbox> {
    match call
    case Accepting(c, _, now) =>
      if Do(l, call).accepted && Do(l, call).ok then Some(StoredMessage(c.message, now)) else None
    case Confirming(_, _, message, _, now) => if Do(l, call).ok then Some(StoredMessage(message, now)) else None
    case Sending(message, _, now) => if Do(l, call).ok then Some(StoredMessage(message, now)) else None
    case _ => None
  }

  /** The row a call marks as delivered or failed. */
  function Marked(l: Ledger, call: Call): Option<(int, Outbox)> {
    match call
    case Delivering(id, at, _) =>
      if Do(l, call).ok && id > 0 && id in l.outbox then
        Some((id, l.outbox[id].(status := "delivered", deliveredAt := Some(at), lastError := None, updatedAt := at)))
      else None
    case Failing(id, availableAt, cause, _, now) =>
      if Do(l, call).ok && id > 0 && id in l.outbox then
        Some((id, l.outbox[id].(
          status := "pending", attempts := l.outbox[id].attempts + 1, availableAt := availableAt,
          lastError := Some(cause), updatedAt := now)))
      else None
    case _ => None
  }

  /** The outbox a call leaves: one row marked, one message added, or as it was. */
  ghost predicate OutboxMoves(l: Ledger, m: Ledger, marked: Option<(int, Outbox)>, sent: Option<Outbox>) {
    if marked.Some? then
      m.outbox == l.outbox[marked.value.0 := marked.value.1] && m.nextOutbox == l.nextOutbox
    else if sent.Some? && !KnownMessage(l.outbox, KeyOfMessage(sent.value)) then
      m.outbox == l.outbox[l.nextOutbox := sent.value] && m.nextOutbox == l.nextOutbox + 1
    else m.outbox == l.outbox && m.nextOutbox == l.nextOutbox
  }

  lemma AddMoves(l: Ledger, base: Ledger, e: Event, o: Outbox, now: Time)
    requires base.outbox == l.outbox && base.nextOutbox == l.nextOutbox
    ensures OutboxMoves(l, AddMessage(AddEvent(base, e, now), o, now), None, Some(StoredMessage(o, now)))
  {
    hide KnownEvent, KnownMessage, StoredEvent;
    assert KeyOfMessage(StoredMessage(o, now)) == KeyOfMessage(o);
  }

  lemma AcceptingMoves(l: Ledger, c: Completion, fault: Fault, now: Time)
    ensures
      var o := Accept(l, c, fault, now);
      OutboxMoves(l, o.l, None, if o.accepted && o.ok then Some(StoredMessage(c.message, now)) else None)
  {
    hide KnownEvent, KnownMessage, StoredEvent, StoredMessage, ClosePhases, Clashes, EventFails, AddEvent, AddMessage;
    if Accept(l, c, fault, now).accepted && Accept(l, c, fault, now).ok {
      var closed := l.(
        tasks := l.tasks[c.taskID := AcceptedTask(l.tasks[c.taskID], c.proposal)],
        phases := ClosePhases(l.phases, c));
      AddMoves(l, closed, c.event, c.message, now);
    }
  }

  lemma ConfirmingMoves(l: Ledger, item: WorkItem, e: Event, message: Outbox, fault: Fault, now: Time)
    ensures
      var o := Confirm(l, item, e, message, fault, now);
      OutboxMoves(l, o.l, None, if o.ok then Some(StoredMessage(message, now)) else None)
  {
    hide KnownEvent, KnownMessage, StoredEvent, StoredMessage, EventFails, Put, AddEvent, AddMessage;
    var put := l.(
      items := l.items[KeyOf(item) := Put(At(l.items, KeyOf(item)), item, l.nextItem, now)],
      nextItem := if KeyOf(item) in l.items then l.nextItem else l.nextItem + 1);
    AddMoves(l, put, e, message, now);
  }

  /** Every call moves the outbox by what it marks or sends, and no further. */
  lemma OutboxAfter(l: Ledger, call: Call)
    ensures OutboxMoves(l, Do(l, call).l, Marked(l, call), Sent(l, call))
  {
    hide KnownEvent, KnownMessage, StoredEvent, StoredMessage, MergePhase, Blank, Clashes, EventFails, Accept, Confirm;
    match call
    case Accepting(c, fault, now) => AcceptingMoves(l, c, fault, now);
    case Confirming(item, event, message, fault, now) => ConfirmingMoves(l, item, event, message, fault, now);
    case Sending(message, fault, now) => SameKey(message, now);
    case _ =>
  }

  lemma SameKey(o: Outbox, now: Time)
    ensures KeyOfMessage(StoredMessage(o, now)) == KeyOfMessage(o)
  {
  }

  /** Row ids are positive and not reused, and no message is stored twice. */
  ghost predicate OutboxSound(l: Ledger) {
    && l.nextOutbox > 0
    && (forall id :: id in l.outbox ==> 0 < id < l.nextOutbox)
    && (forall i, j ::
          i in l.outbox && j in l.outbox && KeyOfMessage(l.outbox[i]) == KeyOfMessage(l.outbox[j]) ==> i == j)
  }

  /** A row keeps its message; only its delivery state moves. */
  predicate SameMessage(a: Outbox, b: Outbox) {
    KeyOfMessage(a) == KeyOfMessage(b) && a.payload == b.payload && a.sourceEventID == b.sourceEventID
    && a.createdAt == b.createdAt
  }

  /** The number of times a call marks a row as failed. */
  function FailureOf(l: Ledger, call: Call, id: int): nat {
    if call.Failing? && call.id == id && id > 0 && id in l.outbox && Do(l, call).ok then 1 else 0
  }

  lemma OutboxStep(l: Ledger, call: Call)
    requires OutboxSound(l)
    ensures OutboxSound(Do(l, call).l)
    ensures forall id :: id in l.outbox ==>
      id in Do(l, call).l.outbox && SameMessage(l.outbox[id], Do(l, call).l.outbox[id])
      && Do(l, call).l.outbox[id].attempts == l.outbox[id].attempts + FailureOf(l, call, id)
    ensures forall key ::
      KnownMessage(Do(l, call).l.outbox, key) <==>
        KnownMessage(l.outbox, key) || (Sent(l, call).Some? && KeyOfMessage(Sent(l, call).value) == key)
  {
    OutboxAfter(l, call);
    var sent := Sent(l, call);
    if Marked(l, call).Some? {
      MarkedMessageStep(l, Do(l, call).l);
    } else if sent.Some? && !KnownMessage(l.outbox, KeyOfMessage(sent.value)) {
      hide Do, KnownMessage;
      AddedMessageStep(l, Do(l, call).l, sent.value);
    } else {
      hide Do, KnownMessage;
      MarkedMessageStep(l, Do(l, call).l);
    }
  }

  lemma AddedMessageStep(l: Ledger, m: Ledger, row: Outbox)
    requires OutboxSound(l) && !KnownMessage(l.outbox, KeyOfMessage(row))
    requires m.outbox == l.outbox[l.nextOutbox := row] && m.nextOutbox == l.nextOutbox + 1
    ensures OutboxSound(m)
    ensures forall id :: id in l.outbox ==> id in m.outbox && m.outbox[id] == l.outbox[id]
    ensures forall key :: KnownMessage(m.outbox, key) <==> KnownMessage(l.outbox, key) || KeyOfMessage(row) == key
  {
    forall key ensures KnownMessage(m.outbox, key) <==> KnownMessage(l.outbox, key) || KeyOfMessage(row) == key {
      if KnownMessage(l.outbox, key) {
        var id :| id in l.outbox && KeyOfMessage(l.outbox[id]) == key;
        assert m.outbox[id] == l.outbox[id];
      }
      assert m.outbox[l.nextOutbox] == row;
    }
  }

  lemma MarkedMessageStep(l: Ledger, m: Ledger)
    requires OutboxSound(l) && m.outbox.Keys == l.outbox.Keys && m.nextOutbox == l.nextOutbox
    requires forall id :: id in l.outbox ==> SameMessage(l.outbox[id], m.outbox[id])
    ensures OutboxSound(m)
    ensures forall key :: KnownMessage(m.outbox, key) <==> KnownMessage(l.outbox, key)
  {
    forall key ensures KnownMessage(m.outbox, key) <==> KnownMessage(l.outbox, key) {
      if KnownMessage(l.outbox, key) {
        var id :| id in l.outbox && KeyOfMessage(l.outbox[id]) == key;
        assert KeyOfMessage(m.outbox[id]) == key;
      }
    }
  }

  /** The k-th call of a run commits a message under the key. */
  predicate SendsAt(calls: seq<Call>, k: nat, key: MessageKey)
    requires k < |calls|
  {
    var sent := Sent(After(EMPTY, calls[..k]), calls[k]);
    sent.Some? && KeyOfMessage(sent.value) == key
  }

  /**
   Conservation: in every run no message is stored twice, and the outbox holds exactly the
   messages that successful acceptances, confirmations and sends have committed.
   */
  lemma {:induction false} OutboxConserved(calls: seq<Call>, key: MessageKey)
    ensures OutboxSound(After(EMPTY, calls))
    ensures KnownMessage(After(EMPTY, calls).outbox, key) <==> exists k :: 0 <= k < |calls| && SendsAt(calls, k, key)
    decreases |calls|
  {
    if calls != [] {
      hide Do, OutboxSound, Sent, KnownMessage;
      var n := |calls| - 1;
      var front := calls[..n];
      OutboxConserved(front, key);
      OutboxStep(After(EMPTY, front), calls[n]);
      assert SendsAt(calls, n, key) <==>
        (Sent(After(EMPTY, front), calls[n]).Some? && KeyOfMessage(Sent(After(EMPTY, front), calls[n]).value) == key);
      forall k | 0 <= k < n ensures SendsAt(calls, k, key) <==> SendsAt(front, k, key) {
        assert front[..k] == calls[..k];
      }
    }
  }

  /** How often a run marks a row as failed, from the ledger it starts with. */
  function Failures(l: Ledger, calls: seq<Call>, id: int): nat {
    if calls == [] then 0
    else
      var n := |calls| - 1;
      Failures(l, calls[..n], id) + FailureOf(After(l, calls[..n]), calls[n], id)
  }

  /** A stored message is never lost or altered, and its attempts count its failures. */
  lemma {:induction false} AttemptsCountFailures(l: Ledger, calls: seq<Call>, id: int)
    requires OutboxSound(l) && id in l.outbox
    ensures
      var m := After(l, calls);
      && OutboxSound(m) && id in m.outbox && SameMessage(l.outbox[id], m.outbox[id])
      && m.outbox[id].attempts == l.outbox[id].attempts + Failures(l, calls, id)
    decreases |calls|
  {
    if calls != [] {
      hide Do, OutboxSound, FailureOf;
      var n := |calls| - 1;
      AttemptsCountFailures(l, calls[..n], id);
      OutboxStep(After(l, calls[..n]), calls[n]);
    }
  }

  // Draining

  function DueSet(l: Ledger, now: Time): set<int> {
    set id | id in l.outbox && Due(l.outbox[id], now)
  }

  function DeliverAll(l: Ledger, ids: seq<int>, at: Time): Ledger {
    if ids == [] then l
    else MarkDelivered(DeliverAll(l, ids[..|ids| - 1], at), ids[|ids| - 1], at, NoFault).l
  }

  lemma {:induction false} DeliveredLeave(l: Ledger, ids: seq<int>, at: Time, now: Time)
    requires OutboxSound(l) && forall k :: 0 <= k < |ids| ==> ids[k] in l.outbox
    ensures
      var m := DeliverAll(l, ids, at);
      OutboxSound(m) && m.outbox.Keys == l.outbox.Keys && DueSet(m, now) == DueSet(l, now) - set id | id in ids
    decreases |ids|
  {
    hide OutboxSound, DueSet;
    if ids == [] {
      assert (set id | id in ids) == {};
    } else {
      hide DeliverAll, MarkDelivered;
      var n := |ids| - 1;
      DeliveredLeave(l, ids[..n], at, now);
      DeliverOneLeaves(DeliverAll(l, ids[..n], at), ids[n], at, now);
      assert ids == ids[..n] + [ids[n]];
      assert (set id | id in ids) == (set id | id in ids[..n]) + {ids[n]};
      DeliverLast(l, ids, at);
    }
  }

  lemma DeliverLast(l: Ledger, ids: seq<int>, at: Time)
    requires ids != []
    ensures DeliverAll(l, ids, at) == MarkDelivered(DeliverAll(l, ids[..|ids| - 1], at), ids[|ids| - 1], at, NoFault).l
  {
  }

  lemma DeliverOneLeaves(l: Ledger, id: int, at: Time, now: Time)
    requires OutboxSound(l) && id in l.outbox
    ensures
      var m := MarkDelivered(l, id, at, NoFault).l;
      OutboxSound(m) && m.outbox.Keys == l.outbox.Keys && DueSet(m, now) == DueSet(l, now) - {id}
  {
    var m := MarkDelivered(l, id, at, NoFault).l;
    MarkedMessageStep(l, m);
    assert DueSet(m, now) == DueSet(l, now) - {id};
  }

  lemma {:induction false} ListingDistinct(outbox: map<int, Outbox>, ids: seq<int>)
    requires forall k :: 0 <= k < |ids| ==> ids[k] in outbox
    requires forall j, k :: 0 <= j < k < |ids| ==> Sooner(outbox, ids[j], ids[k])
    ensures |set id | id in ids| == |ids|
    decreases |ids|
  {
    if ids == [] {
      assert (set id | id in ids) == {};
    } else {
      var n := |ids| - 1;
      ListingDistinct(outbox, ids[..n]);
      assert ids[n] !in ids[..n];
      assert (set id | id in ids) == (set id | id in ids[..n]) + {ids[n]} by {
        assert ids == ids[..n] + [ids[n]];
      }
    }
  }

  /** One round of listing and delivering takes `limit` due messages off the outbox, or all there are. */
  lemma RoundDelivers(l: Ledger, ids: seq<int>, limit: nat, at: Time, now: Time)
    requires OutboxSound(l) && Listing(l.outbox, now, limit, ids)
    ensures
      var due, left := |DueSet(l, now)|, |DueSet(DeliverAll(l, ids, at), now)|;
      && OutboxSound(DeliverAll(l, ids, at))
      && left == if due <= limit then 0 else due - limit
  {
    hide OutboxSound, DeliverAll;
    DeliveredLeave(l, ids, at, now);
    ListingDistinct(l.outbox, ids);
    var listed := set id | id in ids;
    var due := DueSet(l, now);
    assert listed <= due;
    assert |due - listed| == |due| - |listed|;
    if |ids| < limit {
      forall id | id in due ensures id in ids {
        assert id in l.outbox && Due(l.outbox[id], now);
      }
      assert due - listed == {};
    }
  }

  /** Repeated rounds of listing up to `limit` messages and delivering them. */
  ghost predicate Rounds(ledgers: seq<Ledger>, lists: seq<seq<int>>, limit: nat, at: Time, now: Time) {
    && |ledgers| == |lists| + 1
    && forall r :: 0 <= r < |lists| ==>
         Listing(ledgers[r].outbox, now, limit, lists[r]) && ledgers[r + 1] == DeliverAll(ledgers[r], lists[r], at)
  }

  /**
   With nothing new and no failures, r rounds of size k leave max(0, n - r * k) of n due messages:
   the outbox is drained in exactly ceil(n / k) rounds.
   */
  lemma {:induction false} RoundsDrain(ledgers: seq<Ledger>, lists: seq<seq<int>>, limit: nat, at: Time, now: Time)
    requires Rounds(ledgers, lists, limit, at, now) && OutboxSound(ledgers[0])
    ensures OutboxSound(ledgers[|lists|])
    ensures
      var n := |DueSet(ledgers[0], now)|;
      |DueSet(ledgers[|lists|], now)| == if n <= |lists| * limit then 0 else n - |lists| * limit
    decreases |lists|
  {
    if lists != [] {
      hide OutboxSound, Listing, DueSet, DeliverAll, Rounds;
      var r := |lists| - 1;
      RoundsFront(ledgers, lists, limit, at, now);
      RoundsDrain(ledgers[..r + 1], lists[..r], limit, at, now);
      RoundDelivers(ledgers[r], lists[r], limit, at, now);
      assert (r + 1) * limit == r * limit + limit;
    }
  }

  lemma RoundsFront(ledgers: seq<Ledger>, lists: seq<seq<int>>, limit: nat, at: Time, now: Time)
    requires lists != [] && Rounds(ledgers, lists, limit, at, now)
    ensures
      var r := |lists| - 1;
      && |ledgers| == |lists| + 1 && Rounds(ledgers[..r + 1], lists[..r], limit, at, now)
      && Listing(ledgers[r].outbox, now, limit, lists[r]) && ledgers[r + 1] == DeliverAll(ledgers[r], lists[r], at)
  {
    hide OutboxSound, Listing, DeliverAll;
  }
}
