/**
 What the rows of the team ledger go through in a run: workflow phases, finished root tasks, events,
 work items and messages, told by their columns.
 */
module LedgerRows {
  import opened Options
  import opened Text
  import opened WorkItems
  import opened TeamLedger
  import opened LedgerRuns

  // Phases

  /** The call is about the root task's phases: it accepts a completion of it, or writes a phase of it. */
  predicate Concerns(call: Call, root: int) {
    (call.Accepting? && call.c.taskID == root) || (call.Phasing? && call.key.rootTaskID == root)
  }

  lemma PhasesAfter(l: Ledger, call: Call)
    ensures
      var o := Do(l, call);
      match call
      case Accepting(c, _, _) => o.l.phases == if o.accepted && o.ok then ClosePhases(l.phases, c) else l.phases
      case Phasing(key, p, _, now) => o.l.phases == UpsertPhase(l, key, p, call.fault, now).l.phases
      case _ => o.l.phases == l.phases
  {
    hide KnownEvent, KnownMessage, StoredEvent, StoredMessage, ClosePhases, Put, MergePhase, Blank, Clashes, Acceptable;
  }

  lemma PhasesStayStep(l: Ledger, call: Call, k: PhaseKey)
    requires !Concerns(call, k.rootTaskID)
    ensures k in Do(l, call).l.phases <==> k in l.phases
    ensures k in l.phases ==> Do(l, call).l.phases[k] == l.phases[k]
  {
    PhasesAfter(l, call);
    hide Do, MergePhase, Blank;
  }

  /** In every run the phases of a root task change only by calls about that root task. */
  lemma {:induction false} PhasesStay(l: Ledger, calls: seq<Call>, k: PhaseKey)
    requires forall j :: 0 <= j < |calls| ==> !Concerns(calls[j], k.rootTaskID)
    ensures k in After(l, calls).phases <==> k in l.phases
    ensures k in l.phases ==> After(l, calls).phases[k] == l.phases[k]
    decreases |calls|
  {
    if calls != [] {
      hide Do;
      var n := |calls| - 1;
      PhasesStay(l, calls[..n], k);
      PhasesStayStep(After(l, calls[..n]), calls[n], k);
    }
  }

  /** The phase belongs to the plan that a completion of the root task with this plan version closes. */
  predicate Planned(k: PhaseKey, root: int, planVersion: int) {
    k.rootTaskID == root && (planVersion == 0 || k.planVersion == planVersion)
  }

  /**
   An acceptance that wins completes, at the completion's time, exactly the phases of its plan that are neither
   cancelled nor superseded. Every other phase it leaves alone, and it adds none.
   */
  lemma WinnerClosesPlan(l: Ledger, c: Completion, fault: Fault, now: Time, k: PhaseKey)
    requires Accept(l, c, fault, now).accepted && Accept(l, c, fault, now).ok
    ensures
      var after, at := Accept(l, c, fault, now).l.phases, c.proposal.updatedAt;
      && (k in after <==> k in l.phases)
      && (k in l.phases ==>
            after[k] ==
            if && Planned(k, c.taskID, c.proposal.planVersion)
               && l.phases[k].status != "cancelled" && l.phases[k].status != "superseded"
            then l.phases[k].(status := "completed", completedAt := Some(at), updatedAt := at)
            else l.phases[k])
  {
    PhasesAfter(l, Accepting(c, fault, now));
    hide Accept;
  }

  /** The phase of the plan is there and completed, unless it was called off. */
  predicate Settled(l: Ledger, k: PhaseKey) {
    k in l.phases ==> l.phases[k].status in {"completed", "cancelled", "superseded"}
  }

  lemma SettledStep(l: Ledger, call: Call, k: PhaseKey)
    requires Settled(l, k) && !(call.Phasing? && call.key.rootTaskID == k.rootTaskID)
    ensures Settled(Do(l, call).l, k)
  {
    if Concerns(call, k.rootTaskID) && Do(l, call).accepted && Do(l, call).ok {
      WinnerClosesPlan(l, call.c, call.fault, call.now, k);
    } else {
      PhasesAfter(l, call);
      hide Do;
      if !Concerns(call, k.rootTaskID) {
        PhasesStayStep(l, call, k);
      }
    }
  }

  /**
   Once a completion has won, no phase of its plan is open again in the run, until a phase of the root task is
   written.
   */
  lemma {:induction false} PlanStaysClosed(l: Ledger, calls: seq<Call>, root: int, j: nat, m: nat, k: PhaseKey)
    requires j < m <= |calls| && Wins(l, calls, j, root)
    requires Planned(k, root, calls[j].c.proposal.planVersion)
    requires forall i :: j < i < m ==> !(calls[i].Phasing? && calls[i].key.rootTaskID == root)
    ensures Settled(After(l, calls[..m]), k)
    decreases m
  {
    hide Do, After, Settled;
    AfterSnoc(l, calls, m - 1);
    if m == j + 1 {
      WinnerSettles(After(l, calls[..j]), calls[j], k);
    } else {
      PlanStaysClosed(l, calls, root, j, m - 1, k);
      SettledStep(After(l, calls[..m - 1]), calls[m - 1], k);
    }
  }

  lemma AfterSnoc(l: Ledger, calls: seq<Call>, k: nat)
    requires k < |calls|
    ensures After(l, calls[..k + 1]) == Do(After(l, calls[..k]), calls[k]).l
  {
    hide Do;
    assert calls[..k + 1][..k] == calls[..k];
  }

  lemma WinnerSettles(l: Ledger, call: Call, k: PhaseKey)
    requires call.Accepting? && Do(l, call).accepted && Do(l, call).ok
    requires Planned(k, call.c.taskID, call.c.proposal.planVersion)
    ensures Settled(Do(l, call).l, k)
  {
    WinnerClosesPlan(l, call.c, call.fault, call.now, k);
  }

  /** A field that is set stays set. */
  predicate Sticky<T>(before: Option<T>, after: Option<T>) {
    before.Some? ==> after.Some?
  }

  predicate PhaseKept(before: Phase, after: Phase) {
    && after.id == before.id && after.createdAt == before.createdAt
    && Sticky(before.dependsOn, after.dependsOn) && Sticky(before.nextPhaseID, after.nextPhaseID)
    && Sticky(before.completionPolicy, after.completionPolicy) && Sticky(before.completedAt, after.completedAt)
  }

  lemma PhaseKeptStep(l: Ledger, call: Call, k: PhaseKey)
    requires k in l.phases
    ensures k in Do(l, call).l.phases && PhaseKept(l.phases[k], Do(l, call).l.phases[k])
  {
    PhasesAfter(l, call);
    if !Concerns(call, k.rootTaskID) {
      hide Do;
      PhasesStayStep(l, call, k);
    } else if call.Accepting? {
      hide Do;
    }
  }

  /** In every run a phase keeps its id and creation time, and what it once says of its place in the plan. */
  lemma {:induction false} PhasesKept(l: Ledger, calls: seq<Call>, k: PhaseKey)
    requires k in l.phases
    ensures k in After(l, calls).phases && PhaseKept(l.phases[k], After(l, calls).phases[k])
    decreases |calls|
  {
    if calls != [] {
      hide Do;
      var n := |calls| - 1;
      PhasesKept(l, calls[..n], k);
      PhaseKeptStep(After(l, calls[..n]), calls[n], k);
    }
  }

  /** A phase is stored with the reported status, under the plan version reported or version one, if it is named. */
  lemma PhaseWritten(l: Ledger, key: PhaseKey, p: Phase, now: Time)
    ensures
      var o := UpsertPhase(l, key, p, NoFault, now);
      var k := PhaseKey(key.rootTaskID, key.phaseID, if key.planVersion > 0 then key.planVersion else 1);
      if key.rootTaskID <= 0 || Trim(key.phaseID) == "" then !o.ok && o.l == l
      else
        && o.ok && o.l.phases.Keys == l.phases.Keys + {k}
        && o.l.phases[k].status == p.status && o.l.phases[k].details == p.details
        && (forall q :: q in l.phases && q != k ==> o.l.phases[q] == l.phases[q])
  {
    hide Trim;
  }

  // Finished root tasks

  /**
   A completion wins only on a row that is there, unfinished, without a completion and at the ledger version it was
   read at; the row is then as proposed, in its team and with its details.
   */
  lemma WinnerTakesOpenRow(l: Ledger, calls: seq<Call>, k: nat, taskID: int)
    requires k < |calls| && Wins(l, calls, k, taskID)
    ensures
      var before, after, c := After(l, calls[..k]).tasks, After(l, calls[..k + 1]).tasks, calls[k].c;
      && taskID in before && !Finished(before[taskID].status)
      && before[taskID].acceptedCompletionID.None? && before[taskID].ledgerVersion == c.expectedLedgerVersion
      && taskID in after
      && after[taskID] == c.proposal.(teamID := before[taskID].teamID, details := before[taskID].details)
      && forall t :: t in before && t != taskID ==> t in after && after[t] == before[t]
  {
    TasksAfter(After(l, calls[..k]), calls[k]);
    AfterSnoc(l, calls, k);
    hide After;
    OpenRow(After(l, calls[..k]), calls[k]);
    hide Do;
  }

  lemma OpenRow(l: Ledger, call: Call)
    requires call.Accepting? && Do(l, call).accepted
    ensures
      && call.c.taskID in l.tasks && !Finished(l.tasks[call.c.taskID].status)
      && l.tasks[call.c.taskID].acceptedCompletionID.None?
      && l.tasks[call.c.taskID].ledgerVersion == call.c.expectedLedgerVersion
  {
    hide Committed, CompletionTaken;
  }

  lemma FinishedStaysStep(l: Ledger, call: Call, taskID: int)
    requires taskID in l.tasks && Finished(l.tasks[taskID].status)
    requires !(call.Rewriting? && call.taskID == taskID)
    ensures taskID in Do(l, call).l.tasks && Do(l, call).l.tasks[taskID] == l.tasks[taskID]
    ensures call.Accepting? && call.c.taskID == taskID ==> !Do(l, call).accepted
  {
    TasksAfter(l, call);
    if call.Accepting? && Do(l, call).accepted {
      OpenRow(l, call);
    }
    hide Do;
  }

  /** In every run a root task that has succeeded, failed or gone stale stays as it is, whatever completions come. */
  lemma {:induction false} FinishedStays(l: Ledger, calls: seq<Call>, taskID: int)
    requires taskID in l.tasks && Finished(l.tasks[taskID].status)
    requires forall k :: 0 <= k < |calls| ==> !(calls[k].Rewriting? && calls[k].taskID == taskID)
    ensures taskID in After(l, calls).tasks && After(l, calls).tasks[taskID] == l.tasks[taskID]
    ensures forall k :: 0 <= k < |calls| ==> !Wins(l, calls, k, taskID)
    decreases |calls|
  {
    if calls != [] {
      hide Do, Finished;
      var n := |calls| - 1;
      var front := calls[..n];
      FinishedStays(l, front, taskID);
      FinishedStaysStep(After(l, front), calls[n], taskID);
      forall k | 0 <= k < |calls| ensures !Wins(l, calls, k, taskID) {
        if k < n {
          assert !Wins(l, front, k, taskID) && front[..k] == calls[..k];
        }
      }
    }
  }

  // Events

  /** The two say the same about an id that both have. */
  predicate Shares(a: Option<string>, b: Option<string>) {
    a.Some? && b.Some? && a.value == b.value
  }

  /** The events of a team cannot both be stored: they share a stream id, an event id or a completion id. */
  predicate Collide(e: Event, f: Event) {
    && e.teamID == f.teamID
    && (Shares(e.streamID, f.streamID) || Shares(e.eventID, f.eventID) || Shares(e.completionID, f.completionID))
  }

  ghost predicate EventsSound(l: Ledger) {
    && (forall i :: i in l.events ==> i < l.nextEvent)
    && forall i, j :: i in l.events && j in l.events && i != j ==> !Collide(l.events[i], l.events[j])
  }

  /** A call leaves the events alone, or adds one that collides with none. */
  ghost predicate EventsGrow(l: Ledger, m: Ledger) {
    (m.events == l.events && m.nextEvent == l.nextEvent)
    || (&& l.nextEvent in m.events && m.events == l.events[l.nextEvent := m.events[l.nextEvent]]
        && m.nextEvent == l.nextEvent + 1
        && forall i :: i in l.events ==> !Collide(m.events[l.nextEvent], l.events[i]))
  }

  /** The event a call brings, if it brings one. */
  function EventOf(call: Call): Option<(Event, Time)> {
    match call
    case Accepting(c, _, now) => Some((c.event, now))
    case Confirming(_, e, _, _, now) => Some((e, now))
    case Recording(e, _, now) => Some((e, now))
    case _ => None
  }

  /** The events are as they were, or with one added that is not known yet. */
  ghost predicate EventsMove(l: Ledger, m: Ledger, brought: Option<(Event, Time)>) {
    || (m.events == l.events && m.nextEvent == l.nextEvent)
    || (brought.Some? && var (e, now) := brought.value;
        && !KnownEvent(l.events, e) && m.nextEvent == l.nextEvent + 1
        && (m.events == l.events[l.nextEvent := StoredEvent(e, l.nextEvent, now)]
            || m.events == l.events[l.nextEvent := e.(createdAt := OrNow(e.createdAt, now))]))
  }

  lemma EventsAfter(l: Ledger, call: Call)
    ensures EventsMove(l, Do(l, call).l, EventOf(call))
  {
    hide KnownEvent, KnownMessage, StoredEvent, StoredMessage, ClosePhases, Put, MergePhase, Blank, Clashes, Acceptable,
      EventFails;
  }

  lemma EventsGrowBy(l: Ledger, m: Ledger, brought: Option<(Event, Time)>)
    requires EventsMove(l, m, brought)
    ensures EventsGrow(l, m)
  {
    if brought.Some? && !KnownEvent(l.events, brought.value.0) {
      forall i | i in l.events ensures !Repeats(brought.value.0, l.events[i]) {
      }
    }
  }

  /** In every run no two events of a team share a stream id, an event id or a completion id. */
  lemma {:induction false} EventsStayUnique(calls: seq<Call>)
    ensures EventsSound(After(EMPTY, calls))
    decreases |calls|
  {
    if calls != [] {
      hide Do, EventsMove;
      var before, call := After(EMPTY, calls[..|calls| - 1]), calls[|calls| - 1];
      EventsStayUnique(calls[..|calls| - 1]);
      EventsAfter(before, call);
      EventsGrowBy(before, Do(before, call).l, EventOf(call));
    }
  }

  /** Recording an event fails exactly if it collides with a stored one; else it stands under a sequence number. */
  lemma EventRecorded(l: Ledger, e: Event, now: Time)
    ensures
      var o := CreateEvent(l, e, NoFault, now);
      && (o.ok <==> forall i :: i in l.events ==> !Collide(e, l.events[i]))
      && (!o.ok ==> o.l == l)
      && (o.ok && l.nextEvent > 0 ==>
            o.l.events == l.events[l.nextEvent := e.(
              sequenceNo := if e.sequenceNo > 0 then e.sequenceNo else l.nextEvent,
              createdAt := if e.createdAt == 0 then now else e.createdAt)])
  {
    assert forall i :: i in l.events ==> (Repeats(e, l.events[i]) <==> Collide(e, l.events[i]));
  }

  /**
   Without a failing statement an acceptance wins exactly on an open row at the version it was read at, if no other
   root task of the team has accepted its completion id.
   */
  lemma AcceptanceDecides(l: Ledger, c: Completion, now: Time)
    ensures
      var o := Accept(l, c, NoFault, now);
      o.accepted && o.ok <==>
        && c.taskID > 0 && c.taskID in l.tasks && !Finished(l.tasks[c.taskID].status)
        && l.tasks[c.taskID].ledgerVersion == c.expectedLedgerVersion && l.tasks[c.taskID].acceptedCompletionID.None?
        && forall t :: t in l.tasks && t != c.taskID && l.tasks[t].teamID == l.tasks[c.taskID].teamID ==>
             !Shares(c.proposal.acceptedCompletionID, l.tasks[t].acceptedCompletionID)
  {
    hide Committed;
  }

  /** A failing sequence update fails an acceptance exactly if its event is new and brings no number of its own. */
  lemma SequenceFaultMatters(l: Ledger, c: Completion, now: Time)
    requires Accept(l, c, NoFault, now).accepted && Accept(l, c, NoFault, now).ok && l.nextEvent > 0
    ensures Accept(l, c, AtSequence, now).ok <==>
      c.event.sequenceNo > 0 || exists i :: i in l.events && Collide(c.event, l.events[i])
  {
    assert forall i :: i in l.events ==> (Repeats(c.event, l.events[i]) <==> Collide(c.event, l.events[i]));
    hide Committed, Acceptable, CompletionTaken;
  }

  // Work items

  /**
   A confirmation is written as a whole or not at all: the item's row, the event unless it collides, and the message
   unless it is there.
   */
  lemma ConfirmationIsWhole(l: Ledger, item: WorkItem, e: Event, m: Outbox, fault: Fault, now: Time)
    requires l.nextOutbox !in l.outbox
    ensures
      var o := Confirm(l, item, e, m, fault, now);
      && (!o.ok ==> o.l == l)
      && (fault.NoFault? ==> o.ok)
      && (o.ok ==>
            && Key(item.teamID, item.rootTaskID, item.workID) in o.l.items
            && ((forall i :: i in l.events ==> !Collide(e, l.events[i])) ==>
                  l.nextEvent in o.l.events && o.l.events[l.nextEvent].body == e.body)
            && Stored(o.l.outbox, m.teamID, m.destination, m.messageID)
            && o.l.tasks == l.tasks && o.l.phases == l.phases)
  {
    hide AddEvent, AddMessage, Put, EventFails, Stored;
    var o := Confirm(l, item, e, m, fault, now);
    ConfirmFails(l, e, fault);
    if o.ok {
      var put := l.(
        items := l.items[KeyOf(item) := Put(At(l.items, KeyOf(item)), item, l.nextItem, now)],
        nextItem := if KeyOf(item) in l.items then l.nextItem else l.nextItem + 1);
      assert o.l == AddMessage(AddEvent(put, e, now), m, now);
      AddEventAlone(put, e, now);
      AddMessageAlone(AddEvent(put, e, now), m, now);
      MessageAdded(AddEvent(put, e, now), m, now, KeyOfMessage(m));
      StoredIsKnown(o.l.outbox, m.teamID, m.destination, m.messageID);
    }
  }

  lemma ConfirmFails(l: Ledger, e: Event, fault: Fault)
    ensures fault.NoFault? ==> !EventFails(l, e, fault)
  {
  }

  lemma AddEventAlone(l: Ledger, e: Event, now: Time)
    ensures
      var m := AddEvent(l, e, now);
      && m.items == l.items && m.tasks == l.tasks && m.phases == l.phases
      && ((forall i :: i in l.events ==> !Collide(e, l.events[i])) ==>
            l.nextEvent in m.events && m.events[l.nextEvent].body == e.body)
  {
    assert forall i :: i in l.events ==> (Repeats(e, l.events[i]) <==> Collide(e, l.events[i]));
  }

  lemma AddMessageAlone(l: Ledger, o: Outbox, now: Time)
    ensures
      var m := AddMessage(l, o, now);
      m.items == l.items && m.tasks == l.tasks && m.phases == l.phases && m.events == l.events
  {
    hide KnownMessage, StoredMessage;
  }

  /** Every work item stands under its own team, root task and work id. */
  ghost predicate ItemsInPlace(l: Ledger) {
    forall k :: k in l.items ==>
      l.items[k].teamID == k.teamID && l.items[k].rootTaskID == k.rootTaskID && l.items[k].workID == k.workID
  }

  lemma ItemsAfter(l: Ledger, call: Call)
    ensures
      if call.Confirming? && Do(l, call).ok then
        var k := KeyOf(call.item);
        Do(l, call).l.items == l.items[k := Put(At(l.items, k), call.item, l.nextItem, call.now)]
      else Do(l, call).l.items == l.items
  {
    hide CompletionTaken, KnownEvent, KnownMessage, StoredEvent, StoredMessage, ClosePhases, Put;
    hide MergePhase, Blank, Clashes, Acceptable;
    if call.Confirming? {
      hide EventFails, Accept, UpsertPhase;
    } else {
      hide Confirm;
    }
  }

  lemma PutInPlace(stored: Option<WorkItem>, item: WorkItem, id: int, now: Time)
    ensures
      var row := Put(stored, item, id, now);
      row.teamID == item.teamID && row.rootTaskID == item.rootTaskID && row.workID == item.workID
  {
    hide StartsOver, Reopens, Terminal;
  }

  /** In every run a confirmed item writes the row of its team, root task and work id, and no other. */
  lemma {:induction false} ItemsStayInPlace(calls: seq<Call>)
    ensures ItemsInPlace(After(EMPTY, calls))
    decreases |calls|
  {
    if calls != [] {
      hide Do, Put;
      var before, call := After(EMPTY, calls[..|calls| - 1]), calls[|calls| - 1];
      ItemsStayInPlace(calls[..|calls| - 1]);
      ItemsAfter(before, call);
      if call.Confirming? {
        PutInPlace(At(before.items, KeyOf(call.item)), call.item, before.nextItem, call.now);
      }
    }
  }

  // Messages

  /** The message has this id, to this destination, from this team. */
  predicate Carries(m: Outbox, teamID: int, destination: string, messageID: string) {
    m.teamID == teamID && m.destination == destination && m.messageID == messageID
  }

  ghost predicate Stored(outbox: map<int, Outbox>, teamID: int, destination: string, messageID: string) {
    exists i :: i in outbox && Carries(outbox[i], teamID, destination, messageID)
  }

  /** The call goes through and has this message to send. */
  predicate Commits(l: Ledger, call: Call, teamID: int, destination: string, messageID: string) {
    var o := Do(l, call);
    match call
    case Accepting(c, _, _) => o.accepted && o.ok && Carries(c.message, teamID, destination, messageID)
    case Confirming(_, _, m, _, _) => o.ok && Carries(m, teamID, destination, messageID)
    case Sending(m, _, _) => o.ok && Carries(m, teamID, destination, messageID)
    case _ => false
  }

  lemma CommitsSends(l: Ledger, call: Call, teamID: int, destination: string, messageID: string)
    ensures Commits(l, call, teamID, destination, messageID) <==>
      Sent(l, call).Some? && KeyOfMessage(Sent(l, call).value) == MessageKey(teamID, destination, messageID)
  {
    hide Do;
  }

  lemma StoredIsKnown(outbox: map<int, Outbox>, teamID: int, destination: string, messageID: string)
    ensures Stored(outbox, teamID, destination, messageID) <==>
      KnownMessage(outbox, MessageKey(teamID, destination, messageID))
  {
    if i :| i in outbox && Carries(outbox[i], teamID, destination, messageID) {
      assert KeyOfMessage(outbox[i]) == MessageKey(teamID, destination, messageID);
    }
  }

  /**
   In every run the outbox holds a message, by team, destination and message id, exactly if a call that brought it
   went through, and holds it once.
   */
  lemma MessagesConserved(calls: seq<Call>, teamID: int, destination: string, messageID: string)
    ensures
      var outbox := After(EMPTY, calls).outbox;
      && (Stored(outbox, teamID, destination, messageID) <==>
            exists k :: 0 <= k < |calls|
              && Commits(After(EMPTY, calls[..k]), calls[k], teamID, destination, messageID))
      && (forall i, j ::
            && i in outbox && j in outbox && Carries(outbox[i], teamID, destination, messageID)
            && Carries(outbox[j], teamID, destination, messageID)
            ==> i == j)
  {
    hide Do, Sent, After;
    var key := MessageKey(teamID, destination, messageID);
    OutboxConserved(calls, key);
    var l := After(EMPTY, calls);
    StoredIsKnown(l.outbox, teamID, destination, messageID);
    forall k | 0 <= k < |calls|
      ensures SendsAt(calls, k, key) <==>
        Commits(After(EMPTY, calls[..k]), calls[k], teamID, destination, messageID)
    {
      CommitsSends(After(EMPTY, calls[..k]), calls[k], teamID, destination, messageID);
    }
    hide Commits, SendsAt;
    forall i, j | && i in l.outbox && j in l.outbox && Carries(l.outbox[i], teamID, destination, messageID)
        && Carries(l.outbox[j], teamID, destination, messageID)
      ensures i == j
    {
      assert KeyOfMessage(l.outbox[i]) == KeyOfMessage(l.outbox[j]);
    }
  }

  /** A message that is new is stored to be sent, at the time given or at once, and not tried yet if it says so. */
  lemma MessageStored(l: Ledger, m: Outbox, now: Time)
    requires !Stored(l.outbox, m.teamID, m.destination, m.messageID)
    ensures
      CreateMessage(l, m, NoFault, now).l.outbox == l.outbox[l.nextOutbox := m.(
        status := if m.status == "" then "pending" else m.status,
        availableAt := if m.availableAt == 0 then now else m.availableAt,
        createdAt := if m.createdAt == 0 then now else m.createdAt,
        updatedAt := if m.updatedAt == 0 then now else m.updatedAt)]
  {
    StoredIsKnown(l.outbox, m.teamID, m.destination, m.messageID);
  }

  /**
   A listing holds a message only if it is pending and available, in order of availability, then id; and it leaves
   out such a message only if it is full of earlier ones.
   */
  lemma ListedInOrder(outbox: map<int, Outbox>, now: Time, limit: nat, ids: seq<int>, id: int)
    requires Listing(outbox, now, limit, ids)
    ensures id in ids ==> id in outbox && outbox[id].status == "pending" && outbox[id].availableAt <= now
    ensures forall j, k :: 0 <= j < k < |ids| ==>
      && ids[j] in outbox && ids[k] in outbox && outbox[ids[j]].availableAt <= outbox[ids[k]].availableAt
      && (outbox[ids[j]].availableAt == outbox[ids[k]].availableAt ==> ids[j] < ids[k])
    ensures id in outbox && outbox[id].status == "pending" && outbox[id].availableAt <= now && id !in ids ==>
      && |ids| == limit
      && forall k :: 0 <= k < |ids| ==> ids[k] in outbox && outbox[ids[k]].availableAt <= outbox[id].availableAt
  {
    if id in outbox && outbox[id].status == "pending" && outbox[id].availableAt <= now && id !in ids {
      assert Due(outbox[id], now);
    }
  }
}
