/**
 Work items of a team: reports are merged into one row per item, by revision, by terminal
 status and by time.
 */
module WorkItems {
  import opened Options

  type Time = int

  /** The zero time: an unset timestamp. */
  const UNSET: Time := 0

  datatype WorkItem = WorkItem(
    id: int,
    teamID: int,
    rootTaskID: int,
    workID: string,
    assignmentID: Option<string>,
    canonicalWorkID: Option<string>,
    phaseID: Option<string>,
    revision: int,
    requiredForRoot: bool,
    supersededBy: Option<string>,
    reviewRequired: bool,
    validatedRevision: Option<int>,
    ownerMemberID: Option<int>,
    title: string,
    status: string,
    dependsOn: Option<string>,
    result: Option<string>,
    artifactRefs: Option<string>,
    createdAt: Time,
    startedAt: Option<Time>,
    finishedAt: Option<Time>,
    updatedAt: Time)

  datatype Key = Key(teamID: int, rootTaskID: int, workID: string)

  function KeyOf(item: WorkItem): Key {
    Key(item.teamID, item.rootTaskID, item.workID)
  }

  predicate Terminal(status: string) {
    status == "succeeded" || status == "failed" || status == "stale"
  }

  function OrNow(t: Time, now: Time): Time {
    if t == UNSET then now else t
  }

  /** A report of the current revision takes a finished item up again. */
  predicate Reopens(stored: WorkItem, item: WorkItem) {
    && item.revision <= stored.revision && Terminal(stored.status) && !Terminal(item.status)
    && item.updatedAt != UNSET && (stored.updatedAt == UNSET || item.updatedAt > stored.updatedAt)
  }

  /** The report starts a new round of work: by a higher revision, or by reopening. */
  predicate StartsOver(stored: WorkItem, item: WorkItem) {
    item.revision > stored.revision || Reopens(stored, item)
  }

  function Merge(stored: WorkItem, item: WorkItem, now: Time): WorkItem {
    var over := StartsOver(stored, item);
    item.(
      id := stored.id,
      createdAt := stored.createdAt,
      status := if !over && Terminal(stored.status) && !Terminal(item.status) then stored.status else item.status,
      ownerMemberID := OrElse(item.ownerMemberID, stored.ownerMemberID),
      startedAt := OrElse(item.startedAt, stored.startedAt),
      finishedAt := if over then item.finishedAt else OrElse(item.finishedAt, stored.finishedAt),
      dependsOn := OrElse(item.dependsOn, stored.dependsOn),
      assignmentID := OrElse(item.assignmentID, stored.assignmentID),
      canonicalWorkID := OrElse(item.canonicalWorkID, stored.canonicalWorkID),
      phaseID := OrElse(item.phaseID, stored.phaseID),
      revision := if item.revision <= 0 then stored.revision else item.revision,
      supersededBy :=
        if Reopens(stored, item) then item.supersededBy else OrElse(item.supersededBy, stored.supersededBy),
      validatedRevision :=
        if over then item.validatedRevision else OrElse(item.validatedRevision, stored.validatedRevision),
      reviewRequired := item.reviewRequired || (!over && stored.reviewRequired),
      result := if over then item.result else OrElse(item.result, stored.result),
      artifactRefs := if over then item.artifactRefs else OrElse(item.artifactRefs, stored.artifactRefs),
      updatedAt := OrNow(item.updatedAt, now))
  }

  /** The row a report leaves: inserted under a new id, or merged. */
  function Put(stored: Option<WorkItem>, item: WorkItem, id: int, now: Time): WorkItem {
    match stored
    case None => item.(id := id, createdAt := OrNow(item.createdAt, now), updatedAt := OrNow(item.updatedAt, now))
    case Some(row) => Merge(row, item, now)
  }

  /** The review of a row is withdrawn, if it has one to withdraw. */
  function Invalidate(row: WorkItem, at: Time): WorkItem {
    if row.reviewRequired && row.validatedRevision.Some? then row.(validatedRevision := None, updatedAt := at) else row
  }

  function At(rows: map<Key, WorkItem>, key: Key): Option<WorkItem> {
    if key in rows then Some(rows[key]) else None
  }

  class WorkItemTable {
    var rows: map<Key, WorkItem>
    var nextID: int

    constructor ()
      ensures rows == map[] && nextID == 1
    {
      rows, nextID := map[], 1;
    }

    /** `UpsertWorkItem`: the report's fields are filled in or overruled one by one before the row is written. */
    method UpsertWorkItem(item: WorkItem, now: Time)
      modifies this
      ensures rows == old(rows)[KeyOf(item) := Put(At(old(rows), KeyOf(item)), item, old(nextID), now)]
      ensures nextID == if KeyOf(item) in old(rows) then old(nextID) else old(nextID) + 1
    {
      var key := Key(item.teamID, item.rootTaskID, item.workID);
      if key in rows {
        var merged := MergeInto(rows[key], item, now);
        rows := rows[key := merged];
        return;
      }
      var createdAt, updatedAt := item.createdAt, item.updatedAt;
      if createdAt == UNSET {
        createdAt := now;
      }
      if updatedAt == UNSET {
        updatedAt := now;
      }
      rows := rows[key := item.(id := nextID, createdAt := createdAt, updatedAt := updatedAt)];
      nextID := nextID + 1;
    }

    static method MergeInto(existing: WorkItem, item: WorkItem, now: Time) returns (row: WorkItem)
      ensures row == Merge(existing, item, now)
    {
      hide Terminal;
      var newRevision := item.revision > existing.revision;
      var existingTerminal := Terminal(existing.status);
      var itemTerminal := Terminal(item.status);
      var reopeningCurrent := !newRevision && existingTerminal && !itemTerminal && item.updatedAt != UNSET
        && (existing.updatedAt == UNSET || item.updatedAt > existing.updatedAt);
      assert reopeningCurrent == Reopens(existing, item);
      var status, finishedAt, revision := item.status, item.finishedAt, item.revision;
      var supersededBy, validatedRevision := item.supersededBy, item.validatedRevision;
      var reviewRequired, result, artifactRefs := item.reviewRequired, item.result, item.artifactRefs;
      var updatedAt := item.updatedAt;
      if !newRevision && existingTerminal && !reopeningCurrent {
        if !itemTerminal {
          status := existing.status;
        }
      }
      if finishedAt.None? && !newRevision && !reopeningCurrent {
        finishedAt := existing.finishedAt;
      }
      if revision <= 0 {
        revision := existing.revision;
      }
      if supersededBy.None? && !reopeningCurrent {
        supersededBy := existing.supersededBy;
      }
      if validatedRevision.None? && !newRevision && !reopeningCurrent {
        validatedRevision := existing.validatedRevision;
      }
      if existing.reviewRequired && !newRevision && !reopeningCurrent {
        reviewRequired := true;
      }
      if result.None? && !newRevision && !reopeningCurrent {
        result := existing.result;
      }
      if artifactRefs.None? && !newRevision && !reopeningCurrent {
        artifactRefs := existing.artifactRefs;
      }
      if updatedAt == UNSET {
        updatedAt := now;
      }
      var kept := KeepAssignment(existing, item);
      row := kept.(
        id := existing.id, createdAt := existing.createdAt, status := status, finishedAt := finishedAt,
        revision := revision,
        supersededBy := supersededBy, validatedRevision := validatedRevision, reviewRequired := reviewRequired,
        result := result, artifactRefs := artifactRefs, updatedAt := updatedAt);
    }

    /** The fields kept from the row whenever the report leaves them out. */
    static method KeepAssignment(existing: WorkItem, item: WorkItem) returns (row: WorkItem)
      ensures row == item.(
        ownerMemberID := OrElse(item.ownerMemberID, existing.ownerMemberID),
        startedAt := OrElse(item.startedAt, existing.startedAt),
        dependsOn := OrElse(item.dependsOn, existing.dependsOn),
        assignmentID := OrElse(item.assignmentID, existing.assignmentID),
        canonicalWorkID := OrElse(item.canonicalWorkID, existing.canonicalWorkID),
        phaseID := OrElse(item.phaseID, existing.phaseID))
    {
      var ownerMemberID, startedAt, dependsOn := item.ownerMemberID, item.startedAt, item.dependsOn;
      var assignmentID, canonicalWorkID, phaseID := item.assignmentID, item.canonicalWorkID, item.phaseID;
      if ownerMemberID.None? {
        ownerMemberID := existing.ownerMemberID;
      }
      if startedAt.None? {
        startedAt := existing.startedAt;
      }
      if dependsOn.None? {
        dependsOn := existing.dependsOn;
      }
      if assignmentID.None? {
        assignmentID := existing.assignmentID;
      }
      if canonicalWorkID.None? {
        canonicalWorkID := existing.canonicalWorkID;
      }
      if phaseID.None? {
        phaseID := existing.phaseID;
      }
      row := item.(
        ownerMemberID := ownerMemberID, startedAt := startedAt, dependsOn := dependsOn,
        assignmentID := assignmentID, canonicalWorkID := canonicalWorkID, phaseID := phaseID);
    }

    /** `InvalidateWorkItemReview`: refused without an id, otherwise one guarded update. */
    method InvalidateWorkItemReview(workItemID: int, updatedAt: Time, now: Time) returns (ok: bool)
      modifies this`rows
      ensures ok == (workItemID > 0)
      ensures rows == if !ok then old(rows) else
        map k | k in old(rows) ::
          if old(rows)[k].id == workItemID then Invalidate(old(rows)[k], OrNow(updatedAt, now)) else old(rows)[k]
    {
      if workItemID <= 0 {
        return false;
      }
      var at := OrNow(updatedAt, now);
      rows := map k | k in rows ::
        if rows[k].id == workItemID && rows[k].reviewRequired && rows[k].validatedRevision.Some? then
          rows[k].(validatedRevision := None, updatedAt := at)
        else rows[k];
      ok := true;
    }
  }

  // Replay

  /**
   A report delivered twice leaves the row of one delivery, in every field and on every branch,
   exactly when it carries its own timestamp or the clock has not moved.
   */
  lemma ReplayIsSafe(stored: Option<WorkItem>, item: WorkItem, id: int, now: Time, later: Time)
    ensures
      var once := Put(stored, item, id, now);
      && (item.updatedAt != UNSET ==> Put(Some(once), item, id, later) == once)
      && (item.updatedAt == UNSET && now != UNSET && later != UNSET ==>
            (Put(Some(once), item, id, later) == once <==> later == now))
  {
  }

  // Runs over one item

  /** A report as it is delivered, with the clock's reading then, or the withdrawal of a review. */
  datatype Op =
    | Report(item: WorkItem, now: Time)
    | Withdraw(at: Time)

  function OpTime(op: Op): Time {
    match op
    case Report(item, _) => item.updatedAt
    case Withdraw(at) => at
  }

  function Apply(stored: Option<WorkItem>, op: Op, id: int): Option<WorkItem> {
    match op
    case Report(item, now) => Some(Put(stored, item, id, now))
    case Withdraw(at) => if stored.None? then None else Some(Invalidate(stored.value, at))
  }

  /** The row after a run from nothing; `id` is the id the first report is given. */
  function Run(ops: seq<Op>, id: int): Option<WorkItem> {
    if ops == [] then None else Apply(Run(ops[..|ops| - 1], id), ops[|ops| - 1], id)
  }

  /** The operation delivered once more, by a clock of its own. */
  function Again(op: Op, now: Time): Op {
    if op.Report? then op.(now := now) else op
  }

  /** The operation, and then once more for every reading in `clocks`. */
  function Repeat(op: Op, clocks: seq<Time>): seq<Op> {
    if clocks == [] then [op] else Repeat(op, clocks[..|clocks| - 1]) + [Again(op, clocks[|clocks| - 1])]
  }

  /** The run in which the k-th operation is delivered again for every reading in `extra[k]`. */
  function Redeliver(ops: seq<Op>, extra: seq<seq<Time>>): seq<Op>
    requires |extra| == |ops|
  {
    if ops == [] then []
    else
      var n := |ops| - 1;
      Redeliver(ops[..n], extra[..n]) + Repeat(ops[n], extra[n])
  }

  lemma RunSnoc(ops: seq<Op>, op: Op, id: int)
    ensures Run(ops + [op], id) == Apply(Run(ops, id), op, id)
  {
    assert (ops + [op])[..|ops|] == ops;
  }

  lemma {:induction false} RunRepeated(ops: seq<Op>, op: Op, clocks: seq<Time>, id: int)
    requires clocks == [] || OpTime(op) != UNSET
    ensures Run(ops + Repeat(op, clocks), id) == Run(ops + [op], id)
    decreases |clocks|
  {
    if clocks != [] {
      hide Put, Run;
      var n := |clocks| - 1;
      var front, again := ops + Repeat(op, clocks[..n]), Again(op, clocks[n]);
      RunRepeated(ops, op, clocks[..n], id);
      assert ops + Repeat(op, clocks) == front + [again];
      RunSnoc(ops, op, id);
      RunSnoc(front, again, id);
      if op.Report? {
        ReplayIsSafe(Run(ops, id), op.item, id, op.now, clocks[n]);
      }
    }
  }

  /**
   Redelivering any dated operations of a run, any number of times in place and by whatever clock,
   changes nothing.
   */
  lemma {:induction false} RedeliveryIsSafe(ops: seq<Op>, extra: seq<seq<Time>>, id: int)
    requires |extra| == |ops|
    requires forall k :: 0 <= k < |ops| ==> extra[k] == [] || OpTime(ops[k]) != UNSET
    ensures Run(Redeliver(ops, extra), id) == Run(ops, id)
    decreases |ops|
  {
    if ops != [] {
      hide Apply;
      var n := |ops| - 1;
      RedeliveryIsSafe(ops[..n], extra[..n], id);
      var front := Redeliver(ops[..n], extra[..n]);
      RunRepeated(front, ops[n], extra[n], id);
      RunSnoc(front, ops[n], id);
    }
  }

  // Redelivery after later reports

  /** The statuses that end work on an item, by name. */
  predicate Finished(status: string) {
    status == "succeeded" || status == "failed" || status == "stale"
  }

  /** A kept field says what the report says about it, if the report says anything or must. */
  predicate Told<T(==)>(told: Option<T>, kept: Option<T>, over: bool) {
    told == kept || (told.None? && !over)
  }

  /**
   The row already says everything the report says, and was written at the report's time. Results and
   review have to be told in full where the revision, though not positive, is ahead of the row's.
   */
  predicate Reflects(row: WorkItem, item: WorkItem) {
    var over := item.revision > row.revision;
    && KeyOf(item) == KeyOf(row) && item.title == row.title && item.requiredForRoot == row.requiredForRoot
    && item.updatedAt == row.updatedAt && (item.revision <= 0 || item.revision == row.revision)
    && (item.status == row.status || (!over && Finished(row.status) && !Finished(item.status)))
    && (item.reviewRequired == row.reviewRequired || (!over && row.reviewRequired))
    && Told(item.ownerMemberID, row.ownerMemberID, false) && Told(item.startedAt, row.startedAt, false)
    && Told(item.dependsOn, row.dependsOn, false) && Told(item.assignmentID, row.assignmentID, false)
    && Told(item.canonicalWorkID, row.canonicalWorkID, false) && Told(item.phaseID, row.phaseID, false)
    && Told(item.supersededBy, row.supersededBy, false)
    && Told(item.finishedAt, row.finishedAt, over) && Told(item.validatedRevision, row.validatedRevision, over)
    && Told(item.result, row.result, over) && Told(item.artifactRefs, row.artifactRefs, over)
  }

  /**
   A dated report that comes again late, after others, leaves the row alone exactly if the row reflects
   it. In particular a report of another time than the row's always disturbs it, if only its timestamp.
   */
  lemma LateRedelivery(row: WorkItem, item: WorkItem, now: Time)
    requires item.updatedAt != UNSET
    ensures Merge(row, item, now) == row <==> Reflects(row, item)
    ensures item.updatedAt != row.updatedAt ==> Merge(row, item, now) != row
  {
  }

  /** Timestamps are set and never go back. */
  predicate Timely(ops: seq<Op>) {
    && (forall k :: 0 <= k < |ops| ==> OpTime(ops[k]) != UNSET)
    && (forall j, k :: 0 <= j < k < |ops| ==> OpTime(ops[j]) <= OpTime(ops[k]))
  }

  /** An item at work takes every reported status at once. */
  lemma WorkTakesStatus(stored: WorkItem, item: WorkItem, now: Time)
    requires stored.status !in {"succeeded", "failed", "stale"}
    ensures Merge(stored, item, now).status == item.status
  {
  }

  /**
   An item that has succeeded, failed or gone stale is taken up again exactly by an unfinished report, of a higher
   revision or later than the row; and any report that it has ended takes its status over.
   */
  lemma LeavesTerminal(stored: WorkItem, item: WorkItem, now: Time)
    requires Finished(stored.status)
    ensures Finished(item.status) ==> Merge(stored, item, now).status == item.status
    ensures !Finished(Merge(stored, item, now).status) ==> Merge(stored, item, now).status == item.status
    ensures !Finished(Merge(stored, item, now).status) <==>
      && !Finished(item.status)
      && (item.revision > stored.revision
          || (item.updatedAt != UNSET && (stored.updatedAt == UNSET || item.updatedAt > stored.updatedAt)))
  {
  }

  /** In a timely run the row is as recent as every report so far. */
  lemma {:induction false} RowIsRecent(ops: seq<Op>, id: int)
    requires Timely(ops)
    ensures forall k :: 0 <= k < |ops| && ops[k].Report? ==>
      Run(ops, id).Some? && OpTime(ops[k]) <= Run(ops, id).value.updatedAt
    ensures Run(ops, id).Some? ==>
      exists k :: 0 <= k < |ops| && Run(ops, id).value.updatedAt == OpTime(ops[k])
    decreases |ops|
  {
    if ops != [] {
      hide Merge;
      var n := |ops| - 1;
      var front := ops[..n];
      RowIsRecent(front, id);
      var row := Run(ops, id);
      assert forall k :: 0 <= k < n ==> front[k] == ops[k];
      PutTime(Run(front, id), ops[n], id);
      if row.Some? && row.value.updatedAt != OpTime(ops[n]) {
        var k :| 0 <= k < |front| && row.value.updatedAt == OpTime(front[k]);
        assert row.value.updatedAt == OpTime(ops[k]);
      }
    }
  }

  lemma PutTime(stored: Option<WorkItem>, op: Op, id: int)
    requires OpTime(op) != UNSET
    ensures op.Report? ==> Apply(stored, op, id).Some? && Apply(stored, op, id).value.updatedAt == OpTime(op)
    ensures op.Withdraw? ==>
      (Apply(stored, op, id).Some? <==> stored.Some?)
      && (stored.Some? ==> Apply(stored, op, id).value.updatedAt == stored.value.updatedAt
                           || Apply(stored, op, id).value.updatedAt == OpTime(op))
  {
  }

  /**
   In a timely run a finished item is taken up again only by a report of a higher revision or one
   strictly later than every report before it; its result, artifacts, finish time and validation
   are then those of that report alone.
   */
  lemma TerminalGuard(ops: seq<Op>, id: int)
    requires ops != [] && Timely(ops)
    requires
      var before, after := Run(ops[..|ops| - 1], id), Run(ops, id);
      before.Some? && Finished(before.value.status) && !Finished(after.value.status)
    ensures
      var n := |ops| - 1;
      var before, after := Run(ops[..n], id).value, Run(ops, id).value;
      && ops[n].Report?
      && (ops[n].item.revision > before.revision
          || forall k :: 0 <= k < n && ops[k].Report? ==> OpTime(ops[k]) < OpTime(ops[n]))
      && after.result == ops[n].item.result && after.artifactRefs == ops[n].item.artifactRefs
      && after.finishedAt == ops[n].item.finishedAt && after.validatedRevision == ops[n].item.validatedRevision
  {
    var n := |ops| - 1;
    var front := ops[..n];
    assert forall k :: 0 <= k < n ==> front[k] == ops[k];
    assert Timely(front);
    RowIsRecent(front, id);
    if ops[n].Report? {
      LeavesTerminal(Run(front, id).value, ops[n].item, ops[n].now);
    }
  }

  /** What a row never loses once it has it. */
  predicate Keeps(before: WorkItem, after: WorkItem) {
    && after.id == before.id && after.createdAt == before.createdAt
    && (before.ownerMemberID.Some? ==> after.ownerMemberID.Some?)
    && (before.phaseID.Some? ==> after.phaseID.Some?)
    && (before.assignmentID.Some? ==> after.assignmentID.Some?)
    && (before.canonicalWorkID.Some? ==> after.canonicalWorkID.Some?)
    && (before.dependsOn.Some? ==> after.dependsOn.Some?)
    && (before.startedAt.Some? ==> after.startedAt.Some?)
  }

  /** Identity and assignments survive every run, whatever the timestamps. */
  lemma {:induction false} IdentityKept(ops: seq<Op>, k: nat, id: int)
    requires k <= |ops| && Run(ops[..k], id).Some?
    ensures Run(ops, id).Some? && Keeps(Run(ops[..k], id).value, Run(ops, id).value)
    decreases |ops|
  {
    if k == |ops| {
      assert ops[..k] == ops;
    } else {
      var n := |ops| - 1;
      assert ops[..n][..k] == ops[..k];
      IdentityKept(ops[..n], k, id);
    }
  }

  /**
   A validation is withdrawn from exactly the items that need a review, and then does not come back in any run until
   a report validates the item again.
   */
  lemma {:induction false} WithdrawalHolds(ops: seq<Op>, k: nat, id: int)
    requires k < |ops| && ops[k].Withdraw? && Run(ops[..k], id).Some?
    requires forall j :: k < j < |ops| && ops[j].Report? ==> ops[j].item.validatedRevision.None?
    ensures Run(ops[..k + 1], id).Some? && Run(ops, id).Some?
    ensures
      var before := Run(ops[..k], id).value;
      && Run(ops[..k + 1], id).value ==
           (if before.reviewRequired && before.validatedRevision.Some? then
              before.(validatedRevision := None, updatedAt := ops[k].at)
            else before)
      && (before.reviewRequired ==> Run(ops, id).value.validatedRevision.None?)
    decreases |ops|
  {
    assert ops[..k + 1][..k] == ops[..k] && ops[..k + 1][k] == ops[k];
    var n := |ops| - 1;
    if k == n {
      assert ops[..k + 1] == ops;
    } else {
      var front := ops[..n];
      assert front[..k] == ops[..k] && front[..k + 1] == ops[..k + 1];
      WithdrawalHolds(front, k, id);
      hide Run, StartsOver, Reopens, Terminal;
      assert Run(ops, id) == Apply(Run(front, id), ops[n], id) by { RunLast(ops, id); }
    }
  }

  lemma RunLast(ops: seq<Op>, id: int)
    requires ops != []
    ensures Run(ops, id) == Apply(Run(ops[..|ops| - 1], id), ops[|ops| - 1], id)
  {
  }

  // Stale reports

  /** A finished row stands against every unfinished report of its revision that is not later than `latest`. */
  ghost predicate StandsAgainst(row: WorkItem, latest: Time) {
    forall item: WorkItem, now ::
      (item.revision <= row.revision && !Finished(item.status) && item.updatedAt != UNSET && item.updatedAt <= latest)
      ==> Merge(row, item, now).status == row.status
  }

  /** A finished row stands against stale reports exactly as far as its own timestamp reaches. */
  lemma StandsByItsTime(row: WorkItem, latest: Time)
    requires Finished(row.status) && row.updatedAt != UNSET && latest != UNSET
    ensures StandsAgainst(row, latest) <==> latest <= row.updatedAt
  {
    if latest > row.updatedAt {
      var item := row.(status := "running", updatedAt := latest);
      assert Merge(row, item, latest).status == "running";
    }
  }

  /** A refused report still moves the timestamp, back as well as forth. */
  lemma RefusedReportMovesTime(row: WorkItem, item: WorkItem, now: Time)
    requires Finished(row.status) && !Finished(item.status) && !StartsOver(row, item) && item.updatedAt != UNSET
    ensures Merge(row, item, now).status == row.status && Merge(row, item, now).updatedAt == item.updatedAt
    ensures row.updatedAt != UNSET ==> Merge(row, item, now).updatedAt <= row.updatedAt
  {
  }

  /** So without timely reports a report older than the finish can take an item up again. */
  lemma StaleReportCanReopen(row: WorkItem, now: Time)
    requires Finished(row.status) && row.updatedAt == 10
    ensures
      var refused := row.(status := "running", updatedAt := 5);
      var stale := row.(status := "running", updatedAt := 7);
      && Finished(Merge(row, refused, now).status)
      && !Finished(Merge(Merge(row, refused, now), stale, now).status)
  {
  }
}
