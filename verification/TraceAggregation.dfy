/**
 Model invocations aggregated into one audit row per trace, in a single pass.
 */
module TraceAggregation {
  import opened Options
  import opened Text

  datatype Invocation = Invocation(
    traceID: string,
    requestID: string,
    sessionID: Option<string>,
    userID: Option<int>,
    instanceID: Option<int>,
    requestedModel: string,
    actualModel: string,
    providerType: string,
    status: string,
    promptTokens: int,
    completionTokens: int,
    totalTokens: int,
    latencyMs: Option<int>,
    createdAt: int,
    completedAt: Option<int>,
    errorMessage: Option<string>)

  datatype Row = Row(
    traceID: string,
    requestID: string,
    sessionID: Option<string>,
    userID: Option<int>,
    username: string,
    instanceID: Option<int>,
    requestedModel: string,
    actualModel: string,
    providerType: string,
    status: string,
    promptTokens: int,
    completionTokens: int,
    totalTokens: int,
    latencyMs: Option<int>,
    createdAt: int,
    completedAt: Option<int>,
    errorMessage: Option<string>)

  datatype Aggregate = Aggregate(row: Row, hasCompleted: bool, hasBlocked: bool, hasFailed: bool, hasPending: bool)

  function UserName(usernames: map<int, string>, userID: Option<int>): string {
    var id := if userID.Some? then userID.value else 0;
    if id in usernames then usernames[id] else ""
  }

  /** A trace's aggregate before its first invocation is counted. */
  function Start(usernames: map<int, string>, v: Invocation): Aggregate {
    Aggregate(
      Row(Trim(v.traceID), Trim(v.requestID), v.sessionID, v.userID, UserName(usernames, v.userID), v.instanceID,
        v.requestedModel, v.actualModel, v.providerType, "", 0, 0, 0, None, v.createdAt, v.completedAt, None),
      false, false, false, false)
  }

  function Status(v: Invocation): string {
    ToLower(Trim(v.status))
  }

  function Later(a: Option<int>, b: Option<int>): Option<int> {
    if a.None? || (b.Some? && b.value > a.value) then b else a
  }

  function AddLatency(a: Option<int>, b: Option<int>): Option<int> {
    if b.None? then a else Some((if a.Some? then a.value else 0) + b.value)
  }

  /** What one invocation adds to its trace. */
  function Count(usernames: map<int, string>, a: Aggregate, v: Invocation): Aggregate {
    var r := a.row;
    var earlier := v.createdAt < r.createdAt;
    var newUser := r.userID.None? && v.userID.Some?;
    var named := if newUser then UserName(usernames, v.userID) else r.username;
    Aggregate(
      Row(
        r.traceID,
        if earlier && !Blank(v.requestID) then Trim(v.requestID) else r.requestID,
        OrElse(r.sessionID, v.sessionID),
        OrElse(r.userID, v.userID),
        if named == "" then UserName(usernames, v.userID) else named,
        OrElse(r.instanceID, v.instanceID),
        if Blank(r.requestedModel) && !Blank(v.requestedModel) then v.requestedModel else r.requestedModel,
        if Blank(v.actualModel) then r.actualModel else v.actualModel,
        if Blank(v.providerType) then r.providerType else v.providerType,
        r.status,
        r.promptTokens + v.promptTokens,
        r.completionTokens + v.completionTokens,
        r.totalTokens + v.totalTokens,
        AddLatency(r.latencyMs, v.latencyMs),
        if earlier then v.createdAt else r.createdAt,
        Later(r.completedAt, v.completedAt),
        if r.errorMessage.None? && v.errorMessage.Some? && !Blank(v.errorMessage.value) then v.errorMessage
        else r.errorMessage),
      a.hasCompleted || Status(v) == "completed",
      a.hasBlocked || Status(v) == "blocked",
      a.hasFailed || Status(v) == "failed",
      a.hasPending || (Status(v) != "completed" && Status(v) != "blocked" && Status(v) != "failed"))
  }

  /** The invocations of a trace, in order. */
  function OfTrace(items: seq<Invocation>, trace: string): seq<Invocation> {
    if items == [] then []
    else
      var n := |items| - 1;
      OfTrace(items[..n], trace) + (if Trim(items[n].traceID) == trace then [items[n]] else [])
  }

  function Fold(usernames: map<int, string>, group: seq<Invocation>): Aggregate
    requires group != []
  {
    var n := |group| - 1;
    if n == 0 then Count(usernames, Start(usernames, group[0]), group[0])
    else Count(usernames, Fold(usernames, group[..n]), group[n])
  }

  function Finish(a: Aggregate): Row {
    a.row.(status :=
      if a.hasFailed then "failed"
      else if a.hasBlocked then "blocked"
      else if a.hasPending && !a.hasCompleted then "pending"
      else "completed")
  }

  /** The trace ids that occur, blank ones left out. */
  function Traces(items: seq<Invocation>): set<string> {
    set k | 0 <= k < |items| && !Blank(items[k].traceID) :: Trim(items[k].traceID)
  }

  predicate NewestFirst(rows: seq<Row>) {
    forall i, j :: 0 <= i < j < |rows| ==> rows[i].createdAt >= rows[j].createdAt
  }

  function InsertNewest(sorted: seq<Row>, row: Row): seq<Row> {
    if sorted == [] || sorted[0].createdAt < row.createdAt then [row] + sorted
    else [sorted[0]] + InsertNewest(sorted[1..], row)
  }

  lemma {:induction false} InsertKeepsRows(sorted: seq<Row>, row: Row)
    ensures multiset(InsertNewest(sorted, row)) == multiset(sorted) + multiset{row}
    decreases sorted
  {
    if sorted != [] && sorted[0].createdAt >= row.createdAt {
      InsertKeepsRows(sorted[1..], row);
      assert sorted == [sorted[0]] + sorted[1..];
    }
  }

  lemma NewestFirstCons(row: Row, rest: seq<Row>)
    requires NewestFirst(rest) && (rest != [] ==> row.createdAt >= rest[0].createdAt)
    ensures NewestFirst([row] + rest)
  {
    assert forall j :: 0 <= j < |rest| ==> rest[0].createdAt >= rest[j].createdAt;
  }

  lemma {:induction false} InsertKeepsOrder(sorted: seq<Row>, row: Row)
    requires NewestFirst(sorted)
    ensures NewestFirst(InsertNewest(sorted, row))
    ensures
      var first := InsertNewest(sorted, row)[0];
      first == row || (sorted != [] && first == sorted[0])
    decreases sorted
  {
    if sorted != [] && sorted[0].createdAt >= row.createdAt {
      InsertKeepsOrder(sorted[1..], row);
      NewestFirstCons(sorted[0], InsertNewest(sorted[1..], row));
    } else {
      NewestFirstCons(row, sorted);
    }
  }

  /** `sort.Slice` by creation time, newest first. */
  method SortNewestFirst(rows: seq<Row>) returns (sorted: seq<Row>)
    ensures NewestFirst(sorted) && multiset(sorted) == multiset(rows)
  {
    sorted := [];
    for k := 0 to |rows|
      invariant NewestFirst(sorted) && multiset(sorted) == multiset(rows[..k])
    {
      hide NewestFirst, InsertNewest;
      InsertKeepsOrder(sorted, rows[k]);
      InsertKeepsRows(sorted, rows[k]);
      assert rows[..k + 1] == rows[..k] + [rows[k]];
      sorted := InsertNewest(sorted, rows[k]);
    }
    assert rows[..|rows|] == rows;
  }

  /** The row of a trace: the fold of its invocations. */
  function RowFor(items: seq<Invocation>, usernames: map<int, string>, trace: string): Row
    requires OfTrace(items, trace) != []
  {
    Finish(Fold(usernames, OfTrace(items, trace)))
  }

  /** The row is that of its trace. */
  ghost predicate RowOfTrace(r: Row, items: seq<Invocation>, usernames: map<int, string>) {
    r.traceID in Traces(items) && OfTrace(items, r.traceID) != [] && r == RowFor(items, usernames, r.traceID)
  }

  /** The map holds the fold of every trace. */
  ghost predicate Collected(byTrace: map<string, Aggregate>, items: seq<Invocation>, usernames: map<int, string>) {
    && byTrace.Keys == Traces(items)
    && forall t :: t in byTrace ==>
         OfTrace(items, t) != [] && byTrace[t] == Fold(usernames, OfTrace(items, t)) && byTrace[t].row.traceID == t
  }

  /** `aggregateInvocationsByTrace`: one row per trace, each the fold of its invocations, newest first. */
  method AggregateInvocationsByTrace(items: seq<Invocation>, usernames: map<int, string>) returns (rows: seq<Row>)
    ensures NewestFirst(rows)
    ensures forall r :: r in rows ==> RowOfTrace(r, items, usernames)
    ensures forall t :: t in Traces(items) ==> exists r :: r in rows && r.traceID == t
    ensures |rows| == |Traces(items)|
  {
    hide NewestFirst, RowOfTrace, Traces, Finish, Collected;
    var byTrace := CollectByTrace(items, usernames);
    var result: seq<Row> := [];
    var left := byTrace.Keys;
    while left != {}
      invariant left <= byTrace.Keys
      invariant |result| + |left| == |Traces(items)|
      invariant forall r :: r in result ==> RowOfTrace(r, items, usernames)
      invariant forall t :: t in Traces(items) ==> t in left || exists r :: r in result && r.traceID == t
      decreases left
    {
      var trace :| trace in left;
      CollectedRow(byTrace, items, usernames, trace);
      var row := Finish(byTrace[trace]);
      ghost var before := result;
      result := result + [row];
      left := left - {trace};
      assert row in result && forall r :: r in before ==> r in result;
    }
    rows := SortNewestFirst(result);
    SameRows(rows, result);
  }

  lemma SameRows(a: seq<Row>, b: seq<Row>)
    requires multiset(a) == multiset(b)
    ensures |a| == |b| && forall r :: r in a <==> r in b
  {
    assert |multiset(a)| == |multiset(b)|;
    forall r ensures r in a <==> r in b {
      assert r in a <==> r in multiset(a);
      assert r in b <==> r in multiset(b);
    }
  }

  lemma CollectedRow(byTrace: map<string, Aggregate>, items: seq<Invocation>, usernames: map<int, string>, t: string)
    requires Collected(byTrace, items, usernames) && t in byTrace
    ensures RowOfTrace(Finish(byTrace[t]), items, usernames) && Finish(byTrace[t]).traceID == t
  {
    hide Traces, Fold, OfTrace;
  }

  /** The first pass: the map from trace ids to aggregates. */
  method CollectByTrace(items: seq<Invocation>, usernames: map<int, string>) returns (byTrace: map<string, Aggregate>)
    ensures Collected(byTrace, items, usernames)
    ensures byTrace.Keys == Traces(items)
  {
    byTrace := map[];
    for k := 0 to |items|
      invariant Collected(byTrace, items[..k], usernames)
    {
      hide Traces, Count, Start, Collected;
      var invocation := items[k];
      var traceID := Trim(invocation.traceID);
      assert items[..k + 1] == items[..k] + [invocation];
      CollectOne(byTrace, items[..k], usernames, invocation);
      if traceID == "" {
        continue;
      }
      var aggregate := if traceID in byTrace then byTrace[traceID] else Start(usernames, invocation);
      aggregate := Count(usernames, aggregate, invocation);
      byTrace := byTrace[traceID := aggregate];
    }
    assert items[..|items|] == items;
  }

  lemma TracesSnoc(items: seq<Invocation>, v: Invocation)
    ensures Traces(items + [v]) == Traces(items) + (if Blank(v.traceID) then {} else {Trim(v.traceID)})
  {
    var all := items + [v];
    assert all[|items|] == v;
    forall t ensures t in Traces(all) <==> t in Traces(items) || (!Blank(v.traceID) && t == Trim(v.traceID)) {
      if t in Traces(items) {
        var k :| 0 <= k < |items| && !Blank(items[k].traceID) && Trim(items[k].traceID) == t;
        assert all[k] == items[k];
      }
    }
  }

  lemma OfTraceSnoc(items: seq<Invocation>, v: Invocation, t: string)
    ensures OfTrace(items + [v], t) == OfTrace(items, t) + (if Trim(v.traceID) == t then [v] else [])
  {
    assert (items + [v])[..|items|] == items;
  }

  lemma {:induction false} TraceHasItems(items: seq<Invocation>, t: string)
    ensures t != "" ==> (OfTrace(items, t) != [] <==> t in Traces(items))
    decreases |items|
  {
    if items != [] {
      hide Traces;
      var n := |items| - 1;
      assert items == items[..n] + [items[n]];
      TraceHasItems(items[..n], t);
      TracesSnoc(items[..n], items[n]);
    } else {
      assert Traces(items) == {};
    }
  }

  lemma FoldSnoc(usernames: map<int, string>, group: seq<Invocation>, v: Invocation)
    ensures Fold(usernames, group + [v]) ==
      Count(usernames, if group == [] then Start(usernames, v) else Fold(usernames, group), v)
  {
    assert (group + [v])[..|group|] == group;
    hide Count, Start;
  }

  lemma CountKeepsTrace(usernames: map<int, string>, a: Aggregate, v: Invocation)
    ensures Count(usernames, a, v).row.traceID == a.row.traceID
    ensures Start(usernames, v).row.traceID == Trim(v.traceID)
  {
  }

  lemma CollectOne(byTrace: map<string, Aggregate>, items: seq<Invocation>, usernames: map<int, string>, v: Invocation)
    requires Collected(byTrace, items, usernames)
    ensures
      var t := Trim(v.traceID);
      var a := if t in byTrace then byTrace[t] else Start(usernames, v);
      if t == "" then Collected(byTrace, items + [v], usernames)
      else Collected(byTrace[t := Count(usernames, a, v)], items + [v], usernames)
  {
    hide Traces, Count, Start, Fold, OfTrace;
    var t, all := Trim(v.traceID), items + [v];
    TracesSnoc(items, v);
    forall s ensures OfTrace(all, s) == OfTrace(items, s) + (if t == s then [v] else []) {
      OfTraceSnoc(items, v, s);
    }
    assert forall s :: OfTrace(items, s) + [] == OfTrace(items, s);
    NoBlankTrace(items);
    if t != "" {
      TraceHasItems(items, t);
      FoldSnoc(usernames, OfTrace(items, t), v);
      CountKeepsTrace(usernames, if t in byTrace then byTrace[t] else Start(usernames, v), v);
    }
  }

  lemma NoBlankTrace(items: seq<Invocation>)
    ensures "" !in Traces(items)
  {
  }

  /**
   A trace holds exactly the invocations that name it, white space aside, each as often as it came; the traces of the
   result are those that an invocation names.
   */
  lemma {:induction false} TraceHolds(items: seq<Invocation>, t: string, v: Invocation)
    ensures multiset(OfTrace(items, t))[v] == if Trim(v.traceID) == t then multiset(items)[v] else 0
    ensures t in Traces(items) <==> t != "" && exists k :: 0 <= k < |items| && Trim(items[k].traceID) == t
    decreases |items|
  {
    hide Trim;
    if items != [] {
      var n := |items| - 1;
      TraceHolds(items[..n], t, v);
      assert items == items[..n] + [items[n]];
      assert multiset(items) == multiset(items[..n]) + multiset{items[n]};
    }
  }

  // What a row means

  /** The four figures a row adds up. */
  datatype Measure = Prompt | Completion | Overall | Latency

  function Reading(m: Measure, v: Invocation): int {
    match m
    case Prompt => v.promptTokens
    case Completion => v.completionTokens
    case Overall => v.totalTokens
    case Latency => if v.latencyMs.Some? then v.latencyMs.value else 0
  }

  function Figure(m: Measure, r: Row): int {
    match m
    case Prompt => r.promptTokens
    case Completion => r.completionTokens
    case Overall => r.totalTokens
    case Latency => if r.latencyMs.Some? then r.latencyMs.value else 0
  }

  function Total(m: Measure, group: seq<Invocation>): int {
    if group == [] then 0 else Total(m, group[..|group| - 1]) + Reading(m, group[|group| - 1])
  }

  lemma TotalSnoc(m: Measure, group: seq<Invocation>, v: Invocation)
    ensures Total(m, group + [v]) == Total(m, group) + Reading(m, v)
  {
    assert (group + [v])[..|group|] == group;
  }

  predicate Has(group: seq<Invocation>, status: string) {
    exists v :: v in group && ToLower(Trim(v.status)) == status
  }

  predicate HasPending(group: seq<Invocation>) {
    exists v :: v in group && ToLower(Trim(v.status)) !in {"completed", "blocked", "failed"}
  }

  ghost predicate Untimed(group: seq<Invocation>) {
    forall v :: v in group ==> v.latencyMs.None?
  }

  ghost predicate IsEarliest(at: int, group: seq<Invocation>) {
    (exists v :: v in group && v.createdAt == at) && forall v :: v in group ==> at <= v.createdAt
  }

  ghost predicate IsLatest(at: Option<int>, group: seq<Invocation>) {
    match at
    case None => forall v :: v in group ==> v.completedAt.None?
    case Some(t) =>
      (exists v :: v in group && v.completedAt == at)
      && forall v :: v in group && v.completedAt.Some? ==> v.completedAt.value <= t
  }

  /** The status a trace has to show: failed over blocked over pending, which a completion hides. */
  function Severity(group: seq<Invocation>): string {
    if Has(group, "failed") then "failed"
    else if Has(group, "blocked") then "blocked"
    else if HasPending(group) && !Has(group, "completed") then "pending"
    else "completed"
  }

  /** What a row has to say about the invocations of its trace. */
  ghost predicate Summarizes(r: Row, group: seq<Invocation>) {
    && (forall m :: Figure(m, r) == Total(m, group))
    && (r.latencyMs.None? <==> Untimed(group))
    && IsEarliest(r.createdAt, group) && IsLatest(r.completedAt, group)
    && r.status == Severity(group)
  }

  /** Two rows that say the same about their trace, whatever invocation they took their labels from. */
  predicate SameSummary(r: Row, s: Row) {
    && r.promptTokens == s.promptTokens && r.completionTokens == s.completionTokens
    && r.totalTokens == s.totalTokens && r.latencyMs == s.latencyMs
    && r.createdAt == s.createdAt && r.completedAt == s.completedAt && r.status == s.status
  }

  // What an aggregate has counted so far

  ghost predicate Adds(a: Aggregate, group: seq<Invocation>) {
    (forall m :: Figure(m, a.row) == Total(m, group)) && (a.row.latencyMs.None? <==> Untimed(group))
  }

  ghost predicate Flags(a: Aggregate, group: seq<Invocation>) {
    && a.hasFailed == Has(group, "failed") && a.hasBlocked == Has(group, "blocked")
    && a.hasCompleted == Has(group, "completed") && a.hasPending == HasPending(group)
  }

  ghost predicate Spans(a: Aggregate, group: seq<Invocation>) {
    IsEarliest(a.row.createdAt, group) && IsLatest(a.row.completedAt, group)
  }

  lemma CountAdds(usernames: map<int, string>, a: Aggregate, group: seq<Invocation>, v: Invocation)
    requires Adds(a, group)
    ensures Adds(Count(usernames, a, v), group + [v])
  {
    hide Total, Trim, Status, UserName, Blank, Later;
    forall m ensures Figure(m, Count(usernames, a, v).row) == Total(m, group + [v]) {
      TotalSnoc(m, group, v);
      assert Figure(m, a.row) == Total(m, group);
    }
    assert forall u :: u in group + [v] <==> u in group || u == v;
  }

  lemma CountFlags(usernames: map<int, string>, a: Aggregate, group: seq<Invocation>, v: Invocation)
    requires Flags(a, group)
    ensures Flags(Count(usernames, a, v), group + [v])
  {
    hide Trim, ToLower, UserName, Blank, Later, AddLatency;
    assert forall u :: u in group + [v] <==> u in group || u == v;
  }

  lemma CountSpans(usernames: map<int, string>, a: Aggregate, group: seq<Invocation>, v: Invocation)
    requires group != [] ==> Spans(a, group)
    requires group == [] ==> a.row.createdAt == v.createdAt && a.row.completedAt == v.completedAt
    ensures Spans(Count(usernames, a, v), group + [v])
  {
    hide Status, Trim, UserName, Blank, AddLatency;
    assert v in group + [v];
    assert forall u :: u in group + [v] <==> u in group || u == v;
  }

  lemma {:induction false} FoldCounts(usernames: map<int, string>, group: seq<Invocation>)
    requires group != []
    ensures
      var a := Fold(usernames, group);
      Adds(a, group) && Flags(a, group) && Spans(a, group)
    decreases |group|
  {
    hide Adds, Flags, Spans, Count;
    var n := |group| - 1;
    var front, v := group[..n], group[n];
    assert group == front + [v];
    FoldSnoc(usernames, front, v);
    var a := Start(usernames, v);
    if n == 0 {
      NothingCounted(usernames, v);
    } else {
      FoldCounts(usernames, front);
      a := Fold(usernames, front);
    }
    CountAdds(usernames, a, front, v);
    CountFlags(usernames, a, front, v);
    CountSpans(usernames, a, front, v);
  }

  lemma NothingCounted(usernames: map<int, string>, v: Invocation)
    ensures Adds(Start(usernames, v), []) && Flags(Start(usernames, v), [])
  {
  }

  /** Every row of the result sums up its trace: totals, earliest creation, latest completion, status by severity. */
  lemma RowSummarizes(items: seq<Invocation>, usernames: map<int, string>, trace: string)
    requires OfTrace(items, trace) != []
    ensures Summarizes(RowFor(items, usernames, trace), OfTrace(items, trace))
  {
    hide Fold, Has, HasPending, IsEarliest, IsLatest, Untimed, Total, OfTrace;
    var group := OfTrace(items, trace);
    FoldCounts(usernames, group);
    var a := Fold(usernames, group);
    forall m ensures Figure(m, Finish(a)) == Total(m, group) {
      assert Figure(m, a.row) == Total(m, group);
    }
  }

  // The labels of a row

  function Session(v: Invocation): Option<string> {
    v.sessionID
  }

  function User(v: Invocation): Option<int> {
    v.userID
  }

  function Instance(v: Invocation): Option<int> {
    v.instanceID
  }

  function Error(v: Invocation): Option<string> {
    if v.errorMessage.Some? && !Blank(v.errorMessage.value) then v.errorMessage else None
  }

  function Shown(text: string): Option<string> {
    if Blank(text) then None else Some(text)
  }

  function RequestedModel(v: Invocation): Option<string> {
    Shown(v.requestedModel)
  }

  function ActualModel(v: Invocation): Option<string> {
    Shown(v.actualModel)
  }

  function Provider(v: Invocation): Option<string> {
    Shown(v.providerType)
  }

  function Given(name: string): Option<string> {
    if name == "" then None else Some(name)
  }

  /** The user name an invocation can give, if any. */
  function Name(usernames: map<int, string>): Invocation -> Option<string> {
    (v: Invocation) => Given(UserName(usernames, v.userID))
  }

  /** `x` is what the first invocation that has a label picked, or nothing if none has. */
  ghost predicate IsFirst<T(!new)>(x: Option<T>, pick: Invocation -> Option<T>, group: seq<Invocation>) {
    if x.None? then forall k :: 0 <= k < |group| ==> pick(group[k]).None?
    else exists k :: 0 <= k < |group| && pick(group[k]) == x && forall j :: 0 <= j < k ==> pick(group[j]).None?
  }

  /** `x` is what the last invocation that has a label picked, or blank if none has. */
  ghost predicate IsLast(x: string, pick: Invocation -> Option<string>, group: seq<Invocation>) {
    || (Blank(x) && forall k :: 0 <= k < |group| ==> pick(group[k]).None?)
    || exists k :: 0 <= k < |group| && pick(group[k]) == Some(x) && forall j :: k < j < |group| ==> pick(group[j]).None?
  }

  ghost predicate Labels(r: Row, group: seq<Invocation>) {
    && IsFirst(r.sessionID, Session, group) && IsFirst(r.userID, User, group) && IsFirst(r.instanceID, Instance, group)
    && IsFirst(r.errorMessage, Error, group) && IsFirst(Shown(r.requestedModel), RequestedModel, group)
    && IsLast(r.actualModel, ActualModel, group) && IsLast(r.providerType, Provider, group)
  }

  lemma FirstSnoc<T(!new)>(x: Option<T>, pick: Invocation -> Option<T>, group: seq<Invocation>, v: Invocation)
    requires IsFirst(x, pick, group)
    ensures IsFirst(OrElse(x, pick(v)), pick, group + [v])
  {
    var all := group + [v];
    assert all[|group|] == v;
    if x.Some? {
      var k :| 0 <= k < |group| && pick(group[k]) == x && forall j :: 0 <= j < k ==> pick(group[j]).None?;
      assert pick(all[k]) == x;
    }
  }

  lemma LastSnoc(x: string, pick: Invocation -> Option<string>, group: seq<Invocation>, v: Invocation)
    requires IsLast(x, pick, group)
    ensures IsLast(if pick(v).Some? then pick(v).value else x, pick, group + [v])
  {
    hide Blank;
    var all := group + [v];
    assert all[|group|] == v;
    if pick(v).None? && !(Blank(x) && forall k :: 0 <= k < |group| ==> pick(group[k]).None?) {
      var k :| 0 <= k < |group| && pick(group[k]) == Some(x) && forall j :: k < j < |group| ==> pick(group[j]).None?;
      assert pick(all[k]) == Some(x);
    }
  }

  lemma CountLabels(usernames: map<int, string>, a: Aggregate, group: seq<Invocation>, v: Invocation)
    requires Labels(a.row, group)
    ensures Labels(Count(usernames, a, v).row, group + [v])
  {
    hide IsFirst, IsLast, Trim, Blank, UserName, Later, AddLatency, Status;
    var r := a.row;
    FirstSnoc(r.sessionID, Session, group, v);
    FirstSnoc(r.userID, User, group, v);
    FirstSnoc(r.instanceID, Instance, group, v);
    FirstSnoc(r.errorMessage, Error, group, v);
    FirstSnoc(Shown(r.requestedModel), RequestedModel, group, v);
    LastSnoc(r.actualModel, ActualModel, group, v);
    LastSnoc(r.providerType, Provider, group, v);
  }

  lemma FirstLabels(usernames: map<int, string>, v: Invocation)
    ensures Labels(Count(usernames, Start(usernames, v), v).row, [v])
  {
    hide Trim, Blank, UserName, Later, AddLatency, Status;
    var r, one := Count(usernames, Start(usernames, v), v).row, [v];
    assert one[0] == v;
  }

  lemma {:induction false} FoldLabels(usernames: map<int, string>, group: seq<Invocation>)
    requires group != []
    ensures Labels(Fold(usernames, group).row, group)
    decreases |group|
  {
    hide Labels, Count, Start;
    var n := |group| - 1;
    var front, v := group[..n], group[n];
    assert group == front + [v];
    FoldSnoc(usernames, front, v);
    if n == 0 {
      FirstLabels(usernames, v);
    } else {
      FoldLabels(usernames, front);
      CountLabels(usernames, Fold(usernames, front), front, v);
    }
  }

  /** The invocations from the first one with a user on; all of them, if none has one. */
  function SinceUser(group: seq<Invocation>): seq<Invocation> {
    if exists k :: 0 <= k < |group| && group[k].userID.Some? then WithUser(group) else group
  }

  function WithUser(group: seq<Invocation>): seq<Invocation> {
    if group == [] || group[0].userID.Some? then group else WithUser(group[1..])
  }

  lemma {:induction false} WithUserSnoc(group: seq<Invocation>, v: Invocation)
    ensures WithUser(group + [v]) ==
      if exists k :: 0 <= k < |group| && group[k].userID.Some? then WithUser(group) + [v]
      else if v.userID.Some? then [v]
      else []
    decreases group
  {
    if group == [] {
      assert group + [v] == [v] && [v][1..] == [];
    } else if group[0].userID.None? {
      var rest := group[1..];
      assert (group + [v])[1..] == rest + [v];
      WithUserSnoc(rest, v);
      assert forall k :: 0 < k < |group| ==> group[k] == rest[k - 1];
      if k :| 0 <= k < |rest| && rest[k].userID.Some? {
        assert group[k + 1] == rest[k];
      }
    }
  }

  lemma SinceUserSnoc(group: seq<Invocation>, v: Invocation)
    ensures SinceUser(group + [v]) ==
      if v.userID.Some? && (forall k :: 0 <= k < |group| ==> group[k].userID.None?) then [v] else SinceUser(group) + [v]
  {
    var all := group + [v];
    assert all[|group|] == v;
    WithUserSnoc(group, v);
    hide WithUser;
    if k :| 0 <= k < |group| && group[k].userID.Some? {
      assert all[k] == group[k];
    }
  }

  /**
   The user name is the first one known from the invocation that gave the user on. It need not be
   that user's: where the user has no name, a later user's name stands in.
   */
  ghost predicate NameOf(r: Row, usernames: map<int, string>, group: seq<Invocation>) {
    IsFirst(Given(r.username), Name(usernames), SinceUser(group))
  }

  /** The invocation is earlier than all before it. */
  predicate Earlier(group: seq<Invocation>, k: nat)
    requires k < |group|
  {
    forall i :: 0 <= i < k ==> group[k].createdAt < group[i].createdAt
  }

  predicate Renames(group: seq<Invocation>, k: nat)
    requires k < |group|
  {
    Earlier(group, k) && !Blank(group[k].requestID)
  }

  /** The request id is that of the last invocation that is earlier than all before it and has one, or of the first. */
  ghost predicate RequestOf(r: Row, group: seq<Invocation>) {
    exists k :: 0 <= k < |group| && r.requestID == Trim(group[k].requestID) && (k == 0 || Renames(group, k))
      && forall j :: k < j < |group| ==> !Renames(group, j)
  }

  lemma CountName(usernames: map<int, string>, a: Aggregate, group: seq<Invocation>, v: Invocation)
    requires group != [] && NameOf(a.row, usernames, group) && IsFirst(a.row.userID, User, group)
    ensures NameOf(Count(usernames, a, v).row, usernames, group + [v])
  {
    SinceUserSnoc(group, v);
    hide SinceUser, Trim, Blank, UserName, Later, AddLatency, Status;
    var name := Name(usernames);
    FirstSnoc(Given(a.row.username), name, SinceUser(group), v);
    FirstOfNone(a.row.userID, User, group);
    FirstOne(name, v);
    hide IsFirst;
    assert name(v) == Given(UserName(usernames, v.userID));
  }

  lemma FirstOfNone<T(!new)>(x: Option<T>, pick: Invocation -> Option<T>, group: seq<Invocation>)
    requires IsFirst(x, pick, group)
    ensures x.None? <==> forall k :: 0 <= k < |group| ==> pick(group[k]).None?
  {
  }

  lemma FirstOne<T(!new)>(pick: Invocation -> Option<T>, v: Invocation)
    ensures IsFirst(pick(v), pick, [v])
  {
    assert [v][0] == v;
  }

  lemma CountRequest(usernames: map<int, string>, a: Aggregate, group: seq<Invocation>, v: Invocation)
    requires RequestOf(a.row, group) && IsEarliest(a.row.createdAt, group)
    ensures RequestOf(Count(usernames, a, v).row, group + [v])
  {
    hide Trim, Blank, UserName, Later, AddLatency, Status;
    var all, n := group + [v], |group|;
    var k :| 0 <= k < |group| && a.row.requestID == Trim(group[k].requestID) && (k == 0 || Renames(group, k))
      && forall j :: k < j < |group| ==> !Renames(group, j);
    assert all[n] == v && forall j :: 0 <= j < n ==> all[j] == group[j];
    RecordsSnoc(group, v);
    assert Earlier(all, n) <==> v.createdAt < a.row.createdAt by {
      EarliestBound(a.row.createdAt, group, v);
    }
    var r := Count(usernames, a, v).row;
    if Renames(all, n) {
      assert r.requestID == Trim(all[n].requestID);
    } else {
      assert r.requestID == Trim(all[k].requestID);
    }
  }

  lemma RecordsSnoc(group: seq<Invocation>, v: Invocation)
    ensures forall j :: 0 <= j < |group| ==> (Renames(group + [v], j) <==> Renames(group, j))
  {
    hide Blank;
    forall j | 0 <= j < |group| ensures Earlier(group + [v], j) <==> Earlier(group, j) {
      var all := group + [v];
      assert forall i :: 0 <= i <= j ==> all[i] == group[i];
    }
  }

  lemma EarliestBound(at: int, group: seq<Invocation>, v: Invocation)
    requires IsEarliest(at, group)
    ensures Earlier(group + [v], |group|) <==> v.createdAt < at
  {
    var all := group + [v];
    assert all[|group|] == v && forall i :: 0 <= i < |group| ==> all[i] == group[i];
    var u :| u in group && u.createdAt == at;
    var i :| 0 <= i < |group| && group[i] == u;
    assert all[i].createdAt == at;
  }

  lemma FirstOrigin(usernames: map<int, string>, v: Invocation)
    ensures
      var r := Count(usernames, Start(usernames, v), v).row;
      NameOf(r, usernames, [v]) && RequestOf(r, [v])
  {
    hide Blank, Later, AddLatency, Status, UserName;
    SinceUserSnoc([], v);
    assert [] + [v] == [v] && SinceUser([]) == [];
    FirstOne(Name(usernames), v);
    assert [v][0] == v;
  }

  lemma {:induction false} FoldOrigin(usernames: map<int, string>, group: seq<Invocation>)
    requires group != []
    ensures NameOf(Fold(usernames, group).row, usernames, group) && RequestOf(Fold(usernames, group).row, group)
    decreases |group|
  {
    hide NameOf, RequestOf, Count, Start, IsFirst, IsLast, Adds, Flags, IsLatest, IsEarliest;
    var n := |group| - 1;
    var front, v := group[..n], group[n];
    assert group == front + [v];
    FoldSnoc(usernames, front, v);
    if n == 0 {
      assert front + [v] == [v];
      FirstOrigin(usernames, v);
    } else {
      FoldOrigin(usernames, front);
      FoldLabels(usernames, front);
      FoldCounts(usernames, front);
      CountName(usernames, Fold(usernames, front), front, v);
      CountRequest(usernames, Fold(usernames, front), front, v);
    }
  }

  /**
   Session, user, instance, error and requested model are the first one given in the trace; the
   actual model and the provider the last; the request id is that of the last new earliest invocation
   that has one; and the user name is as `NameOf` says.
   */
  lemma RowIsLabelled(items: seq<Invocation>, usernames: map<int, string>, trace: string)
    requires OfTrace(items, trace) != []
    ensures
      var r, group := RowFor(items, usernames, trace), OfTrace(items, trace);
      Labels(r, group) && NameOf(r, usernames, group) && RequestOf(r, group)
  {
    hide Fold, IsFirst, IsLast, OfTrace, Count, SinceUser, Trim;
    FoldLabels(usernames, OfTrace(items, trace));
    FoldOrigin(usernames, OfTrace(items, trace));
  }

  /** The first invocation that counts for the user name holds the row's user. */
  lemma {:induction false} WithUserHead(group: seq<Invocation>)
    requires exists k :: 0 <= k < |group| && group[k].userID.Some?
    ensures WithUser(group) != [] && WithUser(group)[0].userID.Some? && IsFirst(WithUser(group)[0].userID, User, group)
    decreases group
  {
    if group[0].userID.None? {
      var rest := group[1..];
      assert forall k :: 0 < k < |group| ==> group[k] == rest[k - 1];
      WithUserHead(rest);
      var x := WithUser(rest)[0].userID;
      var j :| 0 <= j < |rest| && User(rest[j]) == x && forall i :: 0 <= i < j ==> User(rest[i]).None?;
      assert User(group[j + 1]) == x;
    }
  }

  lemma FirstUnique<T(!new)>(x: Option<T>, y: Option<T>, pick: Invocation -> Option<T>, group: seq<Invocation>)
    requires IsFirst(x, pick, group) && IsFirst(y, pick, group)
    ensures x == y
  {
  }

  lemma SinceUserHead(userID: Option<int>, group: seq<Invocation>)
    requires group != [] && IsFirst(userID, User, group)
    ensures SinceUser(group) != [] && SinceUser(group)[0].userID == userID
  {
    FirstOfNone(userID, User, group);
    if k :| 0 <= k < |group| && group[k].userID.Some? {
      WithUserHead(group);
      hide IsFirst, WithUser;
      FirstUnique(userID, WithUser(group)[0].userID, User, group);
    } else {
      assert User(group[0]).None?;
    }
  }

  /** The first name of a list is that of its head exactly when the head has one, or none has. */
  lemma HeadNames(name: string, usernames: map<int, string>, tail: seq<Invocation>)
    requires tail != [] && IsFirst(Given(name), Name(usernames), tail)
    ensures
      var own := UserName(usernames, tail[0].userID);
      name == own <==> own != "" || forall v :: v in tail ==> UserName(usernames, v.userID) == ""
  {
    hide UserName;
    var pick := Name(usernames);
    assert pick(tail[0]) == Given(UserName(usernames, tail[0].userID));
    if forall v :: v in tail ==> UserName(usernames, v.userID) == "" {
      assert forall k :: 0 <= k < |tail| ==> tail[k] in tail && pick(tail[k]) == None;
    } else if UserName(usernames, tail[0].userID) == "" {
      var v :| v in tail && UserName(usernames, v.userID) != "";
      var k :| 0 <= k < |tail| && tail[k] == v;
      assert pick(tail[k]) == Some(UserName(usernames, v.userID));
    }
  }

  /**
   The row's user is that of the first invocation with a user, or none. The row shows that user's name
   exactly when the user has one, or nobody from that invocation on has one.
   */
  lemma NameIsUsers(items: seq<Invocation>, usernames: map<int, string>, trace: string)
    requires OfTrace(items, trace) != []
    ensures
      var r, since := RowFor(items, usernames, trace), SinceUser(OfTrace(items, trace));
      && since != [] && r.userID == since[0].userID
      && var own := UserName(usernames, since[0].userID);
        r.username == own <==> own != "" || forall v :: v in since ==> UserName(usernames, v.userID) == ""
  {
    RowIsLabelled(items, usernames, trace);
    hide RowFor, OfTrace, IsFirst, SinceUser, UserName;
    var r, group := RowFor(items, usernames, trace), OfTrace(items, trace);
    SinceUserHead(r.userID, group);
    HeadNames(r.username, usernames, SinceUser(group));
  }

  /** A user who has a name is shown under it. */
  lemma NameIsShown(items: seq<Invocation>, usernames: map<int, string>, trace: string, user: int)
    requires OfTrace(items, trace) != []
    requires SinceUser(OfTrace(items, trace)) != [] && SinceUser(OfTrace(items, trace))[0].userID == Some(user)
    requires user in usernames && usernames[user] != ""
    ensures RowFor(items, usernames, trace).userID == Some(user)
    ensures RowFor(items, usernames, trace).username == usernames[user]
  {
    hide RowFor, OfTrace, SinceUser;
    NameIsUsers(items, usernames, trace);
  }

  /** Two invocations of a trace, the first by a user without a name: its row shows that user with the other's name. */
  lemma NameOfAnother(usernames: map<int, string>, a: Invocation, b: Invocation, trace: string)
    requires Trim(a.traceID) == Trim(b.traceID) == trace
    requires a.userID.Some? && b.userID.Some? && a.userID != b.userID
    requires UserName(usernames, a.userID) == "" && UserName(usernames, b.userID) != ""
    ensures OfTrace([a, b], trace) != []
    ensures
      var r := RowFor([a, b], usernames, trace);
      r.userID == a.userID && r.username == UserName(usernames, b.userID)
  {
    hide Trim, UserName, Blank, Later, AddLatency, Status;
    OfTraceSnoc([], a, trace);
    OfTraceSnoc([a], b, trace);
    assert [] + [a] == [a] && [a] + [b] == [a, b];
    hide OfTrace;
    assert OfTrace([a, b], trace) == [a, b];
    FoldSnoc(usernames, [], a);
    FoldSnoc(usernames, [a], b);
    hide Fold;
  }

  // The order of the input

  lemma {:induction false} TotalSplit(m: Measure, a: seq<Invocation>, v: Invocation, b: seq<Invocation>)
    ensures Total(m, a + [v] + b) == Total(m, a + b) + Reading(m, v)
    decreases |b|
  {
    hide Reading;
    if b == [] {
      assert (a + [v] + b)[..|a|] == a && a + b == a;
    } else {
      var n := |b| - 1;
      TotalSplit(m, a, v, b[..n]);
      assert (a + [v] + b)[..|a| + 1 + n] == a + [v] + b[..n];
      assert (a + b)[..|a| + n] == a + b[..n];
    }
  }

  lemma SameMinusOne(a: seq<Invocation>, v: Invocation, b: seq<Invocation>, c: seq<Invocation>)
    requires multiset(a + [v]) == multiset(b + [v] + c)
    ensures multiset(a) == multiset(b + c)
  {
    assert multiset(b + [v] + c) == multiset(b + c) + multiset{v};
    assert multiset(a + [v]) == multiset(a) + multiset{v};
    forall u ensures multiset(a)[u] == multiset(b + c)[u] {
      assert multiset(a + [v])[u] == multiset(b + [v] + c)[u];
    }
  }

  lemma {:induction false} TotalReordered(m: Measure, a: seq<Invocation>, b: seq<Invocation>)
    requires multiset(a) == multiset(b)
    ensures Total(m, a) == Total(m, b)
    decreases |a|
  {
    hide Total;
    assert |a| == |multiset(a)| == |multiset(b)| == |b|;
    if a == [] {
      assert b == [];
    } else {
      var n := |a| - 1;
      var front, v := a[..n], a[n];
      assert a == front + [v];
      assert v in multiset(a) && v in multiset(b);
      var k :| 0 <= k < |b| && b[k] == v;
      assert b == b[..k] + [v] + b[k + 1..];
      SameMinusOne(front, v, b[..k], b[k + 1..]);
      TotalReordered(m, front, b[..k] + b[k + 1..]);
      TotalSplit(m, b[..k], v, b[k + 1..]);
      TotalSnoc(m, front, v);
    }
  }

  lemma {:induction false} OfTraceReordered(items: seq<Invocation>, trace: string, v: Invocation)
    ensures multiset(OfTrace(items, trace))[v] == if Trim(v.traceID) == trace then multiset(items)[v] else 0
    decreases |items|
  {
    if items != [] {
      hide Trim;
      var n := |items| - 1;
      OfTraceReordered(items[..n], trace, v);
      assert items == items[..n] + [items[n]];
    }
  }

  lemma SameInvocations(a: seq<Invocation>, b: seq<Invocation>)
    requires multiset(a) == multiset(b)
    ensures forall v :: v in a <==> v in b
  {
    forall v ensures v in a <==> v in b {
      assert v in a <==> v in multiset(a);
      assert v in b <==> v in multiset(b);
    }
  }

  /** There is one summary for a group of invocations, in whatever order they come. */
  lemma SummaryUnique(r: Row, a: seq<Invocation>, s: Row, b: seq<Invocation>)
    requires multiset(a) == multiset(b) && Summarizes(r, a) && Summarizes(s, b)
    ensures SameSummary(r, s)
  {
    hide Total, IsEarliest, IsLatest, Has, HasPending;
    SameInvocations(a, b);
    forall m ensures Figure(m, r) == Figure(m, s) {
      TotalReordered(m, a, b);
      assert Figure(m, r) == Total(m, a) && Figure(m, s) == Total(m, b);
    }
    assert Figure(Prompt, r) == Figure(Prompt, s) && Figure(Completion, r) == Figure(Completion, s)
      && Figure(Overall, r) == Figure(Overall, s) && Figure(Latency, r) == Figure(Latency, s);
    SpanUnique(r, a, s, b);
    StatusUnique(a, b);
  }

  lemma SpanUnique(r: Row, a: seq<Invocation>, s: Row, b: seq<Invocation>)
    requires forall v :: v in a <==> v in b
    requires IsEarliest(r.createdAt, a) && IsEarliest(s.createdAt, b)
    requires IsLatest(r.completedAt, a) && IsLatest(s.completedAt, b)
    ensures r.createdAt == s.createdAt && r.completedAt == s.completedAt
  {
  }

  lemma StatusUnique(a: seq<Invocation>, b: seq<Invocation>)
    requires forall v :: v in a <==> v in b
    ensures Severity(a) == Severity(b)
  {
    hide Status;
    forall status ensures Has(a, status) == Has(b, status) {
    }
  }

  /** The rows of a trace computed from two orders of the same invocations sum up the same. */
  lemma InputOrderIrrelevant(
    items: seq<Invocation>, usernames: map<int, string>, others: seq<Invocation>, names: map<int, string>, trace: string
  )
    requires multiset(items) == multiset(others) && OfTrace(items, trace) != []
    ensures OfTrace(others, trace) != []
    ensures SameSummary(RowFor(items, usernames, trace), RowFor(others, names, trace))
  {
    hide Summarizes, SameSummary, RowFor, OfTrace;
    var a, b := OfTrace(items, trace), OfTrace(others, trace);
    forall v ensures multiset(a)[v] == multiset(b)[v] {
      OfTraceReordered(items, trace, v);
      OfTraceReordered(others, trace, v);
    }
    assert multiset(a) == multiset(b);
    assert a[0] in multiset(b);
    RowSummarizes(items, usernames, trace);
    RowSummarizes(others, names, trace);
    SummaryUnique(RowFor(items, usernames, trace), a, RowFor(others, names, trace), b);
  }

  // Conservation over all rows

  function Named(items: seq<Invocation>): seq<Invocation> {
    if items == [] then []
    else
      var n := |items| - 1;
      Named(items[..n]) + (if Blank(items[n].traceID) then [] else [items[n]])
  }

  function TotalOver(m: Measure, traces: seq<string>, items: seq<Invocation>): int {
    if traces == [] then 0
    else TotalOver(m, traces[1..], items) + Total(m, OfTrace(items, traces[0]))
  }

  predicate Distinct(traces: seq<string>) {
    forall i, j :: 0 <= i < j < |traces| ==> traces[i] != traces[j]
  }

  lemma {:induction false} TotalOverSnoc(m: Measure, traces: seq<string>, items: seq<Invocation>, v: Invocation)
    requires Distinct(traces)
    ensures TotalOver(m, traces, items + [v]) ==
      TotalOver(m, traces, items) + if Trim(v.traceID) in traces then Reading(m, v) else 0
    decreases traces
  {
    if traces != [] {
      hide OfTrace, Trim, Total, Reading;
      var t, rest := traces[0], traces[1..];
      TotalOverSnoc(m, rest, items, v);
      OfTraceSnoc(items, v, t);
      var group := OfTrace(items, t);
      TotalSnoc(m, group, v);
      assert group + [] == group;
      assert traces == [t] + rest && t !in rest;
    }
  }

  /** Sums over the traces are sums over the invocations that name one. */
  lemma {:induction false} TotalsConserved(m: Measure, traces: seq<string>, items: seq<Invocation>)
    requires Distinct(traces) && "" !in traces && forall t :: t in Traces(items) ==> t in traces
    ensures TotalOver(m, traces, items) == Total(m, Named(items))
    decreases |items|
  {
    if items == [] {
      NothingOver(m, traces);
    } else {
      hide Traces, TotalOver, Total, Reading;
      var n := |items| - 1;
      var front, v := items[..n], items[n];
      assert items == front + [v];
      TracesSnoc(front, v);
      TotalsConserved(m, traces, front);
      TotalOverSnoc(m, traces, front, v);
      var named := Named(front);
      TotalSnoc(m, named, v);
      assert named + [] == named;
    }
  }

  lemma {:induction false} NothingOver(m: Measure, traces: seq<string>)
    ensures TotalOver(m, traces, []) == 0
    decreases traces
  {
    if traces != [] {
      NothingOver(m, traces[1..]);
    }
  }

  function TraceIDs(rows: seq<Row>): seq<string> {
    seq(|rows|, k requires 0 <= k < |rows| => rows[k].traceID)
  }

  lemma TraceIDsCons(rows: seq<Row>)
    requires rows != []
    ensures TraceIDs(rows) != [] && TraceIDs(rows)[0] == rows[0].traceID && TraceIDs(rows)[1..] == TraceIDs(rows[1..])
  {
  }

  function Sum(m: Measure, rows: seq<Row>): int {
    if rows == [] then 0 else Sum(m, rows[1..]) + Figure(m, rows[0])
  }

  lemma {:induction false} CountedDistinct(traces: seq<string>, all: set<string>)
    requires (forall t :: t in traces ==> t in all) && (forall t :: t in all ==> t in traces) && |traces| == |all|
    ensures Distinct(traces)
    decreases |traces|
  {
    if traces != [] {
      var t, rest := traces[0], traces[1..];
      assert traces == [t] + rest;
      var named := set s | s in rest;
      assert all == named + {t};
      assert t in rest ==> named + {t} == named;
      SetOfSeq(rest);
      assert |all - {t}| == |rest|;
      CountedDistinct(rest, all - {t});
      assert forall j :: 0 < j < |traces| ==> traces[j] == rest[j - 1];
    }
  }

  lemma {:induction false} SetOfSeq(traces: seq<string>)
    ensures |set s | s in traces| <= |traces|
    decreases traces
  {
    if traces == [] {
      assert (set s | s in traces) == {};
    } else {
      SetOfSeq(traces[1..]);
      assert traces == [traces[0]] + traces[1..];
      assert (set s | s in traces) == (set s | s in traces[1..]) + {traces[0]};
    }
  }

  lemma FigureOfRow(m: Measure, r: Row, items: seq<Invocation>, usernames: map<int, string>)
    requires RowOfTrace(r, items, usernames)
    ensures Figure(m, r) == Total(m, OfTrace(items, r.traceID))
  {
    RowSummarizes(items, usernames, r.traceID);
  }

  lemma {:induction false} SumOver(m: Measure, rows: seq<Row>, items: seq<Invocation>, usernames: map<int, string>)
    requires forall k :: 0 <= k < |rows| ==> RowOfTrace(rows[k], items, usernames)
    ensures Sum(m, rows) == TotalOver(m, TraceIDs(rows), items)
    decreases rows
  {
    if rows != [] {
      hide RowOfTrace, OfTrace, Total, Figure, TraceIDs;
      SumOver(m, rows[1..], items, usernames);
      FigureOfRow(m, rows[0], items, usernames);
      TraceIDsCons(rows);
    }
  }

  /**
   One row per trace, and together the rows hold every token and every millisecond of the invocations that name a
   trace. The conditions are what `AggregateInvocationsByTrace` promises of its result.
   */
  lemma RowsConserve(m: Measure, rows: seq<Row>, items: seq<Invocation>, usernames: map<int, string>)
    requires forall r :: r in rows ==> RowOfTrace(r, items, usernames)
    requires forall t :: t in Traces(items) ==> exists r :: r in rows && r.traceID == t
    requires |rows| == |Traces(items)|
    ensures Distinct(TraceIDs(rows))
    ensures Sum(m, rows) == Total(m, Named(items))
  {
    RowsAreTraces(rows, items, usernames);
    hide OfTrace, Fold, Named, Total, RowOfTrace, Traces, Distinct, TraceIDs;
    NoBlankTrace(items);
    CountedDistinct(TraceIDs(rows), Traces(items));
    SumOver(m, rows, items, usernames);
    TotalsConserved(m, TraceIDs(rows), items);
  }

  lemma RowsAreTraces(rows: seq<Row>, items: seq<Invocation>, usernames: map<int, string>)
    requires forall r :: r in rows ==> RowOfTrace(r, items, usernames)
    requires forall t :: t in Traces(items) ==> exists r :: r in rows && r.traceID == t
    ensures |TraceIDs(rows)| == |rows|
    ensures forall t :: t in TraceIDs(rows) <==> t in Traces(items)
  {
    hide OfTrace, Fold, Traces, Finish;
    var ids := TraceIDs(rows);
    forall t | t in ids ensures t in Traces(items) {
      var k :| 0 <= k < |ids| && ids[k] == t;
      assert RowOfTrace(rows[k], items, usernames);
    }
    forall t | t in Traces(items) ensures t in ids {
      var r :| r in rows && r.traceID == t;
      var k :| 0 <= k < |rows| && rows[k] == r;
      assert ids[k] == t;
    }
  }
}
