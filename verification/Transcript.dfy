/**
 The chat transcript of a trace, recorded from message lists that repeat what came before.
 */
module Transcript {
  import opened Options
  import opened Text

  datatype Message = Message(role: string, content: string)

  datatype Labels = Labels(
    requestID: Option<string>, userID: Option<int>, instanceID: Option<int>, invocationID: Option<int>)

  /** A row of `chat_messages`; the table lists the rows by id. */
  datatype Record = Record(traceID: string, sessionID: string, labels: Labels, message: Message, sequenceNo: int)

  /** The store access that fails: the listing, or the insert that follows `inserted` successful ones. */
  datatype Fault = NoFault | ListFails | InsertFails(inserted: nat)

  datatype Call = Call(traceID: string, sessionID: string, labels: Labels, messages: seq<Message>, fault: Fault)

  /** `messagesEquivalent`. */
  predicate Equivalent(existing: Message, incoming: Message) {
    ToLower(Trim(existing.role)) == ToLower(Trim(incoming.role)) && Trim(existing.content) == Trim(incoming.content)
  }

  function Normalize(messages: seq<Message>): seq<Message> {
    if messages == [] then []
    else
      var n := |messages| - 1;
      var m := messages[n];
      Normalize(messages[..n])
      + if Blank(m.role) || Blank(m.content) then [] else [Message(Trim(m.role), Trim(m.content))]
  }

  // Listing a trace

  function OfTrace(table: seq<Record>, trace: string): seq<Record> {
    if table == [] then []
    else
      var n := |table| - 1;
      OfTrace(table[..n], trace) + if table[n].traceID == trace then [table[n]] else []
  }

  function InsertBySequence(sorted: seq<Record>, r: Record): seq<Record> {
    if sorted == [] || sorted[|sorted| - 1].sequenceNo <= r.sequenceNo then sorted + [r]
    else InsertBySequence(sorted[..|sorted| - 1], r) + [sorted[|sorted| - 1]]
  }

  function SortBySequence(records: seq<Record>): seq<Record> {
    if records == [] then []
    else InsertBySequence(SortBySequence(records[..|records| - 1]), records[|records| - 1])
  }

  /** `ListByTraceID`: the records of a trace by sequence number, then id. */
  function ListByTrace(table: seq<Record>, trace: string): seq<Record> {
    SortBySequence(OfTrace(table, trace))
  }

  function Said(records: seq<Record>): seq<Message> {
    seq(|records|, k requires 0 <= k < |records| => records[k].message)
  }

  // Recording a list

  /** The call has something to record. */
  predicate Records(call: Call) {
    !Blank(call.traceID) && !Blank(call.sessionID) && Normalize(call.messages) != []
  }

  /** How far the lists go on agreeing from position `k`. */
  function AgreeFrom(existing: seq<Message>, incoming: seq<Message>, k: nat): (n: nat)
    requires k <= |existing| && k <= |incoming|
    ensures k <= n <= |existing| && n <= |incoming|
    ensures forall j :: k <= j < n ==> Equivalent(existing[j], incoming[j])
    ensures n < |existing| && n < |incoming| ==> !Equivalent(existing[n], incoming[n])
    decreases |existing| - k
  {
    if k < |existing| && k < |incoming| && Equivalent(existing[k], incoming[k])
    then AgreeFrom(existing, incoming, k + 1)
    else k
  }

  function CommonPrefix(existing: seq<Message>, incoming: seq<Message>): (n: nat)
    ensures n <= |existing| && n <= |incoming|
    ensures forall k :: 0 <= k < n ==> Equivalent(existing[k], incoming[k])
    ensures n < |existing| && n < |incoming| ==> !Equivalent(existing[n], incoming[n])
  {
    AgreeFrom(existing, incoming, 0)
  }

  /** The rows for `messages`, numbered on from `last`. */
  function Rows(call: Call, messages: seq<Message>, last: int): seq<Record> {
    seq(|messages|, k requires 0 <= k < |messages| =>
      Record(Trim(call.traceID), Trim(call.sessionID), call.labels, messages[k], last + 1 + k))
  }

  /** The rows a call means to add: the messages after those the transcript already has. */
  function Missing(table: seq<Record>, call: Call): seq<Record> {
    var existing := ListByTrace(table, Trim(call.traceID));
    var incoming := Normalize(call.messages);
    Rows(call, incoming[CommonPrefix(Said(existing), incoming)..], |existing|)
  }

  /** The rows a call adds. */
  function Added(table: seq<Record>, call: Call): seq<Record> {
    if !Records(call) || call.fault.ListFails? then []
    else
      var rows := Missing(table, call);
      if call.fault.InsertFails? && call.fault.inserted < |rows| then rows[..call.fault.inserted] else rows
  }

  predicate Succeeds(table: seq<Record>, call: Call) {
    Records(call) ==> !call.fault.ListFails? && Added(table, call) == Missing(table, call)
  }

  lemma RowsSnoc(call: Call, messages: seq<Message>, m: Message, last: int)
    ensures Rows(call, messages + [m], last) ==
      Rows(call, messages, last)
      + [Record(Trim(call.traceID), Trim(call.sessionID), call.labels, m, last + 1 + |messages|)]
  {
  }

  class ChatMessageService {
    var table: seq<Record>

    constructor ()
      ensures table == []
    {
      table := [];
    }

    method RecordMessages(call: Call) returns (ok: bool)
      modifies this
      ensures table == old(table) + Added(old(table), call)
      ensures ok <==> Succeeds(old(table), call)
    {
      hide Trim, ListByTrace, Equivalent;
      var traceID := Trim(call.traceID);
      var sessionID := Trim(call.sessionID);
      if traceID == "" || sessionID == "" || |call.messages| == 0 {
        return true;
      }
      var normalizedMessages := NormalizeMessages(call.messages);
      if |normalizedMessages| == 0 {
        return true;
      }
      if call.fault.ListFails? {
        return false;
      }
      var existing := ListByTrace(table, traceID);
      var commonPrefix := CountCommonMessagePrefix(Said(existing), normalizedMessages);
      ok := AppendRows(call, normalizedMessages[commonPrefix..], |existing|);
    }

    /** The insert loop, which stops at the insert that fails. */
    method AppendRows(call: Call, messages: seq<Message>, last: int) returns (ok: bool)
      modifies this
      ensures
        var n :=
          if call.fault.InsertFails? && call.fault.inserted < |messages| then call.fault.inserted else |messages|;
        && table == old(table) + Rows(call, messages, last)[..n]
        && (ok <==> n == |messages|)
    {
      hide Trim;
      var sequenceNo := last;
      for k := 0 to |messages|
        invariant sequenceNo == last + k
        invariant table == old(table) + Rows(call, messages[..k], last)
        invariant call.fault.InsertFails? ==> k <= call.fault.inserted
      {
        sequenceNo := sequenceNo + 1;
        RowsSnoc(call, messages[..k], messages[k], last);
        assert messages[..k + 1] == messages[..k] + [messages[k]];
        if call.fault.InsertFails? && call.fault.inserted == k {
          assert Rows(call, messages, last)[..k] == Rows(call, messages[..k], last);
          return false;
        }
        table := table + [Record(Trim(call.traceID), Trim(call.sessionID), call.labels, messages[k], sequenceNo)];
      }
      assert messages[..|messages|] == messages;
      ok := true;
    }
  }

  method NormalizeMessages(messages: seq<Message>) returns (normalized: seq<Message>)
    ensures normalized == Normalize(messages)
  {
    hide Trim;
    normalized := [];
    for k := 0 to |messages|
      invariant normalized == Normalize(messages[..k])
    {
      assert messages[..k + 1][..k] == messages[..k];
      var role := Trim(messages[k].role);
      var content := Trim(messages[k].content);
      if role == "" || content == "" {
        continue;
      }
      normalized := normalized + [Message(role, content)];
    }
    assert messages[..|messages|] == messages;
  }

  /** `countCommonMessagePrefix`. */
  method CountCommonMessagePrefix(existing: seq<Message>, incoming: seq<Message>) returns (matched: nat)
    ensures matched == CommonPrefix(existing, incoming)
  {
    hide Equivalent;
    var limit := if |incoming| < |existing| then |incoming| else |existing|;
    matched := 0;
    while matched < limit
      invariant matched <= limit
      invariant forall k :: 0 <= k < matched ==> Equivalent(existing[k], incoming[k])
    {
      if !Equivalent(existing[matched], incoming[matched]) {
        break;
      }
      matched := matched + 1;
    }
    hide CommonPrefix;
    CommonPrefixIs(existing, incoming, matched);
  }

  lemma CommonPrefixIs(existing: seq<Message>, incoming: seq<Message>, n: nat)
    requires n <= |existing| && n <= |incoming|
    requires forall k :: 0 <= k < n ==> Equivalent(existing[k], incoming[k])
    requires n < |existing| && n < |incoming| ==> !Equivalent(existing[n], incoming[n])
    ensures CommonPrefix(existing, incoming) == n
  {
    hide CommonPrefix, Equivalent;
    assert CommonPrefix(existing, incoming) <= n || n <= CommonPrefix(existing, incoming);
  }

  // Numbering

  /** The records are numbered from one on, in order. */
  predicate Numbered(records: seq<Record>) {
    forall k :: 0 <= k < |records| ==> records[k].sequenceNo == k + 1
  }

  /** Every trace is numbered. */
  ghost predicate Orderly(table: seq<Record>) {
    forall trace :: Numbered(OfTrace(table, trace))
  }

  lemma InsertLast(sorted: seq<Record>, r: Record)
    requires sorted == [] || sorted[|sorted| - 1].sequenceNo <= r.sequenceNo
    ensures InsertBySequence(sorted, r) == sorted + [r]
  {
  }

  lemma NumberedLast(records: seq<Record>)
    requires Numbered(records) && records != []
    ensures
      var front, last := records[..|records| - 1], records[|records| - 1];
      && Numbered(front) && records == front + [last]
      && (front != [] ==> front[|front| - 1].sequenceNo <= last.sequenceNo)
  {
  }

  lemma SortSnoc(records: seq<Record>)
    requires records != []
    ensures
      var n := |records| - 1;
      SortBySequence(records) == InsertBySequence(SortBySequence(records[..n]), records[n])
  {
  }

  lemma NothingSorted()
    ensures SortBySequence([]) == []
  {
  }

  lemma {:induction false} NumberedIsSorted(records: seq<Record>)
    requires Numbered(records)
    ensures SortBySequence(records) == records
    decreases |records|
  {
    if records != [] {
      hide Numbered, InsertBySequence, SortBySequence;
      var n := |records| - 1;
      var front := records[..n];
      NumberedLast(records);
      NumberedIsSorted(front);
      SortSnoc(records);
      InsertLast(front, records[n]);
    } else {
      NothingSorted();
    }
  }

  lemma {:induction false} OfTraceAppend(table: seq<Record>, rows: seq<Record>, trace: string)
    ensures OfTrace(table + rows, trace) == OfTrace(table, trace) + OfTrace(rows, trace)
    decreases |rows|
  {
    if rows == [] {
      assert table + rows == table;
    } else {
      var n := |rows| - 1;
      assert (table + rows)[..|table| + n] == table + rows[..n];
      OfTraceAppend(table, rows[..n], trace);
    }
  }

  lemma {:induction false} OneTrace(rows: seq<Record>, trace: string, other: string)
    requires forall k :: 0 <= k < |rows| ==> rows[k].traceID == trace
    ensures OfTrace(rows, other) == if other == trace then rows else []
    decreases |rows|
  {
    if rows != [] {
      var n := |rows| - 1;
      OneTrace(rows[..n], trace, other);
      assert rows == rows[..n] + [rows[n]];
    }
  }

  /** What a call adds: rows of its trace and session, numbered on, saying the first of the missing messages. */
  lemma AddedRows(table: seq<Record>, call: Call)
    ensures
      var rows, existing := Added(table, call), ListByTrace(table, Trim(call.traceID));
      forall k :: 0 <= k < |rows| ==>
        && rows[k].traceID == Trim(call.traceID) && rows[k].sessionID == Trim(call.sessionID)
        && rows[k].labels == call.labels && rows[k].sequenceNo == |existing| + 1 + k
  {
    hide Trim, ListByTrace, Normalize, CommonPrefix;
  }

  function Apply(table: seq<Record>, call: Call): seq<Record> {
    table + Added(table, call)
  }

  function Run(table: seq<Record>, calls: seq<Call>): seq<Record> {
    if calls == [] then table else Apply(Run(table, calls[..|calls| - 1]), calls[|calls| - 1])
  }

  lemma OrderlyListing(table: seq<Record>, trace: string)
    requires Orderly(table)
    ensures ListByTrace(table, trace) == OfTrace(table, trace)
  {
    NumberedIsSorted(OfTrace(table, trace));
  }

  lemma ApplyStaysOrderly(table: seq<Record>, call: Call)
    requires Orderly(table)
    ensures Orderly(Apply(table, call))
    ensures forall trace ::
      OfTrace(Apply(table, call), trace) ==
      OfTrace(table, trace) + if trace == Trim(call.traceID) then Added(table, call) else []
  {
    hide Trim, ListByTrace, OfTrace, Added;
    AddedRows(table, call);
    OrderlyListing(table, Trim(call.traceID));
    forall trace
      ensures OfTrace(Apply(table, call), trace) ==
        OfTrace(table, trace) + if trace == Trim(call.traceID) then Added(table, call) else []
      ensures Numbered(OfTrace(Apply(table, call), trace))
    {
      OfTraceAppend(table, Added(table, call), trace);
      OneTrace(Added(table, call), Trim(call.traceID), trace);
      assert Numbered(OfTrace(table, trace));
    }
  }

  /**
   Over every run, inserts failing or not, no record is changed or lost, and the records of each trace are numbered
   one to n in the order they were written.
   */
  lemma {:induction false} TranscriptsStayNumbered(table: seq<Record>, calls: seq<Call>, trace: string)
    requires Orderly(table)
    ensures table <= Run(table, calls)
    ensures Orderly(Run(table, calls))
    ensures ListByTrace(Run(table, calls), trace) == OfTrace(Run(table, calls), trace)
    decreases |calls|
  {
    hide Apply, Orderly, ListByTrace, OfTrace;
    if calls != [] {
      var front, call := calls[..|calls| - 1], calls[|calls| - 1];
      TranscriptsStayNumbered(table, front, trace);
      ApplyStaysOrderly(Run(table, front), call);
      ApplyExtends(Run(table, front), call);
    }
    OrderlyListing(Run(table, calls), trace);
  }

  lemma ApplyExtends(table: seq<Record>, call: Call)
    ensures table <= Apply(table, call)
  {
  }

  // The transcript and the lists

  /** Both say the same under the same role, white space around them and the case of the role aside. */
  predicate Alike(a: Message, b: Message) {
    ToLower(Trim(a.role)) == ToLower(Trim(b.role)) && Trim(a.content) == Trim(b.content)
  }

  /** The messages are, one by one, alike. */
  predicate Same(a: seq<Message>, b: seq<Message>) {
    |a| == |b| && forall k :: 0 <= k < |a| ==> Alike(a[k], b[k])
  }

  /** `b` starts with messages like those of `a`. */
  predicate Extends(b: seq<Message>, a: seq<Message>) {
    |a| <= |b| && forall k :: 0 <= k < |a| ==> Alike(a[k], b[k])
  }

  /** Equivalent messages are those that are alike. */
  lemma EquivalentIsAlike()
    ensures forall a, b :: Equivalent(a, b) <==> Alike(a, b)
  {
    hide Trim, ToLower;
  }

  function Spoken(table: seq<Record>, trace: string): seq<Message> {
    Said(ListByTrace(table, trace))
  }

  /** What a call makes of the transcript of its trace. */
  lemma SpokenAfter(table: seq<Record>, call: Call)
    requires Orderly(table)
    ensures
      var trace := Trim(call.traceID);
      var before, incoming := Spoken(table, trace), Normalize(call.messages);
      var missing := incoming[CommonPrefix(before, incoming)..];
      && (forall other :: other != trace ==> Spoken(Apply(table, call), other) == Spoken(table, other))
      && |Added(table, call)| <= |missing|
      && (!Records(call) ==> Added(table, call) == [])
      && Spoken(Apply(table, call), trace) ==
         before + (if Records(call) then missing[..|Added(table, call)|] else [])
      && (Records(call) ==> (Succeeds(table, call) <==> |Added(table, call)| == |missing| && !call.fault.ListFails?))
  {
    hide Trim, Normalize, OfTrace, ListByTrace, CommonPrefix, Orderly;
    var trace, after := Trim(call.traceID), Apply(table, call);
    ApplyStaysOrderly(table, call);
    forall t ensures ListByTrace(table, t) == OfTrace(table, t) && ListByTrace(after, t) == OfTrace(after, t) {
      OrderlyListing(table, t);
      OrderlyListing(after, t);
    }
    forall other | other != trace ensures Spoken(after, other) == Spoken(table, other) {
      assert OfTrace(after, other) == OfTrace(table, other) + [];
    }
    hide Apply;
    AddedSays(table, call);
  }

  lemma AddedSays(table: seq<Record>, call: Call)
    ensures
      var before, incoming := Spoken(table, Trim(call.traceID)), Normalize(call.messages);
      var missing, rows := incoming[CommonPrefix(before, incoming)..], Added(table, call);
      && |rows| <= |missing|
      && (Records(call) ==> Said(rows) == missing[..|rows|])
      && (Records(call) ==> (rows == Missing(table, call) <==> |rows| == |missing|))
  {
    hide Trim, Normalize, ListByTrace, CommonPrefix;
  }

  lemma EquivalentToItself(m: Message)
    ensures Equivalent(m, m)
  {
  }

  /** Adding what follows the common prefix gives the incoming messages exactly when they extend the existing ones. */
  lemma CompletedIffExtends(existing: seq<Message>, incoming: seq<Message>)
    ensures
      var completed := existing + incoming[CommonPrefix(existing, incoming)..];
      Same(completed, incoming) <==> Extends(incoming, existing)
  {
    EquivalentIsAlike();
    hide Equivalent, Alike, CommonPrefix;
    var p := CommonPrefix(existing, incoming);
    var completed := existing + incoming[p..];
    if Extends(incoming, existing) {
      CommonPrefixIs(existing, incoming, |existing|);
      forall k | 0 <= k < |completed| ensures Equivalent(completed[k], incoming[k]) {
        EquivalentToItself(incoming[k]);
      }
    } else {
      assert |completed| == |incoming| ==> p == |existing|;
    }
  }

  /** Once completed, the messages differ from the incoming ones where they did, if they did before either ended. */
  lemma CompletedPrefix(existing: seq<Message>, incoming: seq<Message>)
    ensures
      var p := CommonPrefix(existing, incoming);
      CommonPrefix(existing + incoming[p..], incoming) == if p == |existing| then |incoming| else p
  {
    hide Equivalent, CommonPrefix;
    var p := CommonPrefix(existing, incoming);
    var completed := existing + incoming[p..];
    if p == |existing| {
      forall k | 0 <= k < |incoming| ensures Equivalent(completed[k], incoming[k]) {
        EquivalentToItself(incoming[k]);
      }
      CommonPrefixIs(completed, incoming, |incoming|);
    } else {
      CommonPrefixIs(completed, incoming, p);
    }
  }

  /** A call that succeeds completes the transcript with what follows the common prefix. */
  lemma SpokenOnSuccess(table: seq<Record>, call: Call)
    requires Orderly(table) && Records(call) && Succeeds(table, call)
    ensures
      var before, incoming := Spoken(table, Trim(call.traceID)), Normalize(call.messages);
      Spoken(Apply(table, call), Trim(call.traceID)) == before + incoming[CommonPrefix(before, incoming)..]
  {
    SpokenAfter(table, call);
    hide Records, Succeeds, Spoken, Apply, Added, Trim, Normalize, CommonPrefix, Orderly;
  }

  /**
   After recording a list the transcript says what the list says exactly when the list extends what the transcript
   said before.
   */
  lemma AgreesIffExtends(table: seq<Record>, call: Call)
    requires Orderly(table) && Records(call) && Succeeds(table, call)
    ensures
      var trace, incoming := Trim(call.traceID), Normalize(call.messages);
      Same(Spoken(Apply(table, call), trace), incoming) <==> Extends(incoming, Spoken(table, trace))
  {
    SpokenOnSuccess(table, call);
    hide Records, Succeeds, Spoken, Apply, Trim, Normalize, CommonPrefix, Orderly, Same, Extends;
    CompletedIffExtends(Spoken(table, Trim(call.traceID)), Normalize(call.messages));
  }

  /**
   Recording a list a second time adds nothing exactly when the transcript before the first time and the list did not
   diverge: one of them extended the other.
   */
  lemma RepeatAddsNothing(table: seq<Record>, call: Call)
    requires Orderly(table) && Records(call) && call.fault.NoFault?
    ensures
      var before, incoming := Spoken(table, Trim(call.traceID)), Normalize(call.messages);
      Added(Apply(table, call), call) == [] <==> Extends(incoming, before) || Extends(before, incoming)
  {
    var before, incoming := Spoken(table, Trim(call.traceID)), Normalize(call.messages);
    SpokenOnSuccess(table, call);
    AddedCount(Apply(table, call), call);
    hide Records, Spoken, Apply, Added, Trim, Normalize, CommonPrefix, Orderly;
    CompletedPrefix(before, incoming);
    PrefixExhausted(before, incoming);
  }

  lemma PrefixExhausted(a: seq<Message>, b: seq<Message>)
    ensures CommonPrefix(a, b) == |a| <==> Extends(b, a)
    ensures CommonPrefix(a, b) == |b| <==> Extends(a, b)
  {
    hide CommonPrefix, Trim, ToLower;
    forall k | 0 <= k < |a| && k < |b| ensures Equivalent(a[k], b[k]) <==> Equivalent(b[k], a[k]) {
    }
    hide Equivalent;
  }

  lemma AddedCount(table: seq<Record>, call: Call)
    requires Records(call) && call.fault.NoFault?
    ensures
      var before, incoming := Spoken(table, Trim(call.traceID)), Normalize(call.messages);
      |Added(table, call)| == |incoming| - CommonPrefix(before, incoming)
  {
    hide Trim, Normalize, ListByTrace, CommonPrefix;
  }

  // What is recorded of a list

  /** A message without role or content is dropped, any other trimmed. */
  function Tidied(m: Message): seq<Message> {
    if Trim(m.role) == "" || Trim(m.content) == "" then [] else [Message(Trim(m.role), Trim(m.content))]
  }

  lemma NormalizeSnoc(a: seq<Message>, m: Message)
    ensures Normalize(a + [m]) == Normalize(a) + Tidied(m)
  {
    hide Trim;
    assert (a + [m])[..|a|] == a;
  }

  /** Lists are normalized part by part, and in the end message by message. */
  lemma {:induction false} NormalizeParts(a: seq<Message>, b: seq<Message>)
    ensures Normalize(a + b) == Normalize(a) + Normalize(b)
    ensures forall m :: Normalize([m]) == Tidied(m)
    decreases |b|
  {
    hide Normalize, Tidied;
    forall m ensures Normalize([m]) == Tidied(m) {
      NormalizeSnoc([], m);
      NothingNormalized();
      assert [] + [m] == [m] && [] + Tidied(m) == Tidied(m);
    }
    if b == [] {
      NothingNormalized();
      assert a + b == a && Normalize(a) + [] == Normalize(a);
    } else {
      var n := |b| - 1;
      var front, last := b[..n], b[n];
      assert b == front + [last] && a + b == (a + front) + [last];
      NormalizeParts(a, front);
      NormalizeSnoc(a + front, last);
      NormalizeSnoc(front, last);
      assert Normalize(a) + Normalize(front) + Tidied(last) == Normalize(a) + (Normalize(front) + Tidied(last));
    }
  }

  lemma NothingNormalized()
    ensures Normalize([]) == []
  {
  }

  /** A message that has a role and something to say, without white space around either. */
  predicate Tidy(m: Message) {
    m.role != "" && m.content != "" && Trimmed(m.role) && Trimmed(m.content)
  }

  lemma {:induction false} TidyStays(messages: seq<Message>)
    requires forall k :: 0 <= k < |messages| ==> Tidy(messages[k])
    ensures Normalize(messages) == messages
    decreases |messages|
  {
    if messages != [] {
      var n := |messages| - 1;
      TidyStays(messages[..n]);
      TrimFixed(messages[n].role);
      TrimFixed(messages[n].content);
      assert messages == messages[..n] + [messages[n]];
    }
  }

  /**
   A tidy list recorded first for a trace is its transcript: each message in its place, numbered from one on, under
   the trimmed trace and session and the labels of the call. Without a trace or a session nothing is recorded.
   */
  lemma ChatIsRecorded(call: Call)
    requires call.fault.NoFault? && forall k :: 0 <= k < |call.messages| ==> Tidy(call.messages[k])
    ensures
      var rows := Apply([], call);
      if Trim(call.traceID) == "" || Trim(call.sessionID) == "" then rows == []
      else
        && |rows| == |call.messages|
        && forall k :: 0 <= k < |rows| ==>
             rows[k] == Record(Trim(call.traceID), Trim(call.sessionID), call.labels, call.messages[k], k + 1)
  {
    TidyStays(call.messages);
    NothingListed(Trim(call.traceID));
    RecordsAll(call);
    AddedRows([], call);
    hide Trim, Normalize, Added, ListByTrace, Records, Tidy, Apply;
    OnlyAdded(call);
    if Records(call) {
      SaidFirst(call);
    }
  }

  lemma OnlyAdded(call: Call)
    ensures Apply([], call) == Added([], call)
  {
    hide Added;
  }

  /** The first list recorded for a trace is said as it is normalized. */
  lemma SaidFirst(call: Call)
    requires Records(call) && call.fault.NoFault?
    ensures
      var rows, messages := Added([], call), Normalize(call.messages);
      |rows| == |messages| && forall k :: 0 <= k < |rows| ==> rows[k].message == messages[k]
  {
    NothingListed(Trim(call.traceID));
    AddedSays([], call);
    AddedCount([], call);
    hide Trim, Normalize, Added, ListByTrace, Records;
    var rows := Added([], call);
    forall k | 0 <= k < |rows| ensures rows[k].message == Said(rows)[k] {
    }
  }

  lemma RecordsAll(call: Call)
    requires Normalize(call.messages) == call.messages && call.fault.NoFault?
    ensures Records(call) <==> Trim(call.traceID) != "" && Trim(call.sessionID) != "" && call.messages != []
    ensures !Records(call) ==> Added([], call) == []
  {
    hide Trim, Normalize;
  }

  lemma NothingListed(trace: string)
    ensures ListByTrace([], trace) == []
  {
  }

  // Growing conversations

  /** The call records to the trace. */
  predicate Concerns(call: Call, trace: string) {
    Trim(call.traceID) == trace && Records(call)
  }

  /** The list last offered for the trace. */
  function Latest(calls: seq<Call>, trace: string): seq<Message> {
    if calls == [] then []
    else
      var n := |calls| - 1;
      if Concerns(calls[n], trace) then Normalize(calls[n].messages) else Latest(calls[..n], trace)
  }

  /** Each list offered for the trace extends the one before. */
  predicate Growing(calls: seq<Call>, trace: string) {
    calls == []
    || (var n := |calls| - 1;
        && Growing(calls[..n], trace)
        && (Concerns(calls[n], trace) ==> Extends(Normalize(calls[n].messages), Latest(calls[..n], trace))))
  }

  /** The last call that recorded to the trace went through. */
  predicate Settled(table: seq<Record>, calls: seq<Call>, trace: string) {
    calls == []
    || (var n := |calls| - 1;
        if Concerns(calls[n], trace) then Succeeds(Run(table, calls[..n]), calls[n])
        else Settled(table, calls[..n], trace))
  }

  lemma ExtendsTransitive(a: seq<Message>, b: seq<Message>, c: seq<Message>)
    requires Extends(b, a) && Extends(c, b)
    ensures Extends(c, a)
  {
    hide Trim, ToLower;
    forall k | 0 <= k < |a| ensures Equivalent(a[k], c[k]) {
      assert Equivalent(a[k], b[k]) && Equivalent(b[k], c[k]);
    }
  }

  /** Recording a list that extends the transcript leaves the transcript inside the list, and equal to it on success. */
  lemma RecordedWithin(table: seq<Record>, call: Call)
    requires Orderly(table) && Records(call)
    requires Extends(Normalize(call.messages), Spoken(table, Trim(call.traceID)))
    ensures
      var after, incoming := Spoken(Apply(table, call), Trim(call.traceID)), Normalize(call.messages);
      Extends(incoming, after) && (Succeeds(table, call) ==> Same(after, incoming))
  {
    SpokenAfter(table, call);
    hide Records, Succeeds, Spoken, Apply, Added, Trim, Normalize, Equivalent, Orderly;
    var before, incoming := Spoken(table, Trim(call.traceID)), Normalize(call.messages);
    hide CommonPrefix;
    CommonPrefixIs(before, incoming, |before|);
    var after := before + incoming[|before|..][..|Added(table, call)|];
    forall k | 0 <= k < |after| ensures Equivalent(after[k], incoming[k]) {
      EquivalentToItself(incoming[k]);
    }
  }

  /**
   In every run whose lists for a trace each extend the one before, the transcript is, message by message, the list
   last recorded; and where the last call failed half way, it is the beginning of that list.
   */
  lemma {:induction false} TranscriptFollowsChat(calls: seq<Call>, trace: string)
    requires Growing(calls, trace)
    ensures Orderly(Run([], calls))
    ensures Extends(Latest(calls, trace), Spoken(Run([], calls), trace))
    ensures Settled([], calls, trace) ==> Same(Spoken(Run([], calls), trace), Latest(calls, trace))
    decreases |calls|
  {
    TranscriptsStayNumbered([], calls, trace);
    hide Orderly, Apply, Trim, Normalize, Records, Succeeds, ListByTrace, OfTrace;
    if calls == [] {
      NothingSpoken(trace);
    } else {
      var n := |calls| - 1;
      var front, call := calls[..n], calls[n];
      TranscriptFollowsChat(front, trace);
      var before := Run([], front);
      if Concerns(call, trace) {
        ExtendsTransitive(Spoken(before, trace), Latest(front, trace), Normalize(call.messages));
        RecordedWithin(before, call);
      } else {
        Unconcerned(before, call, trace);
      }
    }
  }

  lemma NothingSpoken(trace: string)
    ensures Spoken([], trace) == []
  {
  }

  lemma Unconcerned(table: seq<Record>, call: Call, trace: string)
    requires Orderly(table) && !Concerns(call, trace)
    ensures Spoken(Apply(table, call), trace) == Spoken(table, trace)
  {
    SpokenAfter(table, call);
    hide Trim, Records, Spoken, Apply, Orderly;
  }
}
