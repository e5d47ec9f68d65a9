/**
 Tool calls reassembled for the audit trail from the fragments of a recorded stream.
 */
module ToolCallAudit {
  import opened Options
  import opened Text
  import opened Wire

  const BLANK_CALL := ToolCall("", "", None, None)

  /** The place a fragment goes to: its index, or a new place at the end. */
  function Place(target: seq<ToolCall>, item: ToolCall): nat {
    if item.index.Some? && item.index.value >= 0 then item.index.value else |target|
  }

  function Padded(target: seq<ToolCall>, n: nat): seq<ToolCall> {
    target + seq(if n > |target| then n - |target| else 0, _ => BLANK_CALL)
  }

  function MergedFunction(stored: Option<FunctionCall>, incoming: Option<FunctionCall>): Option<FunctionCall> {
    if incoming.None? then stored
    else
      var f := if stored.Some? then stored.value else FunctionCall("", "");
      Some(FunctionCall(
        if f.name == "" then Trim(incoming.value.name) else f.name,
        if Blank(incoming.value.arguments) then f.arguments else f.arguments + incoming.value.arguments))
  }

  function MergedCall(stored: ToolCall, item: ToolCall): ToolCall {
    stored.(
      id := if Blank(item.id) then stored.id else Trim(item.id),
      kind := if Blank(item.kind) then stored.kind else Trim(item.kind),
      call := MergedFunction(stored.call, item.call))
  }

  function MergeOne(target: seq<ToolCall>, item: ToolCall): seq<ToolCall> {
    var i := Place(target, item);
    var padded := Padded(target, i + 1);
    padded[i := MergedCall(padded[i], item)]
  }

  function MergeAll(target: seq<ToolCall>, items: seq<ToolCall>): seq<ToolCall> {
    if items == [] then target else MergeOne(MergeAll(target, items[..|items| - 1]), items[|items| - 1])
  }

  class AuditMessage {
    var toolCalls: seq<ToolCall>

    constructor ()
      ensures toolCalls == []
    {
      toolCalls := [];
    }

    /** `mergeAuditToolCalls`. */
    method MergeAuditToolCalls(incoming: seq<ToolCall>)
      modifies this
      ensures toolCalls == MergeAll(old(toolCalls), incoming)
    {
      if |incoming| == 0 {
        return;
      }
      for k := 0 to |incoming|
        invariant toolCalls == MergeAll(old(toolCalls), incoming[..k])
      {
        var item := incoming[k];
        assert incoming[..k + 1][..k] == incoming[..k];
        hide Padded, MergedCall;
        var index := |toolCalls|;
        if item.index.Some? && item.index.value >= 0 {
          index := item.index.value;
        }
        PadTo(index);
        var current := MergeFields(toolCalls[index], item);
        toolCalls := toolCalls[index := current];
      }
      assert incoming[..|incoming|] == incoming;
    }

    /** Blank entries are added until there is one at `index`. */
    method PadTo(index: nat)
      modifies this
      ensures toolCalls == Padded(old(toolCalls), index + 1)
    {
      while |toolCalls| <= index
        invariant toolCalls == Padded(old(toolCalls), |toolCalls|) && |old(toolCalls)| <= |toolCalls|
        invariant |toolCalls| <= |old(toolCalls)| || |toolCalls| <= index + 1
        decreases index + 1 - |toolCalls|
      {
        toolCalls := toolCalls + [BLANK_CALL];
      }
    }

    /** The fields of one entry: each is set by what a fragment has to say. */
    static method MergeFields(stored: ToolCall, item: ToolCall) returns (current: ToolCall)
      ensures current == MergedCall(stored, item)
    {
      current := stored;
      var id := Trim(item.id);
      if id != "" {
        current := current.(id := id);
      }
      var kind := Trim(item.kind);
      if kind != "" {
        current := current.(kind := kind);
      }
      if item.call.Some? {
        var f := FunctionCall("", "");
        if current.call.Some? {
          f := current.call.value;
        }
        var name := Trim(item.call.value.name);
        if name != "" && f.name == "" {
          f := f.(name := name);
        }
        if !Blank(item.call.value.arguments) {
          f := f.(arguments := f.arguments + item.call.value.arguments);
        }
        current := current.(call := Some(f));
      }
    }
  }

  // What the reassembly means

  predicate Indexed(items: seq<ToolCall>) {
    forall k :: 0 <= k < |items| ==> items[k].index.Some? && items[k].index.value >= 0
  }

  /** The fragments of one index, in order. */
  function FragmentsOf(items: seq<ToolCall>, i: int): seq<ToolCall> {
    if items == [] then []
    else
      var n := |items| - 1;
      FragmentsOf(items[..n], i) + (if items[n].index == Some(i) then [items[n]] else [])
  }

  function Calls(fs: seq<ToolCall>): seq<FunctionCall> {
    if fs == [] then []
    else
      var n := |fs| - 1;
      Calls(fs[..n]) + (if fs[n].call.Some? then [fs[n].call.value] else [])
  }

  /** The argument pieces that are not mere white space, end to end. */
  function AllArguments(calls: seq<FunctionCall>): string {
    if calls == [] then ""
    else
      var n := |calls| - 1;
      AllArguments(calls[..n]) + (if Blank(calls[n].arguments) then "" else calls[n].arguments)
  }

  function FirstName(calls: seq<FunctionCall>): string {
    if calls == [] then ""
    else if !Blank(calls[0].name) then Trim(calls[0].name)
    else FirstName(calls[1..])
  }

  function LastID(fs: seq<ToolCall>): string {
    if fs == [] then ""
    else if !Blank(fs[|fs| - 1].id) then Trim(fs[|fs| - 1].id)
    else LastID(fs[..|fs| - 1])
  }

  function LastKind(fs: seq<ToolCall>): string {
    if fs == [] then ""
    else if !Blank(fs[|fs| - 1].kind) then Trim(fs[|fs| - 1].kind)
    else LastKind(fs[..|fs| - 1])
  }

  /** The call its fragments describe: last id and type, first name, all arguments. */
  function Described(fs: seq<ToolCall>): ToolCall {
    ToolCall(LastID(fs), LastKind(fs),
      if Calls(fs) == [] then None else Some(FunctionCall(FirstName(Calls(fs)), AllArguments(Calls(fs)))), None)
  }

  /** One more than the highest index. */
  function Extent(items: seq<ToolCall>): nat {
    if items == [] then 0
    else
      var n := |items| - 1;
      var e := Extent(items[..n]);
      if items[n].index.Some? && items[n].index.value >= e then items[n].index.value + 1 else e
  }

  lemma {:induction false} FirstNameSnoc(calls: seq<FunctionCall>, f: FunctionCall)
    ensures FirstName(calls + [f]) == if FirstName(calls) == "" then Trim(f.name) else FirstName(calls)
    decreases calls
  {
    if calls == [] {
      assert (calls + [f])[1..] == [];
    } else {
      assert (calls + [f])[1..] == calls[1..] + [f];
      FirstNameSnoc(calls[1..], f);
    }
  }

  /** One more fragment of a call is merged into what the fragments before it describe. */
  lemma DescribedSnoc(fs: seq<ToolCall>, item: ToolCall)
    ensures Described(fs + [item]) == MergedCall(Described(fs), item)
  {
    hide Trim, Blank;
    var all, calls := fs + [item], Calls(fs);
    assert all[..|fs|] == fs;
    if item.call.None? {
      assert calls + [] == calls;
    } else {
      CallsSnoc(calls, item.call.value);
    }
  }

  lemma CallsSnoc(calls: seq<FunctionCall>, f: FunctionCall)
    ensures
      var stored := if calls == [] then None else Some(FunctionCall(FirstName(calls), AllArguments(calls)));
      MergedFunction(stored, Some(f)) == Some(FunctionCall(FirstName(calls + [f]), AllArguments(calls + [f])))
  {
    FirstNameSnoc(calls, f);
    assert (calls + [f])[..|calls|] == calls;
    assert AllArguments(calls) + "" == AllArguments(calls);
  }

  /**
   From fragments with indexes, the merged list reaches to the highest index, and each entry is
   what the fragments of its index describe; indexes never sent are blank.
   */
  lemma {:induction false} MergedIsDescribed(items: seq<ToolCall>)
    requires Indexed(items)
    ensures |MergeAll([], items)| == Extent(items)
    ensures forall i :: 0 <= i < Extent(items) ==> MergeAll([], items)[i] == Described(FragmentsOf(items, i))
    ensures forall i :: i >= Extent(items) ==> FragmentsOf(items, i) == []
    decreases |items|
  {
    if items != [] {
      hide Described, MergedCall;
      var n := |items| - 1;
      var front, item := items[..n], items[n];
      MergedIsDescribed(front);
      var before := MergeAll([], front);
      NothingDescribed();
      forall i | 0 <= i < Extent(items)
        ensures i < |MergeAll([], items)| && MergeAll([], items)[i] == Described(FragmentsOf(items, i))
      {
        DescribedSnoc(FragmentsOf(front, i), item);
        assert FragmentsOf(front, i) + [] == FragmentsOf(front, i);
      }
    }
  }

  lemma NothingDescribed()
    ensures Described([]) == BLANK_CALL
  {
  }

  lemma {:induction false} ExtentByFragments(items: seq<ToolCall>)
    requires Indexed(items)
    ensures Extent(items) > 0 ==> FragmentsOf(items, Extent(items) - 1) != []
    ensures forall i :: i >= Extent(items) ==> FragmentsOf(items, i) == []
    decreases |items|
  {
    if items != [] {
      ExtentByFragments(items[..|items| - 1]);
    }
  }

  /**
   Only the order within an index matters: two deliveries that agree index by index merge to the
   same calls, so fragments of different indexes may be interleaved in any way.
   */
  lemma InterleavingIrrelevant(items: seq<ToolCall>, others: seq<ToolCall>)
    requires Indexed(items) && Indexed(others)
    requires forall i :: FragmentsOf(items, i) == FragmentsOf(others, i)
    ensures MergeAll([], items) == MergeAll([], others)
  {
    MergedIsDescribed(items);
    MergedIsDescribed(others);
    ExtentByFragments(items);
    ExtentByFragments(others);
    assert Extent(items) == Extent(others);
  }

  /** The fragment under its index, or as the next call if it has none or a negative one. */
  function Indexing(item: ToolCall, next: nat): ToolCall {
    if item.index.Some? && item.index.value >= 0 then item else item.(index := Some(next))
  }

  /** The fragments as if each without an index opened a call after all the others. */
  function Placed(items: seq<ToolCall>): seq<ToolCall> {
    if items == [] then []
    else
      var n := |items| - 1;
      Placed(items[..n]) + [Indexing(items[n], Extent(Placed(items[..n])))]
  }

  lemma IndexedMerges(target: seq<ToolCall>, item: ToolCall)
    ensures MergeOne(target, Indexing(item, |target|)) == MergeOne(target, item)
  {
    hide Padded, Trim;
  }

  lemma MergeSnoc(items: seq<ToolCall>, item: ToolCall)
    ensures MergeAll([], items + [item]) == MergeOne(MergeAll([], items), item)
  {
    hide MergeOne;
    assert (items + [item])[..|items|] == items;
  }

  lemma IndexedSnoc(items: seq<ToolCall>, item: ToolCall, next: nat)
    requires Indexed(items)
    ensures Indexed(items + [Indexing(item, next)])
  {
  }

  lemma MergedLength(items: seq<ToolCall>)
    requires Indexed(items)
    ensures |MergeAll([], items)| == Extent(items)
  {
    MergedIsDescribed(items);
  }

  lemma PlacedSnoc(items: seq<ToolCall>, item: ToolCall)
    ensures Placed(items + [item]) == Placed(items) + [Indexing(item, Extent(Placed(items)))]
    ensures Placed([]) == []
  {
    hide Indexing, Extent;
    assert (items + [item])[..|items|] == items;
  }

  /** Fragments of any kind merge to calls: each without an index, or with a negative one, opens a call of its own. */
  lemma {:induction false} UnindexedOpenCalls(items: seq<ToolCall>)
    ensures Indexed(Placed(items)) && MergeAll([], items) == MergeAll([], Placed(items))
    decreases |items|
  {
    hide MergeOne, MergeAll, Extent, Indexing, Placed;
    if items == [] {
      PlacedSnoc([], BLANK_CALL);
    } else {
      hide Indexed;
      var n := |items| - 1;
      var front, item := items[..n], items[n];
      var placed := Placed(front);
      assert items == front + [item];
      UnindexedOpenCalls(front);
      MergedLength(placed);
      PlacedSnoc(front, item);
      var last := Indexing(item, Extent(placed));
      IndexedMerges(MergeAll([], front), item);
      MergeSnoc(front, item);
      MergeSnoc(placed, last);
      IndexedSnoc(placed, item, Extent(placed));
    }
  }

  lemma {:induction false} FragmentsAppend(a: seq<ToolCall>, b: seq<ToolCall>, i: int)
    ensures FragmentsOf(a + b, i) == FragmentsOf(a, i) + FragmentsOf(b, i)
    decreases |b|
  {
    if b == [] {
      assert a + b == a;
    } else {
      var n := |b| - 1;
      assert (a + b)[..|a + b| - 1] == a + b[..n];
      FragmentsAppend(a, b[..n], i);
    }
  }

  /** Swapping neighbouring fragments of different indexes changes nothing. */
  lemma SwapNeighbours(a: seq<ToolCall>, x: ToolCall, y: ToolCall, b: seq<ToolCall>)
    requires Indexed(a + [x, y] + b) && x.index != y.index
    ensures MergeAll([], a + [x, y] + b) == MergeAll([], a + [y, x] + b)
  {
    var items, others := a + [x, y] + b, a + [y, x] + b;
    assert items[|a|] == x && items[|a| + 1] == y;
    forall i ensures FragmentsOf(items, i) == FragmentsOf(others, i) {
      FragmentsAppend(a + [x, y], b, i);
      FragmentsAppend(a + [y, x], b, i);
      FragmentsAppend(a, [x, y], i);
      FragmentsAppend(a, [y, x], i);
      assert [x, y][..1] == [x] && [y, x][..1] == [y] && [x][..0] == [] && [y][..0] == [];
    }
    forall k | 0 <= k < |others| ensures others[k].index.Some? && others[k].index.value >= 0 {
      assert k != |a| && k != |a| + 1 ==> others[k] == items[k];
    }
    InterleavingIrrelevant(items, others);
  }
}
