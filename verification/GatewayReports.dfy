/**
 Gateway reports from runtime pods: each is matched against the binding of its instance,
 and a match is written to the binding and to the instance row.
 */
module GatewayReports {
  import opened Options
  import opened Text
  import opened RuntimePool

  datatype Report = Report(
    instanceID: int,
    generation: int,
    state: string,
    gatewayID: string,
    port: int,
    pid: Option<int>,
    errorMessage: Option<string>)

  predicate SaysRunning(state: string) {
    state == "running" || state == "ready" || state == "healthy"
  }

  predicate SaysFailed(state: string) {
    state == "error" || state == "failed" || state == "failure" || state == "errored"
  }

  /** `instanceRuntimeStateFromGatewayReport`. */
  function InstanceState(state: string, errorMessage: Option<string>): (string, Option<string>) {
    var normalized := ToLower(Trim(state));
    var told := errorMessage.Some? && !Blank(errorMessage.value);
    if SaysRunning(normalized) then ("running", None)
    else if SaysFailed(normalized) then
      ("error", Some(if told then Trim(errorMessage.value) else "runtime gateway reported " + normalized))
    else if normalized == "stopped" || normalized == "deleted" then ("stopped", None)
    else ("creating", Some(if told then Trim(errorMessage.value) else "runtime gateway starting"))
  }

  /** The report is about a binding of the pod, at the binding's generation. */
  predicate Matches(t: Tables, podID: int, r: Report) {
    r.instanceID in t.bindings && t.bindings[r.instanceID].podID == podID
    && t.bindings[r.instanceID].generation == r.generation
  }

  function ReportWrite(r: Report, now: int): BindingWrite {
    var state := ToLower(Trim(r.state));
    if SaysRunning(state) then Running(r.generation, Trim(r.gatewayID), r.port, r.pid, now)
    else Stated(r.generation, state, r.errorMessage)
  }

  function ReportRow(r: Report): Instance {
    var (status, message) := InstanceState(ToLower(Trim(r.state)), r.errorMessage);
    Instance(status, r.generation, message)
  }

  /** One item of a report: skipped, written to both rows, or failed at one of them. */
  function ProcessReport(t: Tables, podID: int, r: Report, now: int): (Tables, bool) {
    if !Matches(t, podID, r) then (t, true)
    else
      var (u, err) := WriteBinding(t, r.instanceID, ReportWrite(r, now));
      if err.Some? then (u, false)
      else
        var (v, err') := WriteInstance(u, r.instanceID, ReportRow(r));
        (v, err'.None?)
  }

  /** A failed item ends the report. */
  function ProcessReports(t: Tables, podID: int, reports: seq<Report>, now: int): (Tables, bool)
    decreases |reports|
  {
    if reports == [] then (t, true)
    else
      var (u, ok) := ProcessReport(t, podID, reports[0], now);
      if ok then ProcessReports(u, podID, reports[1..], now) else (u, false)
  }

  class RuntimeAgentHandler {
    const store: RuntimeStore

    constructor (store: RuntimeStore)
      ensures this.store == store
    {
      this.store := store;
    }

    method SyncInstanceRuntimeState(r: Report, state: string) returns (ok: bool)
      requires state == ToLower(Trim(r.state))
      modifies store
      ensures
        var (t, err) := WriteInstance(old(store.Rows()), r.instanceID, ReportRow(r));
        store.Rows() == t && ok == err.None?
    {
      var (status, message) := InstanceState(state, r.errorMessage);
      var err := store.UpdateRuntimeState(r.instanceID, status, r.generation, message);
      ok := err.None?;
    }

    /** The per-gateway loop of `ReportGateways`. */
    method ReportGateways(podID: int, reports: seq<Report>, now: int) returns (ok: bool)
      modifies store
      ensures (store.Rows(), ok) == ProcessReports(old(store.Rows()), podID, reports, now)
    {
      ghost var start := store.Rows();
      assert reports[0..] == reports;
      for k := 0 to |reports|
        invariant ProcessReports(start, podID, reports, now) == ProcessReports(store.Rows(), podID, reports[k..], now)
      {
        hide WriteBinding, WriteInstance, InstanceState, Trim, ToLower;
        var gateway := reports[k];
        assert reports[k..][1..] == reports[k + 1..];
        if gateway.instanceID !in store.bindings || store.bindings[gateway.instanceID].podID != podID
           || store.bindings[gateway.instanceID].generation != gateway.generation {
          continue;
        }
        var state := ToLower(Trim(gateway.state));
        var err;
        match state {
          case "running" | "ready" | "healthy" =>
            err := store.UpdateRunning(gateway.instanceID, gateway.generation, Trim(gateway.gatewayID), gateway.port,
              gateway.pid, now);
          case _ =>
            err := store.UpdateState(gateway.instanceID, gateway.generation, state, gateway.errorMessage);
        }
        if err.Some? {
          return false;
        }
        var synced := SyncInstanceRuntimeState(gateway, state);
        if !synced {
          return false;
        }
      }
      ok := true;
    }
  }

  // What a report achieves

  /** At one generation, the binding runs exactly when the instance runs. */
  predicate Agree(t: Tables, i: int) {
    i in t.bindings && i in t.instances && t.bindings[i].generation == t.instances[i].generation ==>
      (t.bindings[i].state == "running" <==> t.instances[i].status == "running")
  }

  /** The state a report gives, white space and case aside. */
  function Said(r: Report): string {
    ToLower(Trim(r.state))
  }

  /** The report says that the gateway runs. */
  predicate Runs(r: Report) {
    Said(r) in {"running", "ready", "healthy"}
  }

  /** The report is about the instance's binding as it is: to this pod, at this generation. */
  predicate Meets(t: Tables, podID: int, r: Report) {
    r.instanceID in t.bindings
    && t.bindings[r.instanceID].podID == podID && t.bindings[r.instanceID].generation == r.generation
  }

  /** Both rows are at the report's generation and say what it says. */
  predicate Applied(t: Tables, r: Report) {
    && r.instanceID in t.bindings && r.instanceID in t.instances
    && t.bindings[r.instanceID].generation == r.generation == t.instances[r.instanceID].generation
    && (t.bindings[r.instanceID].state == "running" <==> Runs(r))
    && (t.instances[r.instanceID].status == "running" <==> Runs(r))
  }

  /** The message of a report, or these words where it has none. */
  function Words(r: Report, otherwise: string): Option<string> {
    Some(if r.errorMessage.Some? && Trim(r.errorMessage.value) != "" then Trim(r.errorMessage.value) else otherwise)
  }

  /**
   What an item that goes through leaves, column by column: a running binding with its gateway, or the reported state
   and message; and the instance running, in error, stopped, or else creating.
   */
  lemma ItemWrites(t: Tables, podID: int, r: Report, now: int)
    requires Meets(t, podID, r) && ProcessReport(t, podID, r, now).1
    ensures
      var u, b := ProcessReport(t, podID, r, now).0, t.bindings[r.instanceID];
      && u.bindings == t.bindings[r.instanceID :=
           if Runs(r) then
             b.(state := "running", gatewayID := Trim(r.gatewayID), port := r.port, pid := r.pid,
                lastHealthAt := Some(now), errorMessage := None)
           else b.(state := Said(r), errorMessage := r.errorMessage)]
      && u.instances == t.instances[r.instanceID :=
           if Runs(r) then Instance("running", r.generation, None)
           else if Said(r) in {"error", "failed", "failure", "errored"} then
             Instance("error", r.generation, Words(r, "runtime gateway reported " + Said(r)))
           else if Said(r) in {"stopped", "deleted"} then Instance("stopped", r.generation, None)
           else Instance("creating", r.generation, Words(r, "runtime gateway starting"))]
      && u.pods == t.pods
  {
    TrimLowerAgain(r.state);
    hide Trim, ToLower, PortTaken;
  }

  lemma TrimLowerAgain(state: string)
    ensures ToLower(Trim(ToLower(Trim(state)))) == ToLower(Trim(state))
  {
    var s := Trim(state);
    var a, b := TrimSplit(state);
    TrimFixed(ToLower(s));
    assert forall c: char :: 'A' <= c <= 'Z' ==> !IsSpace(c) && !IsSpace(LowerChar(c));
    assert Trimmed(ToLower(s));
    assert ToLower(ToLower(s)) == ToLower(s);
  }

  /** An item without error is skipped exactly when it does not match; otherwise it leaves both rows as reported. */
  lemma ItemApplies(t: Tables, podID: int, r: Report, now: int)
    requires ProcessReport(t, podID, r, now).1
    ensures
      var u := ProcessReport(t, podID, r, now).0;
      && (!Meets(t, podID, r) ==> u == t)
      && (Meets(t, podID, r) ==> Applied(u, r) && Meets(u, podID, r))
      && (forall i :: i != r.instanceID ==>
            (i in u.bindings <==> i in t.bindings) && (i in t.bindings ==> u.bindings[i] == t.bindings[i])
            && (i in u.instances <==> i in t.instances) && (i in t.instances ==> u.instances[i] == t.instances[i]))
      && u.pods == t.pods
  {
    TrimLowerAgain(r.state);
    hide Trim, ToLower, PortTaken;
  }

  /** An item goes through exactly when it is skipped, or its port is free and its instance is there and not ahead. */
  lemma ItemGoesThrough(t: Tables, podID: int, r: Report, now: int)
    ensures ProcessReport(t, podID, r, now).1 <==>
      !Meets(t, podID, r)
      || (&& (Runs(r) ==>
                forall j :: j in t.bindings && t.bindings[j].podID == podID && t.bindings[j].port == r.port ==>
                  j == r.instanceID)
          && r.instanceID in t.instances && t.instances[r.instanceID].generation <= r.generation)
  {
    hide Trim, ToLower, InstanceState;
  }

  /** An item, going through or not, never parts a binding and an instance that agree. */
  lemma AgreementKept(t: Tables, podID: int, r: Report, now: int, i: int)
    requires Agree(t, i)
    ensures Agree(ProcessReport(t, podID, r, now).0, i)
  {
    if ProcessReport(t, podID, r, now).1 {
      ItemApplies(t, podID, r, now);
    } else {
      hide Trim, ToLower, PortTaken, InstanceState;
    }
  }

  /** The report gets as far as an item on the instance that matches, and that item goes through. */
  ghost predicate Heard(t: Tables, podID: int, reports: seq<Report>, now: int, i: int) {
    exists k :: 0 <= k < |reports| && ProcessReports(t, podID, reports[..k + 1], now).1
      && reports[k].instanceID == i && Meets(t, podID, reports[k])
  }

  /**
   A report, also one that stops at a failing item, leaves every instance on which an item matched
   and went through in agreement with its binding, and parts no other.
   */
  lemma {:induction false} ReportsAgree(t: Tables, podID: int, reports: seq<Report>, now: int, i: int)
    requires Agree(t, i) || Heard(t, podID, reports, now, i)
    ensures Agree(ProcessReports(t, podID, reports, now).0, i)
    decreases reports
  {
    if reports != [] {
      hide ProcessReport, Agree, Meets, Applied, Heard;
      var r, rest := reports[0], reports[1..];
      var (u, ok) := ProcessReport(t, podID, r, now);
      if Agree(t, i) {
        AgreementKept(t, podID, r, now, i);
      } else {
        HeardNext(t, podID, reports, now, i);
      }
      if ok {
        ReportsAgree(u, podID, rest, now, i);
      }
    }
  }

  lemma HeardNext(t: Tables, podID: int, reports: seq<Report>, now: int, i: int)
    requires reports != [] && Heard(t, podID, reports, now, i)
    ensures
      var (u, ok) := ProcessReport(t, podID, reports[0], now);
      ok && (Agree(u, i) || Heard(u, podID, reports[1..], now, i))
  {
    hide ProcessReport, Agree, Meets, Applied;
    var k :| 0 <= k < |reports| && ProcessReports(t, podID, reports[..k + 1], now).1
      && reports[k].instanceID == i && Meets(t, podID, reports[k]);
    var r, rest := reports[0], reports[1..];
    var (u, ok) := ProcessReport(t, podID, r, now);
    assert reports[..k + 1][1..] == rest[..k];
    ItemApplies(t, podID, r, now);
    AgreeStep(t, u, podID, r, i);
    if k > 0 {
      MatchStep(t, u, podID, r, reports[k]);
      assert rest[k - 1] == reports[k] && rest[..k - 1 + 1] == rest[..k];
    }
  }

  /** What `ItemApplies` says, as a relation. */
  ghost predicate Stepped(t: Tables, u: Tables, podID: int, r: Report) {
    && (!Meets(t, podID, r) ==> u == t)
    && (Meets(t, podID, r) ==> Applied(u, r) && Meets(u, podID, r))
    && (forall i :: i != r.instanceID ==>
          (i in u.bindings <==> i in t.bindings) && (i in t.bindings ==> u.bindings[i] == t.bindings[i])
          && (i in u.instances <==> i in t.instances) && (i in t.instances ==> u.instances[i] == t.instances[i]))
  }

  lemma AgreeStep(t: Tables, u: Tables, podID: int, r: Report, i: int)
    requires Stepped(t, u, podID, r)
    ensures r.instanceID == i && Meets(t, podID, r) ==> Agree(u, i)
  {
  }

  lemma MatchStep(t: Tables, u: Tables, podID: int, r: Report, s: Report)
    requires Stepped(t, u, podID, r)
    ensures Meets(t, podID, s) ==> Meets(u, podID, s)
  {
  }
}
