/**
 The lite runtime pool: pods with slots, instance bindings that occupy them, and the
 instance rows. Every SQL statement or transaction is one step, and callers interleave freely.
 */
module RuntimePool {
  import opened Options
  import opened GenerationFence

  /** A runtime pod; `details` stands for its descriptive columns. */
  datatype Pod = Pod(
    runtimeType: string,
    namespace: string,
    name: string,
    details: string,
    state: string,
    capacity: int,
    usedSlots: int,
    draining: bool,
    lastSeenAt: Option<int>)

  /** The occupation of a slot by the instance it is stored under. */
  datatype Binding = Binding(
    podID: int,
    gatewayID: string,
    port: int,
    pid: Option<int>,
    state: string,
    generation: int,
    lastHealthAt: Option<int>,
    errorMessage: Option<string>)

  datatype Instance = Instance(status: string, generation: int, message: Option<string>)

  datatype Tables = Tables(
    pods: map<int, Pod>,
    bindings: map<int, Binding>,
    instances: map<int, Instance>,
    nextPodID: int,
    nextInstanceID: int)

  const NO_ROWS := Tables(map[], map[], map[], 1, 1)

  datatype Error = StaleGeneration | ConstraintViolation

  // One statement each

  predicate Open(pod: Pod) {
    pod.state == "ready" && !pod.draining
  }

  /** `TryClaimSlot`. */
  function ClaimSlot(t: Tables, podID: int): (Tables, bool) {
    if podID in t.pods && Open(t.pods[podID]) && t.pods[podID].usedSlots < t.pods[podID].capacity then
      (t.(pods := t.pods[podID := t.pods[podID].(usedSlots := t.pods[podID].usedSlots + 1)]), true)
    else (t, false)
  }

  /** `ReleaseSlot`, with its floor at zero. */
  function ReleaseSlot(t: Tables, podID: int): Tables {
    if podID !in t.pods then t
    else
      var used := t.pods[podID].usedSlots;
      t.(pods := t.pods[podID := t.pods[podID].(usedSlots := if used > 0 then used - 1 else 0)])
  }

  /** Another instance holds the port on the pod. */
  predicate PortTaken(t: Tables, instanceID: int, podID: int, port: int) {
    exists i :: i in t.bindings && i != instanceID && t.bindings[i].podID == podID && t.bindings[i].port == port
  }

  /** `Create`: one binding an instance, one a port, and both ends must exist. */
  function CreateBinding(t: Tables, instanceID: int, b: Binding): (Tables, Option<Error>) {
    if instanceID in t.bindings || PortTaken(t, instanceID, b.podID, b.port)
       || b.podID !in t.pods || instanceID !in t.instances then (t, Some(ConstraintViolation))
    else (t.(bindings := t.bindings[instanceID := b]), None)
  }

  /** `DeleteByInstanceID`. */
  function DeleteBinding(t: Tables, instanceID: int): Tables {
    t.(bindings := t.bindings - {instanceID})
  }

  /** `DeleteByInstanceIDAndReleaseSlot`: the slot goes only if a binding went. */
  function DeleteAndRelease(t: Tables, instanceID: int, podID: int): Tables {
    if instanceID in t.bindings && t.bindings[instanceID].podID == podID then
      ReleaseSlot(DeleteBinding(t, instanceID), podID)
    else t
  }

  function MarkState(t: Tables, podID: int, state: string, draining: bool): Tables {
    if podID !in t.pods then t
    else t.(pods := t.pods[podID := t.pods[podID].(state := state, draining := draining)])
  }

  function Heartbeat(
    t: Tables, podID: int, state: string, usedSlots: int, capacity: int, draining: bool, lastSeenAt: int
  ): Tables {
    if podID !in t.pods then t
    else
      t.(pods := t.pods[podID := t.pods[podID].(
        state := state, usedSlots := usedSlots, capacity := capacity, draining := draining,
        lastSeenAt := Some(lastSeenAt))])
  }

  predicate Unseen(pod: Pod, cutoff: int) {
    pod.lastSeenAt.None? || pod.lastSeenAt.value < cutoff
  }

  function MarkUnseen(t: Tables, cutoff: int): Tables {
    t.(pods := map p | p in t.pods ::
      if Unseen(t.pods[p], cutoff) then t.pods[p].(state := "unhealthy") else t.pods[p])
  }

  predicate SamePod(a: Pod, b: Pod) {
    a.namespace == b.namespace && a.name == b.name
  }

  predicate Known(t: Tables, report: Pod) {
    exists p :: p in t.pods && SamePod(t.pods[p], report)
  }

  /** `UpsertFromAgent`: a known pod keeps its state, used slots and draining flag. */
  function Register(t: Tables, report: Pod): Tables {
    if Known(t, report) then
      t.(pods := map p | p in t.pods ::
        if SamePod(t.pods[p], report) then
          t.pods[p].(runtimeType := report.runtimeType, details := report.details,
                     capacity := report.capacity, lastSeenAt := report.lastSeenAt)
        else t.pods[p])
    else t.(pods := t.pods[t.nextPodID := report], nextPodID := t.nextPodID + 1)
  }

  /** A write to a binding row: a running gateway, or any other state. */
  datatype BindingWrite =
    | Running(generation: int, gatewayID: string, port: int, pid: Option<int>, now: int)
    | Stated(generation: int, state: string, message: Option<string>)

  function Written(b: Binding, w: BindingWrite): Binding {
    match w
    case Running(g, gatewayID, port, pid, now) =>
      b.(state := "running", generation := g, gatewayID := gatewayID, port := port, pid := pid,
         lastHealthAt := Some(now), errorMessage := None)
    case Stated(g, state, message) => b.(state := state, generation := g, errorMessage := message)
  }

  /** `UpdateRunning` and `UpdateState`: fenced, and refused as stale when the row is gone. */
  function WriteBinding(t: Tables, instanceID: int, w: BindingWrite): (Tables, Option<Error>) {
    if instanceID !in t.bindings || w.generation < t.bindings[instanceID].generation then (t, Some(StaleGeneration))
    else if w.Running? && PortTaken(t, instanceID, t.bindings[instanceID].podID, w.port) then
      (t, Some(ConstraintViolation))
    else (t.(bindings := t.bindings[instanceID := Written(t.bindings[instanceID], w)]), None)
  }

  /** `UpdateRuntimeState` of the instance row. */
  function WriteInstance(t: Tables, instanceID: int, i: Instance): (Tables, Option<Error>) {
    if instanceID !in t.instances || i.generation < t.instances[instanceID].generation then (t, Some(StaleGeneration))
    else (t.(instances := t.instances[instanceID := i]), None)
  }

  /** `Create` of an instance row, under a new id. */
  function InsertInstance(t: Tables, i: Instance): Tables {
    t.(instances := t.instances[t.nextInstanceID := i], nextInstanceID := t.nextInstanceID + 1)
  }

  /** `Delete` of an instance row; its binding goes with it, by the foreign key. */
  function DeleteInstance(t: Tables, instanceID: int): Tables {
    DeleteBinding(t, instanceID).(instances := t.instances - {instanceID})
  }

  // The repositories

  class RuntimeStore {
    var pods: map<int, Pod>
    var bindings: map<int, Binding>
    var instances: map<int, Instance>
    var nextPodID: int
    var nextInstanceID: int

    constructor ()
      ensures Rows() == NO_ROWS
    {
      pods, bindings, instances, nextPodID, nextInstanceID := map[], map[], map[], 1, 1;
    }

    function Rows(): Tables
      reads this
    {
      Tables(pods, bindings, instances, nextPodID, nextInstanceID)
    }

    method CreateInstance(row: Instance) returns (id: int)
      modifies this`instances, this`nextInstanceID
      ensures Rows() == InsertInstance(old(Rows()), row) && id == old(nextInstanceID)
    {
      id := nextInstanceID;
      instances := instances[id := row];
      nextInstanceID := nextInstanceID + 1;
    }

    method RemoveInstance(instanceID: int)
      modifies this`instances, this`bindings
      ensures Rows() == DeleteInstance(old(Rows()), instanceID)
    {
      instances := instances - {instanceID};
      bindings := bindings - {instanceID};
    }

    method TryClaimSlot(podID: int) returns (claimed: bool)
      modifies this`pods
      ensures (Rows(), claimed) == ClaimSlot(old(Rows()), podID)
    {
      claimed := false;
      if podID in pods {
        var pod := pods[podID];
        if pod.state == "ready" && !pod.draining && pod.usedSlots < pod.capacity {
          pods := pods[podID := pod.(usedSlots := pod.usedSlots + 1)];
          claimed := true;
        }
      }
    }

    method FreeSlot(podID: int)
      modifies this`pods
      ensures Rows() == ReleaseSlot(old(Rows()), podID)
    {
      if podID in pods {
        var pod := pods[podID];
        pods := pods[podID := pod.(usedSlots := if pod.usedSlots > 0 then pod.usedSlots - 1 else 0)];
      }
    }

    method Create(instanceID: int, binding: Binding) returns (err: Option<Error>)
      modifies this`bindings
      ensures (Rows(), err) == CreateBinding(old(Rows()), instanceID, binding)
    {
      if instanceID in bindings || PortTaken(Rows(), instanceID, binding.podID, binding.port)
         || binding.podID !in pods || instanceID !in instances {
        return Some(ConstraintViolation);
      }
      bindings := bindings[instanceID := binding];
      return None;
    }

    method DeleteByInstanceID(instanceID: int) returns (affected: nat)
      modifies this`bindings
      ensures Rows() == DeleteBinding(old(Rows()), instanceID)
      ensures affected == if instanceID in old(bindings) then 1 else 0
    {
      affected := if instanceID in bindings then 1 else 0;
      bindings := bindings - {instanceID};
    }

    method DeleteByInstanceIDAndReleaseSlot(instanceID: int, podID: int)
      modifies this`bindings, this`pods
      ensures Rows() == DeleteAndRelease(old(Rows()), instanceID, podID)
    {
      var affected := 0;
      if instanceID in bindings && bindings[instanceID].podID == podID {
        affected := DeleteByInstanceID(instanceID);
      }
      if affected == 0 {
        return;
      }
      FreeSlot(podID);
    }

    method Mark(podID: int, state: string, draining: bool)
      modifies this`pods
      ensures Rows() == MarkState(old(Rows()), podID, state, draining)
    {
      if podID in pods {
        pods := pods[podID := pods[podID].(state := state, draining := draining)];
      }
    }

    method UpdateHeartbeat(podID: int, state: string, usedSlots: int, capacity: int, draining: bool, lastSeenAt: int)
      modifies this`pods
      ensures Rows() == Heartbeat(old(Rows()), podID, state, usedSlots, capacity, draining, lastSeenAt)
    {
      if podID in pods {
        pods := pods[podID := pods[podID].(state := state, usedSlots := usedSlots, capacity := capacity,
          draining := draining, lastSeenAt := Some(lastSeenAt))];
      }
    }

    /** The statement's own guard leaves rows that are already unhealthy alone. */
    method MarkUnseenUnhealthy(cutoff: int)
      modifies this`pods
      ensures Rows() == MarkUnseen(old(Rows()), cutoff)
    {
      pods := map p | p in pods ::
        if Unseen(pods[p], cutoff) && pods[p].state != "unhealthy" then pods[p].(state := "unhealthy") else pods[p];
      assert pods == MarkUnseen(old(Rows()), cutoff).pods;
    }

    method UpsertFromAgent(report: Pod)
      modifies this`pods, this`nextPodID
      ensures Rows() == Register(old(Rows()), report)
    {
      if Known(Rows(), report) {
        pods := map p | p in pods ::
          if pods[p].namespace == report.namespace && pods[p].name == report.name then
            pods[p].(runtimeType := report.runtimeType, details := report.details,
                     capacity := report.capacity, lastSeenAt := report.lastSeenAt)
          else pods[p];
        assert forall p :: p in old(pods) ==> pods[p] == Register(old(Rows()), report).pods[p];
      } else {
        pods := pods[nextPodID := report];
        nextPodID := nextPodID + 1;
      }
    }

    /** The generation a refused write is compared with; a missing row is stale. */
    method GetGeneration(instanceID: int) returns (generation: Option<int>)
      ensures generation == if instanceID in bindings then Some(bindings[instanceID].generation) else None
    {
      generation := if instanceID in bindings then Some(bindings[instanceID].generation) else None;
    }

    method UpdateRunning(instanceID: int, generation: int, gatewayID: string, port: int, pid: Option<int>, now: int)
      returns (err: Option<Error>)
      modifies this`bindings
      ensures (Rows(), err) == WriteBinding(old(Rows()), instanceID, Running(generation, gatewayID, port, pid, now))
    {
      var affected := 0;
      if instanceID in bindings && bindings[instanceID].generation <= generation {
        var b := bindings[instanceID];
        if PortTaken(Rows(), instanceID, b.podID, port) {
          return Some(ConstraintViolation);
        }
        bindings := bindings[instanceID := b.(state := "running", generation := generation, gatewayID := gatewayID,
          port := port, pid := pid, lastHealthAt := Some(now), errorMessage := None)];
        affected := 1;
      }
      if affected == 0 {
        var current := GetGeneration(instanceID);
        if current.None? || current.value > generation {
          return Some(StaleGeneration);
        }
      }
      return None;
    }

    method UpdateState(instanceID: int, generation: int, state: string, message: Option<string>)
      returns (err: Option<Error>)
      modifies this`bindings
      ensures (Rows(), err) == WriteBinding(old(Rows()), instanceID, Stated(generation, state, message))
    {
      var affected := 0;
      if instanceID in bindings && bindings[instanceID].generation <= generation {
        bindings := bindings[instanceID :=
          bindings[instanceID].(state := state, generation := generation, errorMessage := message)];
        affected := 1;
      }
      if affected == 0 {
        var current := GetGeneration(instanceID);
        if current.None? || current.value > generation {
          return Some(StaleGeneration);
        }
      }
      return None;
    }

    method UpdateRuntimeState(instanceID: int, status: string, generation: int, message: Option<string>)
      returns (err: Option<Error>)
      modifies this`instances
      ensures (Rows(), err) == WriteInstance(old(Rows()), instanceID, Instance(status, generation, message))
    {
      var affected := 0;
      if instanceID in instances && instances[instanceID].generation <= generation {
        instances := instances[instanceID := Instance(status, generation, message)];
        affected := 1;
      }
      if affected == 0 && (instanceID !in instances || instances[instanceID].generation > generation) {
        return Some(StaleGeneration);
      }
      return None;
    }
  }

  // Slot accounting over all interleavings

  /** The tables, and who holds the claims on each pod that are not yet bound, once for every claim. */
  datatype World = World(t: Tables, claims: map<int, multiset<int>>)

  function Holders(w: World, podID: int): multiset<int> {
    if podID in w.claims then w.claims[podID] else multiset{}
  }

  function Claims(w: World, podID: int): nat {
    |Holders(w, podID)|
  }

  /** The caller has a claim on the pod that is not yet bound. */
  predicate Holds(w: World, caller: int, podID: int) {
    caller in Holders(w, podID)
  }

  function Bound(t: Tables, podID: int): nat {
    |set i | i in t.bindings && t.bindings[i].podID == podID|
  }

  datatype Step =
    | ClaimStep(caller: int, podID: int)
    | BindStep(caller: int, instanceID: int, binding: Binding)
    | ReleaseStep(caller: int, podID: int)
    | UnbindStep(caller: int, instanceID: int)
    | DeleteStep(instanceID: int, podID: int)
    | MarkStep(podID: int, state: string, draining: bool)
    | UnseenStep(cutoff: int)
    | HeartbeatStep(podID: int, state: string, usedSlots: int, capacity: int, draining: bool, lastSeenAt: int)
    | RegisterStep(report: Pod)
    | BindingStep(instanceID: int, write: BindingWrite)
    | InstanceStep(instanceID: int, row: Instance)
    | AddInstanceStep(row: Instance)
    | DropInstanceStep(instanceID: int)

  function Take(w: World, caller: int, podID: int): map<int, multiset<int>> {
    w.claims[podID := Holders(w, podID) + multiset{caller}]
  }

  function Spend(w: World, caller: int, podID: int): map<int, multiset<int>> {
    w.claims[podID := Holders(w, podID) - multiset{caller}]
  }

  /** A caller's claim turns into a binding, or back: the caller that unbinds a row owes its release. */
  function Next(w: World, s: Step): World {
    match s
    case ClaimStep(c, p) =>
      var (t, ok) := ClaimSlot(w.t, p);
      World(t, if ok then Take(w, c, p) else w.claims)
    case BindStep(c, i, b) =>
      var (t, err) := CreateBinding(w.t, i, b);
      World(t, if err.None? then Spend(w, c, b.podID) else w.claims)
    case ReleaseStep(c, p) => World(ReleaseSlot(w.t, p), Spend(w, c, p))
    case UnbindStep(c, i) =>
      World(DeleteBinding(w.t, i), if i in w.t.bindings then Take(w, c, w.t.bindings[i].podID) else w.claims)
    case DeleteStep(i, p) => World(DeleteAndRelease(w.t, i, p), w.claims)
    case MarkStep(p, state, draining) => World(MarkState(w.t, p, state, draining), w.claims)
    case UnseenStep(cutoff) => World(MarkUnseen(w.t, cutoff), w.claims)
    case HeartbeatStep(p, state, used, capacity, draining, seen) =>
      World(Heartbeat(w.t, p, state, used, capacity, draining, seen), w.claims)
    case RegisterStep(report) => World(Register(w.t, report), w.claims)
    case BindingStep(i, write) => World(WriteBinding(w.t, i, write).0, w.claims)
    case InstanceStep(i, row) => World(WriteInstance(w.t, i, row).0, w.claims)
    case AddInstanceStep(row) => World(InsertInstance(w.t, row), w.claims)
    case DropInstanceStep(i) => World(DeleteInstance(w.t, i), w.claims)
  }

  /** Bindings are of existing instances, bindings and claims on existing pods, and ids are not reused. */
  ghost predicate Sound(w: World) {
    && (forall p :: p in w.t.pods ==> p < w.t.nextPodID)
    && (forall i :: i in w.t.instances ==> i < w.t.nextInstanceID)
    && (forall i :: i in w.t.bindings ==> w.t.bindings[i].podID in w.t.pods && i in w.t.instances)
    && (forall p :: p !in w.t.pods ==> Claims(w, p) == 0)
  }

  /** Every used slot is a binding or a claim. */
  ghost predicate Conserved(w: World) {
    forall p :: p in w.t.pods ==> w.t.pods[p].usedSlots == Bound(w.t, p) + Claims(w, p)
  }

  ghost predicate WithinCapacity(w: World) {
    forall p :: p in w.t.pods ==> 0 <= w.t.pods[p].usedSlots <= w.t.pods[p].capacity
  }

  /**
   The slot discipline of a step: bind under a claim of your own, release a claim you hold, report the
   slots that are used, and delete an instance only once it is unbound.
   */
  predicate Honest(w: World, s: Step) {
    match s
    case BindStep(c, i, b) => CreateBinding(w.t, i, b).1.Some? || Holds(w, c, b.podID)
    case ReleaseStep(c, p) => p !in w.t.pods || Holds(w, c, p) || w.t.pods[p].usedSlots == 0
    case HeartbeatStep(p, _, used, _, _, _) => p !in w.t.pods || used == w.t.pods[p].usedSlots
    case RegisterStep(report) => Known(w.t, report) || report.usedSlots == 0
    case DropInstanceStep(i) => i !in w.t.bindings
    case _ => true
  }

  /** Reports leave room for the slots in use. */
  predicate Roomy(w: World, s: Step) {
    match s
    case HeartbeatStep(p, _, used, capacity, _, _) => p !in w.t.pods || 0 <= used <= capacity
    case RegisterStep(report) =>
      if Known(w.t, report) then
        forall p :: p in w.t.pods && SamePod(w.t.pods[p], report) ==> w.t.pods[p].usedSlots <= report.capacity
      else 0 <= report.usedSlots <= report.capacity
    case _ => true
  }

  lemma BoundWith(t: Tables, instanceID: int, b: Binding, p: int)
    requires instanceID !in t.bindings
    ensures Bound(t.(bindings := t.bindings[instanceID := b]), p) == Bound(t, p) + if b.podID == p then 1 else 0
  {
    var u := t.(bindings := t.bindings[instanceID := b]);
    var before := set i | i in t.bindings && t.bindings[i].podID == p;
    var after := set i | i in u.bindings && u.bindings[i].podID == p;
    assert after == if b.podID == p then before + {instanceID} else before;
  }

  lemma BoundWithout(t: Tables, instanceID: int, p: int)
    ensures Bound(DeleteBinding(t, instanceID), p) ==
      Bound(t, p) - if instanceID in t.bindings && t.bindings[instanceID].podID == p then 1 else 0
  {
    var u := DeleteBinding(t, instanceID);
    if instanceID in t.bindings {
      BoundWith(u, instanceID, t.bindings[instanceID], p);
      assert u.bindings[instanceID := t.bindings[instanceID]] == t.bindings;
      assert t == u.(bindings := t.bindings);
    } else {
      assert u.bindings == t.bindings;
    }
  }

  lemma BoundRewritten(t: Tables, instanceID: int, b: Binding, p: int)
    requires instanceID in t.bindings && t.bindings[instanceID].podID == b.podID
    ensures Bound(t.(bindings := t.bindings[instanceID := b]), p) == Bound(t, p)
  {
    var u := t.(bindings := t.bindings[instanceID := b]);
    assert (set i | i in u.bindings && u.bindings[i].podID == p)
      == (set i | i in t.bindings && t.bindings[i].podID == p);
  }

  lemma BoundSame(t: Tables, u: Tables)
    requires t.bindings == u.bindings
    ensures forall p :: Bound(t, p) == Bound(u, p)
  {
  }

  lemma BoundNowhere(w: World, p: int)
    requires Sound(w) && p !in w.t.pods
    ensures Bound(w.t, p) == 0
  {
    var on := set i | i in w.t.bindings && w.t.bindings[i].podID == p;
    assert forall i :: i in w.t.bindings ==> w.t.bindings[i].podID != p;
    assert on == {};
  }

  /** Bindings and claims stay on existing pods, whatever the step. */
  lemma StepSound(w: World, s: Step)
    requires Sound(w)
    ensures Sound(Next(w, s))
  {
    StepTables(w, s);
    var u := Next(w, s);
    forall p | p !in u.t.pods ensures Claims(u, p) == 0 {
      assert Claims(w, p) == 0;
      StepHolders(w, s, p);
      ClaimOpen(w, s, p);
    }
    hide Next, Claims;
  }

  /** The tables keep their pods and number rows afresh. */
  lemma StepRows(w: World, s: Step)
    requires Sound(w)
    ensures
      var u := Next(w, s).t;
      && w.t.pods.Keys <= u.pods.Keys
      && (forall p :: p in u.pods ==> p < u.nextPodID)
      && (forall i :: i in u.instances ==> i < u.nextInstanceID)
      && (s.DropInstanceStep? || w.t.instances.Keys <= u.instances.Keys)
  {
    hide PortTaken, Open, Take, Spend;
  }

  /** Bindings are on rows that exist, or existed before. */
  lemma StepBindings(w: World, s: Step)
    requires Sound(w)
    ensures
      var u := Next(w, s).t;
      forall i :: i in u.bindings ==>
        u.bindings[i].podID in w.t.pods && i in w.t.instances && (s.DropInstanceStep? ==> i in u.instances)
  {
    hide PortTaken, Open, Take, Spend, Known;
  }

  lemma StepTables(w: World, s: Step)
    requires Sound(w)
    ensures
      var u := Next(w, s).t;
      && w.t.pods.Keys <= u.pods.Keys
      && (forall p :: p in u.pods ==> p < u.nextPodID)
      && (forall i :: i in u.instances ==> i < u.nextInstanceID)
      && (forall i :: i in u.bindings ==> u.bindings[i].podID in u.pods && i in u.instances)
  {
    StepRows(w, s);
    StepBindings(w, s);
    hide Next, Sound;
  }

  /** Claims come to be on existing pods only. */
  lemma ClaimOpen(w: World, s: Step, p: int)
    requires Sound(w) && p !in w.t.pods
    ensures s.ClaimStep? && s.podID == p ==> !ClaimSlot(w.t, p).1
    ensures s.UnbindStep? && s.instanceID in w.t.bindings ==> w.t.bindings[s.instanceID].podID != p
  {
  }

  lemma PodSlots(w: World, s: Step, p: int)
    requires Sound(w) && p in w.t.pods
    ensures p in Next(w, s).t.pods
    ensures Next(w, s).t.pods[p].usedSlots == match s
      case ClaimStep(_, q) => w.t.pods[p].usedSlots + (if q == p && ClaimSlot(w.t, q).1 then 1 else 0)
      case ReleaseStep(_, q) => Down(w.t.pods[p].usedSlots, q == p)
      case DeleteStep(i, q) =>
        Down(w.t.pods[p].usedSlots, q == p && i in w.t.bindings && w.t.bindings[i].podID == q)
      case HeartbeatStep(q, _, used, _, _, _) => if q == p then used else w.t.pods[p].usedSlots
      case _ => w.t.pods[p].usedSlots
  {
    hide PortTaken, Open;
  }

  function Down(used: int, released: bool): int {
    if !released then used else if used > 0 then used - 1 else 0
  }

  lemma BindingsKept(w: World, s: Step)
    requires !s.BindStep? && !s.UnbindStep? && !s.DeleteStep? && !s.BindingStep? && !s.DropInstanceStep?
    ensures Next(w, s).t.bindings == w.t.bindings
  {
    hide PortTaken, Open, Known, Take, Spend;
  }

  lemma StepBound(w: World, s: Step, p: int)
    requires Sound(w)
    ensures Bound(Next(w, s).t, p) == match s
      case BindStep(_, i, b) => Bound(w.t, p) + (if CreateBinding(w.t, i, b).1.None? && b.podID == p then 1 else 0)
      case UnbindStep(_, i) => Bound(w.t, p) - (if i in w.t.bindings && w.t.bindings[i].podID == p then 1 else 0)
      case DeleteStep(i, q) =>
        Bound(w.t, p) - (if i in w.t.bindings && w.t.bindings[i].podID == q && q == p then 1 else 0)
      case DropInstanceStep(i) => Bound(w.t, p) - (if i in w.t.bindings && w.t.bindings[i].podID == p then 1 else 0)
      case _ => Bound(w.t, p)
  {
    hide PortTaken, Open, Bound, Known, Take, Spend;
    match s
    case BindStep(_, i, b) =>
      if CreateBinding(w.t, i, b).1.None? {
        BoundWith(w.t, i, b, p);
      }
    case UnbindStep(_, i) => BoundWithout(w.t, i, p);
    case DeleteStep(i, q) =>
      BoundWithout(w.t, i, p);
      BoundSame(DeleteBinding(w.t, i), ReleaseSlot(DeleteBinding(w.t, i), q));
    case DropInstanceStep(i) =>
      BoundWithout(w.t, i, p);
      BoundSame(DeleteBinding(w.t, i), DeleteInstance(w.t, i));
    case BindingStep(i, write) =>
      if WriteBinding(w.t, i, write).1.None? {
        BoundRewritten(w.t, i, Written(w.t.bindings[i], write), p);
      }
    case _ =>
      BindingsKept(w, s);
      hide Next;
      BoundSame(w.t, Next(w, s).t);
  }

  lemma StepHolders(w: World, s: Step, p: int)
    ensures Holders(Next(w, s), p) == match s
      case ClaimStep(c, q) => if q == p && ClaimSlot(w.t, q).1 then Holders(w, p) + multiset{c} else Holders(w, p)
      case BindStep(c, i, b) =>
        if CreateBinding(w.t, i, b).1.None? && b.podID == p then Holders(w, p) - multiset{c} else Holders(w, p)
      case ReleaseStep(c, q) => if q == p then Holders(w, p) - multiset{c} else Holders(w, p)
      case UnbindStep(c, i) =>
        if i in w.t.bindings && w.t.bindings[i].podID == p then Holders(w, p) + multiset{c} else Holders(w, p)
      case _ => Holders(w, p)
  {
    hide CreateBinding, ClaimSlot, DeleteBinding, ReleaseSlot, DeleteAndRelease, MarkState, Heartbeat, MarkUnseen;
    hide Register, WriteBinding, WriteInstance, InsertInstance, DeleteInstance, Holders, Take, Spend;
    var u := Next(w, s);
    match s
    case ClaimStep(c, q) => ClaimsMoved(w, u, c, q, p);
    case BindStep(c, _, b) => ClaimsMoved(w, u, c, b.podID, p);
    case ReleaseStep(c, q) => ClaimsMoved(w, u, c, q, p);
    case UnbindStep(c, i) => ClaimsMoved(w, u, c, if i in w.t.bindings then w.t.bindings[i].podID else p, p);
    case _ => ClaimsMoved(w, u, 0, p, p);
  }

  lemma ClaimsMoved(w: World, u: World, c: int, q: int, p: int)
    ensures u.claims == w.claims ==> Holders(u, p) == Holders(w, p)
    ensures u.claims == Take(w, c, q) ==>
      Holders(u, p) == if q == p then Holders(w, p) + multiset{c} else Holders(w, p)
    ensures u.claims == Spend(w, c, q) ==>
      Holders(u, p) == if q == p then Holders(w, p) - multiset{c} else Holders(w, p)
  {
  }

  lemma StepClaims(w: World, s: Step, p: int)
    ensures Claims(Next(w, s), p) == match s
      case ClaimStep(_, q) => Claims(w, p) + (if q == p && ClaimSlot(w.t, q).1 then 1 else 0)
      case BindStep(c, i, b) => Less(w, c, p, CreateBinding(w.t, i, b).1.None? && b.podID == p)
      case ReleaseStep(c, q) => Less(w, c, p, q == p)
      case UnbindStep(_, i) => Claims(w, p) + (if i in w.t.bindings && w.t.bindings[i].podID == p then 1 else 0)
      case _ => Claims(w, p)
  {
    StepHolders(w, s, p);
    hide CreateBinding, ClaimSlot, Next, Holders;
  }

  /** The claims on the pod once the caller has spent one, if it had one. */
  function Less(w: World, caller: int, podID: int, spent: bool): nat {
    if spent && Holds(w, caller, podID) then Claims(w, podID) - 1 else Claims(w, podID)
  }

  /** One step keeps every slot accounted for exactly when it follows the slot discipline. */
  lemma StepConserves(w: World, s: Step)
    requires Sound(w) && Conserved(w)
    ensures Conserved(Next(w, s)) <==> Honest(w, s)
  {
    hide Next, Bound, Claims, Holds, CreateBinding, ClaimSlot;
    forall p | p in w.t.pods ensures p in Next(w, s).t.pods
        && (Next(w, s).t.pods[p].usedSlots == Bound(Next(w, s).t, p) + Claims(Next(w, s), p) <==> HonestFor(w, s, p)) {
      PodSlots(w, s, p);
      StepBound(w, s, p);
      StepClaims(w, s, p);
      BoundHere(w, s, p);
      HeldCounts(w, s, p);
    }
    StepPods(w, s);
    if s.RegisterStep? && !Known(w.t, s.report) {
      BoundNowhere(w, w.t.nextPodID);
      StepBound(w, s, w.t.nextPodID);
      StepClaims(w, s, w.t.nextPodID);
    }
    HonestEverywhere(w, s);
  }

  /** The discipline as it concerns one pod. */
  predicate HonestFor(w: World, s: Step, p: int) {
    match s
    case BindStep(c, i, b) => b.podID != p || CreateBinding(w.t, i, b).1.Some? || Holds(w, c, p)
    case ReleaseStep(c, q) => q != p || Holds(w, c, p) || (p in w.t.pods && w.t.pods[p].usedSlots == 0)
    case HeartbeatStep(q, _, used, _, _, _) => q != p || (p in w.t.pods && used == w.t.pods[p].usedSlots)
    case DropInstanceStep(i) => i !in w.t.bindings || w.t.bindings[i].podID != p
    case _ => true
  }

  lemma HeldCounts(w: World, s: Step, p: int)
    ensures s.BindStep? || s.ReleaseStep? ==> Holds(w, s.caller, p) ==> Claims(w, p) > 0
  {
  }

  lemma BoundHere(w: World, s: Step, p: int)
    ensures s.DeleteStep? && s.instanceID in w.t.bindings && w.t.bindings[s.instanceID].podID == p ==> Bound(w.t, p) > 0
  {
    if s.DeleteStep? && s.instanceID in w.t.bindings && w.t.bindings[s.instanceID].podID == p {
      var on := set i | i in w.t.bindings && w.t.bindings[i].podID == p;
      assert s.instanceID in on;
    }
  }

  lemma StepPods(w: World, s: Step)
    requires Sound(w)
    ensures
      var u := Next(w, s).t;
      if s.RegisterStep? && !Known(w.t, s.report) then
        u.pods.Keys == w.t.pods.Keys + {w.t.nextPodID} && w.t.nextPodID !in w.t.pods
        && u.pods[w.t.nextPodID] == s.report && Claims(w, w.t.nextPodID) == 0
      else u.pods.Keys == w.t.pods.Keys
  {
    hide PortTaken, Open;
  }

  lemma HonestEverywhere(w: World, s: Step)
    requires Sound(w)
    ensures Honest(w, s) <==>
      (forall p :: p in w.t.pods ==> HonestFor(w, s, p))
      && (s.RegisterStep? ==> Known(w.t, s.report) || s.report.usedSlots == 0)
  {
    hide Known;
    match s
    case BindStep(_, _, b) => assert b.podID in w.t.pods ==> (HonestFor(w, s, b.podID) <==> Honest(w, s));
    case ReleaseStep(_, q) => assert q in w.t.pods ==> (HonestFor(w, s, q) <==> Honest(w, s));
    case HeartbeatStep(q, _, _, _, _, _) => assert q in w.t.pods ==> (HonestFor(w, s, q) <==> Honest(w, s));
    case DropInstanceStep(i) =>
      assert i in w.t.bindings ==> (HonestFor(w, s, w.t.bindings[i].podID) <==> Honest(w, s));
    case _ =>
  }

  /** What a report must leave room for on one pod. */
  predicate RoomyFor(w: World, s: Step, p: int)
    requires p in w.t.pods
  {
    match s
    case HeartbeatStep(q, _, used, capacity, _, _) => q != p || 0 <= used <= capacity
    case RegisterStep(report) =>
      Known(w.t, report) && SamePod(w.t.pods[p], report) ==> w.t.pods[p].usedSlots <= report.capacity
    case _ => true
  }

  lemma PodFits(w: World, s: Step, p: int)
    requires Sound(w) && Conserved(w) && Honest(w, s)
    requires p in w.t.pods && 0 <= w.t.pods[p].usedSlots <= w.t.pods[p].capacity
    ensures p in Next(w, s).t.pods
    ensures 0 <= Next(w, s).t.pods[p].usedSlots <= Next(w, s).t.pods[p].capacity <==> RoomyFor(w, s, p)
  {
    hide PortTaken, Bound, Known, Take, Spend;
  }

  /** Under the discipline, a step keeps every pod within its capacity exactly when reports leave room. */
  lemma StepWithinCapacity(w: World, s: Step)
    requires Sound(w) && Conserved(w) && WithinCapacity(w) && Honest(w, s)
    ensures WithinCapacity(Next(w, s)) <==> Roomy(w, s)
  {
    hide Next, Bound, Claims, CreateBinding, ClaimSlot, Known, Honest;
    forall p | p in w.t.pods
      ensures p in Next(w, s).t.pods
      ensures 0 <= Next(w, s).t.pods[p].usedSlots <= Next(w, s).t.pods[p].capacity <==> RoomyFor(w, s, p)
    {
      PodFits(w, s, p);
    }
    StepPods(w, s);
    if s.HeartbeatStep? {
      assert s.podID in w.t.pods ==> (RoomyFor(w, s, s.podID) <==> Roomy(w, s));
    } else if s.RegisterStep? {
      assert Known(w.t, s.report) ==> (Roomy(w, s) <==> forall p :: p in w.t.pods ==> RoomyFor(w, s, p));
    }
  }

  function RunAll(w: World, steps: seq<Step>): World {
    if steps == [] then w else Next(RunAll(w, steps[..|steps| - 1]), steps[|steps| - 1])
  }

  /** Every step of a run follows the slot discipline, and every report leaves room. */
  predicate Disciplined(w: World, steps: seq<Step>) {
    forall k :: 0 <= k < |steps| ==> Honest(RunAll(w, steps[..k]), steps[k]) && Roomy(RunAll(w, steps[..k]), steps[k])
  }

  /** From any state with its accounts in order, every disciplined interleaving keeps them, and pods within bounds. */
  lemma {:induction false} SlotsConserved(w: World, steps: seq<Step>)
    requires Sound(w) && Conserved(w) && WithinCapacity(w) && Disciplined(w, steps)
    ensures
      var u := RunAll(w, steps);
      Sound(u) && Conserved(u) && WithinCapacity(u)
    decreases |steps|
  {
    hide Next, Honest, Roomy, Conserved, WithinCapacity, Sound, Disciplined;
    if steps != [] {
      var n := |steps| - 1;
      DisciplinedSnoc(w, steps);
      SlotsConserved(w, steps[..n]);
      var u := RunAll(w, steps[..n]);
      StepSound(u, steps[n]);
      StepConserves(u, steps[n]);
      StepWithinCapacity(u, steps[n]);
    }
  }

  lemma DisciplinedSnoc(w: World, steps: seq<Step>)
    requires Disciplined(w, steps) && steps != []
    ensures
      var n := |steps| - 1;
      var u := RunAll(w, steps[..n]);
      Disciplined(w, steps[..n]) && Honest(u, steps[n]) && Roomy(u, steps[n])
  {
    hide Next, Honest, Roomy, RunAll;
    var n := |steps| - 1;
    assert forall k :: 0 <= k < n ==> steps[..n][k] == steps[k] && steps[..n][..k] == steps[..k];
  }

  const EMPTY := World(NO_ROWS, map[])

  /** So do all that start from nothing. */
  lemma SlotsConservedFromNothing(steps: seq<Step>)
    requires Disciplined(EMPTY, steps)
    ensures
      var u := RunAll(EMPTY, steps);
      Sound(u) && Conserved(u) && WithinCapacity(u)
  {
    hide Next, Honest, Roomy, Disciplined;
    SlotsConserved(EMPTY, steps);
  }

  /** Such runs do bind: a pod registers, an instance comes, a caller claims a slot and binds the instance to it. */
  function BindingRun(report: Pod, row: Instance, caller: int, binding: Binding): seq<Step> {
    [RegisterStep(report), AddInstanceStep(row), ClaimStep(caller, 1), BindStep(caller, 1, binding)]
  }

  lemma BindingRunBinds(report: Pod, row: Instance, caller: int, binding: Binding)
    requires Open(report) && report.usedSlots == 0 && report.capacity > 0 && binding.podID == 1
    ensures
      var run := BindingRun(report, row, caller, binding);
      var u := RunAll(EMPTY, run);
      && Disciplined(EMPTY, run)
      && u.t.bindings == map[1 := binding] && 1 in u.t.pods && u.t.pods[1].usedSlots == 1 && Claims(u, 1) == 0
  {
    var run := BindingRun(report, row, caller, binding);
    var w1 := World(NO_ROWS.(pods := map[1 := report], nextPodID := 2), map[]);
    var w2 := World(w1.t.(instances := map[1 := row], nextInstanceID := 2), map[]);
    var w3 := World(w2.t.(pods := map[1 := report.(usedSlots := 1)]), map[1 := multiset{caller}]);
    var w4 := World(w3.t.(bindings := map[1 := binding]), map[1 := multiset{}]);
    assert Next(EMPTY, run[0]) == w1 && Next(w1, run[1]) == w2;
    ClaimOnly(w2, caller, report);
    BindOnly(w3, caller, binding);
    RunOfFour(EMPTY, run);
    assert Honest(EMPTY, run[0]) && Honest(w1, run[1]) && Honest(w2, run[2]) && Honest(w3, run[3]);
    hide Next, Honest;
    assert forall k :: 0 <= k < 4 ==> Honest(RunAll(EMPTY, run[..k]), run[k]) && Roomy(RunAll(EMPTY, run[..k]), run[k]);
  }

  lemma ClaimOnly(w: World, caller: int, pod: Pod)
    requires w.t.pods == map[1 := pod] && w.claims == map[] && Open(pod) && pod.usedSlots == 0 && pod.capacity > 0
    ensures Next(w, ClaimStep(caller, 1)) ==
      World(w.t.(pods := map[1 := pod.(usedSlots := 1)]), map[1 := multiset{caller}])
  {
    assert Holders(w, 1) + multiset{caller} == multiset{caller};
  }

  lemma BindOnly(w: World, caller: int, binding: Binding)
    requires w.t.bindings == map[] && 1 in w.t.pods && 1 in w.t.instances
    requires w.claims == map[1 := multiset{caller}] && binding.podID == 1
    ensures Next(w, BindStep(caller, 1, binding)) == World(w.t.(bindings := map[1 := binding]), map[1 := multiset{}])
    ensures Holds(w, caller, 1)
  {
    assert Holders(w, 1) == multiset{caller} && multiset{caller} - multiset{caller} == multiset{};
  }

  lemma RunOfFour(w: World, steps: seq<Step>)
    requires |steps| == 4
    ensures RunAll(w, steps[..0]) == w
    ensures RunAll(w, steps[..1]) == Next(w, steps[0])
    ensures RunAll(w, steps[..2]) == Next(Next(w, steps[0]), steps[1])
    ensures RunAll(w, steps[..3]) == Next(Next(Next(w, steps[0]), steps[1]), steps[2])
    ensures RunAll(w, steps) == Next(Next(Next(Next(w, steps[0]), steps[1]), steps[2]), steps[3])
  {
    hide Next;
    assert steps[..1][..0] == steps[..0] && steps[..2][..1] == steps[..1] && steps[..3][..2] == steps[..2];
    assert RunAll(w, steps[..1]) == Next(w, steps[0]);
    assert RunAll(w, steps[..2]) == Next(RunAll(w, steps[..1]), steps[1]);
    assert RunAll(w, steps[..3]) == Next(RunAll(w, steps[..2]), steps[2]);
  }

  /** The floor at zero is never what a held claim or an existing binding meets. */
  lemma FloorNotTaken(w: World, p: int, instanceID: int)
    requires Sound(w) && Conserved(w)
    ensures p in w.t.pods && Claims(w, p) > 0 ==> w.t.pods[p].usedSlots > 0
    ensures instanceID in w.t.bindings && w.t.bindings[instanceID].podID == p ==>
      p in w.t.pods && w.t.pods[p].usedSlots > 0
  {
    BoundHere(w, DeleteStep(instanceID, p), p);
  }

  /** Deleting and releasing again changes nothing. */
  lemma DeleteTwice(t: Tables, instanceID: int, podID: int)
    ensures DeleteAndRelease(DeleteAndRelease(t, instanceID, podID), instanceID, podID)
      == DeleteAndRelease(t, instanceID, podID)
  {
  }

  /** The orders in which two workers can each unbind the instance and then release a slot, `first` unbinding first. */
  predicate Drains(steps: seq<Step>, first: int, second: int, instanceID: int, p: int) {
    var unbind1, release1 := UnbindStep(first, instanceID), ReleaseStep(first, p);
    var unbind2, release2 := UnbindStep(second, instanceID), ReleaseStep(second, p);
    || steps == [unbind1, unbind2, release1, release2]
    || steps == [unbind1, unbind2, release2, release1]
    || steps == [unbind1, release1, unbind2, release2]
  }

  /**
   Two workers drain the same instance, each deleting its binding and then releasing a slot, in any
   order. Only the first deletes it; the second releases a slot it has no claim on, unless it holds one
   of its own for something else. The accounts survive exactly then, or when the slot was the only one
   in use.
   */
  lemma RacingDrains(w: World, first: int, second: int, instanceID: int, p: int, steps: seq<Step>)
    requires Sound(w) && Conserved(w) && first != second && Drains(steps, first, second, instanceID, p)
    requires instanceID in w.t.bindings && w.t.bindings[instanceID].podID == p
    ensures p in w.t.pods
    ensures Conserved(RunAll(w, steps)) <==> Holds(w, second, p) || w.t.pods[p].usedSlots == 1
  {
    hide Next, Conserved, Sound, Holds, Open, Drains;
    DrainsEnd(w, first, second, instanceID, p, steps);
    OneDrain(w, first, second, instanceID, p);
  }

  lemma DrainsEnd(w: World, first: int, second: int, instanceID: int, p: int, steps: seq<Step>)
    requires Drains(steps, first, second, instanceID, p)
    ensures RunAll(w, steps) ==
      Next(Next(Next(w, UnbindStep(first, instanceID)), ReleaseStep(first, p)), ReleaseStep(second, p))
  {
    hide Next;
    var u := Next(w, UnbindStep(first, instanceID));
    var v := Next(u, ReleaseStep(first, p));
    Unbound(w, first, instanceID);
    StillUnbound(u, first, p);
    UnboundAgain(u, second, instanceID);
    UnboundAgain(v, second, instanceID);
    ReleasesCommute(u, first, second, p);
    RunOfFour(w, steps);
  }

  lemma Unbound(w: World, caller: int, instanceID: int)
    ensures instanceID !in Next(w, UnbindStep(caller, instanceID)).t.bindings
  {
  }

  lemma StillUnbound(w: World, caller: int, p: int)
    ensures Next(w, ReleaseStep(caller, p)).t.bindings == w.t.bindings
  {
  }

  /** Unbinding an instance that is unbound changes nothing. */
  lemma UnboundAgain(w: World, caller: int, instanceID: int)
    requires instanceID !in w.t.bindings
    ensures Next(w, UnbindStep(caller, instanceID)) == w
  {
    assert w.t.bindings - {instanceID} == w.t.bindings;
  }

  lemma ReleasesCommute(w: World, a: int, b: int, p: int)
    ensures Next(Next(w, ReleaseStep(a, p)), ReleaseStep(b, p)) == Next(Next(w, ReleaseStep(b, p)), ReleaseStep(a, p))
  {
    Released(w, a, p);
    Released(w, b, p);
    Released(Next(w, ReleaseStep(a, p)), b, p);
    Released(Next(w, ReleaseStep(b, p)), a, p);
    hide Next, ReleaseSlot, Holders;
    Overwritten(w.claims, p, Holders(w, p) - multiset{a}, Holders(w, p) - multiset{a} - multiset{b});
    Overwritten(w.claims, p, Holders(w, p) - multiset{b}, Holders(w, p) - multiset{b} - multiset{a});
    assert Holders(w, p) - multiset{a} - multiset{b} == Holders(w, p) - multiset{b} - multiset{a};
  }

  lemma Released(w: World, a: int, p: int)
    ensures
      var u := Next(w, ReleaseStep(a, p));
      && u == World(ReleaseSlot(w.t, p), w.claims[p := Holders(w, p) - multiset{a}])
      && Holders(u, p) == Holders(w, p) - multiset{a}
  {
    hide ReleaseSlot;
  }

  lemma Overwritten<K, V>(m: map<K, V>, k: K, v: V, last: V)
    ensures m[k := v][k := last] == m[k := last]
  {
  }

  lemma OneDrain(w: World, first: int, second: int, instanceID: int, p: int)
    requires Sound(w) && Conserved(w) && first != second
    requires instanceID in w.t.bindings && w.t.bindings[instanceID].podID == p
    ensures p in w.t.pods
    ensures
      var v := Next(Next(w, UnbindStep(first, instanceID)), ReleaseStep(first, p));
      Conserved(Next(v, ReleaseStep(second, p))) <==> Holds(w, second, p) || w.t.pods[p].usedSlots == 1
  {
    hide Next, Bound, Claims, Holds, Holders, Conserved, Sound, CreateBinding;
    var unbind, release1, release2 := UnbindStep(first, instanceID), ReleaseStep(first, p), ReleaseStep(second, p);
    var u := Next(w, unbind);
    DrainStep(w, unbind, p);
    DrainHolders(w, unbind, p);
    HolderOf(u, first, p);
    var v := Next(u, release1);
    DrainStep(u, release1, p);
    DrainHolders(u, release1, p);
    HolderOf(w, second, p);
    HolderOf(v, second, p);
    DrainStep(v, release2, p);
    SlotsAre(w, p);
    SlotsAre(v, p);
  }

  lemma HolderOf(w: World, caller: int, p: int)
    ensures Holds(w, caller, p) <==> caller in Holders(w, p)
  {
  }

  lemma DrainHolders(w: World, s: Step, p: int)
    requires s.UnbindStep? || (s.ReleaseStep? && s.podID == p)
    ensures Holders(Next(w, s), p) ==
      if s.ReleaseStep? then Holders(w, p) - multiset{s.caller}
      else if s.instanceID in w.t.bindings && w.t.bindings[s.instanceID].podID == p then
        Holders(w, p) + multiset{s.caller}
      else Holders(w, p)
  {
  }

  lemma SlotsAre(w: World, p: int)
    requires Conserved(w) && p in w.t.pods
    ensures w.t.pods[p].usedSlots == Bound(w.t, p) + Claims(w, p)
  {
  }

  lemma DrainStep(w: World, s: Step, p: int)
    requires Sound(w) && Conserved(w) && (s.UnbindStep? || s.ReleaseStep?)
    requires s.ReleaseStep? ==> s.podID == p
    requires p in w.t.pods || (s.UnbindStep? && s.instanceID in w.t.bindings && w.t.bindings[s.instanceID].podID == p)
    ensures Sound(Next(w, s)) && (Conserved(Next(w, s)) <==> Honest(w, s))
    ensures p in w.t.pods && p in Next(w, s).t.pods
    ensures s.UnbindStep? ==>
      var here := if s.instanceID in w.t.bindings && w.t.bindings[s.instanceID].podID == p then 1 else 0;
      Bound(Next(w, s).t, p) == Bound(w.t, p) - here && Claims(Next(w, s), p) == Claims(w, p) + here
    ensures s.ReleaseStep? ==>
      Bound(Next(w, s).t, p) == Bound(w.t, p) && Claims(Next(w, s), p) == Less(w, s.caller, p, true)
  {
    StepSound(w, s);
    StepConserves(w, s);
    StepBound(w, s, p);
    StepClaims(w, s, p);
    PodSlots(w, s, p);
  }

  // Draining

  /** A step that restores a pod to service: only a state change or a heartbeat of that pod can. */
  predicate Restores(s: Step, p: int) {
    (s.MarkStep? && s.podID == p) || (s.HeartbeatStep? && s.podID == p)
  }

  lemma StepStaysClosed(w: World, s: Step, p: int)
    requires Sound(w) && p in w.t.pods && !Restores(s, p)
    requires w.t.pods[p].state != "ready" || w.t.pods[p].draining
    ensures p in Next(w, s).t.pods && (Next(w, s).t.pods[p].state != "ready" || Next(w, s).t.pods[p].draining)
    ensures Next(w, s).t.pods[p].usedSlots <= w.t.pods[p].usedSlots || w.t.pods[p].usedSlots < 0
  {
    hide PortTaken;
  }

  /**
   A pod that is draining or not ready gains no slot in any interleaving, disciplined or not,
   re-registrations included, until its state is marked or a heartbeat comes in.
   */
  lemma {:induction false} DrainingGainsNothing(w: World, steps: seq<Step>, p: int)
    requires Sound(w) && p in w.t.pods && w.t.pods[p].usedSlots >= 0
    requires w.t.pods[p].state != "ready" || w.t.pods[p].draining
    requires forall k :: 0 <= k < |steps| ==> !Restores(steps[k], p)
    ensures
      var u := RunAll(w, steps);
      && Sound(u) && p in u.t.pods && 0 <= u.t.pods[p].usedSlots <= w.t.pods[p].usedSlots
      && (u.t.pods[p].state != "ready" || u.t.pods[p].draining)
    decreases |steps|
  {
    if steps != [] {
      hide Next, Sound, Open;
      var n := |steps| - 1;
      DrainingGainsNothing(w, steps[..n], p);
      var u := RunAll(w, steps[..n]);
      StepSound(u, steps[n]);
      StepStaysClosed(u, steps[n], p);
      PodSlots(u, steps[n], p);
    }
  }

  // Fencing of rows

  /** The part of a binding that fencing decides: its generation, state and error message. */
  function BindingRow(b: Binding): Row<(string, Option<string>)> {
    Row(b.generation, (b.state, b.errorMessage))
  }

  function WriteRow(w: BindingWrite): Row<(string, Option<string>)> {
    match w
    case Running(g, _, _, _, _) => Row(g, ("running", None))
    case Stated(g, state, message) => Row(g, (state, message))
  }

  function WriteRows(ws: seq<BindingWrite>): seq<Row<(string, Option<string>)>> {
    seq(|ws|, k requires 0 <= k < |ws| => WriteRow(ws[k]))
  }

  function WriteBindings(t: Tables, instanceID: int, ws: seq<BindingWrite>): (u: Tables)
    ensures u.bindings.Keys == t.bindings.Keys
  {
    if ws == [] then t else WriteBinding(WriteBindings(t, instanceID, ws[..|ws| - 1]), instanceID, ws[|ws| - 1]).0
  }

  /** No reported port is held by another instance of the pod. */
  predicate PortsFree(t: Tables, instanceID: int, ws: seq<BindingWrite>) {
    instanceID in t.bindings &&
    forall k :: 0 <= k < |ws| && ws[k].Running? ==> !PortTaken(t, instanceID, t.bindings[instanceID].podID, ws[k].port)
  }

  /** Reports on one instance are fenced writes to its binding, and touch no other row. */
  lemma {:induction false} BindingIsFenced(t: Tables, instanceID: int, ws: seq<BindingWrite>)
    requires PortsFree(t, instanceID, ws)
    ensures
      var u := WriteBindings(t, instanceID, ws);
      && instanceID in u.bindings && u.bindings[instanceID].podID == t.bindings[instanceID].podID
      && u == t.(bindings := t.bindings[instanceID := u.bindings[instanceID]])
      && BindingRow(u.bindings[instanceID]) == WriteAll(BindingRow(t.bindings[instanceID]), WriteRows(ws))
    decreases |ws|
  {
    if ws == [] {
      assert t.bindings == t.bindings[instanceID := t.bindings[instanceID]];
    } else {
      hide PortTaken;
      var n := |ws| - 1;
      BindingIsFenced(t, instanceID, ws[..n]);
      assert WriteRows(ws)[..n] == WriteRows(ws[..n]);
      var u := WriteBindings(t, instanceID, ws[..n]);
      if ws[n].Running? {
        SamePorts(t, u, instanceID, ws[n].port);
      }
    }
  }

  lemma SamePorts(t: Tables, u: Tables, instanceID: int, port: int)
    requires instanceID in t.bindings && instanceID in u.bindings
    requires u.bindings == t.bindings[instanceID := u.bindings[instanceID]]
    requires u.bindings[instanceID].podID == t.bindings[instanceID].podID
    ensures PortTaken(u, instanceID, u.bindings[instanceID].podID, port)
      <==> PortTaken(t, instanceID, t.bindings[instanceID].podID, port)
  {
    if PortTaken(u, instanceID, u.bindings[instanceID].podID, port) {
      var i :| i in u.bindings && i != instanceID && u.bindings[i].podID == u.bindings[instanceID].podID
        && u.bindings[i].port == port;
      assert t.bindings[i] == u.bindings[i];
    }
    if PortTaken(t, instanceID, t.bindings[instanceID].podID, port) {
      var i :| i in t.bindings && i != instanceID && t.bindings[i].podID == t.bindings[instanceID].podID
        && t.bindings[i].port == port;
      assert t.bindings[i] == u.bindings[i];
    }
  }

  /** Two deliveries of the same reports, in any order, end in the same generation, state and message. */
  lemma ReportsConverge(t: Tables, instanceID: int, ws: seq<BindingWrite>, vs: seq<BindingWrite>)
    requires PortsFree(t, instanceID, ws) && PortsFree(t, instanceID, vs)
    requires multiset(WriteRows(vs)) == multiset(WriteRows(ws))
    requires forall i, j :: 0 <= i < j < |ws| ==> ws[i].generation != ws[j].generation
    ensures BindingRow(WriteBindings(t, instanceID, vs).bindings[instanceID])
      == BindingRow(WriteBindings(t, instanceID, ws).bindings[instanceID])
  {
    BindingIsFenced(t, instanceID, ws);
    BindingIsFenced(t, instanceID, vs);
    DistinctGenerationsAgree(BindingRow(t.bindings[instanceID]), WriteRows(ws));
    AgreeingWritesReorder(BindingRow(t.bindings[instanceID]), WriteRows(vs), WriteRows(ws));
  }

  /** The instance row is fenced alike: an accepted write is the fenced one, a refused one is stale. */
  function InstanceRow(i: Instance): Row<(string, Option<string>)> {
    Row(i.generation, (i.status, i.message))
  }

  function InstanceRows(ws: seq<Instance>): seq<Row<(string, Option<string>)>> {
    seq(|ws|, k requires 0 <= k < |ws| => InstanceRow(ws[k]))
  }

  function WriteInstances(t: Tables, instanceID: int, ws: seq<Instance>): Tables {
    if ws == [] then t else WriteInstance(WriteInstances(t, instanceID, ws[..|ws| - 1]), instanceID, ws[|ws| - 1]).0
  }

  lemma {:induction false} InstanceIsFenced(t: Tables, instanceID: int, ws: seq<Instance>)
    requires instanceID in t.instances
    ensures
      var u := WriteInstances(t, instanceID, ws);
      && instanceID in u.instances
      && u == t.(instances := t.instances[instanceID := u.instances[instanceID]])
      && InstanceRow(u.instances[instanceID]) == WriteAll(InstanceRow(t.instances[instanceID]), InstanceRows(ws))
    decreases |ws|
  {
    if ws == [] {
      assert t.instances == t.instances[instanceID := t.instances[instanceID]];
    } else {
      var n := |ws| - 1;
      InstanceIsFenced(t, instanceID, ws[..n]);
      assert InstanceRows(ws)[..n] == InstanceRows(ws[..n]);
    }
  }

  /** So two deliveries of the same reports, in any order, leave the same instance row. */
  lemma InstanceReportsConverge(t: Tables, instanceID: int, ws: seq<Instance>, vs: seq<Instance>)
    requires instanceID in t.instances && multiset(InstanceRows(vs)) == multiset(InstanceRows(ws))
    requires forall i, j :: 0 <= i < j < |ws| ==> ws[i].generation != ws[j].generation
    ensures WriteInstances(t, instanceID, vs) == WriteInstances(t, instanceID, ws)
  {
    InstanceIsFenced(t, instanceID, ws);
    InstanceIsFenced(t, instanceID, vs);
    var row := InstanceRow(t.instances[instanceID]);
    DistinctGenerationsAgree(row, InstanceRows(ws));
    AgreeingWritesReorder(row, InstanceRows(vs), InstanceRows(ws));
  }
}
