/**
 Which pods take slots, over runs of the lite pool: claims against marks, heartbeats, sweeps and
 registrations, and the unique keys of pods and bindings.
 */
module PodRuns {
  import opened Options
  import opened RuntimePool

  // Claims

  /** Claims of some callers on one pod, in turn. */
  function ClaimsOn(p: int, callers: seq<int>): seq<Step> {
    seq(|callers|, k requires 0 <= k < |callers| => ClaimStep(callers[k], p))
  }

  lemma OneClaim(w: World, p: int, caller: int)
    requires p in w.t.pods && w.t.pods[p].state == "ready" && !w.t.pods[p].draining
    ensures
      var pod, u := w.t.pods[p], Next(w, ClaimStep(caller, p));
      var taken := if pod.usedSlots < pod.capacity then 1 else 0;
      u.t.pods == w.t.pods[p := pod.(usedSlots := pod.usedSlots + taken)] && Claims(u, p) == Claims(w, p) + taken
  {
    StepClaims(w, ClaimStep(caller, p), p);
    hide Claims, Take;
  }

  /** A pod that is ready and not draining fills up to its capacity, one slot a claim, and changes in nothing else. */
  lemma {:induction false} ClaimsFill(w: World, p: int, callers: seq<int>)
    requires p in w.t.pods && w.t.pods[p].state == "ready" && !w.t.pods[p].draining
    requires w.t.pods[p].usedSlots <= w.t.pods[p].capacity
    ensures
      var pod, u := w.t.pods[p], RunAll(w, ClaimsOn(p, callers));
      var room := pod.capacity - pod.usedSlots;
      var taken := if |callers| <= room then |callers| else room;
      u.t.pods == w.t.pods[p := pod.(usedSlots := pod.usedSlots + taken)] && Claims(u, p) == Claims(w, p) + taken
    decreases |callers|
  {
    hide Next, Claims;
    if callers != [] {
      var n := |callers| - 1;
      ClaimsFill(w, p, callers[..n]);
      assert ClaimsOn(p, callers)[..n] == ClaimsOn(p, callers[..n]);
      OneClaim(RunAll(w, ClaimsOn(p, callers[..n])), p, callers[n]);
    }
  }

  // Opening and closing a pod

  /** After a mark, a claim is granted exactly if the mark said ready and not draining, and there is room. */
  lemma MarkDecides(w: World, p: int, state: string, draining: bool)
    requires p in w.t.pods
    ensures ClaimSlot(Next(w, MarkStep(p, state, draining)).t, p).1 <==>
      state == "ready" && !draining && w.t.pods[p].usedSlots < w.t.pods[p].capacity
  {
  }

  /** After a heartbeat and a sweep, a claim is granted exactly if the heartbeat came at the cutoff or later as well. */
  lemma HeartbeatOutlivesSweep(
    w: World, p: int, state: string, used: int, capacity: int, draining: bool, seen: int, cutoff: int
  )
    requires p in w.t.pods
    ensures
      var beaten := Next(w, HeartbeatStep(p, state, used, capacity, draining, seen));
      ClaimSlot(Next(beaten, UnseenStep(cutoff)).t, p).1 <==>
        state == "ready" && !draining && used < capacity && cutoff <= seen
  {
  }

  /** The step closes the pod: a mark or heartbeat that says so, or a sweep that has not seen it since its cutoff. */
  predicate Closes(w: World, s: Step, p: int)
    requires p in w.t.pods
  {
    match s
    case MarkStep(q, state, draining) => q == p && (state != "ready" || draining)
    case HeartbeatStep(q, state, used, _, draining, _) => q == p && (state != "ready" || draining) && used >= 0
    case UnseenStep(cutoff) => w.t.pods[p].lastSeenAt.None? || w.t.pods[p].lastSeenAt.value < cutoff
    case _ => false
  }

  /** Once closed, a pod gains no slot in any interleaving, until its state is marked or a heartbeat comes in. */
  lemma ClosedGainsNothing(w: World, s: Step, steps: seq<Step>, p: int)
    requires Sound(w) && p in w.t.pods && w.t.pods[p].usedSlots >= 0 && Closes(w, s, p)
    requires forall k :: 0 <= k < |steps| ==> !Restores(steps[k], p)
    ensures
      var used := if s.HeartbeatStep? then s.usedSlots else w.t.pods[p].usedSlots;
      var u := RunAll(Next(w, s), steps);
      p in u.t.pods && 0 <= u.t.pods[p].usedSlots <= used && !ClaimSlot(u.t, p).1
  {
    StepSound(w, s);
    JustClosed(w, s, p);
    hide Next, Sound;
    DrainingGainsNothing(Next(w, s), steps, p);
  }

  lemma JustClosed(w: World, s: Step, p: int)
    requires p in w.t.pods && Closes(w, s, p)
    ensures p in Next(w, s).t.pods
    ensures
      var pod := Next(w, s).t.pods[p];
      && (pod.state != "ready" || pod.draining)
      && pod.usedSlots == if s.HeartbeatStep? then s.usedSlots else w.t.pods[p].usedSlots
  {
  }

  /** A sweep leaves the pods seen since its cutoff alone. */
  lemma SeenPodStays(w: World, cutoff: int, p: int)
    requires p in w.t.pods && w.t.pods[p].lastSeenAt.Some? && cutoff <= w.t.pods[p].lastSeenAt.value
    ensures p in Next(w, UnseenStep(cutoff)).t.pods && Next(w, UnseenStep(cutoff)).t.pods[p] == w.t.pods[p]
  {
  }

  // Unique keys

  /** No two bindings hold the same port of a pod. */
  ghost predicate PortsUnique(t: Tables) {
    forall i, j :: i in t.bindings && j in t.bindings && i != j ==>
      t.bindings[i].podID != t.bindings[j].podID || t.bindings[i].port != t.bindings[j].port
  }

  /** No two pods have the same namespace and name. */
  ghost predicate NamesUnique(t: Tables) {
    forall p, q :: p in t.pods && q in t.pods && p != q ==>
      t.pods[p].namespace != t.pods[q].namespace || t.pods[p].name != t.pods[q].name
  }

  /** Nobody but the instance holds the port. */
  ghost predicate Free(t: Tables, instanceID: int, podID: int, port: int) {
    forall j :: j in t.bindings && t.bindings[j].podID == podID && t.bindings[j].port == port ==> j == instanceID
  }

  /**
   A binding is taken exactly if its pod and instance are there, the instance is unbound and the port is free; and a
   running report is refused for its port exactly if it is not behind and the port is not free.
   */
  lemma PortsDecide(t: Tables, instanceID: int, b: Binding, write: BindingWrite)
    requires write.Running?
    ensures CreateBinding(t, instanceID, b).1.None? <==>
      && b.podID in t.pods && instanceID in t.instances && instanceID !in t.bindings
      && Free(t, instanceID, b.podID, b.port)
    ensures WriteBinding(t, instanceID, write).1 == Some(ConstraintViolation) <==>
      && instanceID in t.bindings && t.bindings[instanceID].generation <= write.generation
      && !Free(t, instanceID, t.bindings[instanceID].podID, write.port)
  {
  }

  lemma StepPorts(w: World, s: Step)
    requires PortsUnique(w.t)
    ensures PortsUnique(Next(w, s).t)
  {
    hide Open, Known, Take, Spend;
  }

  /** A step leaves the names of the pods there are. */
  lemma PodKeepsName(w: World, s: Step, p: int)
    requires Sound(w) && p in w.t.pods
    ensures p in Next(w, s).t.pods
    ensures Next(w, s).t.pods[p].namespace == w.t.pods[p].namespace && Next(w, s).t.pods[p].name == w.t.pods[p].name
  {
    hide Open, PortTaken, Take, Spend, Unseen;
  }

  lemma StepNames(w: World, s: Step)
    requires Sound(w) && NamesUnique(w.t)
    ensures NamesUnique(Next(w, s).t)
  {
    StepPods(w, s);
    forall p | p in w.t.pods
      ensures p in Next(w, s).t.pods
      ensures Next(w, s).t.pods[p].namespace == w.t.pods[p].namespace && Next(w, s).t.pods[p].name == w.t.pods[p].name
    {
      PodKeepsName(w, s, p);
    }
    if s.RegisterStep? && !Known(w.t, s.report) {
      assert forall p :: p in w.t.pods ==> !SamePod(w.t.pods[p], s.report);
    }
    hide Next, Sound, Known;
  }

  /** In every run, disciplined or not, no port of a pod is held twice and no pod is there twice. */
  lemma {:induction false} KeysStayUnique(w: World, steps: seq<Step>)
    requires Sound(w) && PortsUnique(w.t) && NamesUnique(w.t)
    ensures
      var u := RunAll(w, steps);
      Sound(u) && PortsUnique(u.t) && NamesUnique(u.t)
    decreases |steps|
  {
    if steps != [] {
      hide Next, Sound, PortsUnique, NamesUnique;
      var n := |steps| - 1;
      KeysStayUnique(w, steps[..n]);
      var u := RunAll(w, steps[..n]);
      StepSound(u, steps[n]);
      StepPorts(u, steps[n]);
      StepNames(u, steps[n]);
    }
  }

  /** The pod is the one a report is about. */
  predicate Named(pod: Pod, report: Pod) {
    pod.namespace == report.namespace && pod.name == report.name
  }

  /**
   A registration leaves exactly one pod under its namespace and name, with what it reports. If the pod was there it
   keeps its state, used slots and draining flag; no other pod changes.
   */
  lemma RegistersOnce(w: World, report: Pod) returns (p: int)
    requires Sound(w) && NamesUnique(w.t)
    ensures
      var before, after := w.t.pods, Next(w, RegisterStep(report)).t.pods;
      && p in after && Named(after[p], report)
      && (forall q :: q in after && q != p ==> q in before && after[q] == before[q] && !Named(after[q], report))
      && (p !in before ==> after[p] == report && forall q :: q in before ==> !Named(before[q], report))
      && (p in before ==>
            after[p] == before[p].(runtimeType := report.runtimeType, details := report.details,
                                   capacity := report.capacity, lastSeenAt := report.lastSeenAt))
  {
    if q :| q in w.t.pods && Named(w.t.pods[q], report) {
      p := q;
      assert SamePod(w.t.pods[q], report);
    } else {
      p := w.t.nextPodID;
    }
  }
}
