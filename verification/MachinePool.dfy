/**
 The life of one KarpenterMachinePool, as a state machine over the reconciler's remote calls. The pool is
 read possibly stale but never older than before; the parent cluster's deletion flag is read with any
 staleness. Karpenter launches instances while its NodePool exists and the workload API is alive.
 */
module MachinePool {
  import opened Results
  import opened ApiServer

  const KARPENTER := "capa-operator.finalizers.giantswarm.io/karpenter-controller"

  /** The next remote call; `version` is the version of the pool this reconcile read. */
  datatype Pc =
    | Idle
    | PatchesFinalizer(version: nat)
    | CreatesNodeClass(version: nat)
    | CreatesNodePool(version: nat)
    | Uploads(version: nat)
    | Defers(version: nat)            // the deferred patch of a normal reconcile
    | DeletesNodePool(version: nat, seesDeletion: bool)
    | DeletesNodeClass(version: nat, seesDeletion: bool)
    | Lists(version: nat, seesDeletion: bool)
    | Terminates(found: set<int>)
    | DeletesUserData(version: nat, seesDeletion: bool)
    | Releases(version: nat, seesDeletion: bool)  // the deferred patch that drops the finalizer

  datatype State = State(
    log: Log,               // the pool's versions
    seen: nat,              // the newest version read so far
    clusterDeleting: bool,
    apiAlive: bool,         // the workload cluster's API, and Karpenter with it
    nodePool: bool,
    nodeClass: bool,
    instances: set<int>,    // non-terminated, tagged with this pool and this cluster
    userData: bool,         // the pool's object in the cluster's bucket
    managed: bool,          // EKS: no bucket, no upload
    pc: Pc)

  datatype Event =
    | Reads(version: nat, seesDeletion: bool)
    | ReadsAndWaits(version: nat)   // paused, version skew, or something it needs is missing
    | FinalizerPatched(fault: Fault)
    | NodeClassApplied(fault: Fault)
    | NodePoolApplied(fault: Fault)
    | UserDataPut(fault: Fault)
    | Deferred(fault: Fault)
    | NodePoolDeleted(fault: Fault)
    | NodeClassDeleted(fault: Fault)
    | Listed(fault: Fault)
    | Terminated(fault: Fault, gone: set<int>)
    | UserDataDeleted(fault: Fault)
    | FinalizerDropped(fault: Fault)
    | Restart
    | ClusterDeletionStarts
    | ApiDies
    | Launch(instance: int)
    | InstanceEnds(instance: int)
    | OtherWriter(meta: Meta)

  function Copy(s: State, version: nat): seq<string>
    requires version < |s.log|
  {
    s.log[version].finalizers
  }

  /** The patch helper sends the changed list with no lock. */
  function Attempt(log: Log, finalizers: Option<seq<string>>, fault: Fault): (Log, bool) {
    var r := Apply(log, Patch(None, finalizers));
    if fault == FailsBefore || r.Err? then (log, false) else (r.value, fault == NoFault)
  }

  /** After a failed deletion of the Karpenter resources: an error while the cluster is seen alive, ignored otherwise. */
  function AfterDeletionFailure(version: nat, seesDeletion: bool): Pc {
    if seesDeletion then Lists(version, seesDeletion) else Idle
  }

  ghost predicate NormalStep(s: State, e: Event, t: State) {
    match e
    case ReadsAndWaits(v) => s.pc == Idle && s.seen <= v < |s.log| && t == s.(seen := v)
    case FinalizerPatched(fault) =>
      && s.pc.PatchesFinalizer? && s.pc.version < |s.log|
      && (var copy := Copy(s, s.pc.version);
          var (log, goesOn) := Attempt(s.log, Diff(copy, WithFinalizer(copy, KARPENTER)), fault);
          t == s.(log := log, pc := if goesOn then CreatesNodeClass(s.pc.version) else Idle))
    case NodeClassApplied(fault) =>
      && s.pc.CreatesNodeClass?
      && (fault != FailsBefore ==> s.apiAlive)
      && t == s.(nodeClass := s.nodeClass || fault != FailsBefore,
                 pc := if fault == NoFault then CreatesNodePool(s.pc.version) else Defers(s.pc.version))
    case NodePoolApplied(fault) =>
      && s.pc.CreatesNodePool?
      && (fault != FailsBefore ==> s.apiAlive)
      && t == s.(nodePool := s.nodePool || fault != FailsBefore,
                 pc := if fault == NoFault && !s.managed then Uploads(s.pc.version) else Defers(s.pc.version))
    case UserDataPut(fault) =>
      && s.pc.Uploads?
      && t == s.(userData := s.userData || fault != FailsBefore, pc := Defers(s.pc.version))
    case Deferred(fault) =>
      && s.pc.Defers? && s.pc.version < |s.log|
      && (var copy := Copy(s, s.pc.version);
          t == s.(log := Attempt(s.log, Diff(copy, WithFinalizer(copy, KARPENTER)), fault).0, pc := Idle))
    case _ => false
  }

  ghost predicate DeleteStep(s: State, e: Event, t: State) {
    match e
    case Reads(v, seesDeletion) =>
      && s.pc == Idle && s.seen <= v < |s.log| && (seesDeletion ==> s.clusterDeleting)
      && t == s.(seen := v, pc := if s.log[v].deleting then DeletesNodePool(v, seesDeletion) else PatchesFinalizer(v))
    case NodePoolDeleted(fault) =>
      && s.pc.DeletesNodePool?
      && (fault != FailsBefore ==> s.apiAlive)
      && t == s.(nodePool := s.nodePool && fault == FailsBefore,
                 pc := if fault == NoFault then DeletesNodeClass(s.pc.version, s.pc.seesDeletion)
                       else AfterDeletionFailure(s.pc.version, s.pc.seesDeletion))
    case NodeClassDeleted(fault) =>
      && s.pc.DeletesNodeClass?
      && (fault != FailsBefore ==> s.apiAlive)
      && t == s.(nodeClass := s.nodeClass && fault == FailsBefore,
                 pc := if fault == NoFault then Lists(s.pc.version, s.pc.seesDeletion)
                       else AfterDeletionFailure(s.pc.version, s.pc.seesDeletion))
    case Listed(fault) =>
      && s.pc.Lists?
      && t == s.(pc := if fault != NoFault then Idle
                       else if s.instances != {} then
                         (if s.pc.seesDeletion then Terminates(s.instances) else Idle)
                       else if s.managed then Releases(s.pc.version, s.pc.seesDeletion)
                       else DeletesUserData(s.pc.version, s.pc.seesDeletion))
    case Terminated(fault, gone) =>
      && s.pc.Terminates? && gone <= s.pc.found
      && t == s.(instances := if fault == FailsBefore then s.instances else s.instances - gone, pc := Idle)
    case UserDataDeleted(fault) =>
      && s.pc.DeletesUserData?
      && t == s.(userData := s.userData && fault == FailsBefore,
                 pc := if fault == NoFault then Releases(s.pc.version, s.pc.seesDeletion) else Idle)
    case FinalizerDropped(fault) =>
      && s.pc.Releases? && s.pc.version < |s.log|
      && (var copy := Copy(s, s.pc.version);
          t == s.(log := Attempt(s.log, Diff(copy, WithoutFinalizer(copy, KARPENTER)), fault).0, pc := Idle))
    case _ => false
  }

  ghost predicate OutsideStep(s: State, e: Event, t: State) {
    match e
    case Restart => t == s.(pc := Idle)
    case ClusterDeletionStarts => t == s.(clusterDeleting := true)
    case ApiDies => t == s.(apiAlive := false)
    case Launch(i) => s.nodePool && s.apiAlive && t == s.(instances := s.instances + {i})
    case InstanceEnds(i) => t == s.(instances := s.instances - {i})
    case OtherWriter(m) => Foreign(Current(s.log), m, {KARPENTER}) && t == s.(log := s.log + [m])
    case _ => false
  }

  ghost predicate Next(s: State, e: Event, t: State) {
    NormalStep(s, e, t) || DeleteStep(s, e, t) || OutsideStep(s, e, t)
  }

  ghost predicate Initial(s: State) {
    && Lawful(s.log) && s.seen < |s.log| && s.pc == Idle
    && (forall v :: 0 <= v < |s.log| ==> KARPENTER !in s.log[v].finalizers)
    && !s.nodePool && !s.nodeClass && !s.userData && s.instances == {}
  }

  // ---- the invariant ----

  predicate Held(s: State) {
    KARPENTER in Current(s.log).finalizers
  }

  predicate NormalPc(pc: Pc) {
    pc.CreatesNodeClass? || pc.CreatesNodePool? || pc.Uploads? || pc.Defers?
  }

  predicate DeletePc(pc: Pc) {
    pc.DeletesNodePool? || pc.DeletesNodeClass? || pc.Lists? || pc.DeletesUserData? || pc.Releases?
  }

  /** The finalizer, once persisted, disappears only after this controller has seen the pool deleted. */
  ghost predicate DroppedOnlyAfterDeletion(s: State)
    requires s.seen < |s.log|
  {
    forall v :: 0 <= v < |s.log| && KARPENTER in s.log[v].finalizers && !Held(s) ==> s.log[s.seen].deleting
  }

  ghost predicate PcInv(s: State)
    requires s.seen < |s.log|
  {
    && (s.pc.PatchesFinalizer? || NormalPc(s.pc) ==> s.pc.version == s.seen && !s.log[s.seen].deleting)
    && (NormalPc(s.pc) ==> Held(s))
    && (DeletePc(s.pc) ==> s.pc.version == s.seen && s.log[s.seen].deleting)
    && (s.pc.Releases? ==> !s.userData)
    && (s.pc.Uploads? || s.pc.DeletesUserData? ==> !s.managed)
  }

  /** The NodePool is gone once its deletion was answered; only a reconcile that saw the cluster being deleted goes
      on without an answer. */
  predicate Answered(s: State) {
    || s.pc.DeletesNodeClass?
    || ((s.pc.Lists? || s.pc.DeletesUserData? || s.pc.Releases?) && !s.pc.seesDeletion)
    ==> !s.nodePool
  }

  /** Nothing can launch for this pool. */
  predicate Quiet(s: State) {
    !(s.nodePool && s.apiAlive)
  }

  ghost predicate Inv(s: State) {
    && Lawful(s.log) && s.seen < |s.log|
    && DroppedOnlyAfterDeletion(s) && PcInv(s) && Answered(s)
    && (s.userData ==> Held(s) && !s.managed)
    && ((s.pc.DeletesUserData? || s.pc.Releases?) && s.instances != {} ==> s.nodePool)
  }

  /** The whole-list patch of a copy adds its own finalizer, and reaches a held finalizer only to keep it. */
  lemma FinalizerPatchHolds(s: State, version: nat, fault: Fault)
    requires Lawful(s.log) && version < |s.log|
    ensures
      var copy := Copy(s, version);
      var (log, goesOn) := Attempt(s.log, Diff(copy, WithFinalizer(copy, KARPENTER)), fault);
      && Lawful(log) && s.log <= log
      && (goesOn ==> KARPENTER in Current(log).finalizers || KARPENTER in copy)
      && (Held(s) ==> KARPENTER in Current(log).finalizers)
      && (log != s.log ==> |log| == |s.log| + 1 && KARPENTER in Current(log).finalizers)
  {
    var copy := Copy(s, version);
    ApplyKeepsLawful(s.log, Patch(None, Diff(copy, WithFinalizer(copy, KARPENTER))));
    assert KARPENTER in WithFinalizer(copy, KARPENTER);
  }

  lemma NormalStepKeepsInv(s: State, e: Event, t: State)
    requires Inv(s) && NormalStep(s, e, t)
    ensures Inv(t)
  {
    if e.FinalizerPatched? || e.Deferred? {
      FinalizerPatchHolds(s, s.pc.version, e.fault);
      assert forall v :: 0 <= v < |s.log| ==> t.log[v] == s.log[v];
    } else if e.ReadsAndWaits? {
      DeletionIsFinal(s.log, s.seen, e.version);
    }
  }

  lemma {:induction false} DeletionIsFinal(log: Log, seen: nat, later: nat)
    requires Lawful(log) && seen <= later < |log|
    ensures log[seen].deleting ==> log[later].deleting
    decreases later
  {
    if seen < later {
      DeletionIsFinal(log, seen, later - 1);
    }
  }

  lemma DropKeepsInv(s: State, fault: Fault, t: State)
    requires Inv(s) && DeleteStep(s, FinalizerDropped(fault), t)
    ensures Inv(t)
  {
    var copy := Copy(s, s.pc.version);
    ApplyKeepsLawful(s.log, Patch(None, Diff(copy, WithoutFinalizer(copy, KARPENTER))));
    hide Lawful;
    assert forall v :: 0 <= v < |s.log| ==> t.log[v] == s.log[v];
  }

  lemma DeleteStepKeepsInv(s: State, e: Event, t: State)
    requires Inv(s) && DeleteStep(s, e, t)
    ensures Inv(t)
  {
    hide Lawful;
    hide Apply;
    if e.Reads? {
      DeletionIsFinal(s.log, s.seen, e.version);
    } else if e.FinalizerDropped? {
      DropKeepsInv(s, e.fault, t);
    }
  }

  lemma OutsideStepKeepsInv(s: State, e: Event, t: State)
    requires Inv(s) && OutsideStep(s, e, t)
    ensures Inv(t)
  {
    hide Lawful;
    if e.OtherWriter? {
      OtherWriterKeepsInv(s, e.meta);
    } else {
      assert t.log == s.log && t.seen == s.seen;
    }
  }

  lemma OtherWriterKeepsInv(s: State, meta: Meta)
    requires Inv(s) && Foreign(Current(s.log), meta, {KARPENTER})
    ensures Inv(s.(log := s.log + [meta]))
  {
    var t := s.(log := s.log + [meta]);
    AppendKeepsLawful(s.log, meta);
    hide Lawful;
    assert forall v :: 0 <= v < |s.log| ==> t.log[v] == s.log[v];
    assert Current(t.log) == meta;
    assert Held(t) <==> Held(s);
    hide Foreign;
    assert DroppedOnlyAfterDeletion(t) by {
      forall v | 0 <= v < |t.log| && KARPENTER in t.log[v].finalizers && !Held(t) ensures t.log[t.seen].deleting {
        assert v < |s.log|;
      }
    }
  }

  lemma StepKeepsInv(s: State, e: Event, t: State)
    requires Inv(s) && Next(s, e, t)
    ensures Inv(t)
  {
    if NormalStep(s, e, t) {
      NormalStepKeepsInv(s, e, t);
    } else if DeleteStep(s, e, t) {
      DeleteStepKeepsInv(s, e, t);
    } else {
      OutsideStepKeepsInv(s, e, t);
    }
  }

  ghost predicate Run(states: seq<State>, events: seq<Event>) {
    && |states| == |events| + 1 && Initial(states[0])
    && forall i :: 0 <= i < |events| ==> Next(states[i], events[i], states[i + 1])
  }

  lemma {:induction false} RunKeepsInv(states: seq<State>, events: seq<Event>, n: nat)
    requires Run(states, events) && n < |states|
    ensures Inv(states[n])
  {
    if n > 0 {
      RunKeepsInv(states, events, n - 1);
      StepKeepsInv(states[n - 1], events[n - 1], states[n]);
    }
  }

  // ---- the results ----

  /** NodePool, EC2NodeClass and user data are only ever written under a persisted finalizer, and user data that
      exists is covered by it at every moment. */
  lemma CreatedUnderFinalizer(states: seq<State>, events: seq<Event>, n: nat)
    requires Run(states, events) && n < |events|
    ensures events[n].NodeClassApplied? || events[n].NodePoolApplied? || events[n].UserDataPut? ==> Held(states[n])
    ensures states[n].userData ==> Held(states[n])
  {
    RunKeepsInv(states, events, n);
    assert Next(states[n], events[n], states[n + 1]);
  }

  /** When the finalizer is dropped the user data is gone, and no instance is left unless the NodePool is still
      there; a reconcile that saw the cluster alive leaves neither. */
  lemma ReleaseIsSafe(states: seq<State>, events: seq<Event>, n: nat)
    requires Run(states, events) && n < |events| && events[n].FinalizerDropped?
    ensures !states[n].userData
    ensures states[n].instances == {} || states[n].nodePool
    ensures states[n].pc.Releases? && (!states[n].pc.seesDeletion ==> states[n].instances == {} && !states[n].nodePool)
  {
    RunKeepsInv(states, events, n);
    assert Next(states[n], events[n], states[n + 1]);
  }

  predicate PastTheGate(s: State) {
    s.pc.DeletesUserData? || s.pc.Releases?
  }

  lemma ListingFoundNothing(s: State, fault: Fault, t: State)
    requires Next(s, Listed(fault), t) && PastTheGate(t)
    ensures t.instances == {} && t.nodePool == s.nodePool && t.apiAlive == s.apiAlive
  {
  }

  lemma GateKeepsQuiet(s: State, e: Event, t: State)
    requires Next(s, e, t) && PastTheGate(s) && PastTheGate(t)
    requires Quiet(s) && s.instances == {}
    ensures Quiet(t) && t.instances == {}
  {
  }

  /** If nothing could launch when the instances were listed, none is left when the finalizer is dropped. */
  lemma {:induction false} QuietListingStaysEmpty(states: seq<State>, events: seq<Event>, n: nat, later: nat)
    requires Run(states, events) && n < later < |states|
    requires events[n].Listed? && Quiet(states[n])
    requires forall i :: n < i <= later ==> PastTheGate(states[i])
    ensures states[later].instances == {} && Quiet(states[later])
    decreases later
  {
    assert Next(states[later - 1], events[later - 1], states[later]);
    assert PastTheGate(states[later]);
    if later == n + 1 {
      ListingFoundNothing(states[n], events[n].fault, states[later]);
    } else {
      assert PastTheGate(states[later - 1]);
      QuietListingStaysEmpty(states, events, n, later - 1);
      GateKeepsQuiet(states[later - 1], events[later - 1], states[later]);
    }
  }

  /** The worker has seen the pool deleted, no instance is left and nothing can launch one. */
  ghost predicate Ended(s: State) {
    Inv(s) && s.instances == {} && Quiet(s) && s.log[s.seen].deleting
  }

  lemma EndedStaysEnded(s: State, e: Event, t: State)
    requires Ended(s) && Next(s, e, t)
    ensures Ended(t)
  {
    StepKeepsInv(s, e, t);
    if e.Reads? || e.ReadsAndWaits? {
      DeletionIsFinal(s.log, s.seen, e.version);
    } else if e.FinalizerDropped? {
      assert s.log[s.seen] == t.log[s.seen];
    }
  }

  /** And the finalizer is gone. */
  ghost predicate Over(s: State) {
    Ended(s) && !Held(s)
  }

  lemma OverStaysOver(s: State, e: Event, t: State)
    requires Over(s) && Next(s, e, t)
    ensures Over(t)
  {
    EndedStaysEnded(s, e, t);
  }

  lemma DroppingEndsIt(s: State, fault: Fault, t: State)
    requires Inv(s) && Next(s, FinalizerDropped(fault), t) && !Held(t)
    requires Quiet(s) && s.instances == {}
    ensures Over(t)
  {
    StepKeepsInv(s, FinalizerDropped(fault), t);
    assert t.log[t.seen] == s.log[s.seen];
  }

  /** Dropped with the pool quiet and empty, the finalizer had nothing left to guard: no instance, no launch and no
      user data ever again. */
  lemma {:induction false} QuietReleaseIsFinal(states: seq<State>, events: seq<Event>, n: nat, later: nat)
    requires Run(states, events) && n < later < |states|
    requires events[n].FinalizerDropped? && !Held(states[n + 1])
    requires Quiet(states[n]) && states[n].instances == {}
    ensures Over(states[later]) && !states[later].userData
    decreases later
  {
    assert Next(states[later - 1], events[later - 1], states[later]);
    if later == n + 1 {
      RunKeepsInv(states, events, n);
      DroppingEndsIt(states[n], events[n].fault, states[later]);
    } else {
      QuietReleaseIsFinal(states, events, n, later - 1);
      OverStaysOver(states[later - 1], events[later - 1], states[later]);
    }
  }

  // ---- exactly when the gate leaks ----

  /** A run that goes on from a state. */
  ghost predicate Continues(t: State, states: seq<State>, events: seq<Event>) {
    && |states| == |events| + 1 && states[0] == t
    && forall i :: 0 <= i < |events| ==> Next(states[i], events[i], states[i + 1])
  }

  /** It ends with a drop of the finalizer while an instance is running. */
  ghost predicate Leaks(states: seq<State>, events: seq<Event>) {
    && 0 < |events| == |states| - 1 && events[|events| - 1].FinalizerDropped?
    && states[|events| - 1].instances != {} && !Held(states[|events|])
  }

  lemma {:induction false} EndedForGood(t: State, states: seq<State>, events: seq<Event>, n: nat)
    requires Ended(t) && Continues(t, states, events) && n < |states|
    ensures Ended(states[n])
  {
    if n > 0 {
      EndedForGood(t, states, events, n - 1);
      EndedStaysEnded(states[n - 1], events[n - 1], states[n]);
    }
  }

  lemma GateOpens(states: seq<State>, events: seq<Event>, n: nat)
    requires Run(states, events) && n < |events| && events[n].Listed? && PastTheGate(states[n + 1])
    ensures Inv(states[n + 1]) && states[n + 1].instances == {} && states[n + 1].log[states[n + 1].seen].deleting
    ensures Quiet(states[n]) <==> Quiet(states[n + 1])
  {
    RunKeepsInv(states, events, n + 1);
    assert Next(states[n], events[n], states[n + 1]);
    ListingFoundNothing(states[n], events[n].fault, states[n + 1]);
  }

  lemma ContinuesWith(t: State, states: seq<State>, events: seq<Event>, e: Event, u: State)
    requires Continues(t, states, events) && Next(states[|events|], e, u)
    ensures Continues(t, states + [u], events + [e])
  {
  }

  /** A reconcile that sees the cluster being deleted tolerates that the NodePool stays, and opens the gate. */
  lemma ToleratedFailureOpensGate(s: State) returns (states: seq<State>, events: seq<Event>)
    requires Inv(s) && s.instances == {} && s.log[s.seen].deleting && s.nodePool && s.apiAlive
    ensures Continues(s, states, events)
    ensures
      var t := states[|events|];
      && PastTheGate(t) && t.pc.version == Latest(t.log) && t.nodePool && t.apiAlive && t.instances == {}
      && t.managed == s.managed && (t.pc.Releases? <==> t.managed)
  {
    var v := Latest(s.log);
    DeletionIsFinal(s.log, s.seen, v);
    var s1 := s.(pc := Idle);
    var s2 := s1.(clusterDeleting := true);
    var s3 := s2.(seen := v, pc := DeletesNodePool(v, true));
    var s4 := s3.(pc := Lists(v, true));
    var s5 := s4.(pc := if s.managed then Releases(v, true) else DeletesUserData(v, true));
    assert Next(s, Restart, s1);
    assert Next(s1, ClusterDeletionStarts, s2);
    assert Next(s2, Reads(v, true), s3);
    assert Next(s3, NodePoolDeleted(FailsBefore), s4);
    assert Next(s4, Listed(NoFault), s5);
    hide Next;
    hide Inv;
    states := [s, s1, s2, s3, s4, s5];
    events := [Restart, ClusterDeletionStarts, Reads(v, true), NodePoolDeleted(FailsBefore), Listed(NoFault)];
  }

  /** Past the gate, an instance launched late is no obstacle to the drop. */
  lemma LateLaunchIsMissed(s: State) returns (states: seq<State>, events: seq<Event>)
    requires PastTheGate(s) && s.pc.version == Latest(s.log) && s.nodePool && s.apiAlive
    ensures Continues(s, states, events) && Leaks(states, events)
  {
    var v := s.pc.version;
    var s1 := s.(instances := s.instances + {0});
    assert Next(s, Launch(0), s1) && 0 in s1.instances;
    states, events := [s, s1], [Launch(0)];
    var s2 := s1;
    if s.pc.DeletesUserData? {
      s2 := s1.(userData := false, pc := Releases(v, s.pc.seesDeletion));
      assert Next(s1, UserDataDeleted(NoFault), s2);
      ContinuesWith(s, states, events, UserDataDeleted(NoFault), s2);
      states, events := states + [s2], events + [UserDataDeleted(NoFault)];
    }
    var s3 := DroppedFrom(s2);
    ContinuesWith(s, states, events, FinalizerDropped(NoFault), s3);
    states, events := states + [s3], events + [FinalizerDropped(NoFault)];
  }

  lemma DroppedFrom(s: State) returns (t: State)
    requires s.pc.Releases? && s.pc.version == Latest(s.log)
    ensures Next(s, FinalizerDropped(NoFault), t) && !Held(t)
  {
    var copy := Copy(s, s.pc.version);
    t := s.(log := Attempt(s.log, Diff(copy, WithoutFinalizer(copy, KARPENTER)), NoFault).0, pc := Idle);
  }

  lemma Joined(t: State, states: seq<State>, events: seq<Event>, more: seq<State>, acts: seq<Event>)
    requires Continues(t, states, events) && Continues(states[|events|], more, acts)
    ensures Continues(t, states + more[1..], events + acts)
    ensures Leaks(more, acts) ==> Leaks(states + more[1..], events + acts)
  {
    var all, every := states + more[1..], events + acts;
    forall i | 0 <= i < |every| ensures Next(all[i], every[i], all[i + 1]) {
      if i < |events| {
        assert Next(states[i], events[i], states[i + 1]);
      } else {
        assert Next(more[i - |events|], acts[i - |events|], more[i - |events| + 1]);
        assert all[i] == more[i - |events|];
      }
    }
    if Leaks(more, acts) {
      assert all[|every| - 1] == more[|acts| - 1];
    }
  }

  /** The gate is exact, for managed and unmanaged pools: once the listing has opened it, the run can go on to a drop
      of the finalizer with an instance running if and only if something could launch when the instances were listed. */
  lemma GateLeaksIff(states: seq<State>, events: seq<Event>, n: nat)
    requires Run(states, events) && n < |events| && events[n].Listed? && PastTheGate(states[n + 1])
    ensures (exists more, acts :: Continues(states[n + 1], more, acts) && Leaks(more, acts)) <==> !Quiet(states[n])
  {
    GateOpens(states, events, n);
    var t := states[n + 1];
    if Quiet(t) {
      forall more, acts | Continues(t, more, acts) ensures !Leaks(more, acts) {
        if |acts| > 0 {
          EndedForGood(t, more, acts, |acts| - 1);
        }
      }
    } else {
      var first, acts := ToleratedFailureOpensGate(t);
      var more, rest := LateLaunchIsMissed(first[|acts|]);
      Joined(t, first, acts, more, rest);
      assert Leaks(first + more[1..], acts + rest);
    }
  }

  /** One reconcile past the gate comes to its last patch with an instance running. */
  ghost predicate Sends(states: seq<State>, events: seq<Event>) {
    && |states| == |events| + 1 && (forall i :: 0 <= i < |states| ==> PastTheGate(states[i]))
    && states[|states| - 1].pc.Releases? && states[|states| - 1].instances != {}
  }

  /** Within the very reconcile whose listing opened the gate, the patch that drops the finalizer can be sent with an
      instance running under the same condition. */
  lemma GateSendsIff(states: seq<State>, events: seq<Event>, n: nat)
    requires Run(states, events) && n < |events| && events[n].Listed? && PastTheGate(states[n + 1])
    ensures
      (exists more, acts :: Continues(states[n + 1], more, acts) && Sends(more, acts)) <==> !Quiet(states[n])
  {
    GateOpens(states, events, n);
    var t := states[n + 1];
    if Quiet(t) {
      forall more, acts | Continues(t, more, acts) ensures !Sends(more, acts) {
        EndedForGood(t, more, acts, |acts|);
      }
    } else {
      var t1 := t.(instances := t.instances + {0});
      assert Next(t, Launch(0), t1) && 0 in t1.instances;
      if t.pc.Releases? {
        assert Continues(t, [t, t1], [Launch(0)]) && Sends([t, t1], [Launch(0)]);
      } else {
        var t2 := t1.(userData := false, pc := Releases(t.pc.version, t.pc.seesDeletion));
        assert Next(t1, UserDataDeleted(NoFault), t2);
        var acts := [Launch(0), UserDataDeleted(NoFault)];
        assert Continues(t, [t, t1, t2], acts) && Sends([t, t1, t2], acts);
      }
    }
  }

  lemma PoolIsCreated(managed: bool) returns (states: seq<State>, events: seq<Event>)
    ensures Run(states, events) && states[0].managed == managed
    ensures
      states[|events|]
      == State([Meta([], false), Meta([KARPENTER], false)], 0, false, true, true, true, {}, false, managed, Defers(0))
  {
    var s0 := State([Meta([], false)], 0, false, true, false, false, {}, false, managed, Idle);
    var s1 := s0.(pc := PatchesFinalizer(0));
    var s2 := s1.(log := [Meta([], false), Meta([KARPENTER], false)], pc := CreatesNodeClass(0));
    var s3 := s2.(nodeClass := true, pc := CreatesNodePool(0));
    var s4 := s3.(nodePool := true, pc := Defers(0));
    assert Next(s0, Reads(0, false), s1);
    FinalizerIsPatched(s1, s2);
    assert Next(s2, NodeClassApplied(NoFault), s3);
    assert Next(s3, NodePoolApplied(ResponseLost), s4);
    hide Next;
    states := [s0, s1, s2, s3, s4];
    events := [Reads(0, false), FinalizerPatched(NoFault), NodeClassApplied(NoFault), NodePoolApplied(ResponseLost)];
  }

  lemma DeletionIsRead(s: State) returns (states: seq<State>, events: seq<Event>)
    requires s.log == [Meta([], false), Meta([KARPENTER], false)] && s.seen == 0 && s.pc == Defers(0)
    ensures Continues(s, states, events)
    ensures states[|events|] == s.(pc := Idle, log := s.log + [Meta([KARPENTER], true)], seen := 2)
  {
    var s1 := s.(pc := Idle);
    var s2 := s1.(log := s.log + [Meta([KARPENTER], true)]);
    var s3 := s2.(seen := 2);
    assert Next(s, Deferred(FailsBefore), s1);
    assert Next(s1, OtherWriter(Meta([KARPENTER], true)), s2);
    assert Next(s2, ReadsAndWaits(2), s3);
    states := [s, s1, s2, s3];
    events := [Deferred(FailsBefore), OtherWriter(Meta([KARPENTER], true)), ReadsAndWaits(2)];
  }

  /** A pool on its way to deletion: created, its NodePool written, the object deleted and the deletion read. */
  lemma PoolIsDeleted(managed: bool) returns (states: seq<State>, events: seq<Event>)
    ensures Run(states, events) && states[0].managed == managed
    ensures
      var t := states[|events|];
      && t.instances == {} && t.nodePool && t.apiAlive && t.managed == managed
      && t.seen < |t.log| && t.log[t.seen].deleting
  {
    hide Next;
    states, events := PoolIsCreated(managed);
    var more, acts := DeletionIsRead(states[|events|]);
    Joined(states[0], states, events, more, acts);
    states, events := states + more[1..], events + acts;
  }

  lemma FinalizerIsPatched(s: State, t: State)
    requires s.pc == PatchesFinalizer(0) && s.log == [Meta([], false)]
    requires t == s.(log := [Meta([], false), Meta([KARPENTER], false)], pc := CreatesNodeClass(0))
    ensures Next(s, FinalizerPatched(NoFault), t)
  {
    var copy := Copy(s, 0);
    assert copy == [] && WithFinalizer(copy, KARPENTER) == [KARPENTER];
    assert Attempt(s.log, Some([KARPENTER]), NoFault).0 == t.log;
  }

  /** The gate does leak: whole runs, from nothing, that drop the finalizer with an instance running. */
  lemma LeakingRun(managed: bool) returns (states: seq<State>, events: seq<Event>)
    ensures Run(states, events) && Leaks(states, events) && states[0].managed == managed
  {
    states, events := PoolIsDeleted(managed);
    RunKeepsInv(states, events, |events|);
    var gate, acts := ToleratedFailureOpensGate(states[|events|]);
    var more, rest := LateLaunchIsMissed(gate[|acts|]);
    Joined(states[|events|], gate, acts, more, rest);
    Joined(states[0], states, events, gate + more[1..], acts + rest);
    states, events := states + (gate + more[1..])[1..], events + (acts + rest);
  }
}
