/** What the machine pool reconciler gets done when nothing fails, and what it terminates. */
module PoolProgress {
  import opened Results
  import opened ApiServer
  import opened MachinePool
  import Reachability
  import Instances

  // ---- what is terminated ----

  /** The parent cluster was seen being deleted, and is. */
  predicate SeesTruly(s: State) {
    && (DeletePc(s.pc) && s.pc.seesDeletion ==> s.clusterDeleting)
    && (s.pc.Terminates? ==> s.clusterDeleting)
  }

  /** The one way to come to terminating. */
  predicate Counts(s: State, e: Event, t: State) {
    e == Listed(NoFault) && s.pc.Lists? && s.pc.seesDeletion && t.pc == Terminates(s.instances)
  }

  lemma NormalStepsDeleteNothing(s: State, e: Event, t: State)
    requires NormalStep(s, e, t)
    ensures !t.pc.Terminates? && !DeletePc(t.pc)
  {
    hide Attempt;
    hide Copy;
  }

  lemma DeleteStepSees(s: State, e: Event, t: State)
    requires SeesTruly(s) && DeleteStep(s, e, t)
    ensures SeesTruly(t) && (t.pc.Terminates? ==> Counts(s, e, t))
  {
    hide Attempt;
    hide Copy;
  }

  lemma OutsideStepSees(s: State, e: Event, t: State)
    requires SeesTruly(s) && OutsideStep(s, e, t)
    ensures SeesTruly(t) && (t.pc.Terminates? ==> t.pc == s.pc)
  {
    hide Foreign;
  }

  lemma StepSees(s: State, e: Event, t: State)
    requires SeesTruly(s) && Next(s, e, t)
    ensures SeesTruly(t) && (t.pc.Terminates? ==> t.pc == s.pc || Counts(s, e, t))
  {
    hide SeesTruly;
    hide Counts;
    if NormalStep(s, e, t) {
      NormalStepsDeleteNothing(s, e, t);
      SeesNothing(t);
    } else if DeleteStep(s, e, t) {
      DeleteStepSees(s, e, t);
    } else {
      OutsideStepSees(s, e, t);
    }
  }

  lemma SeesNothing(s: State)
    requires !s.pc.Terminates? && !DeletePc(s.pc)
    ensures SeesTruly(s)
  {
  }

  lemma {:induction false} RunSeesTruly(states: seq<State>, events: seq<Event>, n: nat)
    requires MachinePool.Run(states, events) && n < |states|
    ensures SeesTruly(states[n])
  {
    hide Next;
    if n > 0 {
      RunSeesTruly(states, events, n - 1);
      StepSees(states[n - 1], events[n - 1], states[n]);
    }
  }

  /** At this point of the run the instances were listed, by a reconcile that had seen the cluster being deleted. */
  predicate ListedThen(states: seq<State>, events: seq<Event>, m: nat, found: set<int>) {
    && m < |events| < |states| && events[m] == Listed(NoFault)
    && states[m].pc.Lists? && states[m].pc.seesDeletion && states[m].clusterDeleting && states[m].instances == found
  }

  lemma {:induction false} TerminatesWhatWasListed(states: seq<State>, events: seq<Event>, n: nat)
    requires MachinePool.Run(states, events) && n < |states| && states[n].pc.Terminates?
    ensures exists m :: 0 <= m < n && ListedThen(states, events, m, states[n].pc.found)
  {
    hide Next;
    if n > 0 {
      RunSeesTruly(states, events, n - 1);
      StepSees(states[n - 1], events[n - 1], states[n]);
      if states[n - 1].pc == states[n].pc {
        TerminatesWhatWasListed(states, events, n - 1);
      } else {
        assert ListedThen(states, events, n - 1, states[n].pc.found);
      }
    }
  }

  /** In every run: the controller terminates instances only after it has seen the cluster being deleted, and only such
      as its listing counted. */
  lemma TerminationIsDue(states: seq<State>, events: seq<Event>, n: nat)
    requires MachinePool.Run(states, events) && n < |events| && events[n].Terminated?
    ensures states[n].clusterDeleting
    ensures states[n].pc.Terminates? && events[n].gone <= states[n].pc.found
    ensures exists m :: 0 <= m < n && ListedThen(states, events, m, states[n].pc.found)
  {
    assert Next(states[n], events[n], states[n + 1]);
    TerminatesWhatWasListed(states, events, n);
    RunSeesTruly(states, events, n);
  }

  /** The gate's question is asked of EC2: if its pages show exactly the pool's instances, the listing is empty exactly
      when the pool has none. */
  lemma GateReadsInstances(s: State, pages: seq<Instances.Page>, idOf: int -> string)
    requires forall id :: Instances.Shown(pages, id) <==> exists k :: k in s.instances && idOf(k) == id
    ensures Instances.InPages(pages) == [] <==> s.instances == {}
  {
    Instances.EmptyIffNoneRuns(pages);
    forall k | k in s.instances ensures Instances.Shown(pages, idOf(k)) {
    }
  }

  // ---- going on without faults ----

  /** A call to the workload cluster is answered as long as its API is there. */
  function Answer(s: State): Fault {
    if s.apiAlive then NoFault else FailsBefore
  }

  /** One of the controller's own calls, answered, from the newest version of what it reads. */
  predicate Smooth(s: State, e: Event) {
    match e
    case Reads(v, sees) => v == Latest(s.log) && sees == s.clusterDeleting
    case FinalizerPatched(fault) => fault == NoFault
    case NodeClassApplied(fault) => fault == Answer(s)
    case NodePoolApplied(fault) => fault == Answer(s)
    case UserDataPut(fault) => fault == NoFault
    case Deferred(fault) => fault == NoFault
    case NodePoolDeleted(fault) => fault == Answer(s)
    case NodeClassDeleted(fault) => fault == Answer(s)
    case Listed(fault) => fault == NoFault
    case Terminated(fault, gone) => fault == NoFault && s.pc.Terminates? && gone == s.pc.found
    case UserDataDeleted(fault) => fault == NoFault
    case FinalizerDropped(fault) => fault == NoFault
    case _ => false
  }

  ghost predicate Moves(s: State, e: Event, t: State) {
    Next(s, e, t) && Smooth(s, e)
  }

  /** The state is reached by the controller alone. */
  ghost predicate Reaches(s: State, t: State) {
    Reachability.Reaches(Moves, s, t)
  }

  lemma ReachesBy(s: State, e: Event, t: State)
    requires Moves(s, e, t)
    ensures Reaches(s, t)
  {
    Reachability.ReachesBy(Moves, s, e, t);
  }

  lemma ReachesTwice(s: State, t: State, u: State)
    requires Reaches(s, t) && Reaches(t, u)
    ensures Reaches(s, u)
  {
    Reachability.ReachesTwice(Moves, s, t, u);
  }

  lemma ReachesItself(s: State)
    ensures Reaches(s, s)
  {
    Reachability.ReachesItself(Moves, s);
  }

  predicate Deleting(s: State) {
    s.pc == Idle && Current(s.log).deleting && s.seen < |s.log|
  }

  // ---- deletion ----

  /** The reconcile gets to its listing when it tolerates a dead API or the API is alive. */
  lemma GetsToListing(s: State) returns (t: State)
    requires Deleting(s) && (s.clusterDeleting || s.apiAlive)
    ensures Reaches(s, t)
    ensures t == s.(seen := Latest(s.log), nodePool := t.nodePool, nodeClass := t.nodeClass,
                    pc := Lists(Latest(s.log), s.clusterDeleting))
  {
    var v := Latest(s.log);
    var s1 := s.(seen := v, pc := DeletesNodePool(v, s.clusterDeleting));
    assert Moves(s, Reads(v, s.clusterDeleting), s1);
    ReachesBy(s, Reads(v, s.clusterDeleting), s1);
    if s.apiAlive {
      var s2 := s1.(nodePool := false, pc := DeletesNodeClass(v, s.clusterDeleting));
      t := s2.(nodeClass := false, pc := Lists(v, s.clusterDeleting));
      assert Moves(s1, NodePoolDeleted(NoFault), s2) && Moves(s2, NodeClassDeleted(NoFault), t);
      ReachesBy(s1, NodePoolDeleted(NoFault), s2);
      ReachesBy(s2, NodeClassDeleted(NoFault), t);
      hide Moves;
      hide Reaches;
      ReachesTwice(s, s1, s2);
      ReachesTwice(s, s2, t);
    } else {
      t := s1.(pc := Lists(v, s.clusterDeleting));
      assert Moves(s1, NodePoolDeleted(FailsBefore), t);
      ReachesBy(s1, NodePoolDeleted(FailsBefore), t);
      hide Moves;
      hide Reaches;
      ReachesTwice(s, s1, t);
    }
  }

  /** With the cluster being deleted, one reconcile terminates what it finds. */
  lemma EndsInstances(s: State) returns (t: State)
    requires Deleting(s) && s.clusterDeleting && s.instances != {}
    ensures Reaches(s, t) && t.instances == {} && Deleting(t) && t.log == s.log && t.clusterDeleting
    ensures t == s.(seen := t.seen, nodePool := t.nodePool, nodeClass := t.nodeClass, instances := {})
  {
    var s1 := GetsToListing(s);
    var s2 := s1.(pc := Terminates(s1.instances));
    t := s2.(instances := {}, pc := Idle);
    assert s2.instances - s2.instances == {};
    assert Moves(s1, Listed(NoFault), s2) && Moves(s2, Terminated(NoFault, s2.instances), t);
    ReachesBy(s1, Listed(NoFault), s2);
    ReachesBy(s2, Terminated(NoFault, s2.instances), t);
    hide Moves;
    hide Reaches;
    ReachesTwice(s, s1, s2);
    ReachesTwice(s, s2, t);
  }

  /** The last patch of a reconcile that read the newest version drops the finalizer. */
  lemma FinalizerGoes(s: State) returns (t: State)
    requires s.pc.Releases? && s.pc.version == Latest(s.log)
    ensures Moves(s, FinalizerDropped(NoFault), t) && t == s.(log := t.log, pc := Idle) && !MachinePool.Held(t)
  {
    var copy := Copy(s, s.pc.version);
    t := s.(log := Attempt(s.log, Diff(copy, WithoutFinalizer(copy, KARPENTER)), NoFault).0, pc := Idle);
  }

  /** An empty listing leads to the last patch, over the user data if there may be any. */
  lemma GetsToRelease(s: State) returns (t: State)
    requires s.pc.Lists? && s.instances == {} && (s.userData ==> !s.managed)
    ensures Reaches(s, t) && t == s.(userData := false, pc := Releases(s.pc.version, s.pc.seesDeletion))
  {
    t := s.(userData := false, pc := Releases(s.pc.version, s.pc.seesDeletion));
    if s.managed {
      assert Moves(s, Listed(NoFault), t);
      ReachesBy(s, Listed(NoFault), t);
    } else {
      var s1 := s.(pc := DeletesUserData(s.pc.version, s.pc.seesDeletion));
      assert Moves(s, Listed(NoFault), s1) && Moves(s1, UserDataDeleted(NoFault), t);
      ReachesBy(s, Listed(NoFault), s1);
      ReachesBy(s1, UserDataDeleted(NoFault), t);
      hide Moves;
      hide Reaches;
      ReachesTwice(s, s1, t);
    }
  }

  /** With no instance left, one reconcile deletes the user data and drops the finalizer. */
  lemma Finishes(s: State) returns (t: State)
    requires Deleting(s) && (s.clusterDeleting || s.apiAlive) && s.instances == {} && (s.userData ==> !s.managed)
    ensures Reaches(s, t) && t.instances == {} && !t.userData && !MachinePool.Held(t)
  {
    hide Moves;
    var s1 := GetsToListing(s);
    var s2 := GetsToRelease(s1);
    t := FinalizerGoes(s2);
    ReachesBy(s2, FinalizerDropped(NoFault), t);
    hide Reaches;
    ReachesTwice(s, s1, s2);
    ReachesTwice(s, s2, t);
  }

  predicate Gone(s: State) {
    s.instances == {} && !s.userData && !MachinePool.Held(s)
  }

  /** A reconcile that can get nowhere: the cluster is alive, and its API is not there or instances are running. */
  predicate Waits(s: State) {
    && MachinePool.Held(s) && Current(s.log).deleting && !s.clusterDeleting && (!s.apiAlive || s.instances != {})
    && (s.pc == Idle || ((s.pc.DeletesNodePool? || (s.apiAlive && (s.pc.DeletesNodeClass? || s.pc.Lists?)))
                         && !s.pc.seesDeletion))
  }

  lemma StillWaits(s: State, e: Event, t: State)
    requires Waits(s) && Moves(s, e, t)
    ensures Waits(t)
  {
    hide Attempt;
    hide Copy;
  }

  lemma WaitsForever(s: State, t: State)
    requires Waits(s) && Reaches(s, t)
    ensures MachinePool.Held(t)
  {
    forall s, e, t | Waits(s) && Moves(s, e, t) ensures Waits(t) {
      StillWaits(s, e, t);
    }
    Reachability.KeptWhereReached(Moves, Waits, s, t);
  }

  /** From every state of every run in which the pool is being deleted, has the finalizer and no reconcile is under way:
      the controller alone, without faults, gets to the end, with no instance, no user data and no finalizer left, if and
      only if the cluster is being deleted, or its API is there and Karpenter has ended the instances. */
  lemma PoolDeletionCompletesIff(states: seq<State>, events: seq<Event>, n: nat)
    requires MachinePool.Run(states, events) && n < |states| && Deleting(states[n]) && MachinePool.Held(states[n])
    ensures (exists t :: Reaches(states[n], t) && Gone(t)) <==>
      states[n].clusterDeleting || (states[n].apiAlive && states[n].instances == {})
  {
    hide Reaches;
    hide Next;
    var s := states[n];
    RunKeepsInv(states, events, n);
    if s.clusterDeleting || (s.apiAlive && s.instances == {}) {
      var s1 := s;
      if s.instances != {} {
        s1 := EndsInstances(s);
      } else {
        ReachesItself(s);
      }
      var t := Finishes(s1);
      ReachesTwice(s, s1, t);
      assert Gone(t);
    } else {
      forall t | Reaches(s, t) ensures !Gone(t) {
        WaitsForever(s, t);
      }
    }
  }

  // ---- creation ----

  predicate Provided(s: State) {
    MachinePool.Held(s) && s.nodeClass && s.nodePool && (s.managed || s.userData)
  }

  lemma FinalizerComes(s: State) returns (t: State)
    requires s.pc.PatchesFinalizer? && s.pc.version == Latest(s.log) && !Current(s.log).deleting
    ensures Moves(s, FinalizerPatched(NoFault), t)
    ensures t == s.(log := t.log, pc := CreatesNodeClass(s.pc.version)) && MachinePool.Held(t) && s.log <= t.log
  {
    var copy := Copy(s, s.pc.version);
    var (log, goesOn) := Attempt(s.log, Diff(copy, WithFinalizer(copy, KARPENTER)), NoFault);
    assert KARPENTER in WithFinalizer(copy, KARPENTER);
    t := s.(log := log, pc := CreatesNodeClass(s.pc.version));
  }

  /** From every state of every run in which the pool is not being deleted, no reconcile is under way and the workload
      cluster's API is there: without faults the pool gets its finalizer, its node class, its node pool and, unless it is
      managed, its user data. */
  lemma PoolCreationCompletes(states: seq<State>, events: seq<Event>, n: nat) returns (t: State)
    requires MachinePool.Run(states, events) && n < |states|
    requires states[n].pc == Idle && !Current(states[n].log).deleting && states[n].apiAlive
    ensures Reaches(states[n], t) && Provided(t)
  {
    var s := states[n];
    RunKeepsInv(states, events, n);
    var v := Latest(s.log);
    var s1 := s.(seen := v, pc := PatchesFinalizer(v));
    assert Moves(s, Reads(v, s.clusterDeleting), s1);
    ReachesBy(s, Reads(v, s.clusterDeleting), s1);
    var s2 := FinalizerComes(s1);
    ReachesBy(s1, FinalizerPatched(NoFault), s2);
    var s4 := NodesCome(s2);
    hide Moves;
    hide Reaches;
    ReachesTwice(s, s1, s2);
    ReachesTwice(s, s2, s4);
    t := s4;
    if !s.managed {
      t := UserDataComes(s4);
      ReachesTwice(s, s4, t);
    }
  }

  lemma NodesCome(s: State) returns (t: State)
    requires s.pc.CreatesNodeClass? && s.apiAlive
    ensures Reaches(s, t)
    ensures t == s.(nodeClass := true, nodePool := true, pc := if s.managed then Defers(s.pc.version) else Uploads(s.pc.version))
  {
    var s1 := s.(nodeClass := true, pc := CreatesNodePool(s.pc.version));
    t := s1.(nodePool := true, pc := if s.managed then Defers(s.pc.version) else Uploads(s.pc.version));
    assert Moves(s, NodeClassApplied(NoFault), s1) && Moves(s1, NodePoolApplied(NoFault), t);
    ReachesBy(s, NodeClassApplied(NoFault), s1);
    ReachesBy(s1, NodePoolApplied(NoFault), t);
    hide Moves;
    hide Reaches;
    ReachesTwice(s, s1, t);
  }

  lemma UserDataComes(s: State) returns (t: State)
    requires s.pc.Uploads?
    ensures Reaches(s, t) && t == s.(userData := true, pc := Defers(s.pc.version))
  {
    t := s.(userData := true, pc := Defers(s.pc.version));
    assert Moves(s, UserDataPut(NoFault), t);
    ReachesBy(s, UserDataPut(NoFault), t);
  }
}
