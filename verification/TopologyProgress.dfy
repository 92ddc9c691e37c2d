/** What the share, attachment and entry reconcilers get done when nothing fails, and what their calls come from. */
module TopologyProgress {
  import opened Results
  import opened ApiServer
  import opened NetworkTopology
  import Reachability

  // ---- where a call comes from ----

  /** A holder releases, and drops its finalizer, only on a version that was being deleted and had the finalizer, and
      adds it only on one that was not being deleted. */
  predicate HolderDecided(s: State, h: Holder) {
    && (s.Pc(h).Releases? || s.Pc(h).DropsFinalizer? ==>
          && s.Pc(h).version < |s.log| && s.log[s.Pc(h).version].deleting
          && FinalizerOf(h) in s.log[s.Pc(h).version].finalizers)
    && (s.Pc(h).AddsFinalizer? ==> s.Pc(h).version < |s.log| && !s.log[s.Pc(h).version].deleting)
  }

  /** So does the share reconciler, which waits for the holders besides. */
  predicate ShareDecided(s: State) {
    && (s.share.DeletesGatewayShare? || s.share.DeletesPrefixListShare? || s.share.DropsShareFinalizer? ==>
          && s.share.version < |s.log| && s.log[s.share.version].deleting
          && SHARE in s.log[s.share.version].finalizers && !ResourcesStillInUse(s.log[s.share.version]))
    && (s.share.AddsShareFinalizer? ==> s.share.version < |s.log| && !s.log[s.share.version].deleting)
  }

  predicate Decided(s: State) {
    HolderDecided(s, Attachment) && HolderDecided(s, Entry) && ShareDecided(s)
  }

  lemma StepKeepsDecided(s: State, e: Event, t: State)
    requires Decided(s) && Next(s, e, t)
    ensures Decided(t)
  {
    StepGrows(s, e, t);
    if HolderStep(s, e, t) {
      HolderStepKeepsDecided(s, e, t);
    } else if ShareStep(s, e, t) {
      ShareStepKeepsDecided(s, e, t);
    } else {
      OutsideStepKeepsDecided(s, e, t);
    }
  }

  lemma ShareStepKeepsDecided(s: State, e: Event, t: State)
    requires Decided(s) && ShareStep(s, e, t) && s.log <= t.log
    ensures Decided(t)
  {
    hide Attempt;
    hide ResourcesStillInUse;
    assert HolderDecided(t, Attachment) && HolderDecided(t, Entry) by {
      hide ShareDecision;
      hide FinalizerOf;
      assert t.attachment == s.attachment && t.entry == s.entry;
    }
  }

  lemma OutsideStepKeepsDecided(s: State, e: Event, t: State)
    requires Decided(s) && OutsideStep(s, e, t) && s.log <= t.log
    ensures Decided(t)
  {
    hide ResourcesStillInUse;
    hide Foreign;
  }

  lemma OtherHolderStays(s: State, t: State, h: Holder)
    requires HolderDecided(s, h) && t.Pc(h) == s.Pc(h) && s.log <= t.log
    ensures HolderDecided(t, h)
  {
  }

  lemma OwnHolderDecides(s: State, e: Event, t: State)
    requires HolderStep(s, e, t) && HolderDecided(s, e.h) && s.log <= t.log
    ensures HolderDecided(t, e.h) && t.share == s.share && forall k :: k != e.h ==> t.Pc(k) == s.Pc(k)
  {
    hide Attempt;
  }

  lemma HolderStepKeepsDecided(s: State, e: Event, t: State)
    requires Decided(s) && HolderStep(s, e, t) && s.log <= t.log
    ensures Decided(t)
  {
    hide HolderDecided;
    hide ResourcesStillInUse;
    hide Attempt;
    assert HolderDecided(s, e.h) by { assert e.h == Attachment || e.h == Entry; }
    OwnHolderDecides(s, e, t);
    match e.h
    case Attachment => OtherHolderStays(s, t, Entry);
    case Entry => OtherHolderStays(s, t, Attachment);
  }

  lemma {:induction false} AllDecided(states: seq<State>, events: seq<Event>, n: nat)
    requires NetworkTopology.Run(states, events) && n < |states|
    ensures Decided(states[n])
  {
    hide Next;
    if n > 0 {
      AllDecided(states, events, n - 1);
      StepKeepsDecided(states[n - 1], events[n - 1], states[n]);
    }
  }

  /** In every run, whatever is stale: a holder is released only by a reconcile that read the object being deleted with
      the holder's finalizer on it, and a share is deleted only by one that read it so with the share finalizer and
      without the holders'. */
  lemma ReleasesAreDecided(states: seq<State>, events: seq<Event>, n: nat)
    requires NetworkTopology.Run(states, events) && n < |events|
    ensures events[n].HolderReleases? ==>
      exists v :: 0 <= v < |states[n].log| && states[n].log[v].deleting && FinalizerOf(events[n].h) in states[n].log[v].finalizers
    ensures events[n].GatewayUnshared? || events[n].PrefixListUnshared? ==>
      exists v ::
        && 0 <= v < |states[n].log| && states[n].log[v].deleting
        && SHARE in states[n].log[v].finalizers && !ResourcesStillInUse(states[n].log[v])
  {
    AllDecided(states, events, n);
    assert Next(states[n], events[n], states[n + 1]);
    if events[n].HolderReleases? {
      var v := states[n].Pc(events[n].h).version;
      assert HolderDecided(states[n], events[n].h) by { assert events[n].h == Attachment || events[n].h == Entry; }
      assert states[n].log[v].deleting;
    } else if events[n].GatewayUnshared? || events[n].PrefixListUnshared? {
      assert states[n].log[states[n].share.version].deleting;
    }
  }

  // ---- going on without faults ----

  /** A call of one of the three reconcilers, answered, from the newest version of what it reads. */
  predicate Smooth(s: State, e: Event) {
    match e
    case HolderReads(_, v) => v == Latest(s.log)
    case HolderAdds(_, fault) => fault == NoFault
    case HolderApplies(_, fault) => fault == NoFault
    case HolderReleases(_, fault) => fault == NoFault
    case HolderDrops(_, fault) => fault == NoFault
    case ShareReads(v, own, mv) => v == Latest(s.log) && own == UNSET && mv + 1 == |s.annotations|
    case ShareAdds(fault) => fault == NoFault
    case GatewayShared(sameAccount, fault) => !sameAccount && fault == NoFault
    case PrefixListShared(sameAccount, fault) => !sameAccount && fault == NoFault
    case GatewayUnshared(fault) => fault == NoFault
    case PrefixListUnshared(fault) => fault == NoFault
    case ShareDrops(fault) => fault == NoFault
    case _ => false
  }

  ghost predicate Moves(s: State, e: Event, t: State) {
    Next(s, e, t) && Smooth(s, e)
  }

  /** The state is reached without a fault. */
  ghost predicate Reaches(s: State, t: State) {
    Reachability.Reaches(Moves, s, t)
  }

  lemma ReachesItself(s: State)
    ensures Reaches(s, s)
  {
    Reachability.ReachesItself(Moves, s);
  }

  lemma ReachesBy(s: State, e: Event, t: State)
    requires Moves(s, e, t)
    ensures Reaches(s, t)
  {
    Reachability.ReachesBy(Moves, s, e, t);
  }

  lemma ReachesTwice(s: State, t: State, u: State)
    requires Reaches(s, t) && Reaches(t, u)
    ensures Reaches(s, u)
  {
    Reachability.ReachesTwice(Moves, s, t, u);
  }

  predicate Idle(s: State) {
    s.attachment == HolderIdle && s.entry == HolderIdle && s.share == ShareIdle
  }

  predicate Deleting(s: State) {
    Current(s.log).deleting
  }

  lemma IsPatched(log: Log, finalizer: string)
    ensures
      var (after, goesOn) := Attempt(log, RemovePatch(log, Latest(log), finalizer), NoFault);
      && goesOn && Current(after) == Current(log).(finalizers := WithoutFinalizer(Current(log).finalizers, finalizer))
    ensures
      var (after, goesOn) := Attempt(log, AddPatch(log, Latest(log), finalizer), NoFault);
      !Current(log).deleting ==>
        goesOn && Current(after) == Current(log).(finalizers := WithFinalizer(Current(log).finalizers, finalizer))
  {
    LockedRemoveIsOwn(log, Latest(log), finalizer);
    LockedAddIsOwn(log, Latest(log), finalizer);
  }

  // ---- deletion ----

  /** One holder lets go: the release is issued and its finalizer dropped, and nothing else changes. */
  lemma HolderLetsGo(s: State, h: Holder) returns (t: State)
    requires Deleting(s) && s.Pc(h) == HolderIdle && HolderInv(s, h)
    ensures Reaches(s, t) && t == s.(log := t.log, held := s.held - {h}) && Deleting(t)
    ensures forall f :: Has(t, f) <==> Has(s, f) && f != FinalizerOf(h)
  {
    if !Has(s, FinalizerOf(h)) {
      t := s;
      ReachesItself(s);
      assert s.held - {h} == s.held;
    } else {
      var v := Latest(s.log);
      var s1 := s.WithPc(h, Releases(v));
      var s2 := s1.(held := s1.held - {h}).WithPc(h, DropsFinalizer(v));
      IsPatched(s.log, FinalizerOf(h));
      t := s2.(log := Attempt(s.log, RemovePatch(s.log, v, FinalizerOf(h)), NoFault).0).WithPc(h, HolderIdle);
      hide Attempt;
      assert Moves(s, HolderReads(h, v), s1);
      assert Moves(s1, HolderReleases(h, NoFault), s2);
      assert Moves(s2, HolderDrops(h, NoFault), t);
      hide Moves;
      ReachesBy(s, HolderReads(h, v), s1);
      ReachesBy(s1, HolderReleases(h, NoFault), s2);
      ReachesBy(s2, HolderDrops(h, NoFault), t);
      hide Reaches;
      ReachesTwice(s, s1, s2);
      ReachesTwice(s, s2, t);
    }
  }

  lemma ShareReadsDeletion(s: State, t: State)
    requires Deleting(s) && s.share == ShareIdle && !ResourcesStillInUse(Current(s.log)) && |s.annotations| > 0
    requires Has(s, SHARE) && t == s.(share := DeletesGatewayShare(Latest(s.log)))
    ensures Moves(s, ShareReads(Latest(s.log), UNSET, |s.annotations| - 1), t)
  {
    hide ResourcesStillInUse;
  }

  lemma SharesAreDeleted(s: State, t: State, u: State)
    requires s.share.DeletesGatewayShare?
    requires t == s.(gatewayShared := false, share := DeletesPrefixListShare(s.share.version))
    requires u == t.(prefixListShared := false, share := DropsShareFinalizer(s.share.version))
    ensures Moves(s, GatewayUnshared(NoFault), t) && Moves(t, PrefixListUnshared(NoFault), u)
  {
  }

  lemma ShareFinalizerGoes(s: State, t: State)
    requires s.share == DropsShareFinalizer(Latest(s.log))
    requires t == s.(log := Attempt(s.log, RemovePatch(s.log, Latest(s.log), SHARE), NoFault).0, share := ShareIdle)
    ensures Moves(s, ShareDrops(NoFault), t)
  {
    hide Attempt;
  }

  /** Then the shares go, and the share finalizer. */
  lemma ShareLetsGo(s: State) returns (t: State)
    requires Deleting(s) && s.share == ShareIdle && Covered(s) && !ResourcesStillInUse(Current(s.log)) && |s.annotations| > 0
    ensures Reaches(s, t) && t == s.(log := t.log, gatewayShared := false, prefixListShared := false) && Deleting(t)
    ensures forall f :: Has(t, f) <==> Has(s, f) && f != SHARE
  {
    if !Has(s, SHARE) {
      t := s;
      ReachesItself(s);
    } else {
      var v, mv := Latest(s.log), |s.annotations| - 1;
      var s1 := s.(share := DeletesGatewayShare(v));
      var s2 := s1.(gatewayShared := false, share := DeletesPrefixListShare(v));
      var s3 := s2.(prefixListShared := false, share := DropsShareFinalizer(v));
      IsPatched(s.log, SHARE);
      t := s3.(log := Attempt(s.log, RemovePatch(s.log, v, SHARE), NoFault).0, share := ShareIdle);
      hide Attempt;
      ShareReadsDeletion(s, s1);
      SharesAreDeleted(s1, s2, s3);
      ShareFinalizerGoes(s3, t);
      hide Moves;
      ReachesBy(s, ShareReads(v, UNSET, mv), s1);
      ReachesBy(s1, GatewayUnshared(NoFault), s2);
      ReachesBy(s2, PrefixListUnshared(NoFault), s3);
      ReachesBy(s3, ShareDrops(NoFault), t);
      hide Reaches;
      ReachesTwice(s, s1, s2);
      ReachesTwice(s, s2, s3);
      ReachesTwice(s, s3, t);
    }
  }

  /** Nothing of the cluster's network is left: no holder, no share, none of the three finalizers. */
  predicate AllReleased(s: State) {
    && s.held == {} && !s.gatewayShared && !s.prefixListShared
    && !Has(s, SHARE) && !Has(s, ATTACHMENT) && !Has(s, ENTRY)
  }

  lemma EverythingLetsGo(s: State) returns (t: State)
    requires Inv(s) && Deleting(s) && Idle(s) && Covered(s)
    ensures Reaches(s, t) && AllReleased(t)
  {
    hide Reaches;
    FinalizersDiffer();
    var s1 := HolderLetsGo(s, Attachment);
    var s2 := HolderLetsGo(s1, Entry);
    ReachesTwice(s, s1, s2);
    assert !Has(s1, FinalizerOf(Attachment)) && !Has(s2, FinalizerOf(Attachment)) && !Has(s2, FinalizerOf(Entry));
    t := ShareLetsGo(s2);
    ReachesTwice(s, s2, t);
    assert t.held == s.held - {Attachment} - {Entry};
    forall h: Holder ensures h !in t.held {
      assert h == Attachment || h == Entry;
    }
  }

  lemma FinalizersDiffer()
    ensures SHARE != ATTACHMENT && SHARE != ENTRY && ATTACHMENT != ENTRY
  {
    assert |SHARE| < |ENTRY| < |ATTACHMENT|;
  }

  /** A share that nothing covers: the reconciler passes it by. */
  predicate PassedBy(s: State) {
    Deleting(s) && !Has(s, SHARE) && s.share == ShareIdle && (s.gatewayShared || s.prefixListShared)
  }

  lemma StaysPassedBy(s: State, e: Event, t: State)
    requires PassedBy(s) && Moves(s, e, t)
    ensures PassedBy(t)
  {
  }

  lemma NeverReleased(s: State, t: State)
    requires PassedBy(s) && Reaches(s, t)
    ensures !AllReleased(t)
  {
    forall s, e, t | PassedBy(s) && Moves(s, e, t) ensures PassedBy(t) {
      StaysPassedBy(s, e, t);
    }
    Reachability.KeptWhereReached(Moves, PassedBy, s, t);
  }

  /** From every state of every run in which the object is being deleted and the three workers are idle: without faults
      everything is released and all three finalizers go, if and only if every share is covered by its finalizer. */
  lemma DeletionCompletesIff(states: seq<State>, events: seq<Event>, n: nat)
    requires NetworkTopology.Run(states, events) && n < |states| && Deleting(states[n]) && Idle(states[n])
    ensures (exists t :: Reaches(states[n], t) && AllReleased(t)) <==> Covered(states[n])
  {
    hide Reaches;
    RunKeepsInv(states, events, n);
    if Covered(states[n]) {
      var t := EverythingLetsGo(states[n]);
    } else {
      forall t | Reaches(states[n], t) ensures !AllReleased(t) {
        NeverReleased(states[n], t);
      }
    }
  }

  /** So it does in every run in which nobody sets the annotations by hand. */
  lemma DeletionCompletes(states: seq<State>, events: seq<Event>, n: nat)
    requires NetworkTopology.Run(states, events) && n < |states| && Deleting(states[n]) && Idle(states[n])
    requires forall i :: 0 <= i < n ==> !events[i].AnnotatedByHand?
    ensures exists t :: Reaches(states[n], t) && AllReleased(t)
  {
    hide Reaches;
    hide Next;
    SharesAreCovered(states, events, n);
    DeletionCompletesIff(states, events, n);
  }

  // ---- creation ----

  lemma HolderTakes(s: State, h: Holder) returns (t: State)
    requires !Deleting(s) && s.Pc(h) == HolderIdle
    ensures Reaches(s, t) && t == s.(log := t.log, held := s.held + {h}) && !Deleting(t)
    ensures forall f :: Has(t, f) <==> Has(s, f) || f == FinalizerOf(h)
  {
    var v := Latest(s.log);
    var s1 := s.WithPc(h, AddsFinalizer(v));
    IsPatched(s.log, FinalizerOf(h));
    var s2 := s1.(log := Attempt(s.log, AddPatch(s.log, v, FinalizerOf(h)), NoFault).0).WithPc(h, Applies);
    t := s2.(held := s2.held + {h}).WithPc(h, HolderIdle);
    hide Attempt;
    assert Moves(s, HolderReads(h, v), s1);
    assert Moves(s1, HolderAdds(h, NoFault), s2);
    assert Moves(s2, HolderApplies(h, NoFault), t);
    hide Moves;
    ReachesBy(s, HolderReads(h, v), s1);
    ReachesBy(s1, HolderAdds(h, NoFault), s2);
    ReachesBy(s2, HolderApplies(h, NoFault), t);
    hide Reaches;
    ReachesTwice(s, s1, s2);
    ReachesTwice(s, s2, t);
  }

  /** The share reconciler shares what the management cluster's annotations name. */
  lemma ShareTakes(s: State) returns (t: State)
    requires !Deleting(s) && s.share == ShareIdle && |s.annotations| > 0
    requires Last(s).transitGateway != "" && Last(s).prefixList != ""
    ensures Reaches(s, t) && t == s.(log := t.log, gatewayShared := true, prefixListShared := true) && !Deleting(t)
    ensures forall f :: Has(t, f) <==> Has(s, f) || f == SHARE
  {
    var v, mv := Latest(s.log), |s.annotations| - 1;
    var s1 := s.(share := AddsShareFinalizer(v, true));
    IsPatched(s.log, SHARE);
    var s2 := s1.(log := Attempt(s.log, AddPatch(s.log, v, SHARE), NoFault).0, share := SharesGateway(true));
    var s3 := s2.(gatewayShared := true, share := SharesPrefixList);
    t := s3.(prefixListShared := true, share := ShareIdle);
    hide Attempt;
    assert Moves(s, ShareReads(v, UNSET, mv), s1);
    assert Moves(s1, ShareAdds(NoFault), s2);
    assert Moves(s2, GatewayShared(false, NoFault), s3);
    assert Moves(s3, PrefixListShared(false, NoFault), t);
    hide Moves;
    ReachesBy(s, ShareReads(v, UNSET, mv), s1);
    ReachesBy(s1, ShareAdds(NoFault), s2);
    ReachesBy(s2, GatewayShared(false, NoFault), s3);
    ReachesBy(s3, PrefixListShared(false, NoFault), t);
    hide Reaches;
    ReachesTwice(s, s1, s2);
    ReachesTwice(s, s2, s3);
    ReachesTwice(s, s3, t);
  }

  /** Both holders and both shares are there, under their finalizers. */
  predicate AllTaken(s: State) {
    && s.held == {Attachment, Entry} && s.gatewayShared && s.prefixListShared
    && Has(s, SHARE) && Has(s, ATTACHMENT) && Has(s, ENTRY)
  }

  /** From every state of every run in which the object is not being deleted, the workers are idle and both ARNs are
      known: without faults both shares are made, the gateway is attached and the entry is in the list. */
  lemma CreationCompletes(states: seq<State>, events: seq<Event>, n: nat) returns (t: State)
    requires NetworkTopology.Run(states, events) && n < |states| && !Deleting(states[n]) && Idle(states[n])
    requires |states[n].annotations| > 0
    requires Last(states[n]).transitGateway != "" && Last(states[n]).prefixList != ""
    ensures Reaches(states[n], t) && AllTaken(t)
  {
    hide Reaches;
    hide Next;
    var s := states[n];
    var s1 := HolderTakes(s, Attachment);
    var s2 := HolderTakes(s1, Entry);
    ReachesTwice(s, s1, s2);
    t := ShareTakes(s2);
    ReachesTwice(s, s2, t);
    forall h: Holder ensures h in t.held <==> h in {Attachment, Entry} {
      assert h == Attachment || h == Entry;
    }
    assert Has(t, FinalizerOf(Attachment)) && Has(t, FinalizerOf(Entry));
  }
}
