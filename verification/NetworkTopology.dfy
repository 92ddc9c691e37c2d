/**
 The share, transit gateway attachment, prefix list entry and management cluster reconcilers on one
 AWSCluster, as a state machine over their remote calls. Each reconciler has one worker; between any two of
 its calls the others may take steps, other writers may change the object, and the process may restart. A
 call may fail, or take effect with its response lost.
 */
module NetworkTopology {
  import opened Results
  import opened ApiServer

  const SHARE := "network-topology.finalizers.giantswarm.io/share"
  const ATTACHMENT := "network-topology.finalizers.giantswarm.io/transit-gateway-attachment"
  const ENTRY := "network-topology.finalizers.giantswarm.io/prefix-list-entries"
  const OURS := {SHARE, ATTACHMENT, ENTRY}

  /** What uses a share: the attachment of the transit gateway, and the entry in the prefix list. */
  datatype Holder = Attachment | Entry

  function FinalizerOf(h: Holder): string {
    match h
    case Attachment => ATTACHMENT
    case Entry => ENTRY
  }

  /** The ARN annotations the management cluster reconciler sets; "" when not set. */
  datatype Annotations = Annotations(transitGateway: string, prefixList: string)

  const UNSET := Annotations("", "")

  /** Where the attachment or the entry reconciler stands: the call it makes next, and the version it read. */
  datatype HolderPc =
    | HolderIdle
    | AddsFinalizer(version: nat)
    | Applies
    | Releases(version: nat)
    | DropsFinalizer(version: nat)

  datatype SharePc =
    | ShareIdle
    | AddsShareFinalizer(version: nat, prefixListToo: bool)
    | SharesGateway(prefixListToo: bool)
    | SharesPrefixList
    | DeletesGatewayShare(version: nat)
    | DeletesPrefixListShare(version: nat)
    | DropsShareFinalizer(version: nat)

  datatype NetworkPc = NetworkIdle | AnnotatesGateway | AnnotatesPrefixList

  datatype State = State(
    log: Log,                        // the AWSCluster's versions
    annotations: seq<Annotations>,   // the management cluster's annotations, version by version
    byHand: seq<Annotations>,        // annotations somebody else has put on the cluster itself
    attachment: HolderPc,
    entry: HolderPc,
    held: set<Holder>,               // attached with no detach since; entry in the list
    share: SharePc,
    gatewayShared: bool,
    prefixListShared: bool,
    network: NetworkPc)
  {
    function Pc(h: Holder): HolderPc {
      match h
      case Attachment => attachment
      case Entry => entry
    }

    function WithPc(h: Holder, pc: HolderPc): State {
      match h
      case Attachment => this.(attachment := pc)
      case Entry => this.(entry := pc)
    }
  }

  datatype Event =
    | HolderReads(h: Holder, version: nat)
    | HolderAdds(h: Holder, fault: Fault)
    | HolderApplies(h: Holder, fault: Fault)
    | HolderReleases(h: Holder, fault: Fault)
    | HolderDrops(h: Holder, fault: Fault)
    | ShareReads(version: nat, own: Annotations, managementVersion: nat)
    | ShareAdds(fault: Fault)
    | GatewayShared(sameAccount: bool, fault: Fault)
    | PrefixListShared(sameAccount: bool, fault: Fault)
    | GatewayUnshared(fault: Fault)
    | PrefixListUnshared(fault: Fault)
    | ShareDrops(fault: Fault)
    | AnnotatedByHand(own: Annotations)
    | NetworkStarts
    | GatewayAnnotated(arn: string, fault: Fault)
    | PrefixListAnnotated(arn: string, fault: Fault)
    | Restart
    | OtherWriter(meta: Meta)

  // ---- the reconcilers' decisions on what they read ----

  /** Attachment and entry: delete path when deletion is seen, and only under the finalizer. */
  function HolderDecision(m: Meta, version: nat, finalizer: string): HolderPc {
    if !m.deleting then AddsFinalizer(version)
    else if finalizer in m.finalizers then Releases(version)
    else HolderIdle
  }

  predicate ResourcesStillInUse(m: Meta) {
    ATTACHMENT in m.finalizers || ENTRY in m.finalizers
  }

  function Arn(own: string, management: string): string {
    if own != "" then own else management
  }

  function ShareNormal(version: nat, own: Annotations, management: Annotations): SharePc {
    var gateway := Arn(own.transitGateway, management.transitGateway);
    var prefixList := Arn(own.prefixList, management.prefixList);
    if gateway != "" then AddsShareFinalizer(version, prefixList != "")
    else if prefixList != "" then SharesPrefixList
    else ShareIdle
  }

  function ShareDecision(m: Meta, version: nat, own: Annotations, management: Annotations): SharePc {
    if !m.deleting then ShareNormal(version, own, management)
    else if SHARE !in m.finalizers || ResourcesStillInUse(m) then ShareIdle
    else DeletesGatewayShare(version)
  }

  // ---- the steps ----

  /** The object after a patch attempt, and whether the caller goes on. */
  function Attempt(log: Log, patch: Patch, fault: Fault): (Log, bool) {
    var r := Apply(log, patch);
    if fault == FailsBefore || r.Err? then (log, false) else (r.value, fault == NoFault)
  }

  ghost predicate HolderStep(s: State, e: Event, t: State) {
    match e
    case HolderReads(h, v) =>
      && s.Pc(h) == HolderIdle && v < |s.log|
      && t == s.WithPc(h, HolderDecision(s.log[v], v, FinalizerOf(h)))
    case HolderAdds(h, fault) =>
      && s.Pc(h).AddsFinalizer? && s.Pc(h).version < |s.log|
      && (var (log, goesOn) := Attempt(s.log, AddPatch(s.log, s.Pc(h).version, FinalizerOf(h)), fault);
          t == s.(log := log).WithPc(h, if goesOn then Applies else HolderIdle))
    case HolderApplies(h, fault) =>
      && s.Pc(h) == Applies
      && t == s.(held := if fault == FailsBefore then s.held else s.held + {h}).WithPc(h, HolderIdle)
    case HolderReleases(h, fault) =>
      && s.Pc(h).Releases?
      && t == s.(held := if fault == FailsBefore then s.held else s.held - {h})
               .WithPc(h, if fault == NoFault then DropsFinalizer(s.Pc(h).version) else HolderIdle)
    case HolderDrops(h, fault) =>
      && s.Pc(h).DropsFinalizer? && s.Pc(h).version < |s.log|
      && t == s.(log := Attempt(s.log, RemovePatch(s.log, s.Pc(h).version, FinalizerOf(h)), fault).0).WithPc(h, HolderIdle)
    case _ => false
  }

  ghost predicate ShareStep(s: State, e: Event, t: State) {
    match e
    case ShareReads(v, own, mv) =>
      && s.share == ShareIdle && v < |s.log| && mv < |s.annotations|
      // the object's own annotations: none, those of the management cluster when it is that one, or set by hand
      && (own == UNSET || own in s.annotations || own in s.byHand)
      && t == s.(share := ShareDecision(s.log[v], v, own, s.annotations[mv]))
    case ShareAdds(fault) =>
      && s.share.AddsShareFinalizer? && s.share.version < |s.log|
      && (var (log, goesOn) := Attempt(s.log, AddPatch(s.log, s.share.version, SHARE), fault);
          t == s.(log := log, share := if goesOn then SharesGateway(s.share.prefixListToo) else ShareIdle))
    case GatewayShared(sameAccount, fault) =>
      && s.share.SharesGateway?
      && t == s.(gatewayShared := s.gatewayShared || (!sameAccount && fault != FailsBefore),
                 share := if fault == NoFault && s.share.prefixListToo then SharesPrefixList else ShareIdle)
    case PrefixListShared(sameAccount, fault) =>
      && s.share == SharesPrefixList
      && t == s.(prefixListShared := s.prefixListShared || (!sameAccount && fault != FailsBefore), share := ShareIdle)
    case GatewayUnshared(fault) =>
      && s.share.DeletesGatewayShare?
      && t == s.(gatewayShared := s.gatewayShared && fault == FailsBefore,
                 share := if fault == NoFault then DeletesPrefixListShare(s.share.version) else ShareIdle)
    case PrefixListUnshared(fault) =>
      && s.share.DeletesPrefixListShare?
      && t == s.(prefixListShared := s.prefixListShared && fault == FailsBefore,
                 share := if fault == NoFault then DropsShareFinalizer(s.share.version) else ShareIdle)
    case ShareDrops(fault) =>
      && s.share.DropsShareFinalizer? && s.share.version < |s.log|
      && t == s.(log := Attempt(s.log, RemovePatch(s.log, s.share.version, SHARE), fault).0, share := ShareIdle)
    case _ => false
  }

  ghost predicate OutsideStep(s: State, e: Event, t: State) {
    match e
    case AnnotatedByHand(own) => t == s.(byHand := s.byHand + [own])
    case NetworkStarts => s.network == NetworkIdle && t == s.(network := AnnotatesGateway)
    case GatewayAnnotated(arn, fault) =>
      && s.network == AnnotatesGateway && arn != "" && |s.annotations| > 0
      && t == s.(annotations := if fault == FailsBefore then s.annotations
                                else s.annotations + [Last(s).(transitGateway := arn)],
                 network := if fault == NoFault then AnnotatesPrefixList else NetworkIdle)
    case PrefixListAnnotated(arn, fault) =>
      && s.network == AnnotatesPrefixList && arn != "" && |s.annotations| > 0
      && t == s.(annotations := if fault == FailsBefore then s.annotations
                                else s.annotations + [Last(s).(prefixList := arn)],
                 network := NetworkIdle)
    case Restart =>
      t == s.(attachment := HolderIdle, entry := HolderIdle, share := ShareIdle, network := NetworkIdle)
    case OtherWriter(m) => Foreign(Current(s.log), m, OURS) && t == s.(log := s.log + [m])
    case _ => false
  }

  function Last(s: State): Annotations
    requires |s.annotations| > 0
  {
    s.annotations[|s.annotations| - 1]
  }

  ghost predicate Next(s: State, e: Event, t: State) {
    HolderStep(s, e, t) || ShareStep(s, e, t) || OutsideStep(s, e, t)
  }

  // ---- the invariant ----

  predicate Has(s: State, finalizer: string) {
    finalizer in Current(s.log).finalizers
  }

  ghost predicate HolderInv(s: State, h: Holder) {
    && (h in s.held ==> Has(s, FinalizerOf(h)))
    && (s.Pc(h) == Applies ==> Has(s, FinalizerOf(h)))
    && (s.Pc(h).DropsFinalizer? ==> h !in s.held)
  }

  /** The version the share reconciler decided on: deletion seen, and no holder finalizer left. */
  ghost predicate Cleared(s: State, version: nat) {
    version < |s.log| && s.log[version].deleting && !ResourcesStillInUse(s.log[version])
  }

  ghost predicate ShareInv(s: State) {
    && (s.share.DeletesGatewayShare? || s.share.DeletesPrefixListShare? || s.share.DropsShareFinalizer? ==>
          Cleared(s, s.share.version))
    && (s.share.DeletesPrefixListShare? || s.share.DropsShareFinalizer? ==> !s.gatewayShared)
    && (s.share.DropsShareFinalizer? ==> !s.prefixListShared)
  }

  /** Every share is covered by the finalizer. */
  predicate Covered(s: State) {
    s.gatewayShared || s.prefixListShared ==> Has(s, SHARE)
  }

  /** And so is the share about to be made. */
  predicate CoverInv(s: State) {
    Covered(s) && (s.share.SharesGateway? || s.share.SharesPrefixList? ==> Has(s, SHARE))
  }

  /** The share reconciler reads a prefix list, no transit gateway and no deletion, with its finalizer not on the server. */
  predicate BlindRead(s: State, e: Event) {
    && e.ShareReads? && e.version < |s.log| && e.managementVersion < |s.annotations|
    && !s.log[e.version].deleting && !Has(s, SHARE)
    && (var management := s.annotations[e.managementVersion];
        && Arn(e.own.transitGateway, management.transitGateway) == ""
        && Arn(e.own.prefixList, management.prefixList) != "")
  }

  predicate GatewayFirst(a: Annotations) {
    a.prefixList != "" ==> a.transitGateway != ""
  }

  ghost predicate AnnotationInv(s: State) {
    && |s.annotations| > 0
    && (forall a :: a in s.annotations ==> GatewayFirst(a))
    && (s.network == AnnotatesPrefixList ==> Last(s).transitGateway != "")
  }

  ghost predicate Inv(s: State) {
    Lawful(s.log) && HolderInv(s, Attachment) && HolderInv(s, Entry) && ShareInv(s) && AnnotationInv(s)
  }

  ghost predicate Initial(s: State) {
    && Lawful(s.log) && s.annotations == [UNSET] && s.byHand == []
    && s.attachment == HolderIdle && s.entry == HolderIdle && s.share == ShareIdle && s.network == NetworkIdle
    && s.held == {} && !s.gatewayShared && !s.prefixListShared
  }

  /** A patch attempt keeps the object lawful, its past, and every finalizer but the patched one. */
  lemma AttemptAdds(log: Log, version: nat, finalizer: string, fault: Fault)
    requires Lawful(log) && version < |log|
    ensures
      var (after, goesOn) := Attempt(log, AddPatch(log, version, finalizer), fault);
      && Lawful(after) && log <= after
      && (goesOn ==> finalizer in Current(after).finalizers)
      && (forall f :: f in Current(log).finalizers ==> f in Current(after).finalizers)
      && (Current(log).deleting ==> forall f :: f in Current(after).finalizers ==> f in Current(log).finalizers)
  {
    LockedAddIsOwn(log, version, finalizer);
    ApplyKeepsLawful(log, AddPatch(log, version, finalizer));
  }

  lemma AttemptRemoves(log: Log, version: nat, finalizer: string, fault: Fault)
    requires Lawful(log) && version < |log|
    ensures
      var (after, _) := Attempt(log, RemovePatch(log, version, finalizer), fault);
      && Lawful(after) && log <= after
      && (forall f :: f in Current(log).finalizers && f != finalizer ==> f in Current(after).finalizers)
  {
    LockedRemoveIsOwn(log, version, finalizer);
    ApplyKeepsLawful(log, RemovePatch(log, version, finalizer));
  }

  lemma LawfulNow(s: State)
    requires Inv(s)
    ensures Lawful(s.log)
  {
  }

  /** A new version that keeps every finalizer keeps the invariant. */
  lemma FinalizersGrow(s: State, log: Log)
    requires Inv(s) && Lawful(log) && s.log <= log
    requires forall f :: f in Current(s.log).finalizers ==> f in Current(log).finalizers
    ensures Inv(s.(log := log))
  {
    hide Lawful;
    var t := s.(log := log);
    forall h: Holder ensures HolderInv(t, h) {
      assert HolderInv(s, h) by { assert h == Attachment || h == Entry; }
      assert t.Pc(h) == s.Pc(h);
    }
  }

  /** What a holder's own call may leave of its place and of what it holds. */
  predicate HolderMay(s: State, h: Holder, held: set<Holder>, pc: HolderPc) {
    && (forall k :: k != h ==> (k in held <==> k in s.held))
    && (h in held || pc == Applies ==> Has(s, FinalizerOf(h)))
    && (pc.DropsFinalizer? ==> h !in held)
  }

  lemma HolderMoves(s: State, h: Holder, held: set<Holder>, pc: HolderPc)
    requires Inv(s) && HolderMay(s, h, held, pc)
    ensures Inv(s.(held := held).WithPc(h, pc))
  {
    hide Lawful;
    var t := s.(held := held).WithPc(h, pc);
    match h
    case Attachment => assert HolderInv(t, Entry) by { assert t.Pc(Entry) == s.Pc(Entry); }
    case Entry => assert HolderInv(t, Attachment) by { assert t.Pc(Attachment) == s.Pc(Attachment); }
  }

  lemma HolderHolds(s: State, h: Holder)
    requires Inv(s)
    ensures HolderInv(s, h)
  {
    assert h == Attachment || h == Entry;
  }

  lemma HolderAddKeepsInv(s: State, h: Holder, fault: Fault, t: State)
    requires Inv(s) && HolderStep(s, HolderAdds(h, fault), t)
    ensures Inv(t)
  {
    var (log, goesOn) := Attempt(s.log, AddPatch(s.log, s.Pc(h).version, FinalizerOf(h)), fault);
    LawfulNow(s);
    hide Inv;
    AttemptAdds(s.log, s.Pc(h).version, FinalizerOf(h), fault);
    hide Attempt;
    FinalizersGrow(s, log);
    var grown := s.(log := log);
    HolderHolds(grown, h);
    HolderMoves(grown, h, grown.held, if goesOn then Applies else HolderIdle);
  }

  lemma HolderDropKeepsInv(s: State, h: Holder, fault: Fault, t: State)
    requires Inv(s) && HolderStep(s, HolderDrops(h, fault), t)
    ensures Inv(t)
  {
    AttemptRemoves(s.log, s.Pc(h).version, FinalizerOf(h), fault);
    assert s.log <= t.log;
    assert FinalizerOf(h) != SHARE && FinalizerOf(Attachment) != FinalizerOf(Entry) by {
      assert |SHARE| < |ENTRY| < |ATTACHMENT|;
    }
    assert forall f :: Has(s, f) && f != FinalizerOf(h) ==> Has(t, f);
  }

  lemma HolderCallKeepsInv(s: State, e: Event, t: State)
    requires Inv(s) && HolderStep(s, e, t) && !e.HolderAdds? && !e.HolderDrops?
    ensures Inv(t)
  {
    HolderHolds(s, e.h);
    hide Inv;
    HolderMoves(s, e.h, t.held, t.Pc(e.h));
  }

  lemma HolderStepKeepsInv(s: State, e: Event, t: State)
    requires Inv(s) && HolderStep(s, e, t)
    ensures Inv(t)
  {
    if e.HolderAdds? {
      HolderAddKeepsInv(s, e.h, e.fault, t);
    } else if e.HolderDrops? {
      HolderDropKeepsInv(s, e.h, e.fault, t);
    } else {
      HolderCallKeepsInv(s, e, t);
    }
  }

  lemma ShareStepKeepsInv(s: State, e: Event, t: State)
    requires Inv(s) && ShareStep(s, e, t)
    ensures Inv(t)
  {
    if e.ShareAdds? {
      AttemptAdds(s.log, s.share.version, SHARE, e.fault);
    } else if e.ShareDrops? {
      AttemptRemoves(s.log, s.share.version, SHARE, e.fault);
    }
    assert s.log <= t.log;
  }

  /** Any step but a blind read keeps every share covered. */
  lemma StepKeepsCover(s: State, e: Event, t: State)
    requires Inv(s) && CoverInv(s) && Next(s, e, t) && !BlindRead(s, e)
    ensures CoverInv(t)
  {
    if HolderStep(s, e, t) {
      HolderStepKeepsCover(s, e, t);
    } else if ShareStep(s, e, t) {
      ShareStepKeepsCover(s, e, t);
    } else {
      hide Lawful;
      assert e.OtherWriter? ==> Current(t.log) == e.meta && SHARE in OURS;
    }
  }

  lemma HolderStepKeepsCover(s: State, e: Event, t: State)
    requires Inv(s) && CoverInv(s) && HolderStep(s, e, t)
    ensures CoverInv(t)
  {
    LawfulNow(s);
    hide Inv;
    hide Lawful;
    if e.HolderAdds? {
      AttemptAdds(s.log, s.Pc(e.h).version, FinalizerOf(e.h), e.fault);
      hide Attempt;
    } else if e.HolderDrops? {
      AttemptRemoves(s.log, s.Pc(e.h).version, FinalizerOf(e.h), e.fault);
      hide Attempt;
      assert FinalizerOf(e.h) != SHARE by { assert |SHARE| < |ENTRY| < |ATTACHMENT|; }
    }
  }

  lemma ShareStepKeepsCover(s: State, e: Event, t: State)
    requires Inv(s) && CoverInv(s) && ShareStep(s, e, t) && !BlindRead(s, e)
    ensures CoverInv(t)
  {
    hide Lawful;
    if e.ShareAdds? {
      AttemptAdds(s.log, s.share.version, SHARE, e.fault);
      hide Attempt;
    }
  }

  /** Annotations that come only from the management cluster reconciler have the gateway first: no read is blind. */
  lemma ManagedAnnotationsAreNotBlind(s: State, e: Event, t: State)
    requires Inv(s) && Next(s, e, t) && s.byHand == []
    ensures !BlindRead(s, e)
  {
    if e.ShareReads? && e.managementVersion < |s.annotations| {
      assert GatewayFirst(s.annotations[e.managementVersion]);
    }
  }

  lemma OutsideStepKeepsInv(s: State, e: Event, t: State)
    requires Inv(s) && OutsideStep(s, e, t)
    ensures Inv(t)
  {
    assert Last(s) in s.annotations;
    if e.OtherWriter? {
      AppendKeepsLawful(s.log, e.meta);
      assert Current(t.log) == e.meta;
      assert forall v :: 0 <= v < |s.log| ==> t.log[v] == s.log[v];
      assert SHARE in OURS && ATTACHMENT in OURS && ENTRY in OURS;
    }
  }

  ghost predicate Run(states: seq<State>, events: seq<Event>) {
    && |states| == |events| + 1 && Initial(states[0])
    && forall i :: 0 <= i < |events| ==> Next(states[i], events[i], states[i + 1])
  }

  lemma StepKeepsInv(s: State, e: Event, t: State)
    requires Inv(s) && Next(s, e, t)
    ensures Inv(t)
  {
    hide Inv;
    hide HolderStep;
    hide ShareStep;
    hide OutsideStep;
    if HolderStep(s, e, t) {
      HolderStepKeepsInv(s, e, t);
    } else if ShareStep(s, e, t) {
      ShareStepKeepsInv(s, e, t);
    } else {
      OutsideStepKeepsInv(s, e, t);
    }
  }

  lemma {:induction false} RunKeepsInv(states: seq<State>, events: seq<Event>, n: nat)
    requires Run(states, events) && n < |states|
    ensures Inv(states[n])
  {
    hide Next;
    if n > 0 {
      RunKeepsInv(states, events, n - 1);
      StepKeepsInv(states[n - 1], events[n - 1], states[n]);
    }
  }

  // ---- the results ----

  lemma StepGrows(s: State, e: Event, t: State)
    requires Next(s, e, t)
    ensures s.log <= t.log
  {
    hide Lawful;
    ApplyGrows(s.log);
    hide Apply;
  }

  lemma ApplyGrows(log: Log)
    ensures forall patch :: Apply(log, patch).Ok? ==> log <= Apply(log, patch).value
  {
  }

  lemma {:induction false} LogGrows(states: seq<State>, events: seq<Event>, i: nat, j: nat)
    requires Run(states, events) && i <= j < |states|
    ensures states[i].log <= states[j].log
  {
    hide Next;
    if i < j {
      LogGrows(states, events, i, j - 1);
      StepGrows(states[j - 1], events[j - 1], states[j]);
    }
  }

  /** In every interleaving, on copies of any age: when a share is deleted, the detach was issued after the last
      attach and the prefix list entry is gone, and neither ever comes back. */
  lemma SharesOutliveTheirHolders(states: seq<State>, events: seq<Event>, n: nat, later: nat)
    requires Run(states, events) && n < |events| && n <= later < |states|
    requires events[n].GatewayUnshared? || events[n].PrefixListUnshared?
    ensures states[later].held == {}
    ensures states[later].attachment != Applies && states[later].entry != Applies
  {
    var s := states[n];
    RunKeepsInv(states, events, n);
    assert Next(s, events[n], states[n + 1]);
    var v := s.share.version;
    assert Cleared(s, v);
    hide Next;
    RunKeepsInv(states, events, later);
    LogGrows(states, events, n, later);
    var log := states[later].log;
    assert log[v] == s.log[v];
    LawfulNow(states[later]);
    DeletionOnlyShrinks(log, v, Latest(log), ATTACHMENT);
    DeletionOnlyShrinks(log, v, Latest(log), ENTRY);
    HolderHolds(states[later], Attachment);
    HolderHolds(states[later], Entry);
    assert states[later].held == {} by {
      forall h: Holder ensures h !in states[later].held {
        assert h == Attachment || h == Entry;
      }
    }
  }

  lemma {:induction false} NoBlindReadMeansCovered(states: seq<State>, events: seq<Event>, n: nat)
    requires Run(states, events) && n < |states|
    requires forall i :: 0 <= i < n ==> !BlindRead(states[i], events[i])
    ensures CoverInv(states[n])
  {
    hide Next;
    if n > 0 {
      NoBlindReadMeansCovered(states, events, n - 1);
      RunKeepsInv(states, events, n - 1);
      StepKeepsCover(states[n - 1], events[n - 1], states[n]);
    }
  }

  lemma {:induction false} NobodyAnnotates(states: seq<State>, events: seq<Event>, n: nat)
    requires Run(states, events) && n < |states|
    requires forall i :: 0 <= i < n ==> !events[i].AnnotatedByHand?
    ensures states[n].byHand == []
  {
    hide Next;
    if n > 0 {
      NobodyAnnotates(states, events, n - 1);
      StepAnnotatesNothing(states[n - 1], events[n - 1], states[n]);
    }
  }

  lemma StepAnnotatesNothing(s: State, e: Event, t: State)
    requires Next(s, e, t) && !e.AnnotatedByHand?
    ensures t.byHand == s.byHand
  {
  }

  /** When annotations come only from the management cluster reconciler, every share the operator made is covered by
      its finalizer at every moment, although sharing the prefix list adds none. */
  lemma SharesAreCovered(states: seq<State>, events: seq<Event>, n: nat)
    requires Run(states, events) && n < |states|
    requires forall i :: 0 <= i < n ==> !events[i].AnnotatedByHand?
    ensures states[n].gatewayShared || states[n].prefixListShared ==> SHARE in Current(states[n].log).finalizers
  {
    hide Next;
    forall i | 0 <= i < n ensures !BlindRead(states[i], events[i]) {
      RunKeepsInv(states, events, i);
      NobodyAnnotates(states, events, i);
      ManagedAnnotationsAreNotBlind(states[i], events[i], states[i + 1]);
    }
    NoBlindReadMeansCovered(states, events, n);
  }

  /** Attachment and entry are covered by theirs whatever the annotations. */
  lemma HoldersAreCovered(states: seq<State>, events: seq<Event>, n: nat)
    requires Run(states, events) && n < |states|
    ensures Attachment in states[n].held ==> ATTACHMENT in Current(states[n].log).finalizers
    ensures Entry in states[n].held ==> ENTRY in Current(states[n].log).finalizers
  {
    RunKeepsInv(states, events, n);
  }

  // ---- exactly when a share is left uncovered ----

  /** The run goes on from a state, and no share reconcile starts. */
  ghost predicate GoesOn(t: State, states: seq<State>, events: seq<Event>) {
    && |states| == |events| + 1 && states[0] == t
    && forall i :: 0 <= i < |events| ==> Next(states[i], events[i], states[i + 1]) && !events[i].ShareReads?
  }

  lemma {:induction false} CoveredUntilTheNextRead(t: State, states: seq<State>, events: seq<Event>, n: nat)
    requires Inv(t) && CoverInv(t) && GoesOn(t, states, events) && n < |states|
    ensures Inv(states[n]) && CoverInv(states[n])
  {
    hide Next;
    if n > 0 {
      CoveredUntilTheNextRead(t, states, events, n - 1);
      StepKeepsInv(states[n - 1], events[n - 1], states[n]);
      StepKeepsCover(states[n - 1], events[n - 1], states[n]);
    }
  }

  /** The prefix list alone, shared without a finalizer. */
  lemma BlindReadLeaks(s: State, e: Event, t: State)
    requires Next(s, e, t) && BlindRead(s, e)
    ensures
      var u := t.(prefixListShared := true, share := ShareIdle);
      Next(t, PrefixListShared(false, NoFault), u) && !Covered(u)
  {
  }

  /** In any run, with annotations set by anybody: before the next read of the share reconciler a share can be left
      uncovered if and only if this read was blind. */
  lemma UncoveredShareIff(states: seq<State>, events: seq<Event>, n: nat)
    requires Run(states, events) && n < |events| && events[n].ShareReads?
    requires forall i :: 0 <= i < n ==> !BlindRead(states[i], events[i])
    ensures
      (exists more, acts :: GoesOn(states[n + 1], more, acts) && !Covered(more[|acts|]))
      <==> BlindRead(states[n], events[n])
  {
    var t := states[n + 1];
    assert Next(states[n], events[n], t);
    RunKeepsInv(states, events, n);
    RunKeepsInv(states, events, n + 1);
    NoBlindReadMeansCovered(states, events, n);
    if BlindRead(states[n], events[n]) {
      BlindReadLeaks(states[n], events[n], t);
      var u := t.(prefixListShared := true, share := ShareIdle);
      var more, acts := [t, u], [PrefixListShared(false, NoFault)];
      assert GoesOn(t, more, acts) && !Covered(more[|acts|]);
    } else {
      StepKeepsCover(states[n], events[n], t);
      forall more, acts | GoesOn(t, more, acts) ensures Covered(more[|acts|]) {
        CoveredUntilTheNextRead(t, more, acts, |acts|);
      }
    }
  }

  lemma HandIsSeen(s: State, own: Annotations, t: State)
    requires s.byHand == [] && t == s.(byHand := [own])
    ensures Next(s, AnnotatedByHand(own), t)
  {
    assert s.byHand + [own] == [own];
  }

  lemma BlindlyRead(s: State, own: Annotations, t: State)
    requires s.share == ShareIdle && s.log == [Meta([], false)] && s.annotations == [UNSET] && own in s.byHand
    requires own.transitGateway == "" && own.prefixList != "" && t == s.(share := SharesPrefixList)
    ensures Next(s, ShareReads(0, own, 0), t) && BlindRead(s, ShareReads(0, own, 0))
  {
  }

  /** A whole run to an uncovered share: a prefix list annotation set by hand on a cluster with no gateway. */
  lemma HandSetAnnotationLeaks(arn: string) returns (states: seq<State>, events: seq<Event>)
    requires arn != ""
    ensures Run(states, events) && states[|events|].prefixListShared && !Covered(states[|events|])
  {
    var own := Annotations("", arn);
    var s0 := State([Meta([], false)], [UNSET], [], HolderIdle, HolderIdle, {}, ShareIdle, false, false, NetworkIdle);
    var s1 := s0.(byHand := [own]);
    var s2 := s1.(share := SharesPrefixList);
    var s3 := s2.(prefixListShared := true, share := ShareIdle);
    HandIsSeen(s0, own, s1);
    BlindlyRead(s1, own, s2);
    BlindReadLeaks(s1, ShareReads(0, own, 0), s2);
    hide Next;
    states := [s0, s1, s2, s3];
    events := [AnnotatedByHand(own), ShareReads(0, own, 0), PrefixListShared(false, NoFault)];
  }
}
