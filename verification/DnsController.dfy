/** The DNS controller: a finalizer around the life of a cluster's zone, over whole runs. */
module DnsController {
  import opened Results
  import opened Listing
  import opened Cloud
  import opened ZoneSafety
  import opened ZoneEffects
  import opened ZoneMemory
  import opened HostedZones
  import opened ApiServer
  import opened Draining
  import opened Strings
  import opened Clusters
  import opened RecordWrites

  /** What one reconcile read: any version of the object, and whether the Cluster was being deleted. */
  datatype Reading = Reading(version: nat, deleting: bool, found: bool, paused: bool, hasIdentity: bool)

  datatype Event =
    | Reconciles(name: string, reading: Reading)
    | Restarts
    | Waits
    | OthersWrite(zoneId: string, key: Key, data: Option<Data>)
    | OthersCreateZone(account: string, zoneName: string)
    | OthersDeleteZone(zoneId: string)

  class DnsReconciler {
    const zoner: Zoner
    var deletionSeen: set<string>  // whose deletion was read: reads of the Cluster never go back in time

    constructor (zoner: Zoner)
      requires zoner.Inv() && zoner.setting.clusters.Keys <= zoner.cloud.objects.Keys
      requires KeptUntilSeen(zoner.cloud.objects, {}) && zoner.leaving == {}
      ensures Inv() && this.zoner == zoner && deletionSeen == {}
    {
      this.zoner := zoner;
      deletionSeen := {};
    }

    ghost predicate Inv()
      reads this, zoner, zoner.cloud, zoner.issued
    {
      && zoner.Inv() && zoner.setting.clusters.Keys <= zoner.cloud.objects.Keys
      && KeptUntilSeen(zoner.cloud.objects, deletionSeen) && zoner.leaving == deletionSeen
    }

    /** What the invariant is made of, both ways. */
    lemma Parts()
      ensures Inv() <==>
        && zoner.Inv() && zoner.setting.clusters.Keys <= zoner.cloud.objects.Keys
        && KeptUntilSeen(zoner.cloud.objects, deletionSeen) && zoner.leaving == deletionSeen
    {
    }

    /** No patch is sent if the copy, however old, has the finalizer already. */
    method AddAWSClusterFinalizer(n: string, version: nat) returns (r: Result<()>)
      requires Inv() && n in zoner.setting.clusters && version < |zoner.cloud.objects[n]| && n !in deletionSeen
      modifies zoner.cloud`objects, zoner.cloud`trail
      ensures Inv()
      ensures r.Ok? ==> HasFinalizer(zoner.cloud.objects, n) && GetsFinalizer(old(zoner.cloud.objects)[n], version)
      ensures zoner.cloud.reliable && GetsFinalizer(old(zoner.cloud.objects)[n], version) ==> r.Ok?
    {
      hide *;
      Parts();
      var cloud := zoner.cloud;
      var log := cloud.objects[n];
      AddingGoesThrough(log, version);
      if DNS_FINALIZER in log[version].finalizers {
        StillThere(cloud.objects, deletionSeen, n, version);
        return Ok(());
      }
      zoner.Quiet();
      r := cloud.PatchObject(n, AddPatch(log, version, DNS_FINALIZER));
      cloud.HereIs();
      cloud.StillValid();
      if r.Ok? {
        PatchedMeans(old(cloud.objects), cloud.objects, n, AddPatch(log, version, DNS_FINALIZER));
      }
      if cloud.objects != old(cloud.objects) || r.Ok? {
        AddKeepsKept(old(cloud.objects), cloud.objects, n, version, deletionSeen);
        SafeAfterPatch(zoner.setting, old(cloud.Here()), n, cloud.objects);
      }
      NothingIsLater(cloud.route53);
      NothingContinues(zoner.setting, cloud.route53, zoner.leaving);
      OneMore(old(cloud.Here()), cloud.Here(), old(cloud.trail), cloud.trail);
      zoner.Settles();
      Parts();
    }

    method RemoveAWSClusterFinalizer(n: string, version: nat) returns (r: Result<()>)
      requires Inv() && n in zoner.setting.clusters && version < |zoner.cloud.objects[n]| && n in deletionSeen
      requires !HasZone(zoner.setting, zoner.cloud.route53, zoner.setting.clusters[n])
      modifies zoner.cloud`objects, zoner.cloud`trail
      ensures Inv()
      ensures r.Ok? ==> !HasFinalizer(zoner.cloud.objects, n)
      ensures zoner.cloud.reliable && version + 1 == |old(zoner.cloud.objects)[n]| ==> r.Ok?
    {
      hide *;
      Parts();
      var cloud := zoner.cloud;
      zoner.Quiet();
      RemoveGoesThrough(cloud.objects[n], version);
      r := cloud.PatchObject(n, RemovePatch(cloud.objects[n], version, DNS_FINALIZER));
      cloud.HereIs();
      cloud.StillValid();
      if cloud.objects != old(cloud.objects) || r.Ok? {
        RemoveKeepsKept(old(cloud.objects), cloud.objects, n, version, deletionSeen);
        SafeAfterPatch(zoner.setting, old(cloud.Here()), n, cloud.objects);
      }
      NothingIsLater(cloud.route53);
      NothingContinues(zoner.setting, cloud.route53, zoner.leaving);
      OneMore(old(cloud.Here()), cloud.Here(), old(cloud.trail), cloud.trail);
      zoner.Settles();
      Parts();
    }

    /** Exactly when a reconcile of a cluster that is not being deleted can succeed: its copy has the finalizer or can get
        it, and its zone can be created and delegated. */
    ghost predicate Provides(n: string, version: nat)
      requires n in zoner.setting.clusters && n in zoner.cloud.objects && version < |zoner.cloud.objects[n]|
      reads zoner.cloud
    {
      && GetsFinalizer(zoner.cloud.objects[n], version)
      && Creatable(zoner.setting, zoner.cloud.route53, zoner.setting.clusters[n])
    }

    lemma ProvidesMeans(n: string, version: nat)
      requires n in zoner.setting.clusters && n in zoner.cloud.objects && version < |zoner.cloud.objects[n]|
      ensures Provides(n, version) <==>
        && GetsFinalizer(zoner.cloud.objects[n], version)
        && Creatable(zoner.setting, zoner.cloud.route53, zoner.setting.clusters[n])
    {
    }

    /** Success means finalizer, zone, safe wildcard and delegation, and the records that were asked for unless a
        remembered batch was skipped. */
    method ReconcileNormal(n: string, version: nat) returns (r: Result<()>, ghost w: Writing)
      requires Inv() && n in zoner.setting.clusters && version < |zoner.cloud.objects[n]| && n !in deletionSeen
      modifies zoner`clients, zoner`issued, zoner.cloud, zoner.issued
      ensures Inv() && old(zoner.issued) <= zoner.issued && fresh(zoner.issued - old(zoner.issued))
      ensures r.Ok? ==>
        && HasFinalizer(zoner.cloud.objects, n)
        && InPlace(zoner.setting, zoner.cloud.route53, zoner.setting.clusters[n])
        && Recorded(zoner.setting, zoner.setting.clusters[n], old(zoner.cloud.route53), zoner.cloud.route53, w,
                    zoner.canonicalZone)
      ensures w.skipped ==> old(zoner.RemembersBatch(n, w.id, w.asked))
      ensures r.Ok? ==> old(Provides(n, version))
      ensures zoner.cloud.reliable && old(Provides(n, version)) ==> r.Ok?
    {
      hide *;
      w := Writing("", map[], false);
      Parts();
      ProvidesMeans(n, version);
      r := AddAWSClusterFinalizer(n, version);
      if r.Err? {
        return;
      }
      Parts();
      ghost var base := zoner.cloud.objects;
      Opened(base);
      r, w := zoner.CreateHostedZone(n, base);
      DriftKeepsFinalizer(base, zoner.cloud.objects, n);
      Drifted(base, zoner.cloud.objects, deletionSeen);
      Parts();
    }

    /** Success under the finalizer means that zone, delegation and finalizer are gone; without it nothing is done. */
    method ReconcileDelete(n: string, version: nat, ghost own: string) returns (r: Result<()>)
      requires Inv() && n in zoner.setting.clusters && version < |zoner.cloud.objects[n]| && n in deletionSeen
      modifies zoner`clients, zoner`issued, zoner.cloud, zoner.issued
      ensures Inv() && old(zoner.issued) <= zoner.issued && fresh(zoner.issued - old(zoner.issued))
      ensures DNS_FINALIZER !in old(zoner.cloud.objects)[n][version].finalizers ==>
        r.Ok? && zoner.cloud.route53 == old(zoner.cloud.route53) && zoner.cloud.objects == old(zoner.cloud.objects)
      ensures r.Ok? && DNS_FINALIZER in old(zoner.cloud.objects)[n][version].finalizers ==>
        !HasFinalizer(zoner.cloud.objects, n) && AllGone(zoner.setting, zoner.cloud.route53, zoner.setting.clusters[n])
      ensures old(zoner.DrainsWell(n, own)) && version + 1 == |old(zoner.cloud.objects)[n]| && r.Err? ==>
        && zoner.DrainsWell(n, own) && zoner.cloud.objects == old(zoner.cloud.objects)
        && Shrunk(old(zoner.cloud.route53), zoner.cloud.route53, own, zoner.cloud.pageSize)
      ensures
        && old(Stuck(zoner.setting, zoner.cloud.route53, zoner.setting.clusters[n], own))
        && DNS_FINALIZER in old(zoner.cloud.objects)[n][version].finalizers
        ==> r.Err? && Stuck(zoner.setting, zoner.cloud.route53, zoner.setting.clusters[n], own)
    {
      hide *;
      Parts();
      zoner.WellMeans(n, own);
      if DNS_FINALIZER !in zoner.cloud.objects[n][version].finalizers {
        return Ok(());
      }
      ghost var base := zoner.cloud.objects;
      Opened(base);
      r := zoner.DeleteHostedZone(n, own, base);
      Drifted(base, zoner.cloud.objects, deletionSeen);
      Parts();
      AllGoneMeans(zoner.setting, zoner.cloud.route53, zoner.setting.clusters[n]);
      if r.Ok? {
        r := RemoveAWSClusterFinalizer(n, version);
      }
    }

    /** What a successful reconcile leaves: everything in place, or nothing left if the cluster is being deleted. */
    ghost predicate Done(n: string, deleting: bool)
      requires n in zoner.setting.clusters
      reads zoner.cloud
    {
      if deleting then
        && !HasFinalizer(zoner.cloud.objects, n)
        && AllGone(zoner.setting, zoner.cloud.route53, zoner.setting.clusters[n])
      else
        && HasFinalizer(zoner.cloud.objects, n)
        && InPlace(zoner.setting, zoner.cloud.route53, zoner.setting.clusters[n])
    }

    lemma DoneMeans(n: string)
      requires n in zoner.setting.clusters
      ensures Done(n, true) <==>
        && !HasFinalizer(zoner.cloud.objects, n)
        && AllGone(zoner.setting, zoner.cloud.route53, zoner.setting.clusters[n])
      ensures Done(n, false) <==>
        && HasFinalizer(zoner.cloud.objects, n)
        && InPlace(zoner.setting, zoner.cloud.route53, zoner.setting.clusters[n])
    {
    }

    /** Whether a reconcile gets as far as doing anything. */
    predicate Acts(n: string, reading: Reading) {
      n in zoner.setting.clusters && reading.found && !reading.paused && reading.hasIdentity
    }

    /** One reconcile, from whatever it read. */
    method Reconcile(n: string, reading: Reading) returns (r: Result<()>, ghost w: Writing)
      requires Inv() && (n in zoner.setting.clusters ==> reading.version < |zoner.cloud.objects[n]|)
      requires n in deletionSeen ==> reading.deleting
      modifies this`deletionSeen, zoner`leaving, zoner`clients, zoner`issued, zoner.cloud, zoner.issued
      ensures Inv() && old(zoner.issued) <= zoner.issued && fresh(zoner.issued - old(zoner.issued))
      ensures
        var idle := !Acts(n, reading)
          || (reading.deleting && DNS_FINALIZER !in old(zoner.cloud.objects)[n][reading.version].finalizers);
        if idle then
          r.Ok? && zoner.cloud.route53 == old(zoner.cloud.route53) && zoner.cloud.objects == old(zoner.cloud.objects)
        else
          && (r.Ok? ==> Done(n, reading.deleting))
          && (r.Ok? && !reading.deleting ==>
                Recorded(zoner.setting, zoner.setting.clusters[n], old(zoner.cloud.route53), zoner.cloud.route53, w,
                         zoner.canonicalZone))
          && (w.skipped ==> old(zoner.RemembersBatch(n, w.id, w.asked)))
          && (r.Ok? && !reading.deleting ==> old(Provides(n, reading.version)))
          && (zoner.cloud.reliable && !reading.deleting && old(Provides(n, reading.version)) ==> r.Ok?)
    {
      hide *;
      w := Writing("", map[], false);
      Considers(n, reading);
      Parts();
      if n !in zoner.setting.clusters || !reading.found {
        return Ok(()), w;
      }
      if reading.deleting {
        SeeingMore(zoner.cloud.objects, deletionSeen, n);
        zoner.Leaves(n);
        deletionSeen := deletionSeen + {n};
      }
      Parts();
      if reading.paused || !reading.hasIdentity {
        return Ok(()), w;
      }
      if reading.deleting {
        r := ReconcileDelete(n, reading.version, "");
      } else {
        r, w := ReconcileNormal(n, reading.version);
      }
      DoneMeans(n);
    }

    lemma Considers(n: string, reading: Reading)
      ensures Acts(n, reading) <==> n in zoner.setting.clusters && reading.found && !reading.paused && reading.hasIdentity
    {
    }

    /** Time passes, and others write the objects. */
    method Wait()
      requires Inv()
      modifies zoner.cloud`now, zoner.cloud`objects, zoner.cloud`trail
      ensures Inv()
    {
      hide *;
      Parts();
      ghost var base := zoner.cloud.objects;
      Opened(base);
      zoner.Elsewhere(base);
      Drifted(base, zoner.cloud.objects, deletionSeen);
      Parts();
    }

    method Happens(e: Event)
      requires Inv()
      modifies this`deletionSeen, zoner`leaving, zoner`clients, zoner`issued, zoner.cloud, zoner.issued
      ensures Inv() && fresh(zoner.issued - old(zoner.issued))
    {
      hide *;
      Parts();
      match e
      case Reconciles(n, reading) =>
        if n in zoner.setting.clusters && reading.version < |zoner.cloud.objects[n]| && (n in deletionSeen ==> reading.deleting) {
          var _, _ := Reconcile(n, reading);
        }
      case Restarts =>
        zoner.Restart();
        Parts();
      case Waits =>
        Wait();
      case OthersWrite(id, key, data) =>
        zoner.OthersWrite(id, key, data);
        Parts();
      case OthersCreateZone(account, zoneName) =>
        zoner.OthersCreateZone(account, zoneName);
        Parts();
      case OthersDeleteZone(id) =>
        zoner.OthersDeleteZone(id);
        Parts();
    }

    /** However the caches were filled: in a reliable world one reconcile of a cluster that is not being deleted, from the
        current version of an object that can get the finalizer, puts everything in place if and only if the zone's name
        is well formed and its parent, where it needs one, can be found. */
    method Provide(n: string) returns (done: bool, ghost w: Writing)
      requires Inv() && n in zoner.setting.clusters && n !in deletionSeen && zoner.cloud.reliable
      requires HasFinalizer(zoner.cloud.objects, n) || !Current(zoner.cloud.objects[n]).deleting
      modifies zoner`clients, zoner`issued, zoner.cloud, zoner.issued
      ensures Inv()
      ensures done <==> old(Creatable(zoner.setting, zoner.cloud.route53, zoner.setting.clusters[n]))
      ensures done ==>
        && Done(n, false)
        && Recorded(zoner.setting, zoner.setting.clusters[n], old(zoner.cloud.route53), zoner.cloud.route53, w,
                    zoner.canonicalZone)
        && (w.skipped ==> old(zoner.RemembersBatch(n, w.id, w.asked)))
    {
      hide *;
      Parts();
      var version := |zoner.cloud.objects[n]| - 1;
      IsCurrent(zoner.cloud.objects, n);
      ProvidesMeans(n, version);
      GetsItNow(zoner.cloud.objects, n);
      var r;
      r, w := ReconcileNormal(n, version);
      done := r.Ok?;
      DoneMeans(n);
    }

    /** One more reconcile of a cluster being deleted, from its current version. */
    method Retry(n: string, ghost own: string) returns (r: Result<()>)
      requires Inv() && n in zoner.setting.clusters && n in deletionSeen
      modifies zoner`clients, zoner`issued, zoner.cloud, zoner.issued
      ensures Inv() && old(zoner.issued) <= zoner.issued && fresh(zoner.issued - old(zoner.issued))
      ensures r.Ok? ==> Done(n, true)
      ensures old(Stuck(zoner.setting, zoner.cloud.route53, zoner.setting.clusters[n], own)) ==>
        r.Err? && Stuck(zoner.setting, zoner.cloud.route53, zoner.setting.clusters[n], own)
      ensures old(zoner.DrainsWell(n, own)) && r.Err? ==>
        zoner.DrainsWell(n, own) && Shrunk(old(zoner.cloud.route53), zoner.cloud.route53, own, zoner.cloud.pageSize)
    {
      hide *;
      Parts();
      zoner.Quiet();
      var setting, cloud := zoner.setting, zoner.cloud;
      ghost var c := setting.clusters[n];
      StuckMeans(setting, cloud.route53, c, own);
      var version := |cloud.objects[n]| - 1;
      IsCurrent(cloud.objects, n);
      if Stuck(setting, cloud.route53, c, own) {
        CoveredSays(setting, cloud.Here(), n, own);
      }
      if !HasFinalizer(cloud.objects, n) {
        NoFinalizerNoZone(setting, cloud.Here(), n);
        AllGoneMeans(setting, cloud.route53, c);
      }
      r := ReconcileDelete(n, version, own);
      Parts();
      IsCurrent(cloud.objects, n);
      DoneMeans(n);
    }

    /** However the caches were filled, and whatever else is in the zone: in a reliable world with pages of at least three,
        enough passes over a zone of m record sets end with everything gone if and only if the zone has no NS or SOA set
        below its top and its parent, if it needs one, can be found. Otherwise no number of passes ever succeeds, in any
        world, and zone and finalizer stay. */
    method RetryDeletion(n: string, ghost own: string, passes: nat) returns (done: bool)
      requires Inv() && n in zoner.setting.clusters && n in deletionSeen
      requires IsZoneOf(zoner.setting, zoner.cloud.route53, zoner.setting.clusters[n], own)
      modifies zoner`clients, zoner`issued, zoner.cloud, zoner.issued
      ensures Inv() && own in old(zoner.cloud.route53).zones && (done ==> Done(n, true))
      ensures old(Stuck(zoner.setting, zoner.cloud.route53, zoner.setting.clusters[n], own)) ==>
        && !done && Stuck(zoner.setting, zoner.cloud.route53, zoner.setting.clusters[n], own)
        && HasFinalizer(zoner.cloud.objects, n)
      ensures
        && zoner.cloud.reliable && zoner.cloud.pageSize >= 3
        && passes > |old(zoner.cloud.route53).zones[own].sets.Keys| / (zoner.cloud.pageSize - 2)
        ==> (done <==> old(Drainable(zoner.setting, zoner.cloud.route53, zoner.setting.clusters[n], own)))
    {
      hide *;
      ghost var c := zoner.setting.clusters[n];
      StuckMeans(zoner.setting, zoner.cloud.route53, c, own);
      zoner.WellMeans(n, own);
      ghost var stuck, well := Stuck(zoner.setting, zoner.cloud.route53, c, own), zoner.DrainsWell(n, own);
      ghost var left, k := |zoner.cloud.route53.zones[own].sets.Keys|, zoner.cloud.pageSize - 2;
      var tried := 0;
      done := false;
      while tried < passes && !done
        invariant Inv() && old(zoner.issued) <= zoner.issued && fresh(zoner.issued - old(zoner.issued))
        invariant tried <= passes && (done ==> Done(n, true))
        invariant stuck ==> !done && Stuck(zoner.setting, zoner.cloud.route53, c, own)
        invariant well && !done ==> zoner.DrainsWell(n, own) && own in zoner.cloud.route53.zones
        invariant well && !done ==> |zoner.cloud.route53.zones[own].sets.Keys| + tried * k <= left
      {
        ghost var before := zoner.cloud.route53;
        var r := Retry(n, own);
        tried := tried + 1;
        done := r.Ok?;
        if well && !done {
          ShrunkBy(before, zoner.cloud.route53, own, zoner.cloud.pageSize);
        }
      }
      if stuck {
        StuckIsCovered(n, own);
      }
      if k > 0 {
        EnoughPasses(left, k, tried);
      }
    }

    lemma StuckIsCovered(n: string, own: string)
      requires Inv() && n in zoner.setting.clusters
      requires Stuck(zoner.setting, zoner.cloud.route53, zoner.setting.clusters[n], own)
      ensures HasFinalizer(zoner.cloud.objects, n)
    {
      hide *;
      Parts();
      zoner.Quiet();
      StuckMeans(zoner.setting, zoner.cloud.route53, zoner.setting.clusters[n], own);
      CoveredSays(zoner.setting, zoner.cloud.Here(), n, own);
    }

    /** The input: an NS set below the top of the zone, such as the delegation of a sub-domain made by hand. From then on
        no number of retries deletes the zone, and the cluster keeps its finalizer. */
    method SubDelegationSticks(n: string, own: string, host: string, data: Data, passes: nat) returns (done: bool)
      requires Inv() && n in zoner.setting.clusters && n in deletionSeen
      requires IsZoneOf(zoner.setting, zoner.cloud.route53, zoner.setting.clusters[n], own)
      requires NotOurs(zoner.setting, Key(Canonical(host + "." + ZoneName(zoner.setting, zoner.setting.clusters[n])), NS))
      modifies zoner`clients, zoner`issued, zoner.cloud, zoner.issued
      ensures Inv() && !done && HasFinalizer(zoner.cloud.objects, n)
      ensures IsZoneOf(zoner.setting, zoner.cloud.route53, zoner.setting.clusters[n], own)
    {
      hide *;
      Parts();
      var setting, cloud := zoner.setting, zoner.cloud;
      var c := setting.clusters[n];
      ghost var st := cloud.route53;
      IsZoneMeansAlive(setting, st, c, own);
      var key := Key(Canonical(host + "." + ZoneName(setting, c)), NS);
      zoner.OthersWrite(own, key, Some(data));
      Parts();
      SubDelegated(setting, st, c, own, host, data);
      StuckMeans(setting, cloud.route53, c, own);
      done := RetryDeletion(n, own, passes);
      StuckMeans(setting, cloud.route53, c, own);
    }

    /** In every run, whatever fails, is lost, restarts or is read late: at every moment a delegation in the parent
        implies the zone it names, an existing zone is covered by the finalizer, and no zone is lost before the
        deletion of its cluster is read. */
    method Run(events: seq<Event>)
      requires Inv()
      modifies this`deletionSeen, zoner`leaving, zoner`clients, zoner`issued, zoner.cloud, zoner.issued
      ensures Inv() && AllSafe(zoner.setting, zoner.cloud.trail) && Safe(zoner.setting, zoner.cloud.Here())
      ensures Kept(zoner.setting, zoner.cloud.route53, deletionSeen, zoner.cloud.trail)
    {
      hide *;
      for i := 0 to |events|
        invariant Inv() && fresh(zoner.issued - old(zoner.issued))
      {
        Happens(events[i]);
      }
      Parts();
      zoner.Quiet();
    }
  }

  /** From the start: a valid Route 53 in which no cluster has a zone or a delegation yet, and any run from there. */
  method Operate(setting: Setting, order: Order, pageSize: nat, reliable: bool, route53: State,
                 objects: map<string, Log>, printable: char -> bool, canonicalZone: string -> string,
                 events: seq<Event>)
    returns (r: DnsReconciler)
    requires WellSet(setting) && Sound(order) && ValidState(route53) && UniqueZones(setting, route53)
    requires forall n :: n in setting.clusters ==>
      n in objects && !HasZone(setting, route53, setting.clusters[n]) && NotDelegated(setting, route53, setting.clusters[n])
    requires KeptUntilSeen(objects, {})
    ensures r.zoner.setting == setting && AllSafe(setting, r.zoner.cloud.trail) && Safe(setting, r.zoner.cloud.Here())
    ensures Kept(setting, r.zoner.cloud.route53, r.deletionSeen, r.zoner.cloud.trail)
  {
    hide *;
    var world := new World(order, pageSize, reliable, route53, objects);
    world.HereIs();
    StartIsSafe(setting, world.Here());
    var zoner := new Zoner(world, setting, printable, canonicalZone);
    r := new DnsReconciler(zoner);
    r.Run(events);
  }

  /** What safety at a moment says about one cluster. */
  lemma SafeSays(s: Setting, m: Moment, n: string)
    requires Safe(s, m) && n in s.clusters
    ensures forall q :: DelegatedFrom(s, m.route53, s.clusters[n], q) ==> Grounded(s, m.route53, s.clusters[n], q)
    ensures HasZone(s, m.route53, s.clusters[n]) || !NotDelegated(s, m.route53, s.clusters[n]) ==> HasFinalizer(m.objects, n)
  {
    if !HasFinalizer(m.objects, n) {
      NoFinalizerNoZone(s, m, n);
    }
  }

  lemma SeeingMore(objects: map<string, Log>, seen: set<string>, n: string)
    requires KeptUntilSeen(objects, seen)
    ensures KeptUntilSeen(objects, seen + {n})
  {
  }

  lemma RemoveGoesThrough(log: Log, version: nat)
    requires version < |log|
    ensures version + 1 == |log| ==> Apply(log, RemovePatch(log, version, DNS_FINALIZER)).Ok?
  {
    LockedRemoveIsOwn(log, version, DNS_FINALIZER);
  }

  lemma ShrunkBy(before: State, after: State, id: string, k: nat)
    requires Shrunk(before, after, id, k)
    ensures id in before.zones && id in after.zones && |after.zones[id].sets.Keys| + k <= |before.zones[id].sets.Keys| + 2
  {
  }

  lemma CoveredSays(s: Setting, m: Moment, n: string, own: string)
    requires Safe(s, m) && n in s.clusters && IsZoneOf(s, m.route53, s.clusters[n], own)
    ensures HasFinalizer(m.objects, n)
  {
    assert HasZone(s, m.route53, s.clusters[n]);
  }

  lemma EnoughPasses(left: nat, k: nat, tried: nat)
    requires k > 0
    ensures tried > left / k ==> tried * k > left
  {
    if tried > left / k {
      assert left < (left / k + 1) * k <= tried * k;
    }
  }

  lemma IsCurrent(objects: map<string, Log>, n: string)
    requires n in objects
    ensures |objects[n]| > 0 && (HasFinalizer(objects, n) <==> DNS_FINALIZER in objects[n][|objects[n]| - 1].finalizers)
  {
  }

  lemma SubDelegated(s: Setting, st: State, c: Cluster, own: string, host: string, data: Data)
    requires IsZoneOf(s, st, c, own)
    ensures
      var key := Key(Canonical(host + "." + ZoneName(s, c)), NS);
      Stuck(s, WithSets(st, own, Updated(st.zones[own].sets, key, Some(data))), c, own)
  {
    ZoneNameIsNotEmpty(s, c);
    SubDelegationIsUntame(st.zones[own], ZoneName(s, c), host, data);
    hide Canonical;
    hide Tame;
  }

  /** The copy has the finalizer, or is current and may get it: the API server takes no new finalizer on an object that
      is being deleted. */
  predicate GetsFinalizer(log: Log, version: nat)
    requires version < |log|
  {
    DNS_FINALIZER in log[version].finalizers || (version + 1 == |log| && !log[version].deleting)
  }

  lemma GetsItNow(objects: map<string, Log>, n: string)
    requires n in objects && (HasFinalizer(objects, n) || !Current(objects[n]).deleting)
    ensures GetsFinalizer(objects[n], |objects[n]| - 1)
  {
  }

  lemma AddingGoesThrough(log: Log, version: nat)
    requires version < |log|
    ensures GetsFinalizer(log, version) <==>
      DNS_FINALIZER in log[version].finalizers || Apply(log, AddPatch(log, version, DNS_FINALIZER)).Ok?
  {
    LockedAddIsOwn(log, version, DNS_FINALIZER);
  }

  lemma PatchedMeans(before: map<string, Log>, after: map<string, Log>, n: string, patch: Patch)
    requires ObjectPatched(before, after, n, patch)
    ensures Apply(before[n], patch).Ok?
  {
  }

  lemma StillThere(objects: map<string, Log>, seen: set<string>, n: string, version: nat)
    requires KeptUntilSeen(objects, seen) && n in objects && n !in seen && version < |objects[n]|
    requires DNS_FINALIZER in objects[n][version].finalizers
    ensures HasFinalizer(objects, n)
  {
  }

  lemma Opened(objects: map<string, Log>)
    ensures Drifts(objects, objects, DNS_FINALIZER)
  {
  }

  lemma Drifted(before: map<string, Log>, after: map<string, Log>, seen: set<string>)
    requires KeptUntilSeen(before, seen) && Drifts(before, after, DNS_FINALIZER)
    ensures KeptUntilSeen(after, seen) && before.Keys == after.Keys
    ensures forall n :: n in before ==> |before[n]| <= |after[n]|
  {
    DriftKeepsKept(before, after, seen);
    forall n | n in before ensures |before[n]| <= |after[n]| {
      assert LogDrifts(before[n], after[n], DNS_FINALIZER);
    }
  }
}
