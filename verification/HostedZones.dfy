/** The life of one cluster's zone: create zone, records, delegation; delete delegation, records, zone. */
module HostedZones {
  import opened Results
  import opened Strings
  import opened Listing
  import opened Cloud
  import opened CacheKeys
  import opened Clusters
  import opened Deletions
  import opened Upserts
  import opened ZoneCaches
  import opened Route53Client
  import opened ZoneSafety
  import opened ZoneEffects
  import opened ZoneMemory
  import opened ApiServer
  import opened Synthesis
  import opened Wildcards
  import opened RecordWrites
  import opened Draining

  const CLIENT_TTL := 900

  function ClientKey(region: string, arn: string): string {
    "route53/" + region + "/" + arn
  }

  /** The key tells the role, because no region has a slash. */
  lemma ClientKeyTellsRole(region: string, arn: string, otherRegion: string, otherArn: string)
    requires '/' !in region && '/' !in otherRegion && ClientKey(region, arn) == ClientKey(otherRegion, otherArn)
    ensures region == otherRegion && arn == otherArn
  {
    var x, y := region + ("/" + arn), otherRegion + ("/" + otherArn);
    assert ClientKey(region, arn) == "route53/" + x && ClientKey(otherRegion, otherArn) == "route53/" + y;
    LiteralCancels("route53/", x, y);
    FirstSlashDecides(region, arn, otherRegion, otherArn);
  }

  lemma {:induction false} FirstSlashDecides(a: string, x: string, b: string, y: string)
    requires '/' !in a && '/' !in b && a + ("/" + x) == b + ("/" + y)
    ensures a == b && x == y
  {
    var s, t := a + ("/" + x), b + ("/" + y);
    assert s[0] == t[0];
    if a != "" && b != "" {
      assert s[1..] == a[1..] + ("/" + x) && t[1..] == b[1..] + ("/" + y);
      FirstSlashDecides(a[1..], x, b[1..], y);
      assert a == [a[0]] + a[1..] && b == [b[0]] + b[1..];
    } else {
      assert a == "" && b == "";
      assert x == s[1..] && y == t[1..];
    }
  }

  class Zoner {
    const cloud: World
    const setting: Setting
    const printable: char -> bool
    const canonicalZone: string -> string
    var clients: Cache<Route53>
    ghost var issued: set<Route53>   // every client ever handed out
    ghost var leaving: set<string>   // the clusters whose deletion has been read

    constructor (cloud: World, setting: Setting, printable: char -> bool, canonicalZone: string -> string)
      requires cloud.Valid() && WellSet(setting) && Safe(setting, cloud.Here()) && cloud.trail == []
      ensures Inv() && this.cloud == cloud && this.setting == setting
      ensures issued == {} && clients == map[] && leaving == {}
    {
      this.cloud, this.setting, this.printable, this.canonicalZone := cloud, setting, printable, canonicalZone;
      clients, issued, leaving := map[], {}, {};
    }

    ghost predicate Keyed(key: string, account: string) {
      exists region, arn :: '/' !in region && key == ClientKey(region, arn) && account == setting.accountOf(arn)
    }

    /** The client's caches are sound and under stored names, its NS sets are the zones' own, and what it need not send
        is there. */
    ghost predicate Trusted(c: Route53)
      reads this`leaving, cloud, c
    {
      && c.cloud == cloud && c.canonicalZone == canonicalZone && c.printable == printable && c.Valid() && c.NsOwn()
      && PlainKeys(c.zoneIds) && Remembers(setting, cloud.route53, leaving, printable, c.upserts)
    }

    ghost predicate Valid()
      reads this, cloud, issued
    {
      && (forall c :: c in issued ==> Trusted(c))
      && (forall k :: k in clients ==> clients[k].value in issued && Keyed(k, clients[k].value.account))
    }

    /** The world is safe now and was safe after every call made so far, and no zone of ours got lost. */
    ghost predicate Calm()
      reads this`leaving, cloud
    {
      && cloud.Valid() && WellSet(setting) && Safe(setting, cloud.Here()) && AllSafe(setting, cloud.trail)
      && Kept(setting, cloud.route53, leaving, cloud.trail)
    }

    ghost predicate Inv()
      reads this, cloud, issued
    {
      Valid() && Calm()
    }

    method GetCachedOrNewRoute53Client(region: string, arn: string) returns (r: Result<Route53>)
      requires Inv() && '/' !in region
      modifies this`clients, this`issued
      ensures Inv() && old(issued) <= issued && fresh(issued - old(issued))
      ensures r.Ok? ==> r.value in issued && r.value.account == setting.accountOf(arn)
      ensures cloud.reliable ==> r.Ok?
      ensures forall c :: c in issued && c !in old(issued) ==> c.upserts == map[]
    {
      hide Trusted;
      hide Calm;
      if region == "" || arn == "" {
        r := NewRoute53Client(arn);
        return;
      }
      var cached := Get(clients, ClientKey(region, arn), cloud.now);
      if cached.Some? {
        SameRole(region, arn);
        return Ok(cached.value);
      }
      r := NewRoute53Client(arn);
      if r.Ok? {
        clients := SetDefault(clients, ClientKey(region, arn), r.value, cloud.now, CLIENT_TTL);
        assert Keyed(ClientKey(region, arn), r.value.account);
      }
    }

    lemma SameRole(region: string, arn: string)
      requires Valid() && '/' !in region && ClientKey(region, arn) in clients
      ensures clients[ClientKey(region, arn)].value.account == setting.accountOf(arn)
    {
      hide Trusted;
      var key := ClientKey(region, arn);
      var otherRegion, otherArn :| '/' !in otherRegion && key == ClientKey(otherRegion, otherArn)
        && clients[key].value.account == setting.accountOf(otherArn);
      ClientKeyTellsRole(region, arn, otherRegion, otherArn);
    }

    method NewRoute53Client(arn: string) returns (r: Result<Route53>)
      requires Inv()
      modifies this`issued
      ensures Inv() && old(issued) <= issued && fresh(issued - old(issued))
      ensures r.Ok? ==> r.value in issued && r.value.account == setting.accountOf(arn)
      ensures cloud.reliable ==> r.Ok?
      ensures forall c :: c in issued && c !in old(issued) ==> c.upserts == map[]
    {
      hide Safe;
      hide AllSafe;
      hide WellSet;
      hide Kept;
      hide Remembers;
      hide Route53.Valid;
      var fault := cloud.Draw();
      if fault != NoFault {
        return Err(Failed);
      }
      var client := new Route53(cloud, setting.accountOf(arn), printable, canonicalZone);
      NothingRemembered(setting, cloud.route53, leaving, printable);
      issued := issued + {client};
      r := Ok(client);
    }

    /** A client that is not used can be trusted as before. */
    twostate lemma TrustSurvives(c: Route53)
      requires old(Trusted(c)) && unchanged(c) && leaving == old(leaving) && cloud.Valid()
      requires Later(old(cloud.route53), cloud.route53) && old(cloud.trail) <= cloud.trail && old(cloud.now) <= cloud.now
      requires Continues(setting, old(cloud.route53), cloud.route53, leaving)
      ensures Trusted(c)
    {
      hide Route53.Valid;
      hide Route53.NsOwn;
      hide PlainKeys;
      hide Continues;
      hide Remembers;
      c.Survives();
      c.OwnSurvives();
      StillRemembers(setting, old(cloud.route53), cloud.route53, leaving, printable, c.upserts);
    }

    twostate lemma StaysCalm()
      requires old(Calm()) && leaving == old(leaving) && cloud.Valid() && Safe(setting, cloud.Here())
      requires Passed(old(cloud.trail), cloud.trail, old(cloud.Here()), cloud.Here())
      requires Continues(setting, old(cloud.route53), cloud.route53, leaving)
      ensures Calm()
    {
      hide Safe;
      hide WellSet;
      hide Kept;
      hide Continues;
      hide AllSafe;
      hide Passed;
      TrailStaysSafe(setting, old(cloud.trail), cloud.trail, old(cloud.Here()), cloud.Here());
      KeptGoesOn(setting, leaving, old(cloud.trail), cloud.trail, old(cloud.Here()), cloud.Here());
    }

    /** After one call of one client: every other client can still be trusted, every moment since was safe. */
    twostate lemma Stepped(actor: Route53)
      requires unchanged(this) && old(Inv()) && actor in issued && actor.Valid()
      requires actor.nsRecords == old(actor.nsRecords) || actor.NsOwn()
      requires actor.zoneIds == old(actor.zoneIds) || PlainKeys(actor.zoneIds)
      requires actor.upserts == old(actor.upserts)
            || Remembers(setting, cloud.route53, leaving, printable, actor.upserts)
      requires cloud.now == old(cloud.now) && cloud.objects == old(cloud.objects)
      requires Passed(old(cloud.trail), cloud.trail, old(cloud.Here()), cloud.Here())
      requires Later(old(cloud.route53), cloud.route53) && Safe(setting, cloud.Here())
      requires Continues(setting, old(cloud.route53), cloud.route53, leaving)
      requires forall c :: c in issued && c != actor ==> unchanged(c)
      ensures Inv()
    {
      hide Safe;
      hide Calm;
      hide Keyed;
      hide Continues;
      hide Later;
      assert old(Trusted(actor)) && cloud.Valid() by {
        hide Remembers;
        hide PlainKeys;
        hide Route53.NsOwn;
      }
      hide Trusted;
      ActorStaysTrusted(actor);
      forall c | c in issued ensures Trusted(c) {
        if c != actor {
          TrustSurvives(c);
        }
      }
      StaysCalm();
    }

    twostate lemma ActorStaysTrusted(actor: Route53)
      requires old(Trusted(actor)) && actor.Valid() && leaving == old(leaving)
      requires actor.nsRecords == old(actor.nsRecords) || actor.NsOwn()
      requires actor.zoneIds == old(actor.zoneIds) || PlainKeys(actor.zoneIds)
      requires actor.upserts == old(actor.upserts)
            || Remembers(setting, cloud.route53, leaving, printable, actor.upserts)
      requires Later(old(cloud.route53), cloud.route53)
      requires Continues(setting, old(cloud.route53), cloud.route53, leaving)
      ensures Trusted(actor)
    {
      hide Route53.Valid;
      hide Route53.NsOwn;
      hide PlainKeys;
      hide Continues;
      hide Remembers;
      hide Later;
      if actor.nsRecords == old(actor.nsRecords) {
        actor.OwnSurvives();
      }
      if actor.upserts == old(actor.upserts) {
        StillRemembers(setting, old(cloud.route53), cloud.route53, leaving, printable, actor.upserts);
      }
    }

    /** The same when no client was used. */
    twostate lemma Settles()
      requires unchanged(this) && old(Inv()) && cloud.Valid() && old(cloud.now) <= cloud.now
      requires Passed(old(cloud.trail), cloud.trail, old(cloud.Here()), cloud.Here())
      requires Later(old(cloud.route53), cloud.route53) && Safe(setting, cloud.Here())
      requires Continues(setting, old(cloud.route53), cloud.route53, leaving)
      requires forall c :: c in issued ==> unchanged(c)
      ensures Inv()
    {
      hide Safe;
      hide Trusted;
      hide Calm;
      hide Keyed;
      hide Continues;
      hide Later;
      forall c | c in issued ensures Trusted(c) {
        TrustSurvives(c);
      }
      StaysCalm();
    }

    /** Nothing stands in the way of deleting the cluster's zone. */
    ghost predicate DrainsWell(n: string, own: string)
      reads cloud
    {
      cloud.reliable && n in setting.clusters && Drainable(setting, cloud.route53, setting.clusters[n], own)
    }

    lemma WellMeans(n: string, own: string)
      requires n in setting.clusters
      ensures DrainsWell(n, own) <==> cloud.reliable && Drainable(setting, cloud.route53, setting.clusters[n], own)
    {
    }

    /** The key of the batch that these sets ask for. */
    function BatchKey(n: string, id: string, asked: Sets): string
      requires n in setting.clusters
    {
      ZoneKey(printable, id, RecordsToCreate(setting, setting.clusters[n], asked))
    }

    /** Some client of the cluster's account need not send that batch. */
    ghost predicate RemembersBatch(n: string, id: string, asked: Sets)
      requires n in setting.clusters
      reads this`issued, issued, cloud`now
    {
      exists c ::
        && c in issued && c.account == Account(setting, setting.clusters[n])
        && Get(c.upserts, BatchKey(n, id, asked), cloud.now).Some?
    }

    /** What is remembered now was remembered before time passed and new clients came. */
    twostate lemma RememberedBefore(new n: string, new id: string, new asked: Sets)
      requires n in setting.clusters && old(cloud.now) <= cloud.now
      requires forall c :: c in issued ==> c.upserts == map[] || (c in old(issued) && c.upserts == old(c.upserts))
      ensures RemembersBatch(n, id, asked) ==> old(RemembersBatch(n, id, asked))
    {
      hide BatchKey;
    }

    lemma WhatIsRemembered(n: string, id: string, asked: Sets)
      requires n in setting.clusters
      ensures BatchKey(n, id, asked) == ZoneKey(printable, id, RecordsToCreate(setting, setting.clusters[n], asked))
      ensures forall c ::
        c in issued && c.account == Account(setting, setting.clusters[n]) ==>
          (Get(c.upserts, BatchKey(n, id, asked), cloud.now).Some? ==> RemembersBatch(n, id, asked))
    {
    }

    lemma Quiet()
      requires Inv()
      ensures cloud.Valid() && Safe(setting, cloud.Here()) && WellSet(setting) && AllSafe(setting, cloud.trail)
      ensures Kept(setting, cloud.route53, leaving, cloud.trail)
      ensures cloud.Here() == Moment(cloud.now, cloud.route53, cloud.objects)
    {
    }

    /** What a call of a client may rely on. */
    lemma Ready(client: Route53)
      requires Inv() && client in issued
      ensures client.cloud == cloud && client.canonicalZone == canonicalZone && client.printable == printable
      ensures client.Valid() && client.NsOwn() && PlainKeys(client.zoneIds)
      ensures Remembers(setting, cloud.route53, leaving, printable, client.upserts)
      ensures Safe(setting, cloud.Here()) && WellSet(setting) && ValidState(cloud.route53)
      ensures cloud.Here() == Moment(cloud.now, cloud.route53, cloud.objects)
    {
      hide Remembers;
      hide Kept;
      assert Trusted(client);
    }

    /** A lookup under one of our names that has a zone finds that zone, from the cache or not. */
    lemma Finds(account: string, name: string, r: Result<string>, own: string)
      requires Inv() && IsThe(setting, cloud.route53, account, name, own)
      requires r.Ok? ==> Recent(cloud.trail, cloud.now, account, r.value, name)
      requires r.Err? && cloud.reliable ==> Answers(cloud.route53, account, name, r)
      ensures r.Ok? ==> r.value == own
      ensures cloud.reliable && Plain(name) ==> r == Ok(own)
    {
      assert Kept(setting, cloud.route53, leaving, cloud.trail) && UniqueZones(setting, cloud.route53);
      hide *;
      if r.Ok? {
        SeenIsTheOne(setting, cloud.route53, leaving, cloud.trail, cloud.now, account, r.value, name, own);
      } else if cloud.reliable && Plain(name) {
        AnswerIsTheOne(setting, cloud.route53, account, name, own, r);
      }
    }

    /** In a reliable world the zone of a cluster that is not leaving is found or created. */
    lemma GoesThrough(client: Route53, n: string)
      requires Inv() && client in issued && n in setting.clusters && n !in leaving
      requires client.account == Account(setting, setting.clusters[n])
      requires Stored(Canonical(ZoneName(setting, setting.clusters[n])))
      ensures
        var name := ZoneName(setting, setting.clusters[n]);
        var cached := Get(client.zoneIds, name, cloud.now);
        || WillCreate(cached, cloud.route53, client.account, name)
        || WillFind(cached, cloud.route53, client.account, name)
    {
      var name := ZoneName(setting, setting.clusters[n]);
      assert Trusted(client) && ZoneIdsSound(client.zoneIds, client.account, cloud.route53, cloud.now, cloud.trail);
      assert Kept(setting, cloud.route53, leaving, cloud.trail) && UniqueZones(setting, cloud.route53);
      assert ProperZone(setting, setting.clusters[n]) && WellSet(setting);
      hide *;
      ZoneNameIsPlain(setting, setting.clusters[n]);
      OwnIsOnly(setting, cloud.route53, n);
      WillMeans(Get(client.zoneIds, name, cloud.now), cloud.route53, client.account, name);
      if Get(client.zoneIds, name, cloud.now).Some? {
        IsKnown(client.zoneIds, client.account, cloud.route53, cloud.now, cloud.trail, name);
        GetIs(client.zoneIds, name, cloud.now);
        SeenIsStillThere(setting, cloud.route53, leaving, cloud.trail, cloud.now, n, client.zoneIds[name].value);
        IsZoneMeansAlive(setting, cloud.route53, setting.clusters[n], client.zoneIds[name].value);
      }
    }

    /** Between two calls time passes and others write the clusters' objects. */
    method Elsewhere(ghost base: map<string, Log>)
      requires Inv() && Drifts(base, cloud.objects, DNS_FINALIZER)
      modifies cloud`now, cloud`objects, cloud`trail
      ensures Inv() && Drifts(base, cloud.objects, DNS_FINALIZER) && old(cloud.now) <= cloud.now
      ensures cloud.reliable ==> cloud.objects == old(cloud.objects)
    {
      hide *;
      Quiet();
      cloud.Elsewhere(DNS_FINALIZER);
      cloud.HereIs();
      SafeAfterDrift(setting, old(cloud.Here()), cloud.Here());
      DriftsTwice(base, old(cloud.objects), cloud.objects);
      NothingIsLater(cloud.route53);
      NothingContinues(setting, cloud.route53, leaving);
      OneMore(old(cloud.Here()), cloud.Here(), old(cloud.trail), cloud.trail);
      cloud.StillValid();
      Settles();
    }

    /** The process is gone and comes back with empty caches. */
    method Restart()
      requires Inv()
      modifies this`clients, this`issued
      ensures Inv() && clients == map[] && issued == {}
    {
      hide Calm;
      clients, issued := map[], {};
    }

    /** The deletion of a cluster is read. */
    ghost method Leaves(n: string)
      requires Inv()
      modifies this`leaving
      ensures Inv() && leaving == old(leaving) + {n}
    {
      hide Safe;
      hide AllSafe;
      hide WellSet;
      hide Kept;
      hide Remembers;
      hide PlainKeys;
      hide Route53.Valid;
      hide Route53.NsOwn;
      MoreLeave(setting, cloud.route53, leaving, n, cloud.trail);
      forall c | c in issued ensures Remembers(setting, cloud.route53, leaving + {n}, printable, c.upserts) {
        RemembersWhenMoreLeave(setting, cloud.route53, leaving, n, printable, c.upserts);
      }
      leaving := leaving + {n};
    }

    // ---- what others do to Route 53 ----

    /** Another writer of the zones' records, for example the one that keeps the ingress record. */
    method OthersWrite(id: string, key: Key, data: Option<Data>)
      requires Inv()
      modifies cloud`route53, cloud`trail
      ensures Inv()
      ensures cloud.route53 ==
        if id in old(cloud.route53).zones && NotOurs(setting, key)
        then WithSets(old(cloud.route53), id, Updated(old(cloud.route53).zones[id].sets, key, data)) else old(cloud.route53)
    {
      hide *;
      if id in cloud.route53.zones && NotOurs(setting, key) {
        Quiet();
        ghost var before := cloud.Here();
        var sets := Updated(cloud.route53.zones[id].sets, key, data);
        SafeAfterForeignWrite(setting, before, id, key, data);
        ForeignWriteContinues(setting, before, id, key, data, leaving);
        SafeIsValid(setting, before.(route53 := WithSets(cloud.route53, id, sets)));
        cloud.WriteForeign(id, sets);
        cloud.HereIs();
        SameIsLater(before.route53, cloud.route53);
        OneMore(before, cloud.Here(), old(cloud.trail), cloud.trail);
        Settles();
      }
    }

    /** Another owner of zones in the same accounts. */
    method OthersCreateZone(account: string, name: string)
      requires Inv()
      modifies cloud`route53, cloud`trail
      ensures Inv()
    {
      hide *;
      if !IsOurs(setting, account, Canonical(name)) {
        Quiet();
        ghost var before := cloud.Here();
        var _, made := cloud.CreateHostedZone(account, name);
        cloud.HereIs();
        NothingIsLater(before.route53);
        NothingContinues(setting, before.route53, leaving);
        if made.Some? {
          WorldIsValid(cloud);
          NewZoneIsValid(before.route53, made.value.0, account, Canonical(name), made.value.1);
          SafeIsValid(setting, before);
          BornIsNew(before.route53, made.value.0);
          SafeAfterForeignCreation(setting, before, made.value.0, account, Canonical(name), made.value.1);
          ForeignCreationContinues(setting, before.route53, made.value.0, account, Canonical(name), made.value.1, leaving);
        }
        OneMore(before, cloud.Here(), old(cloud.trail), cloud.trail);
        Settles();
      }
    }

    method OthersDeleteZone(id: string)
      requires Inv()
      modifies cloud`route53, cloud`trail
      ensures Inv()
    {
      hide *;
      if id in cloud.route53.zones && !ZoneIsOurs(setting, cloud.route53.zones[id]) {
        Quiet();
        ghost var before := cloud.Here();
        var _ := cloud.DeleteHostedZone(id);
        cloud.HereIs();
        NothingIsLater(before.route53);
        NothingContinues(setting, before.route53, leaving);
        if cloud.route53 != before.route53 {
          SafeAfterForeignRemoval(setting, before, id);
          ForeignRemovalContinues(setting, before.route53, id, leaving);
        }
        OneMore(before, cloud.Here(), old(cloud.trail), cloud.trail);
        Settles();
      }
    }

    // ---- one call each ----

    /** The zone is created only for a cluster whose deletion nobody has read. */
    method EnsureZone(client: Route53, n: string, ghost base: map<string, Log>) returns (r: Result<string>)
      requires Inv() && client in issued && n in setting.clusters && n !in leaving
      requires client.account == Account(setting, setting.clusters[n])
      requires Drifts(base, cloud.objects, DNS_FINALIZER) && HasFinalizer(base, n)
      modifies cloud, issued
      ensures cloud.reliable && Stored(Canonical(ZoneName(setting, setting.clusters[n]))) ==> r.Ok?
      ensures ParentIsThere(setting, cloud.route53, setting.clusters[n]) <==>
        ParentIsThere(setting, old(cloud.route53), setting.clusters[n])
      ensures Inv() && Drifts(base, cloud.objects, DNS_FINALIZER)
      ensures r.Ok? ==> r.value in cloud.route53.zones && IsZoneOf(setting, cloud.route53, setting.clusters[n], r.value)
      ensures r.Ok? ==>
        cloud.route53.zones[r.value].sets == Asked(old(cloud.route53), cloud.route53, r.value)
      ensures old(cloud.now) <= cloud.now && forall c :: c in issued ==> c.upserts == old(c.upserts)
    {
      hide *;
      var c := setting.clusters[n];
      Elsewhere(base);
      ProperSetting(n);
      ZoneNameIsPlain(setting, c);
      DriftKeepsFinalizer(base, cloud.objects, n);
      Ready(client);
      if Stored(Canonical(ZoneName(setting, c))) {
        GoesThrough(client, n);
      }
      ghost var before := cloud.Here();
      NothingIsLater(before.route53);
      NothingContinues(setting, before.route53, leaving);
      label L:
      ghost var made;
      r, made := client.CreateHostedZone(ZoneName(setting, c), TagsForHostedZone(c));
      cloud.HereIs();
      client.StateIsValid();
      if made.Some? {
        NewZoneIsValid(before.route53, made.value.0, client.account, Canonical(ZoneName(setting, c)), made.value.1);
        BornIsNew(before.route53, made.value.0);
        SafeAfterCreating(setting, before, n, made.value.0, made.value.1);
        OwnCreationContinues(setting, before.route53, n, made.value.0, made.value.1, leaving);
        ParentsAlike(setting, before.route53, n, made.value.0, made.value.1);
        AskedIs(before.route53, cloud.route53, made.value.0, client.account, Canonical(ZoneName(setting, c)), made.value.1);
      }
      AddingKeepsPlain(old@L(client.zoneIds), client.zoneIds, client.account, before.route53, ZoneName(setting, c));
      Stepped@L(client);
      if r.Ok? {
        KnownIsZone(setting, cloud.route53, c, r.value);
        if made.None? {
          AskedIs(before.route53, cloud.route53, r.value, "", "", []);
        }
      }
    }

    /** A lookup by name. While one of our names has a zone, the answer is that zone; in general an answer is about the
        present only if it says that there is no zone. */
    method FindZone(client: Route53, name: string, ghost base: map<string, Log>) returns (r: Result<string>)
      requires Inv() && client in issued && Drifts(base, cloud.objects, DNS_FINALIZER)
      modifies cloud, issued
      ensures Inv() && Drifts(base, cloud.objects, DNS_FINALIZER) && cloud.route53 == old(cloud.route53)
      ensures r.Ok? ==> KnownAs(cloud.route53.born, client.account, r.value, name)
      ensures r == Err(ZoneNotFound) ==> NoZone(cloud.route53, client.account, name)
      ensures r.Ok? ==> Plain(name)
      ensures forall own :: IsThe(setting, cloud.route53, client.account, name, own) ==>
        (r.Ok? ==> r.value == own) && (cloud.reliable && Plain(name) ==> r == Ok(own))
      ensures cloud.reliable ==> cloud.objects == old(cloud.objects)
      ensures forall c :: c in issued ==> c.upserts == old(c.upserts)
    {
      hide *;
      Elsewhere(base);
      Ready(client);
      label L:
      r := client.GetHostedZoneIdByName(name);
      cloud.HereIs();
      OnlyAddingKeepsPlain(old@L(client.zoneIds), client.zoneIds, client.account, cloud.route53);
      if r.Ok? {
        FoundIsPlain(old@L(client.zoneIds), cloud.route53, client.account, name, cloud.now, r);
      }
      NothingIsLater(cloud.route53);
      NothingContinues(setting, cloud.route53, leaving);
      Stepped@L(client);
      forall own | IsThe(setting, cloud.route53, client.account, name, own)
        ensures (r.Ok? ==> r.value == own) && (cloud.reliable && Plain(name) ==> r == Ok(own))
      {
        Finds(client.account, name, r, own);
      }
    }

    method RecordExists(client: Route53, id: string, name: string, ghost base: map<string, Log>)
      returns (r: Result<bool>)
      requires Inv() && client in issued && Drifts(base, cloud.objects, DNS_FINALIZER)
      modifies cloud, issued
      ensures cloud.reliable && id in old(cloud.route53).zones ==> r.Ok?
      ensures Inv() && Drifts(base, cloud.objects, DNS_FINALIZER) && cloud.route53 == old(cloud.route53)
      ensures r.Ok? ==> id in cloud.route53.zones
      ensures r.Ok? ==> (r.value <==> Shown(cloud.route53.zones[id].sets, name))
      ensures old(cloud.now) <= cloud.now && forall c :: c in issued ==> c.upserts == old(c.upserts)
    {
      hide *;
      Elsewhere(base);
      Ready(client);
      label L:
      r := client.DnsRecordExists(id, name);
      cloud.HereIs();
      NothingIsLater(cloud.route53);
      NothingContinues(setting, cloud.route53, leaving);
      Stepped@L(client);
      if r.Ok? {
        ZoneSetsAreValid(cloud.route53, id);
        ShownIff(cloud.route53.zones[id].sets, name);
      }
    }

    /** Deletes the cluster's wildcard record. */
    method RemoveWildcard(client: Route53, n: string, id: string, ghost base: map<string, Log>) returns (r: Result<()>)
      requires Inv() && client in issued && Drifts(base, cloud.objects, DNS_FINALIZER)
      requires n in setting.clusters && IsZoneOf(setting, cloud.route53, setting.clusters[n], id)
      modifies cloud, issued
      ensures cloud.reliable ==> r.Ok?
      ensures Inv() && Drifts(base, cloud.objects, DNS_FINALIZER) && SameZones(old(cloud.route53), cloud.route53)
      ensures AtMostRemoves(old(cloud.route53), cloud.route53, id, WildcardKeyOf(setting, setting.clusters[n]))
      ensures r.Ok? && Recognised(WildcardName(setting.defaultDomain, setting.clusters[n])) ==>
        WildcardKeyOf(setting, setting.clusters[n]) !in cloud.route53.zones[id].sets
      ensures old(cloud.now) <= cloud.now
      ensures forall k :: k in client.upserts ==> k in old(client.upserts) && client.upserts[k] == old(client.upserts)[k]
    {
      hide *;
      var c := setting.clusters[n];
      Elsewhere(base);
      Ready(client);
      ghost var before := cloud.Here();
      ghost var was := client.upserts;
      label L:
      r := client.DeleteDnsRecord(id, DnsRecord(CNAME, WildcardName(setting.defaultDomain, c), [], ""));
      cloud.HereIs();
      WildcardIsStored(setting, c);
      WildcardIsNoApex(setting, c, before.route53, id);
      SafeAfterOneDeletion(setting, before, n, id, WildcardKeyOf(setting, c), cloud.route53);
      OneDeletionContinues(setting, before.route53, id, WildcardKeyOf(setting, c), cloud.route53, leaving);
      InvalidatedIsLess(was, ZonePrefix(client.printable, id), cloud.now);
      StillRemembers(setting, before.route53, cloud.route53, leaving, printable, was);
      FewerRemembered(setting, cloud.route53, leaving, printable, was, client.upserts);
      SameIsLater(before.route53, cloud.route53);
      Stepped@L(client);
    }

    /** One batch. A success leaves it in the zone if and only if it was sent, or the zone held it already. */
    method WriteRecords(client: Route53, n: string, id: string, records: seq<DnsRecord>, ghost base: map<string, Log>)
      returns (r: Result<()>, ghost skipped: bool)
      requires Inv() && client in issued && Drifts(base, cloud.objects, DNS_FINALIZER)
      requires n in setting.clusters && IsZoneOf(setting, cloud.route53, setting.clusters[n], id)
      requires OurRecords(setting, setting.clusters[n], records) && HaveValues(records) && records != []
      modifies cloud, issued
      ensures cloud.reliable ==> r.Ok?
      ensures Inv() && Drifts(base, cloud.objects, DNS_FINALIZER) && SameZones(old(cloud.route53), cloud.route53)
      ensures cloud.route53 == old(cloud.route53)
           || Some(cloud.route53) == Changed(old(cloud.route53), id, ChangesFor(records, canonicalZone))
      ensures r.Ok? ==>
        (ZoneHolds(cloud.route53, id, records, canonicalZone) <==>
          !skipped || ZoneHolds(old(cloud.route53), id, records, canonicalZone))
      ensures skipped ==> Get(old(client.upserts), ZoneKey(printable, id, records), old(cloud.now)).Some?
    {
      hide *;
      Elsewhere(base);
      Ready(client);
      ghost var seen := client.Seen();
      client.SeenIs();
      ghost var before := cloud.Here();
      label L:
      r := client.AddDnsRecordsToHostedZone(id, records);
      cloud.HereIs();
      client.SeenIs();
      NothingIsLater(before.route53);
      NothingContinues(setting, before.route53, leaving);
      if cloud.route53 != before.route53 {
        SafeAfterUpserting(setting, before, n, id, records, canonicalZone, cloud.route53);
        UpsertingContinues(setting, before, n, id, records, canonicalZone, cloud.route53, leaving);
      }
      StillRemembers(setting, before.route53, cloud.route53, leaving, printable, seen.upserts);
      OurChangesAreSome(setting, setting.clusters[n], records, canonicalZone);
      IsZoneMeansAlive(setting, before.route53, setting.clusters[n], id);
      ghost var key := ZoneKey(client.printable, id, records);
      skipped := Get(seen.upserts, key, seen.now).Some?;
      LivedBefore(seen.upserts, key, old(cloud.now), seen.now);
      UpsertRemembers(seen, client.Seen(), key, id, ChangesFor(records, canonicalZone), r.Ok?);
      ChangesForUpserts(records, canonicalZone);
      if r.Ok? {
        SuccessIsTrueIff(seen, client.Seen(), key, id, ChangesFor(records, canonicalZone));
        AgreesIff(before.route53, id, records, canonicalZone);
        AgreesIff(cloud.route53, id, records, canonicalZone);
      }
      RecordsRemembered(setting, cloud.route53, leaving, printable, seen.upserts, client.upserts, id, records);
      SameIsLater(before.route53, cloud.route53);
      Stepped@L(client);
    }

    /** The name servers of the cluster's zone. */
    method NameServersOf(client: Route53, n: string, id: string, ghost base: map<string, Log>)
      returns (r: Result<DnsRecord>)
      requires Inv() && client in issued && Drifts(base, cloud.objects, DNS_FINALIZER)
      requires n in setting.clusters && client.account == Account(setting, setting.clusters[n])
      requires KnownAs(cloud.route53.born, client.account, id, ZoneName(setting, setting.clusters[n]))
      modifies cloud, issued
      ensures Inv() && Drifts(base, cloud.objects, DNS_FINALIZER) && cloud.route53 == old(cloud.route53)
      ensures r.Ok? ==>
        r.value == DnsRecord(NS, Canonical(ZoneName(setting, setting.clusters[n])), cloud.route53.born[id].nameServers, "")
      ensures cloud.reliable && id in cloud.route53.zones ==> r.Ok?
      ensures cloud.reliable ==> cloud.objects == old(cloud.objects)
      ensures forall c :: c in issued ==> c.upserts == old(c.upserts)
    {
      hide *;
      Elsewhere(base);
      Ready(client);
      OwnNsIsAsked(setting, cloud.Here(), n, id);
      label L:
      r := client.GetHostedZoneNSRecord(id, ZoneName(setting, setting.clusters[n]));
      cloud.HereIs();
      NothingIsLater(cloud.route53);
      NothingContinues(setting, cloud.route53, leaving);
      Stepped@L(client);
    }

    /** Success means that the parent zone delegates the cluster's zone, whether the upsert was sent or skipped. */
    method Delegate(client: Route53, n: string, id: string, p: string, record: DnsRecord, ghost base: map<string, Log>)
      returns (r: Result<()>)
      requires Inv() && client in issued && Drifts(base, cloud.objects, DNS_FINALIZER)
      requires n in setting.clusters && n !in leaving && Delegates(setting, setting.clusters[n])
      requires client.account == ParentAccount(setting, setting.clusters[n])
      requires KnownAs(cloud.route53.born, client.account, p, ParentName(setting, setting.clusters[n]))
      requires IsZoneOf(setting, cloud.route53, setting.clusters[n], id)
      requires record == DnsRecord(NS, Canonical(ZoneName(setting, setting.clusters[n])), cloud.route53.zones[id].nameServers, "")
      modifies cloud, issued
      ensures cloud.reliable && p in old(cloud.route53).zones ==> r.Ok?
      ensures Inv() && Drifts(base, cloud.objects, DNS_FINALIZER) && SameZones(old(cloud.route53), cloud.route53)
      ensures SameExcept(old(cloud.route53), cloud.route53, p)
      ensures r.Ok? ==> DelegatedFrom(setting, cloud.route53, setting.clusters[n], p)
    {
      hide *;
      Elsewhere(base);
      Ready(client);
      ghost var seen := client.Seen();
      client.SeenIs();
      ghost var before := cloud.Here();
      var c := setting.clusters[n];
      ghost var key := DelegationKey(client.printable, p, record.name, record.values);
      label L:
      r := client.AddDelegationToParentZone(p, record);
      cloud.HereIs();
      client.SeenIs();
      NothingIsLater(before.route53);
      NothingContinues(setting, before.route53, leaving);
      SameAsItself(before.route53);
      if cloud.route53 != before.route53 {
        DelegationApplied(setting, before.route53, c, p, record.values, cloud.route53);
        ChangedExcept(before.route53, p, [DelegationChange(record.name, record.values)], cloud.route53);
        KnownIsParent(setting, before.route53, c, p);
        SafeAfterDelegating(setting, before, n, id, p, cloud.route53);
        DelegatingContinues(setting, before.route53, c, p, record.values, cloud.route53, leaving);
      }
      ServersAreSome(setting, before, n, id);
      StillRemembers(setting, before.route53, cloud.route53, leaving, printable, seen.upserts);
      if r.Ok? {
        UpsertRemembers(seen, client.Seen(), key, p, [DelegationChange(record.name, record.values)], true);
        if key in seen.upserts && cloud.route53 == before.route53 {
          RememberedMeans(setting, before.route53, leaving, printable, seen.upserts, n, p, record.values);
        } else {
          SentMeans(seen, client.Seen(), key, p, [DelegationChange(record.name, record.values)]);
          DelegationShows(setting, before.route53, n, p, record.values, cloud.route53);
        }
        DelegationRemembered(setting, cloud.route53, leaving, printable, seen.upserts, client.upserts, n, p, record.values);
      }
      SameIsLater(before.route53, cloud.route53);
      Stepped@L(client);
    }

    method Undelegate(client: Route53, n: string, p: string, record: DnsRecord, ghost base: map<string, Log>)
      returns (r: Result<()>)
      requires Inv() && client in issued && Drifts(base, cloud.objects, DNS_FINALIZER)
      requires n in setting.clusters && n in leaving && Delegates(setting, setting.clusters[n])
      requires client.account == ParentAccount(setting, setting.clusters[n])
      requires KnownAs(cloud.route53.born, client.account, p, ParentName(setting, setting.clusters[n]))
      requires record.name == Canonical(ZoneName(setting, setting.clusters[n]))
      modifies cloud, issued
      ensures Inv() && Drifts(base, cloud.objects, DNS_FINALIZER) && SameZones(old(cloud.route53), cloud.route53)
      ensures SameExcept(old(cloud.route53), cloud.route53, p)
      ensures r.Ok? ==> NotDelegated(setting, cloud.route53, setting.clusters[n])
      ensures r.Ok? ==> IsParentOf(setting, cloud.route53, setting.clusters[n], p)
      ensures cloud.reliable && Undelegable(old(cloud.route53), p, record) ==> r.Ok?
      ensures cloud.reliable ==> cloud.objects == old(cloud.objects)
    {
      hide *;
      Elsewhere(base);
      Ready(client);
      UndelegableMeans(cloud.route53, p, record);
      ghost var before := cloud.Here();
      label L:
      r := client.DeleteDelegationFromParentZone(p, record);
      cloud.HereIs();
      DelegationIsStored(setting, setting.clusters[n]);
      SafeAfterUndelegation(setting, before, n, p, record.name, cloud.route53);
      UndelegatingContinues(setting, before.route53, n, p, cloud.route53, leaving);
      SameIsLater(before.route53, cloud.route53);
      Stepped@L(client);
      Ready(client);
      BornAlike(before.route53, cloud.route53);
      if r.Ok? {
        KnownIsParent(setting, cloud.route53, setting.clusters[n], p);
      }
    }

    /** Deletes the records the first page shows. */
    method EmptyZone(client: Route53, n: string, id: string, ghost base: map<string, Log>) returns (r: Result<()>)
      requires Inv() && client in issued && Drifts(base, cloud.objects, DNS_FINALIZER)
      requires n in setting.clusters && client.account == Account(setting, setting.clusters[n])
      requires KnownAs(cloud.route53.born, client.account, id, ZoneName(setting, setting.clusters[n]))
      requires NotDelegated(setting, cloud.route53, setting.clusters[n])
      modifies cloud, issued
      ensures Inv() && Drifts(base, cloud.objects, DNS_FINALIZER) && SameZones(old(cloud.route53), cloud.route53)
      ensures r.Ok? ==> IsZoneOf(setting, cloud.route53, setting.clusters[n], id)
      ensures NotDelegated(setting, cloud.route53, setting.clusters[n])
      ensures cloud.reliable && id in old(cloud.route53).zones ==> r.Ok?
      ensures id in cloud.route53.zones && Tame(cloud.route53.zones[id]) ==>
        id in old(cloud.route53).zones && Tame(old(cloud.route53).zones[id])
      ensures r.Ok? ==> id in old(cloud.route53).zones && id in cloud.route53.zones
      ensures r.Ok? && Tame(old(cloud.route53).zones[id]) ==>
        Drained(old(cloud.route53).zones[id], cloud.route53.zones[id], cloud.pageSize)
      ensures cloud.reliable ==> cloud.objects == old(cloud.objects)
    {
      hide *;
      var c := setting.clusters[n];
      Elsewhere(base);
      Ready(client);
      ghost var before := cloud.Here();
      NothingIsLater(before.route53);
      NothingContinues(setting, before.route53, leaving);
      label L:
      ghost var page;
      r, page := client.DeleteDnsRecordsFromHostedZone(id);
      cloud.HereIs();
      client.StateIsValid();
      if Emptied(before.route53, cloud.route53, id, page) {
        EmptiedExists(before.route53, cloud.route53, id, page);
        EmptiedKeepsUntame(before.route53, cloud.route53, id, page);
        KnownIsZone(setting, before.route53, c, id);
        SafeAfterEmptying(setting, before, n, id, page, cloud.route53);
        EmptyingContinues(setting, before.route53, id, page, cloud.route53, leaving);
        if r.Ok? && Tame(before.route53.zones[id]) {
          cloud.OrderIsSound();
          EmptiedDrains(cloud.order, before.route53, cloud.route53, id, cloud.pageSize, page);
        }
      }
      SameIsLater(before.route53, cloud.route53);
      Stepped@L(client);
    }

    method RemoveZone(client: Route53, n: string, id: string, ghost base: map<string, Log>) returns (r: Result<()>)
      requires Inv() && client in issued && Drifts(base, cloud.objects, DNS_FINALIZER)
      requires n in setting.clusters && n in leaving && IsZoneOf(setting, cloud.route53, setting.clusters[n], id)
      requires NotDelegated(setting, cloud.route53, setting.clusters[n])
      modifies cloud, issued
      ensures Inv() && Drifts(base, cloud.objects, DNS_FINALIZER)
      ensures r.Ok? ==> !HasZone(setting, cloud.route53, setting.clusters[n])
      ensures cloud.reliable && id in old(cloud.route53).zones && Deletable(old(cloud.route53).zones[id]) ==> r.Ok?
      ensures cloud.reliable && r.Err? ==> cloud.route53 == old(cloud.route53)
      ensures id in old(cloud.route53).zones
      ensures !Deletable(old(cloud.route53).zones[id]) ==> r.Err? && cloud.route53 == old(cloud.route53)
      ensures cloud.reliable ==> cloud.objects == old(cloud.objects)
    {
      hide *;
      Elsewhere(base);
      Ready(client);
      ghost var before := cloud.Here();
      NothingIsLater(before.route53);
      NothingContinues(setting, before.route53, leaving);
      label L:
      r := client.DeleteHostedZone(id);
      cloud.HereIs();
      ForgettingKeepsPlain(old@L(client.zoneIds), client.zoneIds, id, cloud.now);
      OneMore(before, cloud.Here(), old@L(cloud.trail), cloud.trail);
      IsZoneMeansAlive(setting, before.route53, setting.clusters[n], id);
      if cloud.route53 != before.route53 {
        SafeAfterRemoving(setting, before, n, id);
        LeavingContinues(setting, before.route53, n, id, leaving);
      }
      Stepped@L(client);
    }

    // ---- the records ----

    method GetWorkloadClusterDnsRecords(client: Route53, n: string, id: string, ghost base: map<string, Log>)
      returns (r: Result<(seq<DnsRecord>, seq<DnsRecord>)>)
      requires Inv() && client in issued && Drifts(base, cloud.objects, DNS_FINALIZER)
      requires n in setting.clusters && id in cloud.route53.zones
      modifies cloud, issued
      ensures cloud.reliable ==> r.Ok?
      ensures Inv() && Drifts(base, cloud.objects, DNS_FINALIZER) && cloud.route53 == old(cloud.route53)
      ensures r.Ok? ==> r.value.0 == RecordsToCreate(setting, setting.clusters[n], cloud.route53.zones[id].sets)
      ensures r.Ok? ==> r.value.1 == RecordsToDelete(setting, setting.clusters[n], cloud.route53.zones[id].sets)
      ensures old(cloud.now) <= cloud.now && forall c :: c in issued ==> c.upserts == old(c.upserts)
    {
      hide *;
      var c := setting.clusters[n];
      var create, remove := [], [];
      var wildcard := true;
      WantedIs(setting, c, cloud.route53.zones[id].sets);
      if !c.isEKS && !IsAWSChinaRegion(c.region) {
        var irsa := RecordExists(client, id, IrsaName(setting.defaultDomain, c), base);
        if irsa.Err? {
          return Err(irsa.error);
        }
        wildcard := irsa.value;
      }
      if wildcard {
        var target := RecordExists(client, id, WildcardTarget(setting.defaultDomain, c), base);
        if target.Err? {
          return Err(target.error);
        }
        if target.value {
          create := create + [WildcardRecord(setting, c)];
        } else {
          remove := remove + [DnsRecord(CNAME, WildcardName(setting.defaultDomain, c), [], "")];
        }
      }
      if c.controlPlaneEndpoint != "" {
        create := create + [ApiRecord(setting, c)];
      }
      r := Ok((create, remove));
    }

    /** After every success the wildcard of a cluster that is ready for one exists only if its target has its own
        record, and the zone holds every record that was asked for unless a remembered batch was skipped. */
    method ReconcileDnsRecords(n: string, id: string, ghost asked: Sets, ghost base: map<string, Log>)
      returns (r: Result<()>, ghost skipped: bool)
      requires Inv() && Drifts(base, cloud.objects, DNS_FINALIZER)
      requires n in setting.clusters && IsZoneOf(setting, cloud.route53, setting.clusters[n], id)
      requires id in cloud.route53.zones && cloud.route53.zones[id].sets == asked
      modifies this`clients, this`issued, cloud, issued
      ensures cloud.reliable ==> r.Ok?
      ensures Inv() && old(issued) <= issued && fresh(issued - old(issued))
      ensures Drifts(base, cloud.objects, DNS_FINALIZER) && SameZones(old(cloud.route53), cloud.route53)
      ensures id in cloud.route53.zones
      ensures r.Ok? ==> WildcardIsSafe(setting, setting.clusters[n], cloud.route53.zones[id].sets)
      ensures r.Ok? ==>
        WrittenIff(setting, setting.clusters[n], asked, cloud.route53.zones[id].sets, canonicalZone, skipped)
      ensures skipped ==> old(RemembersBatch(n, id, asked))
    {
      hide *;
      skipped := false;
      ghost var now := cloud.now;
      var c := setting.clusters[n];
      WhatIsRemembered(n, id, asked);
      ProperSetting(n);
      RoleOf(setting, c);
      NothingIsLater(cloud.route53);
      var client := GetCachedOrNewRoute53Client(c.region, c.iamRoleARN);
      if client.Err? {
        return Err(client.error), false;
      }
      var wanted := GetWorkloadClusterDnsRecords(client.value, n, id, base);
      if wanted.Err? {
        return Err(wanted.error), false;
      }
      LivedBefore(client.value.upserts, BatchKey(n, id, asked), now, cloud.now);
      NothingCached(BatchKey(n, id, asked), cloud.now);
      r, skipped := ApplyRecords(client.value, n, id, wanted.value.0, wanted.value.1, base);
    }

    /** Deletions first, then one batch of upserts if there is anything to write. */
    method ApplyRecords(client: Route53, n: string, id: string, create: seq<DnsRecord>, remove: seq<DnsRecord>,
                        ghost base: map<string, Log>)
      returns (r: Result<()>, ghost skipped: bool)
      requires Inv() && client in issued && Drifts(base, cloud.objects, DNS_FINALIZER) && id in cloud.route53.zones
      requires n in setting.clusters && IsZoneOf(setting, cloud.route53, setting.clusters[n], id)
      requires create == RecordsToCreate(setting, setting.clusters[n], cloud.route53.zones[id].sets)
      requires remove == RecordsToDelete(setting, setting.clusters[n], cloud.route53.zones[id].sets)
      modifies cloud, issued
      ensures cloud.reliable ==> r.Ok?
      ensures Inv() && Drifts(base, cloud.objects, DNS_FINALIZER) && SameZones(old(cloud.route53), cloud.route53)
      ensures id in cloud.route53.zones
      ensures r.Ok? ==> WildcardIsSafe(setting, setting.clusters[n], cloud.route53.zones[id].sets)
      ensures r.Ok? ==>
        WrittenIff(setting, setting.clusters[n], old(cloud.route53).zones[id].sets, cloud.route53.zones[id].sets,
                   canonicalZone, skipped)
      ensures skipped ==> Get(old(client.upserts), ZoneKey(printable, id, create), old(cloud.now)).Some?
    {
      hide *;
      skipped := false;
      var c := setting.clusters[n];
      ghost var st := cloud.route53;
      ghost var was, then_ := client.upserts, cloud.now;
      ProperSetting(n);
      Ready(client);
      ZoneSetsAreValid(st, id);
      WantedShape(setting, c, st.zones[id].sets);
      CreatesOnlyOurs(setting, c, st.zones[id].sets);
      NothingIsLater(st);
      if remove != [] {
        r := RemoveWildcard(client, n, id, base);
        SameOwner(setting, st, cloud.route53, c, id);
        OnlyWildcardGone(st, cloud.route53, id, WildcardKeyOf(setting, c));
        if r.Err? {
          return;
        }
      }
      ghost var mid := cloud.route53;
      FewerLived(was, client.upserts, ZoneKey(printable, id, create), then_, cloud.now);
      if create == [] {
        ReconciledMeans(setting, c, st, mid, id, canonicalZone, mid);
        ReconciledIsSafe(setting, c, st, mid, id, canonicalZone, mid);
        WrittenMeans(setting, c, st.zones[id].sets, mid.zones[id].sets, canonicalZone, false);
        return Ok(()), false;
      }
      r, skipped := WriteRecords(client, n, id, create, base);
      SameTwice(st, mid, cloud.route53);
      SameOwner(setting, st, cloud.route53, c, id);
      ReconciledMeans(setting, c, st, mid, id, canonicalZone, cloud.route53);
      ReconciledIsSafe(setting, c, st, mid, id, canonicalZone, cloud.route53);
      if r.Ok? {
        AgreedIsWritten(setting, c, st, mid, cloud.route53, id, canonicalZone, skipped);
      }
    }

    // ---- creation and deletion ----

    /** Zone, then records, then delegation. The caller has put the finalizer on the cluster's object. Success means
        that zone and delegation are in place and the wildcard is safe; it means that the zone holds the records that
        were asked for unless a remembered batch was skipped. */
    method CreateHostedZone(n: string, ghost base: map<string, Log>) returns (r: Result<()>, ghost w: Writing)
      requires Inv() && n in setting.clusters && n !in leaving
      requires Drifts(base, cloud.objects, DNS_FINALIZER) && HasFinalizer(base, n)
      modifies this`clients, this`issued, cloud, issued
      ensures r.Ok? ==> Creatable(setting, old(cloud.route53), setting.clusters[n])
      ensures cloud.reliable && Creatable(setting, old(cloud.route53), setting.clusters[n]) ==> r.Ok?
      ensures Inv() && old(issued) <= issued && fresh(issued - old(issued))
      ensures Drifts(base, cloud.objects, DNS_FINALIZER)
      ensures r.Ok? ==> InPlace(setting, cloud.route53, setting.clusters[n])
      ensures r.Ok? ==> Recorded(setting, setting.clusters[n], old(cloud.route53), cloud.route53, w, canonicalZone)
      ensures w.skipped ==> old(RemembersBatch(n, w.id, w.asked))
    {
      hide *;
      w := Writing("", map[], false);
      ghost var start := cloud.route53;
      CreatableMeans(setting, start, setting.clusters[n]);
      var c := setting.clusters[n];
      ProperSetting(n);
      RoleOf(setting, c);
      var client := GetCachedOrNewRoute53Client(c.region, c.iamRoleARN);
      if client.Err? {
        return Err(client.error), w;
      }
      var id := EnsureZone(client.value, n, base);
      if id.Err? {
        return Err(id.error), w;
      }
      ghost var st := cloud.route53;
      ghost var skipped;
      RememberedBefore(n, id.value, st.zones[id.value].sets);
      Ready(client.value);
      ZoneIsStored(setting, st, c, id.value);
      r, skipped := ReconcileDnsRecords(n, id.value, st.zones[id.value].sets, base);
      w := Writing(id.value, st.zones[id.value].sets, skipped);
      if r.Ok? {
        SameOwner(setting, st, cloud.route53, c, id.value);
        AskedAlike(start, st, cloud.route53, id.value);
        ghost var recorded := cloud.route53;
        SameParents(setting, st, recorded, c);
        NoParentNeeded(setting, start, c);
        if !c.isDnsModePrivate {
          r := AddDelegation(client.value, n, id.value, base);
        }
        PutInPlace(setting, cloud.route53, c, id.value);
        AskedOfZone(start, recorded, cloud.route53, id.value);
        RecordedMeans(setting, c, start, cloud.route53, w, canonicalZone);
      }
    }

    method AddDelegation(client: Route53, n: string, id: string, ghost base: map<string, Log>) returns (r: Result<()>)
      requires Inv() && client in issued && Drifts(base, cloud.objects, DNS_FINALIZER)
      requires n in setting.clusters && n !in leaving && !setting.clusters[n].isDnsModePrivate
      requires client.account == Account(setting, setting.clusters[n])
      requires id in cloud.route53.zones && IsZoneOf(setting, cloud.route53, setting.clusters[n], id)
      modifies this`clients, this`issued, cloud, issued
      ensures r.Ok? ==> ParentIsThere(setting, old(cloud.route53), setting.clusters[n])
      ensures cloud.reliable && ParentIsThere(setting, old(cloud.route53), setting.clusters[n]) ==> r.Ok?
      ensures Inv() && old(issued) <= issued && fresh(issued - old(issued))
      ensures Drifts(base, cloud.objects, DNS_FINALIZER) && IsZoneOf(setting, cloud.route53, setting.clusters[n], id)
      ensures id in cloud.route53.zones && cloud.route53.zones[id] == old(cloud.route53).zones[id]
      ensures r.Ok? && Delegates(setting, setting.clusters[n]) ==>
        !NotDelegated(setting, cloud.route53, setting.clusters[n])
    {
      hide *;
      var c := setting.clusters[n];
      var parent := ParentName(setting, c);
      RoleOf(setting, c);
      NoParentNeeded(setting, cloud.route53, c);
      if parent == "" {
        return Ok(());
      }
      ghost var p0 := "";
      if ParentIsThere(setting, cloud.route53, c) {
        p0 := ThereIsAParent(setting, cloud.route53, n);
      }
      ProperSetting(n);
      Ready(client);
      ZoneIsKnown(setting, cloud.route53, c, id);
      var delegating := GetCachedOrNewRoute53Client(c.region, DelegationRoleARN(c));
      if delegating.Err? {
        return Err(delegating.error);
      }
      var p := FindZone(delegating.value, parent, base);
      if p.Err? {
        return Err(p.error);
      }
      var ns := NameServersOf(client, n, id, base);
      if ns.Err? {
        return Err(ns.error);
      }
      ghost var st := cloud.route53;
      NotItsOwnParent(setting, st, n, id, p.value);
      r := Delegate(delegating.value, n, id, p.value, ns.value, base);
      SameOwner(setting, st, cloud.route53, c, id);
      Unchanged(st, cloud.route53, p.value, id);
      if r.Ok? {
        Quiet();
        DelegatedIsFromParent(setting, cloud.Here(), n, p.value);
        ParentWasThere(setting, st, cloud.route53, c, p.value);
        IsDelegated(setting, cloud.route53, c, p.value);
      }
    }

    /** Delegation, then records, then zone; a zone that is not found is taken as deleted. */
    method DeleteHostedZone(n: string, ghost own: string, ghost base: map<string, Log>) returns (r: Result<()>)
      requires Inv() && n in setting.clusters && n in leaving && Drifts(base, cloud.objects, DNS_FINALIZER)
      modifies this`clients, this`issued, cloud, issued
      ensures Inv() && old(issued) <= issued && fresh(issued - old(issued))
      ensures Drifts(base, cloud.objects, DNS_FINALIZER)
      ensures r.Ok? ==> AllGone(setting, cloud.route53, setting.clusters[n])
      ensures old(DrainsWell(n, own)) && r.Err? ==>
        DrainsWell(n, own) && Shrunk(old(cloud.route53), cloud.route53, own, cloud.pageSize)
      ensures old(Stuck(setting, cloud.route53, setting.clusters[n], own)) ==>
        r.Err? && Stuck(setting, cloud.route53, setting.clusters[n], own)
      ensures cloud.reliable ==> cloud.objects == old(cloud.objects)
    {
      hide *;
      var c := setting.clusters[n];
      ProperSetting(n);
      ZoneNameIsPlain(setting, c);
      RoleOf(setting, c);
      WellMeans(n, own);
      var client := GetCachedOrNewRoute53Client(c.region, c.iamRoleARN);
      if client.Err? {
        return Err(client.error);
      }
      ghost var stuck := Stuck(setting, cloud.route53, c, own);
      StuckMeans(setting, cloud.route53, c, own);
      if old(DrainsWell(n, own)) {
        DrainableParts(setting, cloud.route53, c, own);
      }
      if IsZoneOf(setting, cloud.route53, c, own) {
        OwnIsTheOne(setting, cloud.route53, n, own);
        OwnMeansHas(setting, cloud.route53, c, own);
      }
      var id := FindZone(client.value, ZoneName(setting, c), base);
      WellMeans(n, own);
      if id == Err(ZoneNotFound) {
        Ready(client.value);
        NoneFoundMeansNone(setting, cloud.route53, n);
        Vanished(setting, cloud.Here(), n);
        return Ok(());
      }
      if id.Err? {
        return Err(id.error);
      }
      ghost var first := cloud.route53;
      r := RemoveDelegation(client.value, n, id.value, base);
      if stuck {
        StuckStays(setting, first, cloud.route53, c, own);
      }
      if r.Err? {
        return;
      }
      StuckMeans(setting, first, c, own);
      WellMeans(n, own);
      if old(DrainsWell(n, own)) {
        DrainableParts(setting, cloud.route53, c, own);
      }
      ghost var mid := cloud.route53;
      r := EmptyZone(client.value, n, id.value, base);
      if stuck {
        StuckStays(setting, mid, cloud.route53, c, own);
        UntameIsNotDeletable(cloud.route53, own);
      }
      if r.Err? {
        return;
      }
      ghost var emptied := cloud.route53;
      r := RemoveZone(client.value, n, id.value, base);
      if r.Ok? {
        Ready(client.value);
        Vanished(setting, cloud.Here(), n);
      }
      if old(DrainsWell(n, own)) && r.Err? {
        DrainedShrinks(mid, emptied, own, cloud.pageSize);
        DrainableStays(setting, mid, emptied, c, own);
        WellMeans(n, own);
        ShrunkFrom(old(cloud.route53), mid, emptied, own, cloud.pageSize);
      }
    }

    method RemoveDelegation(client: Route53, n: string, id: string, ghost base: map<string, Log>)
      returns (r: Result<()>)
      requires Inv() && client in issued && Drifts(base, cloud.objects, DNS_FINALIZER)
      requires n in setting.clusters && n in leaving && client.account == Account(setting, setting.clusters[n])
      requires KnownAs(cloud.route53.born, client.account, id, ZoneName(setting, setting.clusters[n]))
      modifies this`clients, this`issued, cloud, issued
      ensures Inv() && old(issued) <= issued && fresh(issued - old(issued))
      ensures Drifts(base, cloud.objects, DNS_FINALIZER) && SameZones(old(cloud.route53), cloud.route53)
      ensures KnownAs(cloud.route53.born, client.account, id, ZoneName(setting, setting.clusters[n]))
      ensures r.Ok? ==> NotDelegated(setting, cloud.route53, setting.clusters[n])
      ensures r.Ok? ==> ParentIsThere(setting, old(cloud.route53), setting.clusters[n])
      ensures old(DrainsWell(n, id)) ==> r.Ok? && DrainsWell(n, id) && id in old(cloud.route53).zones
      ensures id in old(cloud.route53).zones ==>
        id in cloud.route53.zones && cloud.route53.zones[id] == old(cloud.route53).zones[id]
      ensures cloud.reliable ==> cloud.objects == old(cloud.objects)
    {
      hide *;
      var c := setting.clusters[n];
      ProperSetting(n);
      RoleOf(setting, c);
      Ready(client);
      NothingIsLater(cloud.route53);
      WellMeans(n, id);
      if DrainsWell(n, id) {
        DrainableParts(setting, cloud.route53, c, id);
      }
      if c.isDnsModePrivate || ParentName(setting, c) == "" {
        SafeIsValid(setting, cloud.Here());
        NeverDelegated(setting, cloud.route53, n);
        NoParentNeeded(setting, cloud.route53, c);
        return Ok(());
      }
      var delegating := GetCachedOrNewRoute53Client(c.region, DelegationRoleARN(c));
      if delegating.Err? {
        return Err(delegating.error);
      }
      ghost var parent := "";
      if old(DrainsWell(n, id)) {
        parent := DrainableParent(setting, cloud.route53, n, id);
      }
      var p := FindZone(delegating.value, ParentName(setting, c), base);
      if p.Err? {
        return Err(p.error);
      }
      var ns := NameServersOf(client, n, id, base);
      if ns.Err? {
        return Err(ns.error);
      }
      if old(DrainsWell(n, id)) {
        Ready(client);
        SafeIsValid(setting, cloud.Here());
        KnownIsBorn(cloud.route53.born, client.account, id, ZoneName(setting, c));
        OwnRecordIsUndelegable(setting, cloud.route53, n, id, p.value, ns.value);
      }
      KnownApart(setting, c, cloud.route53.born, id, p.value);
      r := Undelegate(delegating.value, n, p.value, ns.value, base);
      BornAlike(old(cloud.route53), cloud.route53);
      if id in old(cloud.route53).zones {
        Unchanged(old(cloud.route53), cloud.route53, p.value, id);
      }
      if r.Ok? {
        ParentWasThere(setting, old(cloud.route53), cloud.route53, c, p.value);
      }
      if old(DrainsWell(n, id)) {
        DrainableStays(setting, old(cloud.route53), cloud.route53, c, id);
        WellMeans(n, id);
      }
    }

    lemma ProperSetting(n: string)
      requires Inv() && n in setting.clusters
      ensures ProperZone(setting, setting.clusters[n]) && '/' !in setting.clusters[n].region
      ensures Recognised(WildcardName(setting.defaultDomain, setting.clusters[n]))
    {
      hide Safe;
      hide AllSafe;
      WildcardIsRecognised(setting, setting.clusters[n]);
    }
  }

  lemma InvalidatedIsLess(cache: Cache<bool>, prefix: string, now: nat)
    ensures Invalidated(cache, prefix, now).Keys <= cache.Keys
    ensures forall k :: k in Invalidated(cache, prefix, now) ==> Invalidated(cache, prefix, now)[k] == cache[k]
  {
  }

  lemma UpsertRemembers(before: View, after: View, key: string, id: string, changes: seq<Change>, ok: bool)
    requires UpsertStep(before, after, key, id, changes, ok)
    ensures after.upserts.Keys <= before.upserts.Keys + {key}
  {
  }

  lemma LivedBefore(cache: Cache<bool>, key: string, earlier: nat, now: nat)
    requires earlier <= now
    ensures Get(cache, key, now).Some? ==> Get(cache, key, earlier).Some?
  {
  }

  lemma NothingCached(key: string, now: nat)
    ensures Get<bool>(map[], key, now).None?
  {
  }

  lemma FewerLived(cache: Cache<bool>, fewer: Cache<bool>, key: string, earlier: nat, now: nat)
    requires earlier <= now && forall k :: k in fewer ==> k in cache && fewer[k] == cache[k]
    ensures Get(fewer, key, now).Some? ==> Get(cache, key, earlier).Some?
  {
  }

  lemma AskedOfZone(start: State, st: State, after: State, id: string)
    requires id in st.zones && id in after.zones && after.zones[id] == st.zones[id]
    ensures Asked(start, after, id) == Asked(start, st, id)
  {
  }

  lemma OwnMeansHas(s: Setting, st: State, c: Cluster, id: string)
    requires IsZoneOf(s, st, c, id)
    ensures HasZone(s, st, c)
  {
  }

  lemma UntameIsNotDeletable(st: State, id: string)
    ensures id in st.zones && Deletable(st.zones[id]) ==> Tame(st.zones[id])
  {
  }

  lemma EmptiedKeepsUntame(st: State, after: State, id: string, page: seq<RecordSet>)
    requires Emptied(st, after, id, page)
    ensures id in st.zones && id in after.zones && (Tame(after.zones[id]) ==> Tame(st.zones[id]))
  {
    if !Tame(st.zones[id]) {
      UntameStays(st.zones[id], page);
    }
  }

  /** A zone of this name can be created, and delegated if it is to be. */
  ghost predicate Creatable(s: Setting, st: State, c: Cluster) {
    Stored(Canonical(ZoneName(s, c))) && ParentIsThere(s, st, c)
  }

  lemma CreatableMeans(s: Setting, st: State, c: Cluster)
    ensures Creatable(s, st, c) <==> Stored(Canonical(ZoneName(s, c))) && ParentIsThere(s, st, c)
  {
  }

  lemma WillMeans(cached: Option<string>, st: State, account: string, name: string)
    ensures cached.None? && NoZone(st, account, name) && Stored(Canonical(name)) ==> WillCreate(cached, st, account, name)
    ensures (if cached.Some? then cached.value in st.zones else exists id :: OnlyZone(st, account, id, name)) ==>
      WillFind(cached, st, account, name)
  {
  }

  lemma GetIs(cache: Cache<string>, name: string, now: nat)
    ensures Get(cache, name, now).Some? ==> name in cache && Get(cache, name, now) == Some(cache[name].value)
  {
  }

  /** The new zone is nobody's parent-to-be: it has the cluster's own name. */
  lemma ParentsAlike(s: Setting, st: State, n: string, id: string, nameServers: seq<string>)
    requires WellSet(s) && n in s.clusters && id !in st.zones
    ensures
      var c := s.clusters[n];
      ParentIsThere(s, Created(st, id, Account(s, c), Canonical(ZoneName(s, c)), nameServers), c) <==> ParentIsThere(s, st, c)
  {
    var c := s.clusters[n];
    assert ProperZone(s, c);
    hide Canonical;
    var after := Created(st, id, Account(s, c), Canonical(ZoneName(s, c)), nameServers);
    if Delegates(s, c) {
      forall p ensures IsParentOf(s, after, c, p) <==> IsParentOf(s, st, c, p) {
      }
    }
  }

  lemma SameParents(s: Setting, st: State, after: State, c: Cluster)
    requires SameZones(st, after)
    ensures ParentIsThere(s, st, c) <==> ParentIsThere(s, after, c)
  {
    hide Canonical;
    forall p ensures IsParentOf(s, after, c, p) <==> IsParentOf(s, st, c, p) {
    }
  }

  lemma WildcardIsNoApex(s: Setting, c: Cluster, st: State, id: string)
    requires IsZoneOf(s, st, c, id)
    ensures id in st.zones && !IsApex(st.zones[id].name, WildcardKeyOf(s, c))
  {
    hide Canonical;
    assert CNAME != NS && CNAME != SOA;
  }

  lemma OurChangesAreSome(s: Setting, c: Cluster, records: seq<DnsRecord>, canonicalZone: string -> string)
    requires OurRecords(s, c, records) && HaveValues(records) && records != []
    ensures ChangesFor(records, canonicalZone) != []
  {
    hide Canonical;
    hide ChangeFor;
    assert OurRecord(s, c, records[|records| - 1]);
  }

  lemma ServersAreSome(s: Setting, m: Moment, n: string, id: string)
    requires Safe(s, m) && n in s.clusters && IsZoneOf(s, m.route53, s.clusters[n], id)
    ensures id in m.route53.zones && m.route53.zones[id].nameServers != []
  {
    hide Canonical;
    assert ApexIntact(m.route53, id);
  }

  lemma ThereIsAParent(s: Setting, st: State, n: string) returns (p: string)
    requires n in s.clusters && ParentIsThere(s, st, s.clusters[n])
    ensures Delegates(s, s.clusters[n]) ==>
      && Plain(ParentName(s, s.clusters[n])) && p in st.zones
      && IsThe(s, st, ParentAccount(s, s.clusters[n]), ParentName(s, s.clusters[n]), p)
  {
    hide Canonical;
    p := "";
    if Delegates(s, s.clusters[n]) {
      p :| IsParentOf(s, st, s.clusters[n], p);
      ParentIsTheOne(s, st, n, p);
    }
  }

  lemma DelegatedIsFromParent(s: Setting, m: Moment, n: string, p: string)
    requires Safe(s, m) && n in s.clusters && DelegatedFrom(s, m.route53, s.clusters[n], p)
    ensures IsParentOf(s, m.route53, s.clusters[n], p)
  {
    hide Canonical;
    assert Grounded(s, m.route53, s.clusters[n], p);
  }

  lemma ZoneIsStored(s: Setting, st: State, c: Cluster, id: string)
    requires ValidState(st) && IsZoneOf(s, st, c, id)
    ensures Stored(Canonical(ZoneName(s, c)))
  {
    assert ValidZone(st, id);
    hide Canonical;
  }

  lemma NoParentNeeded(s: Setting, st: State, c: Cluster)
    ensures !Delegates(s, c) ==> ParentIsThere(s, st, c)
  {
  }

  /** What is known as the parent is not what is known as the zone. */
  lemma KnownApart(s: Setting, c: Cluster, born: map<string, Birth>, id: string, p: string)
    requires ProperZone(s, c) && Delegates(s, c)
    requires KnownAs(born, Account(s, c), id, ZoneName(s, c)) && KnownAs(born, ParentAccount(s, c), p, ParentName(s, c))
    ensures p != id
  {
    hide Canonical;
  }

  lemma ParentWasThere(s: Setting, st: State, after: State, c: Cluster, p: string)
    requires SameZones(st, after) && IsParentOf(s, after, c, p) && Plain(ParentName(s, c))
    ensures ParentIsThere(s, st, c)
  {
    hide Canonical;
    assert IsParentOf(s, st, c, p);
  }

  lemma SentMeans(before: View, after: View, key: string, p: string, changes: seq<Change>)
    requires UpsertStep(before, after, key, p, changes, true) && (key !in before.upserts || after.st != before.st)
    ensures Some(after.st) == Changed(before.st, p, changes)
  {
  }

  lemma RememberedMeans(s: Setting, st: State, leaving: set<string>, printable: char -> bool, upserts: Cache<bool>,
                        n: string, p: string, values: seq<string>)
    requires Remembers(s, st, leaving, printable, upserts) && n in s.clusters && n !in leaving
    requires DelegationKey(printable, p, Canonical(ZoneName(s, s.clusters[n])), values) in upserts
    ensures DelegatedFrom(s, st, s.clusters[n], p)
  {
    hide Canonical;
    hide DelegationKey;
    hide DelegatedFrom;
  }

  lemma DelegationShows(s: Setting, st: State, n: string, p: string, values: seq<string>, after: State)
    requires WellSet(s) && ValidState(st) && n in s.clusters && Delegates(s, s.clusters[n])
    requires KnownAs(st.born, ParentAccount(s, s.clusters[n]), p, ParentName(s, s.clusters[n]))
    requires Some(after) == Changed(st, p, [DelegationChange(Canonical(ZoneName(s, s.clusters[n])), values)])
    ensures DelegatedFrom(s, after, s.clusters[n], p)
  {
    DelegationApplied(s, st, s.clusters[n], p, values, after);
    hide Canonical;
    KnownIsParent(s, st, s.clusters[n], p);
    DelegationIsNotApex(s, st, n, p);
  }

  lemma IsDelegated(s: Setting, st: State, c: Cluster, p: string)
    requires DelegatedFrom(s, st, c, p)
    ensures !NotDelegated(s, st, c)
  {
  }

  lemma ChangedExcept(st: State, id: string, changes: seq<Change>, after: State)
    requires Some(after) == Changed(st, id, changes)
    ensures SameExcept(st, after, id)
  {
  }

  /** What is known as the parent is not the zone itself. */
  lemma NotItsOwnParent(s: Setting, st: State, n: string, id: string, p: string)
    requires n in s.clusters && ProperZone(s, s.clusters[n]) && Delegates(s, s.clusters[n]) && ValidState(st)
    requires IsZoneOf(s, st, s.clusters[n], id)
    requires KnownAs(st.born, ParentAccount(s, s.clusters[n]), p, ParentName(s, s.clusters[n]))
    ensures p != id && id in st.zones
  {
    hide Canonical;
    assert ValidZone(st, id);
  }

  lemma ZoneNameIsPlain(s: Setting, c: Cluster)
    requires ProperZone(s, c)
    ensures Plain(ZoneName(s, c))
  {
  }

  lemma WorldIsValid(w: World)
    requires w.Valid()
    ensures ValidState(w.route53)
  {
  }

  /** Everything the operator owes a cluster that is not being deleted: the zone, a wildcard that does not point at
      itself, and the delegation. */
  ghost predicate InPlace(s: Setting, st: State, c: Cluster) {
    && (exists id :: IsZoneOf(s, st, c, id) && WildcardIsSafe(s, c, st.zones[id].sets))
    && (Delegates(s, c) ==> !NotDelegated(s, st, c))
  }

  /** In a safe world, once a reconcile has succeeded and the cluster is ready, no wildcard answers for what the
      cluster's wildcard points to. */
  lemma InPlaceNeverLoops(s: Setting, m: Moment, n: string, id: string, value: string, key: Key)
    requires Safe(s, m) && n in s.clusters && InPlace(s, m.route53, s.clusters[n])
    requires IsZoneOf(s, m.route53, s.clusters[n], id)
    requires
      var sets := m.route53.zones[id].sets;
      var wildcard := WildcardKeyOf(s, s.clusters[n]);
      && Wildcards.Ready(s, s.clusters[n], sets) && wildcard in sets
      && sets[wildcard].Values? && value in sets[wildcard].values
    ensures !Synthesizes(m.route53.zones[id].sets, Canonical(value), key)
  {
    hide Canonical;
    hide Synthesizes;
    hide WildcardIsOurs;
    hide Wildcards.Ready;
    hide LoopFree;
    var c := s.clusters[n];
    var own :| IsZoneOf(s, m.route53, c, own) && WildcardIsSafe(s, c, m.route53.zones[own].sets);
    ZoneOfIsOurs(s, m.route53, n, own);
    assert SameZone(m.route53.zones[own], m.route53.zones[id]);
    assert WildcardIsOurs(s, c, m.route53.zones[id].sets);
    NeverItsOwnTarget(s, c, m.route53.zones[id].sets, value, key);
  }

  /** Nothing of a deleted cluster is left: neither its zone nor a delegation of it, in whatever zone. */
  ghost predicate AllGone(s: Setting, st: State, c: Cluster) {
    !HasZone(s, st, c) && NotDelegated(s, st, c)
  }

  lemma Vanished(s: Setting, m: Moment, n: string)
    requires Safe(s, m) && n in s.clusters && !HasZone(s, m.route53, s.clusters[n])
    ensures AllGone(s, m.route53, s.clusters[n])
  {
    NoZoneNoDelegation(s, m.route53, n);
  }

  lemma AllGoneMeans(s: Setting, st: State, c: Cluster)
    ensures AllGone(s, st, c) <==> !HasZone(s, st, c) && NotDelegated(s, st, c)
  {
  }

  lemma PutInPlace(s: Setting, st: State, c: Cluster, id: string)
    requires id in st.zones && IsZoneOf(s, st, c, id) && WildcardIsSafe(s, c, st.zones[id].sets)
    ensures (Delegates(s, c) && NotDelegated(s, st, c)) || InPlace(s, st, c)
  {
    hide IsZoneOf;
    hide WildcardIsSafe;
    hide NotDelegated;
  }

  lemma KnownIsBorn(born: map<string, Birth>, account: string, id: string, name: string)
    requires KnownAs(born, account, id, name)
    ensures id in born
  {
  }

  lemma Unchanged(st: State, after: State, p: string, id: string)
    requires SameExcept(st, after, p) && id in st.zones && id != p
    ensures id in after.zones && after.zones[id] == st.zones[id]
  {
  }

  /** The pass took away at least all but two sets of a page. */
  predicate Shrunk(before: State, after: State, id: string, k: nat) {
    id in before.zones && id in after.zones && |after.zones[id].sets.Keys| + k <= |before.zones[id].sets.Keys| + 2
  }

  lemma DrainedShrinks(before: State, after: State, id: string, k: nat)
    requires id in before.zones && id in after.zones && Drained(before.zones[id], after.zones[id], k)
    requires !Deletable(after.zones[id])
    ensures Shrunk(before, after, id, k) && Tame(after.zones[id])
  {
  }

  lemma ShrunkFrom(first: State, before: State, after: State, id: string, k: nat)
    requires Shrunk(before, after, id, k) && id in first.zones && before.zones[id] == first.zones[id]
    ensures Shrunk(first, after, id, k)
  {
  }

  lemma RoleOf(s: Setting, c: Cluster)
    ensures Account(s, c) == s.accountOf(c.iamRoleARN) && ParentAccount(s, c) == s.accountOf(DelegationRoleARN(c))
    ensures Delegates(s, c) <==> !c.isDnsModePrivate && ParentName(s, c) != ""
  {
  }

  lemma WantedIs(s: Setting, c: Cluster, sets: Sets)
    ensures
      var eligible := c.isEKS || IsAWSChinaRegion(c.region) || Shown(sets, IrsaName(s.defaultDomain, c));
      var target := Shown(sets, WildcardTarget(s.defaultDomain, c));
      && RecordsToCreate(s, c, sets)
         == (if eligible && target then [WildcardRecord(s, c)] else [])
            + (if c.controlPlaneEndpoint != "" then [ApiRecord(s, c)] else [])
      && RecordsToDelete(s, c, sets)
         == if eligible && !target then [DnsRecord(CNAME, WildcardName(s.defaultDomain, c), [], "")] else []
  {
  }

  lemma SameOwner(s: Setting, st: State, after: State, c: Cluster, id: string)
    requires SameZones(st, after) && IsZoneOf(s, st, c, id)
    ensures IsZoneOf(s, after, c, id) && id in after.zones
  {
    hide Canonical;
  }

  lemma SameTwice(a: State, b: State, c: State)
    requires SameZones(a, b) && SameZones(b, c)
    ensures SameZones(a, c)
  {
  }

  /** What a reconcile of the records did: the wildcard is gone if it was to go, then perhaps the batch was written. */
  ghost predicate Reconciled(s: Setting, c: Cluster, st: State, mid: State, id: string, canonicalZone: string -> string,
                             after: State) {
    && id in st.zones && id in mid.zones && HaveValues(RecordsToCreate(s, c, st.zones[id].sets))
    && (if RecordsToDelete(s, c, st.zones[id].sets) != [] then
          WildcardKeyOf(s, c) !in mid.zones[id].sets && AtMostRemoves(st, mid, id, WildcardKeyOf(s, c))
        else mid == st)
    && (after == mid || Some(after) == Changed(mid, id, ChangesFor(RecordsToCreate(s, c, st.zones[id].sets), canonicalZone)))
  }

  lemma ReconciledLoopFree(s: Setting, c: Cluster, st: State, mid: State, id: string,
                           canonicalZone: string -> string, after: State)
    requires Reconciled(s, c, st, mid, id, canonicalZone, after) && ProperZone(s, c) && ValidSets(st.zones[id].sets)
    ensures id in after.zones && (Eligible(s, c, st.zones[id].sets) ==> LoopFree(s, c, after.zones[id].sets))
  {
    hide *;
    ReconciledMeans(s, c, st, mid, id, canonicalZone, after);
    WantedShape(s, c, st.zones[id].sets);
    TargetShownIff(s, c, st.zones[id].sets);
    var create := RecordsToCreate(s, c, st.zones[id].sets);
    if RecordsToDelete(s, c, st.zones[id].sets) == [] {
      if TargetShown(s, c, st.zones[id].sets) {
        WritingKeepsTarget(s, c, mid, id, create, canonicalZone, after);
      }
    } else if create == [ApiRecord(s, c)] {
      WritingApiAddsNoWildcard(s, c, mid, id, canonicalZone, after);
    } else {
      AbsentIsLoopFree(s, c, mid, id, after, canonicalZone);
    }
  }

  lemma ReconciledMeans(s: Setting, c: Cluster, st: State, mid: State, id: string,
                        canonicalZone: string -> string, after: State)
    ensures Reconciled(s, c, st, mid, id, canonicalZone, after) <==>
      && id in st.zones && id in mid.zones && HaveValues(RecordsToCreate(s, c, st.zones[id].sets))
      && (if RecordsToDelete(s, c, st.zones[id].sets) != [] then
            WildcardKeyOf(s, c) !in mid.zones[id].sets && AtMostRemoves(st, mid, id, WildcardKeyOf(s, c))
          else mid == st)
      && (after == mid || Some(after) == Changed(mid, id, ChangesFor(RecordsToCreate(s, c, st.zones[id].sets), canonicalZone)))
    ensures Reconciled(s, c, st, mid, id, canonicalZone, after) ==> id in after.zones
  {
    hide Canonical;
    hide RecordsToCreate;
    hide RecordsToDelete;
    hide HaveValues;
    hide ApplyAll;
    hide ChangesFor;
  }

  lemma AbsentIsLoopFree(s: Setting, c: Cluster, st: State, id: string, after: State, canonicalZone: string -> string)
    requires id in st.zones && WildcardKeyOf(s, c) !in st.zones[id].sets
    requires after == st || Some(after) == Changed(st, id, ChangesFor([], canonicalZone))
    ensures id in after.zones && LoopFree(s, c, after.zones[id].sets)
  {
    hide Canonical;
  }

  lemma FewerNames(s: Setting, c: Cluster, st: State, mid: State, id: string, key: Key)
    requires AtMostRemoves(st, mid, id, key) && id in st.zones && id in mid.zones && Wildcards.Ready(s, c, mid.zones[id].sets)
    ensures Wildcards.Ready(s, c, st.zones[id].sets)
  {
    hide Canonical;
  }

  /** Every successful reconcile of the records leaves a wildcard that is safe. */
  lemma ReconciledIsSafe(s: Setting, c: Cluster, st: State, mid: State, id: string,
                         canonicalZone: string -> string, after: State)
    requires Reconciled(s, c, st, mid, id, canonicalZone, after) && ProperZone(s, c) && ValidSets(st.zones[id].sets)
    ensures id in after.zones && WildcardIsSafe(s, c, after.zones[id].sets)
  {
    hide *;
    ReconciledMeans(s, c, st, mid, id, canonicalZone, after);
    ReconciledLoopFree(s, c, st, mid, id, canonicalZone, after);
    var create := RecordsToCreate(s, c, st.zones[id].sets);
    CreatesOnlyOurs(s, c, st.zones[id].sets);
    WritingMakesNoIrsa(s, c, mid, id, create, canonicalZone, after);
    SafetyMeans(s, c, after.zones[id].sets, mid.zones[id].sets);
    EligibleIff(s, c, st.zones[id].sets);
    NothingRemoved(st, id, WildcardKeyOf(s, c));
    if Wildcards.Ready(s, c, mid.zones[id].sets) {
      FewerNames(s, c, st, mid, id, WildcardKeyOf(s, c));
    }
  }

  lemma SafetyMeans(s: Setting, c: Cluster, sets: Sets, earlier: Sets)
    requires HasName(sets, IrsaName(s.defaultDomain, c)) ==> HasName(earlier, IrsaName(s.defaultDomain, c))
    ensures WildcardIsSafe(s, c, sets) || (Wildcards.Ready(s, c, earlier) && !LoopFree(s, c, sets))
  {
    hide LoopFree;
    hide HasName;
  }

  lemma NothingIsLater(st: State)
    ensures Later(st, st) && SameZones(st, st)
  {
  }

  lemma OneMore(before: Moment, after: Moment, trail: seq<Moment>, longer: seq<Moment>)
    requires longer == trail + [after]
    ensures Passed(trail, longer, before, after)
  {
  }

  lemma SameIsLater(st: State, after: State)
    requires SameZones(st, after)
    ensures Later(st, after)
  {
  }

  lemma WildcardIsStored(s: Setting, c: Cluster)
    ensures StoredKey(WildcardName(s.defaultDomain, c), CNAME) == WildcardKeyOf(s, c) && WildcardKeyOf(s, c).kind != NS
  {
    assert CNAME != NS;
    hide Canonical;
  }

  /** A zone known as the cluster's is asked for its own name servers. */
  lemma OwnNsIsAsked(s: Setting, m: Moment, n: string, id: string)
    requires Safe(s, m) && n in s.clusters
    requires KnownAs(m.route53.born, Account(s, s.clusters[n]), id, ZoneName(s, s.clusters[n]))
    ensures AsksOwn(m.route53, Account(s, s.clusters[n]), id, ZoneName(s, s.clusters[n]))
  {
    hide Canonical;
    if id in m.route53.zones {
      KnownIsZone(s, m.route53, s.clusters[n], id);
    }
  }

  lemma EmptiedExists(st: State, after: State, id: string, page: seq<RecordSet>)
    requires Emptied(st, after, id, page)
    ensures id in st.zones && id in after.zones
  {
  }

  lemma IsZoneMeansAlive(s: Setting, st: State, c: Cluster, id: string)
    requires IsZoneOf(s, st, c, id)
    ensures id in st.zones
  {
  }
}
