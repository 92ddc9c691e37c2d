/** The upsert cache over whole runs of the client. */
module UpsertRuns {
  import opened Results
  import opened Strings
  import opened Listing
  import opened Cloud
  import opened CacheKeys
  import opened Upserts
  import opened ZoneCaches
  import opened Route53Client
  import opened Deletions
  import opened ZoneIdRuns

  /** The one batch again, or any other operation of the client. */
  datatype Call = Again | Also(op: Operation)

  /** No record set is asked for by both batches. */
  ghost predicate Disjoint(a: seq<Change>, b: seq<Change>) {
    forall k :: FinalData(a, k).None? || FinalData(b, k).None?
  }

  /** The call does not write or delete the record sets of the batch. */
  ghost predicate Elsewhere(call: Call, zoneId: string, changes: seq<Change>, canonicalZone: string -> string) {
    call.Also? ==>
      match call.op
      case AddRecords(id, records) =>
        id == zoneId && HaveValues(records) ==> Disjoint(changes, ChangesFor(records, canonicalZone))
      case DeleteRecord(id, record) => id == zoneId ==> FinalData(changes, StoredKey(record.name, record.kind)).None?
      case DeleteRecords(id) => id != zoneId
      case DeleteZone(id) => id != zoneId
      case _ => true
  }

  lemma {:induction false} FinalDataOfAppend(a: seq<Change>, b: seq<Change>, k: Key)
    ensures FinalData(a + b, k) == if FinalData(b, k).Some? then FinalData(b, k) else FinalData(a, k)
    decreases |b|
  {
    if b == [] {
      assert a + b == a;
    } else {
      FinalDataOfAppend(a, b[..|b| - 1], k);
      assert (a + b)[..|a + b| - 1] == a + b[..|b| - 1];
    }
  }

  lemma FinalDataOfOne(c: Change, k: Key)
    ensures FinalData([c], k) == if KeyOf(c) == k then Some(c.data) else None
  {
    assert [c][..0] == [];
  }

  /** Batches that a key cannot tell apart write the same record sets. */
  lemma {:induction false} SameKeySameSets(a: seq<DnsRecord>, b: seq<DnsRecord>, canonicalZone: string -> string, k: Key)
    requires SameBatchInKey(a, b) && HaveValues(a) && HaveValues(b)
    ensures FinalData(ChangesFor(a, canonicalZone), k).Some? <==> FinalData(ChangesFor(b, canonicalZone), k).Some?
    decreases |a|
  {
    hide Canonical;
    if a != [] {
      var x, y := a[|a| - 1], b[|b| - 1];
      assert SameInKey(x, y);
      SameKeySameSets(a[..|a| - 1], b[..|b| - 1], canonicalZone, k);
      if Supported(x.kind) {
        var c, d := ChangeFor(x, canonicalZone), ChangeFor(y, canonicalZone);
        FinalDataOfAppend(ChangesFor(a[..|a| - 1], canonicalZone), [c], k);
        FinalDataOfAppend(ChangesFor(b[..|b| - 1], canonicalZone), [d], k);
        FinalDataOfOne(c, k);
        FinalDataOfOne(d, k);
      } else {
        FinalDataOfAppend(ChangesFor(a[..|a| - 1], canonicalZone), [], k);
        FinalDataOfAppend(ChangesFor(b[..|b| - 1], canonicalZone), [], k);
      }
    }
  }

  /** So another batch, in another zone or for other record sets, has another key. */
  lemma OtherHasOtherKey(printable: char -> bool, zoneId: string, batch: seq<DnsRecord>, other: string,
                         records: seq<DnsRecord>, canonicalZone: string -> string)
    requires HaveValues(batch) && HaveValues(records) && ChangesFor(batch, canonicalZone) != []
    requires other == zoneId ==> Disjoint(ChangesFor(batch, canonicalZone), ChangesFor(records, canonicalZone))
    ensures ZoneKey(printable, zoneId, batch) != ZoneKey(printable, other, records)
  {
    hide *;
    ZoneKeysAgreeIff(printable, zoneId, batch, other, records);
    if other == zoneId && SameBatchInKey(batch, records) {
      SomeKeyIsWritten(ChangesFor(batch, canonicalZone), ChangesFor(records, canonicalZone));
      var k := KeyOf(ChangesFor(batch, canonicalZone)[|ChangesFor(batch, canonicalZone)| - 1]);
      SameKeySameSets(batch, records, canonicalZone, k);
    }
  }

  lemma SomeKeyIsWritten(a: seq<Change>, b: seq<Change>)
    requires a != [] && Disjoint(a, b)
    ensures FinalData(a, KeyOf(a[|a| - 1])).Some? && FinalData(b, KeyOf(a[|a| - 1])).None?
  {
    hide Canonical;
    assert FinalData(a, KeyOf(a[|a| - 1])).Some?;
  }

  /** An upsert of other record sets, or in another zone, leaves the batch's alone. */
  lemma OtherIsElsewhere(before: View, after: View, key: string, id: string, changes: seq<Change>,
                         otherKey: string, other: string, otherChanges: seq<Change>, ok: bool)
    requires OnlyUpserts(otherChanges) && UpsertStep(before, after, otherKey, other, otherChanges, ok) && otherKey != key
    requires other == id ==> Disjoint(changes, otherChanges)
    ensures ElsewhereStep(before, after, key, id, changes)
  {
    hide Canonical;
    if after.st != before.st {
      var z := before.st.zones[other];
      UpsertsApply(z.name, z.sets, otherChanges);
    }
  }

  lemma NothingIsElsewhere(before: View, after: View, key: string, id: string, changes: seq<Change>)
    requires Waited(before, after)
    ensures ElsewhereStep(before, after, key, id, changes)
  {
  }

  lemma {:induction false} NoNsIsWritten(records: seq<DnsRecord>, canonicalZone: string -> string, k: Key)
    requires HaveValues(records) && k.kind == NS
    ensures FinalData(ChangesFor(records, canonicalZone), k).None?
    decreases |records|
  {
    hide Canonical;
    assert NS != A && NS != CNAME;
    if records != [] {
      var last := records[|records| - 1];
      NoNsIsWritten(records[..|records| - 1], canonicalZone, k);
      var one := if Supported(last.kind) then [ChangeFor(last, canonicalZone)] else [];
      FinalDataOfAppend(ChangesFor(records[..|records| - 1], canonicalZone), one, k);
      if Supported(last.kind) {
        FinalDataOfOne(one[0], k);
      }
    }
  }

  lemma DelegationIsDisjoint(records: seq<DnsRecord>, canonicalZone: string -> string, name: string, values: seq<string>)
    requires HaveValues(records)
    ensures Disjoint(ChangesFor(records, canonicalZone), [DelegationChange(name, values)])
    ensures OnlyUpserts([DelegationChange(name, values)])
  {
    hide Canonical;
    var change := DelegationChange(name, values);
    forall k ensures FinalData(ChangesFor(records, canonicalZone), k).None? || FinalData([change], k).None? {
      FinalDataOfOne(change, k);
      if k.kind == NS {
        NoNsIsWritten(records, canonicalZone, k);
      }
    }
  }

  /** Nothing new is remembered, and record sets of other zones or keys were deleted, or zones came or went. */
  ghost predicate Leaves(before: View, after: View, id: string, changes: seq<Change>) {
    && before.now == after.now
    && (forall k :: k in after.upserts ==> k in before.upserts && after.upserts[k] == before.upserts[k])
    && (id in before.st.zones ==>
          && id in after.st.zones
          && forall k :: FinalData(changes, k).Some? && k in before.st.zones[id].sets ==>
               k in after.st.zones[id].sets && after.st.zones[id].sets[k] == before.st.zones[id].sets[k])
  }

  lemma LeavingIsElsewhere(before: View, after: View, key: string, id: string, changes: seq<Change>)
    requires Leaves(before, after, id, changes)
    ensures ElsewhereStep(before, after, key, id, changes)
  {
  }

  lemma SameLeaves(before: View, after: View, id: string, changes: seq<Change>)
    requires after == before
    ensures Leaves(before, after, id, changes)
  {
  }

  lemma OneRemovalLeaves(before: View, after: View, id: string, changes: seq<Change>, other: string, k: Key)
    requires before.now == after.now && AtMostRemoves(before.st, after.st, other, k)
    requires forall k :: k in after.upserts ==> k in before.upserts && after.upserts[k] == before.upserts[k]
    requires other == id ==> FinalData(changes, k).None?
    ensures Leaves(before, after, id, changes)
  {
    hide FinalData;
  }

  lemma EmptyingLeaves(before: View, after: View, id: string, changes: seq<Change>, other: string, page: seq<RecordSet>)
    requires before.now == after.now && before.upserts == after.upserts && other != id
    requires after.st == before.st || Emptied(before.st, after.st, other, page)
    ensures Leaves(before, after, id, changes)
  {
    hide FinalData;
  }

  lemma KeptZoneLeaves(before: View, after: View, id: string, changes: seq<Change>)
    requires before.now == after.now && before.upserts == after.upserts
    requires id in before.st.zones ==> id in after.st.zones && after.st.zones[id] == before.st.zones[id]
    ensures Leaves(before, after, id, changes)
  {
    hide FinalData;
  }

  lemma CreationLeaves(before: View, after: View, id: string, changes: seq<Change>, made: Option<(string, seq<string>)>,
                       account: string, name: string)
    requires before.now == after.now && before.upserts == after.upserts && ValidState(before.st)
    requires made.None? ==> after.st == before.st
    requires made.Some? ==>
      made.value.0 !in before.st.born
      && after.st == Created(before.st, made.value.0, account, name, made.value.1)
    ensures Leaves(before, after, id, changes)
  {
    hide Leaves;
    ZoneWasBorn(before.st, id);
    hide ValidState;
    if made.Some? && id in before.st.zones {
      OtherZonesStay(before.st, made.value.0, account, name, made.value.1, id);
    }
    hide Created;
    KeptZoneLeaves(before, after, id, changes);
  }

  lemma ZoneWasBorn(st: State, id: string)
    requires ValidState(st)
    ensures id in st.zones ==> id in st.born
  {
    assert id in st.zones ==> ValidZone(st, id);
  }

  lemma ZoneRemovalLeaves(before: View, after: View, id: string, changes: seq<Change>, other: string)
    requires before.now == after.now && before.upserts == after.upserts && other != id
    requires after.st == before.st || after.st == WithoutZone(before.st, other)
    ensures Leaves(before, after, id, changes)
  {
    hide Leaves;
    KeptZoneLeaves(before, after, id, changes);
  }

  lemma InvalidatedIsFewer(cache: Cache<bool>, prefix: string, now: nat)
    ensures forall k :: k in Invalidated(cache, prefix, now) ==> k in cache && Invalidated(cache, prefix, now)[k] == cache[k]
  {
  }

  /** One call of the client is one event of the run: the batch itself, or something elsewhere. */
  method Make(client: Route53, zoneId: string, batch: seq<DnsRecord>, call: Call)
    returns (ok: bool, ghost e: Event)
    requires client.Valid() && batch != [] && HaveValues(batch) && ChangesFor(batch, client.canonicalZone) != []
    requires Elsewhere(call, zoneId, ChangesFor(batch, client.canonicalZone), client.canonicalZone)
    modifies client, client.cloud`route53, client.cloud`trail, client.cloud`now
    ensures client.Valid() && e == if call.Again? then Requests(ok) else Event.Elsewhere
    ensures Step(old(client.Seen()), e, client.Seen(), ZoneKey(client.printable, zoneId, batch), zoneId,
                 ChangesFor(batch, client.canonicalZone))
  {
    hide *;
    ok := true;
    ghost var key, changes := ZoneKey(client.printable, zoneId, batch), ChangesFor(batch, client.canonicalZone);
    ghost var before := client.Seen();
    client.SeenIs();
    if call.Again? {
      var r := client.AddDnsRecordsToHostedZone(zoneId, batch);
      ok := r.Ok?;
      e := Requests(ok);
    } else {
      e := Event.Elsewhere;
      ElsewhereMeans(call, zoneId, changes, client.canonicalZone);
      if call.op.AddRecords? || call.op.AddDelegation? {
        MakeUpsert(client, zoneId, batch, call.op);
      } else if call.op.Wait? {
        Pass(client, call.op.seconds);
        client.SeenIs();
        WaitedMeans(before, client.Seen());
        NothingIsElsewhere(before, client.Seen(), key, zoneId, changes);
      } else {
        MakeOther(client, zoneId, batch, call.op);
        LeavingIsElsewhere(before, client.Seen(), key, zoneId, changes);
      }
    }
    StepMeans(before, e, client.Seen(), key, zoneId, changes);
  }

  method MakeUpsert(client: Route53, zoneId: string, batch: seq<DnsRecord>, op: Operation)
    requires client.Valid() && batch != [] && HaveValues(batch) && ChangesFor(batch, client.canonicalZone) != []
    requires op.AddRecords? || op.AddDelegation?
    requires op.AddRecords? && op.id == zoneId && HaveValues(op.records) ==>
      Disjoint(ChangesFor(batch, client.canonicalZone), ChangesFor(op.records, client.canonicalZone))
    modifies client, client.cloud`route53, client.cloud`trail
    ensures client.Valid()
    ensures ElsewhereStep(old(client.Seen()), client.Seen(), ZoneKey(client.printable, zoneId, batch), zoneId,
                          ChangesFor(batch, client.canonicalZone))
  {
    hide *;
    ghost var key, changes := ZoneKey(client.printable, zoneId, batch), ChangesFor(batch, client.canonicalZone);
    ghost var before := client.Seen();
    client.SeenIs();
    Unchanged(before, key, zoneId, changes);
    if op.AddRecords? {
      var r := client.AddDnsRecordsToHostedZone(op.id, op.records);
      client.SeenIs();
      if op.records != [] && HaveValues(op.records) {
        ChangesForUpserts(op.records, client.canonicalZone);
        OtherHasOtherKey(client.printable, zoneId, batch, op.id, op.records, client.canonicalZone);
        OtherIsElsewhere(before, client.Seen(), key, zoneId, changes, ZoneKey(client.printable, op.id, op.records), op.id,
                         ChangesFor(op.records, client.canonicalZone), r.Ok?);
      }
    } else {
      var r := client.AddDelegationToParentZone(op.id, op.record);
      client.SeenIs();
      if op.record.values != [] {
        DelegationIsDisjoint(batch, client.canonicalZone, op.record.name, op.record.values);
        KindsNeverCollide(client.printable, zoneId, batch, op.id, op.record.name, op.record.values);
        OtherIsElsewhere(before, client.Seen(), key, zoneId, changes,
                         DelegationKey(client.printable, op.id, op.record.name, op.record.values), op.id,
                         [DelegationChange(op.record.name, op.record.values)], r.Ok?);
      }
    }
  }

  method MakeOther(client: Route53, zoneId: string, batch: seq<DnsRecord>, op: Operation)
    requires client.Valid() && HaveValues(batch) && !op.AddRecords? && !op.AddDelegation? && !op.Wait?
    requires op.DeleteRecord? && op.id == zoneId ==>
      FinalData(ChangesFor(batch, client.canonicalZone), StoredKey(op.record.name, op.record.kind)).None?
    requires op.DeleteRecords? || op.DeleteZone? ==> op.id != zoneId
    modifies client, client.cloud`route53, client.cloud`trail
    ensures client.Valid()
    ensures Leaves(old(client.Seen()), client.Seen(), zoneId, ChangesFor(batch, client.canonicalZone))
  {
    hide *;
    ghost var changes := ChangesFor(batch, client.canonicalZone);
    ghost var before := client.Seen();
    client.SeenIs();
    client.StateIsValid();
    SameLeaves(before, before, zoneId, changes);
    match op {
      case Lookup(name) =>
        var _ := client.GetHostedZoneIdByName(name);
        client.SeenIs();
      case Create(name, tags) =>
        var _, made := client.CreateHostedZone(name, tags);
        client.SeenIs();
        CreationLeaves(before, client.Seen(), zoneId, changes, made, client.account, Canonical(name));
      case DeleteZone(id) =>
        var _ := client.DeleteHostedZone(id);
        client.SeenIs();
        ZoneRemovalLeaves(before, client.Seen(), zoneId, changes, id);
      case DeleteRecord(id, record) =>
        var _ := client.DeleteDnsRecord(id, record);
        client.SeenIs();
        InvalidatedIsFewer(before.upserts, ZonePrefix(client.printable, id), client.cloud.now);
        OneRemovalLeaves(before, client.Seen(), zoneId, changes, id, StoredKey(record.name, record.kind));
      case DeleteRecords(id) =>
        var _, page := client.DeleteDnsRecordsFromHostedZone(id);
        client.SeenIs();
        EmptyingLeaves(before, client.Seen(), zoneId, changes, id, page);
      case DeleteDelegation(id, record) =>
        var _ := client.DeleteDelegationFromParentZone(id, record);
        client.SeenIs();
        NsIsStoredAsNs(record.name);
        NoNsIsWritten(batch, client.canonicalZone, StoredKey(record.name, NS));
        OneRemovalLeaves(before, client.Seen(), zoneId, changes, id, StoredKey(record.name, NS));
      case ReadNameServers(id, name) =>
        var _ := client.GetHostedZoneNSRecord(id, name);
        client.SeenIs();
      case RecordExists(id, name) =>
        var _ := client.DnsRecordExists(id, name);
        client.SeenIs();
      case _ =>
        assert false;
    }
  }

  lemma NsIsStoredAsNs(name: string)
    ensures StoredKey(name, NS).kind == NS
  {
    assert NS != ALIAS;
    hide Canonical;
  }

  lemma StepMeans(before: View, e: Event, after: View, key: string, id: string, changes: seq<Change>)
    ensures e.Requests? ==> (Step(before, e, after, key, id, changes) <==> UpsertStep(before, after, key, id, changes, e.ok))
    ensures e.Elsewhere? ==> (Step(before, e, after, key, id, changes) <==> ElsewhereStep(before, after, key, id, changes))
  {
  }

  lemma ElsewhereMeans(call: Call, zoneId: string, changes: seq<Change>, canonicalZone: string -> string)
    requires Elsewhere(call, zoneId, changes, canonicalZone) && call.Also?
    ensures call.op.AddRecords? && call.op.id == zoneId && HaveValues(call.op.records) ==>
      Disjoint(changes, ChangesFor(call.op.records, canonicalZone))
    ensures call.op.DeleteRecord? && call.op.id == zoneId ==>
      FinalData(changes, StoredKey(call.op.record.name, call.op.record.kind)).None?
    ensures call.op.DeleteRecords? || call.op.DeleteZone? ==> call.op.id != zoneId
  {
  }

  lemma Unchanged(v: View, key: string, id: string, changes: seq<Change>)
    ensures ElsewhereStep(v, v, key, id, changes)
  {
  }

  lemma WaitedMeans(before: View, after: View)
    requires before.now <= after.now && after.upserts == before.upserts && after.st == before.st
    ensures Waited(before, after)
  {
  }

  /** Over any run of the client's operations in which one batch alone writes its record sets and nothing deletes them or
      their zone, whatever AWS does to the calls:
      every call for it that succeeds more than 120 s after the start, sent or skipped, leaves all of it in the zone. */
  method RunBatch(client: Route53, zoneId: string, batch: seq<DnsRecord>, calls: seq<Call>)
    returns (oks: seq<bool>, ghost views: seq<View>)
    requires client.Valid() && batch != [] && HaveValues(batch) && ChangesFor(batch, client.canonicalZone) != []
    requires forall call :: call in calls ==>
      Elsewhere(call, zoneId, ChangesFor(batch, client.canonicalZone), client.canonicalZone)
    modifies client, client.cloud`route53, client.cloud`trail, client.cloud`now
    ensures client.Valid() && |oks| == |calls| && |views| == |calls| + 1
    ensures views[0] == old(client.Seen()) && views[|calls|] == client.Seen()
    ensures forall n :: 0 <= n < |calls| && calls[n].Again? && oks[n] && views[0].now + 120 < views[n].now ==>
      ZoneHolds(views[n + 1].st, zoneId, batch, client.canonicalZone)
  {
    hide *;
    ghost var key, changes := ZoneKey(client.printable, zoneId, batch), ChangesFor(batch, client.canonicalZone);
    ghost var events := [];
    oks, views := [], [client.Seen()];
    client.SeenIs();
    client.UpsertsAreHonest();
    for i := 0 to |calls|
      invariant client.Valid() && |oks| == |events| == i && |views| == i + 1 && views[0] == old(client.Seen())
      invariant views[i] == client.Seen()
      invariant forall n :: 0 <= n < i && calls[n].Again? && oks[n] ==> events[n] == Requests(true)
      invariant forall n :: 0 <= n < i ==> Step(views[n], events[n], views[n + 1], key, zoneId, changes)
    {
      assert calls[i] in calls;
      var ok, e := Make(client, zoneId, batch, calls[i]);
      oks, views, events := oks + [ok], views + [client.Seen()], events + [e];
    }
    RunMeans(views, events, key, zoneId, changes);
    ChangesForUpserts(batch, client.canonicalZone);
    forall n | 0 <= n < |calls| && calls[n].Again? && oks[n] && views[0].now + 120 < views[n].now
      ensures ZoneHolds(views[n + 1].st, zoneId, batch, client.canonicalZone)
    {
      AgreesIff(views[n + 1].st, zoneId, batch, client.canonicalZone);
      LateSuccessIsTrue(views, events, key, zoneId, changes, n);
    }
  }

  lemma RunMeans(views: seq<View>, events: seq<Event>, key: string, id: string, changes: seq<Change>)
    requires |views| == |events| + 1 && Honest(views[0].upserts, views[0].now, UPSERT_TTL)
    requires forall n :: 0 <= n < |events| ==> Step(views[n], events[n], views[n + 1], key, id, changes)
    ensures Run(views, events, key, id, changes)
  {
  }

  // ---- a deletion whose response is lost ----

  /** The batch writes the record's set. */
  ghost predicate Writes(batch: seq<DnsRecord>, record: DnsRecord) {
    exists i: nat :: LastOfItsSet(batch, i) && SameSet(batch[i], record)
  }

  /** A record of a remembered batch is deleted, and the batch is asked for again. If that succeeds, the batch is in the
      zone again unless the deletion took effect with its response lost and the batch was still remembered; then the
      success is certain, and the record is missing. */
  method RemoveThenWrite(client: Route53, zoneId: string, record: DnsRecord, batch: seq<DnsRecord>, seconds: nat)
    returns (removed: Result<()>, written: Result<()>, ghost lost: bool)
    requires client.Valid() && batch != [] && HaveValues(batch) && Recognised(record.name)
    requires Get(client.upserts, ZoneKey(client.printable, zoneId, batch), client.cloud.now).Some?
    requires ZoneHolds(client.cloud.route53, zoneId, batch, client.canonicalZone)
    requires Writes(batch, record)
    modifies client, client.cloud`route53, client.cloud`trail, client.cloud`now
    ensures client.Valid() && (lost ==> removed.Err?)
    ensures
      var living := client.cloud.now <= old(client.upserts)[ZoneKey(client.printable, zoneId, batch)].expires;
      && (written.Ok? ==>
            (ZoneHolds(client.cloud.route53, zoneId, batch, client.canonicalZone) <==> !(lost && living)))
      && (lost && living ==>
            && written.Ok? && zoneId in client.cloud.route53.zones
            && StoredKey(record.name, record.kind) !in client.cloud.route53.zones[zoneId].sets)
    ensures client.cloud.now == old(client.cloud.now) + seconds
  {
    hide *;
    ghost var key, changes := ZoneKey(client.printable, zoneId, batch), ChangesFor(batch, client.canonicalZone);
    ghost var k := StoredKey(record.name, record.kind);
    ghost var start := client.Seen();
    client.SeenIs();
    RecordIsWritten(batch, record, client.canonicalZone);
    AgreesIff(start.st, zoneId, batch, client.canonicalZone);
    LivesOn(start.upserts, key, start.now, start.now + seconds);
    removed := client.DeleteDnsRecord(zoneId, record);
    client.SeenIs();
    lost := removed.Err? && client.cloud.route53 != start.st;
    AgreementLost(start.st, client.cloud.route53, zoneId, changes, k);
    KeyIsInvalidated(start.upserts, client.printable, zoneId, batch, start.now);
    ghost var mid := client.cloud.route53;
    Pass(client, seconds);
    ghost var before := client.Seen();
    client.SeenIs();
    LivesOn(client.upserts, key, start.now, client.cloud.now);
    written := client.AddDnsRecordsToHostedZone(zoneId, batch);
    client.SeenIs();
    ChangesForUpserts(batch, client.canonicalZone);
    if written.Ok? {
      SuccessIsTrueIff(before, client.Seen(), key, zoneId, changes);
    }
    AgreesIff(client.cloud.route53, zoneId, batch, client.canonicalZone);
    SkipSucceeds(before, client.Seen(), key, zoneId, changes, written.Ok?);
  }

  lemma RecordIsWritten(batch: seq<DnsRecord>, record: DnsRecord, canonicalZone: string -> string)
    requires HaveValues(batch) && Writes(batch, record)
    ensures FinalData(ChangesFor(batch, canonicalZone), StoredKey(record.name, record.kind)).Some?
  {
    var i: nat :| LastOfItsSet(batch, i) && SameSet(batch[i], record);
    WrittenHasValue(batch, i);
    LastIsFinalData(batch, canonicalZone, i);
    hide Canonical;
    assert A != CNAME && ALIAS != CNAME && A != ALIAS;
    assert KeyOf(ChangeFor(batch[i], canonicalZone)) == StoredKey(record.name, record.kind) by {
      if {batch[i].kind, record.kind} == {"A", "ALIAS"} {
        assert record.kind in {"A", "ALIAS"} && batch[i].kind in {"A", "ALIAS"};
      }
    }
  }

  lemma LivesOn(cache: Cache<bool>, key: string, now: nat, later: nat)
    requires now <= later
    ensures Get(cache, key, later).Some? <==> key in cache && later <= cache[key].expires
    ensures Get(cache, key, later).Some? ==> Get(cache, key, now).Some?
    ensures Get(cache, key, now).Some? ==> key in cache
  {
  }

  lemma AgreementLost(st: State, after: State, id: string, changes: seq<Change>, k: Key)
    requires Agrees(st, id, changes) && AtMostRemoves(st, after, id, k) && FinalData(changes, k).Some?
    ensures id in st.zones && id in after.zones && k in st.zones[id].sets
    ensures after != st ==> k !in after.zones[id].sets && !Agrees(after, id, changes)
  {
    hide FinalData;
  }

  lemma KeyIsInvalidated(cache: Cache<bool>, printable: char -> bool, zoneId: string, batch: seq<DnsRecord>, now: nat)
    ensures Get(Invalidated(cache, ZonePrefix(printable, zoneId), now), ZoneKey(printable, zoneId, batch), now).None?
    ensures forall later :: now <= later ==>
      Get(Invalidated(cache, ZonePrefix(printable, zoneId), now), ZoneKey(printable, zoneId, batch), later).None?
  {
    InvalidationIsExact(printable, zoneId, zoneId, batch);
    hide ZonePrefix;
    hide ZoneKey;
  }

  lemma SkipSucceeds(before: View, after: View, key: string, id: string, changes: seq<Change>, ok: bool)
    requires UpsertStep(before, after, key, id, changes, ok)
    ensures Get(before.upserts, key, before.now).Some? ==> ok && after.st == before.st
  {
  }
}
