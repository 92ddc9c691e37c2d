/** Every effect the DNS controller can have on the world, as one call of its client leaves it, keeps a safe moment safe. */
module ZoneEffects {
  import opened Results
  import opened Strings
  import opened Listing
  import opened Cloud
  import opened CacheKeys
  import opened Clusters
  import opened Deletions
  import opened Upserts
  import opened ZoneSafety
  import opened ApiServer
  import opened ZoneCaches

  ghost predicate AllSafe(s: Setting, trail: seq<Moment>) {
    forall i :: 0 <= i < |trail| ==> Safe(s, trail[i])
  }

  lemma TrailStaysSafe(s: Setting, trail: seq<Moment>, longer: seq<Moment>, before: Moment, after: Moment)
    requires AllSafe(s, trail) && Passed(trail, longer, before, after) && Safe(s, before) && Safe(s, after)
    ensures AllSafe(s, longer)
  {
    forall i | 0 <= i < |longer| ensures Safe(s, longer[i]) {
      if i < |trail| {
        assert longer[i] == trail[i];
      }
    }
  }

  /** The zones are the same, only their record sets may differ. */
  ghost predicate SameZones(a: State, b: State) {
    && a.born == b.born && a.zones.Keys == b.zones.Keys
    && forall id :: id in a.zones ==> b.zones[id] == a.zones[id].(sets := b.zones[id].sets)
  }

  /** Nothing changed outside one zone. */
  ghost predicate SameExcept(a: State, b: State, id: string) {
    forall q :: q in a.zones && q != id ==> q in b.zones && b.zones[q] == a.zones[q]
  }

  lemma SameZonesSame(s: Setting, a: State, b: State, c: Cluster)
    requires SameZones(a, b)
    ensures HasZone(s, a, c) <==> HasZone(s, b, c)
  {
    forall id ensures IsZoneOf(s, a, c, id) <==> IsZoneOf(s, b, c, id) {
    }
  }

  lemma CoveredWithSets(s: Setting, m: Moment, id: string, sets: Sets)
    requires Safe(s, m) && id in m.route53.zones && Sane(s, WithSets(m.route53, id, sets))
    ensures Safe(s, m.(route53 := WithSets(m.route53, id, sets)))
  {
    hide Sane;
    hide IsZoneOf;
    hide Canonical;
    var after := WithSets(m.route53, id, sets);
    forall n | n in s.clusters && HasZone(s, after, s.clusters[n]) ensures HasFinalizer(m.objects, n) {
      SameZonesSame(s, m.route53, after, s.clusters[n]);
    }
  }

  // ---- the zone ----

  lemma SafeAfterCreating(s: Setting, m: Moment, n: string, id: string, nameServers: seq<string>)
    requires WellSet(s) && Safe(s, m) && n in s.clusters && HasFinalizer(m.objects, n)
    requires id !in m.route53.born && id != "" && nameServers != [] && Stored(Canonical(ZoneName(s, s.clusters[n])))
    requires NoZone(m.route53, Account(s, s.clusters[n]), ZoneName(s, s.clusters[n]))
    ensures
      var after := Created(m.route53, id, Account(s, s.clusters[n]), Canonical(ZoneName(s, s.clusters[n])), nameServers);
      Safe(s, m.(route53 := after)) && Later(m.route53, after)
  {
    hide Canonical;
    var c := s.clusters[n];
    var after := Created(m.route53, id, Account(s, c), Canonical(ZoneName(s, c)), nameServers);
    NoneFoundMeansNone(s, m.route53, n);
    CreatedKeepsSane(s, m.route53, n, id, nameServers);
    hide Sane;
    hide WellSet;
    forall k | k in s.clusters && HasZone(s, after, s.clusters[k]) ensures HasFinalizer(m.objects, k) {
      var own :| IsZoneOf(s, after, s.clusters[k], own);
      if k != n {
        CreatedElsewhere(s, m.route53, n, k, id, nameServers, own);
      }
    }
  }

  lemma CreatedElsewhere(s: Setting, st: State, n: string, k: string, id: string, nameServers: seq<string>, own: string)
    requires WellSet(s) && n in s.clusters && k in s.clusters && k != n
    requires
      var c := s.clusters[n];
      IsZoneOf(s, Created(st, id, Account(s, c), Canonical(ZoneName(s, c)), nameServers), s.clusters[k], own)
    ensures HasZone(s, st, s.clusters[k])
  {
    hide Canonical;
    assert Apart(s, s.clusters[k], s.clusters[n]);
    assert IsZoneOf(s, st, s.clusters[k], own);
  }

  /** A lookup that finds nothing is right about a name written as Route 53 stores it. */
  lemma NoneFoundMeansNone(s: Setting, st: State, n: string)
    requires WellSet(s) && n in s.clusters && NoZone(st, Account(s, s.clusters[n]), ZoneName(s, s.clusters[n]))
    ensures !HasZone(s, st, s.clusters[n])
  {
    var c := s.clusters[n];
    assert ProperZone(s, c);
    hide Canonical;
    forall id ensures !IsZoneOf(s, st, c, id) {
      assert !Named(st, Account(s, c), id, ZoneName(s, c));
    }
  }

  lemma SafeAfterRemoving(s: Setting, m: Moment, n: string, id: string)
    requires WellSet(s) && Safe(s, m) && n in s.clusters && IsZoneOf(s, m.route53, s.clusters[n], id)
    requires NotDelegated(s, m.route53, s.clusters[n])
    ensures Safe(s, m.(route53 := WithoutZone(m.route53, id))) && Later(m.route53, WithoutZone(m.route53, id))
    ensures !HasZone(s, WithoutZone(m.route53, id), s.clusters[n])
  {
    hide Canonical;
    var after := WithoutZone(m.route53, id);
    RemovingKeepsSane(s, m.route53, n, id);
    hide Sane;
    forall k | k in s.clusters && HasZone(s, after, s.clusters[k]) ensures HasFinalizer(m.objects, k) {
      var own :| IsZoneOf(s, after, s.clusters[k], own);
      assert IsZoneOf(s, m.route53, s.clusters[k], own);
    }
  }

  // ---- records ----

  /** The records a reconcile asks for: the wildcard with its own target, and the api record. */
  ghost predicate OurRecord(s: Setting, c: Cluster, r: DnsRecord) {
    || (r.name == WildcardName(s.defaultDomain, c) && r.kind == CNAME && r.values == [WildcardTarget(s.defaultDomain, c)])
    || (r.name == ApiName(s.defaultDomain, c) && (r.kind == CNAME || r.kind == ALIAS) && r.values != [])
  }

  ghost predicate OurRecords(s: Setting, c: Cluster, records: seq<DnsRecord>) {
    forall r :: r in records ==> OurRecord(s, c, r)
  }

  lemma {:induction false} FinalDataIsFromChange(changes: seq<Change>, key: Key) returns (c: Change)
    requires FinalData(changes, key).Some?
    ensures c in changes && KeyOf(c) == key && c.data == FinalData(changes, key).value
    decreases |changes|
  {
    var last := changes[|changes| - 1];
    if KeyOf(last) == key {
      c := last;
    } else {
      c := FinalDataIsFromChange(changes[..|changes| - 1], key);
    }
  }

  lemma ZoneNameIsNotEmpty(s: Setting, c: Cluster)
    ensures ZoneName(s, c) != ""
  {
  }

  /** What one of our records asks for at a key. */
  lemma OurChange(s: Setting, c: Cluster, r: DnsRecord, canonicalZone: string -> string)
    requires OurRecord(s, c, r)
    ensures Supported(r.kind) && r.values != []
    ensures
      var change := ChangeFor(r, canonicalZone);
      && KeyOf(change).kind != NS
      && (KeyOf(change) == WildcardKeyOf(s, c) ==> change.data == Values(RECORD_TTL, [WildcardTarget(s.defaultDomain, c)]))
  {
    assert NS != CNAME && NS != A && ALIAS != CNAME;
    ZoneNameIsNotEmpty(s, c);
    ApiIsNotWildcard(ZoneName(s, c));
    hide Canonical;
  }

  lemma OurFinalData(s: Setting, c: Cluster, records: seq<DnsRecord>, canonicalZone: string -> string, key: Key)
    requires OurRecords(s, c, records) && HaveValues(records)
    requires FinalData(ChangesFor(records, canonicalZone), key).Some?
    ensures key.kind != NS
    ensures key == WildcardKeyOf(s, c) ==>
      FinalData(ChangesFor(records, canonicalZone), key).value == Values(RECORD_TTL, [WildcardTarget(s.defaultDomain, c)])
  {
    hide Canonical;
    var change := FinalDataIsFromChange(ChangesFor(records, canonicalZone), key);
    ChangesForUpserts(records, canonicalZone);
    var r :| r in records && Supported(r.kind) && change == ChangeFor(r, canonicalZone);
    OurChange(s, c, r, canonicalZone);
  }

  lemma OurRecordsHaveValues(s: Setting, c: Cluster, records: seq<DnsRecord>)
    requires OurRecords(s, c, records)
    ensures HaveValues(records)
  {
    hide Canonical;
    hide WildcardTarget;
  }

  /** A zone is one cluster's at most. */
  lemma OneOwner(s: Setting, st: State, n: string, id: string, sets: Sets)
    requires WellSet(s) && n in s.clusters && IsZoneOf(s, st, s.clusters[n], id)
    requires WildcardIsOurs(s, s.clusters[n], sets)
    ensures OwnWildcard(s, st, id, sets)
  {
    hide Canonical;
    hide WildcardIsOurs;
    forall k | k in s.clusters && IsZoneOf(s, st, s.clusters[k], id) ensures WildcardIsOurs(s, s.clusters[k], sets) {
      assert k != n ==> Apart(s, s.clusters[k], s.clusters[n]);
    }
  }

  lemma SafeAfterRecords(s: Setting, m: Moment, n: string, id: string, sets: Sets)
    requires WellSet(s) && Safe(s, m) && n in s.clusters && IsZoneOf(s, m.route53, s.clusters[n], id)
    requires ValidSets(sets) && SameDelegations(s, m.route53.zones[id].sets, sets) && WildcardIsOurs(s, s.clusters[n], sets)
    ensures Safe(s, m.(route53 := WithSets(m.route53, id, sets)))
  {
    hide Canonical;
    hide WildcardIsOurs;
    hide SameDelegations;
    hide ValidSets;
    OneOwner(s, m.route53, n, id, sets);
    RecordsKeepSane(s, m.route53, id, sets);
    CoveredWithSets(s, m, id, sets);
  }

  /** Writing our records is safe. */
  lemma SafeAfterUpserting(s: Setting, m: Moment, n: string, id: string, records: seq<DnsRecord>,
                           canonicalZone: string -> string, after: State)
    requires WellSet(s) && Safe(s, m) && n in s.clusters && IsZoneOf(s, m.route53, s.clusters[n], id)
    requires OurRecords(s, s.clusters[n], records) && HaveValues(records)
    requires Some(after) == Changed(m.route53, id, ChangesFor(records, canonicalZone))
    ensures Safe(s, m.(route53 := after)) && SameZones(m.route53, after)
  {
    var z := m.route53.zones[id];
    var sets := after.zones[id].sets;
    SafeIsValid(s, m);
    assert ValidZone(m.route53, id);
    assert after == WithSets(m.route53, id, sets) && ApplyAll(z.name, z.sets, ChangesFor(records, canonicalZone)) == Some(sets);
    assert WildcardsAreOurs(s, m.route53) && ValidSets(z.sets);
    hide *;
    ApplyAllKeepsNames(z.name, z.sets, ChangesFor(records, canonicalZone));
    UpsertedSets(s, m.route53, n, id, records, canonicalZone, sets);
    SafeAfterRecords(s, m, n, id, sets);
    WithSetsSame(m.route53, id, sets);
  }

  lemma UpsertedSets(s: Setting, st: State, n: string, id: string, records: seq<DnsRecord>,
                     canonicalZone: string -> string, sets: Sets)
    requires n in s.clusters && IsZoneOf(s, st, s.clusters[n], id) && WildcardsAreOurs(s, st)
    requires OurRecords(s, s.clusters[n], records) && HaveValues(records)
    requires ApplyAll(st.zones[id].name, st.zones[id].sets, ChangesFor(records, canonicalZone)) == Some(sets)
    ensures SameDelegations(s, st.zones[id].sets, sets) && WildcardIsOurs(s, s.clusters[n], sets)
  {
    hide Canonical;
    hide OurRecords;
    var changes, c, z := ChangesFor(records, canonicalZone), s.clusters[n], st.zones[id];
    ChangesForUpserts(records, canonicalZone);
    UpsertsApply(z.name, z.sets, changes);
    hide ApplyAll;
    hide ChangesFor;
    forall k: Key | k.kind == NS ensures SameAt(z.sets, sets, k) {
      if FinalData(changes, k).Some? {
        OurFinalData(s, c, records, canonicalZone, k);
      }
    }
    assert WildcardIsOurs(s, c, z.sets);
    if FinalData(changes, WildcardKeyOf(s, c)).Some? {
      OurFinalData(s, c, records, canonicalZone, WildcardKeyOf(s, c));
    }
  }

  /** Taking away sets that are no NS sets is safe. */
  lemma SafeAfterDeleting(s: Setting, m: Moment, n: string, id: string, gone: set<Key>)
    requires WellSet(s) && Safe(s, m) && n in s.clusters && IsZoneOf(s, m.route53, s.clusters[n], id)
    requires forall k :: k in gone ==> k.kind != NS
    ensures Safe(s, m.(route53 := WithSets(m.route53, id, m.route53.zones[id].sets - gone)))
    ensures SameZones(m.route53, WithSets(m.route53, id, m.route53.zones[id].sets - gone))
  {
    hide Canonical;
    hide WildcardIsOurs;
    hide NoDangling;
    hide UniqueZones;
    hide AllApexIntact;
    hide SameDelegations;
    hide WellSet;
    var sets := m.route53.zones[id].sets;
    assert ValidZone(m.route53, id);
    FewerSets(s, s.clusters[n], sets, gone);
    SafeAfterRecords(s, m, n, id, sets - gone);
  }

  lemma FewerSets(s: Setting, c: Cluster, sets: Sets, gone: set<Key>)
    requires ValidSets(sets) && WildcardIsOurs(s, c, sets) && forall k :: k in gone ==> k.kind != NS
    ensures ValidSets(sets - gone) && WildcardIsOurs(s, c, sets - gone) && SameDelegations(s, sets, sets - gone)
  {
    hide Canonical;
  }

  lemma SafeAfterOneDeletion(s: Setting, m: Moment, n: string, id: string, key: Key, after: State)
    requires WellSet(s) && Safe(s, m) && n in s.clusters && IsZoneOf(s, m.route53, s.clusters[n], id)
    requires key.kind != NS && AtMostRemoves(m.route53, after, id, key)
    ensures Safe(s, m.(route53 := after)) && SameZones(m.route53, after)
  {
    hide Canonical;
    hide WellSet;
    hide Safe;
    if after != m.route53 {
      SafeAfterDeleting(s, m, n, id, {key});
    }
  }

  /** Emptying a page of the cluster's zone is safe, and delegates nothing anew. */
  lemma SafeAfterEmptying(s: Setting, m: Moment, n: string, id: string, page: seq<RecordSet>, after: State)
    requires WellSet(s) && Safe(s, m) && n in s.clusters && IsZoneOf(s, m.route53, s.clusters[n], id)
    requires Emptied(m.route53, after, id, page) && NotDelegated(s, m.route53, s.clusters[n])
    ensures Safe(s, m.(route53 := after)) && SameZones(m.route53, after) && NotDelegated(s, after, s.clusters[n])
    ensures IsZoneOf(s, after, s.clusters[n], id)
  {
    hide Canonical;
    hide WellSet;
    hide Safe;
    assert NS == "NS" && IsKept(NS);
    SafeAfterDeleting(s, m, n, id, Doomed(page));
    forall q ensures !DelegatedFrom(s, after, s.clusters[n], q) {
      assert !DelegatedFrom(s, m.route53, s.clusters[n], q);
    }
  }

  // ---- the delegation ----

  lemma DelegationApplied(s: Setting, st: State, c: Cluster, p: string, values: seq<string>, after: State)
    requires Some(after) == Changed(st, p, [DelegationChange(Canonical(ZoneName(s, c)), values)])
    ensures p in st.zones
    ensures after == WithSets(st, p, st.zones[p].sets[DelegationKeyOf(s, c) := Values(RECORD_TTL, values)])
  {
    CanonicalIsStable(ZoneName(s, c));
    hide Canonical;
    var change := DelegationChange(Canonical(ZoneName(s, c)), values);
    assert [change][..0] == [];
    assert KeyOf(change) == DelegationKeyOf(s, c);
    var z := st.zones[p];
    assert ApplyAll(z.name, z.sets, [change]) == ApplyChange(z.name, z.sets, change);
  }

  lemma SafeAfterDelegating(s: Setting, m: Moment, n: string, id: string, p: string, after: State)
    requires WellSet(s) && Safe(s, m) && n in s.clusters && Delegates(s, s.clusters[n])
    requires IsZoneOf(s, m.route53, s.clusters[n], id) && IsParentOf(s, m.route53, s.clusters[n], p)
    requires
      var change := DelegationChange(Canonical(ZoneName(s, s.clusters[n])), m.route53.zones[id].nameServers);
      Some(after) == Changed(m.route53, p, [change])
    ensures Safe(s, m.(route53 := after)) && SameZones(m.route53, after)
  {
    SafeIsValid(s, m);
    var c := s.clusters[n];
    var ns := m.route53.zones[id].nameServers;
    hide *;
    DelegationApplied(s, m.route53, c, p, ns, after);
    DelegatingKeepsSane(s, m.route53, n, id, p);
    var sets := m.route53.zones[p].sets[DelegationKeyOf(s, c) := Values(RECORD_TTL, ns)];
    CoveredWithSets(s, m, p, sets);
    WithSetsSame(m.route53, p, sets);
  }

  lemma WithSetsSame(st: State, id: string, sets: Sets)
    requires id in st.zones
    ensures SameZones(st, WithSets(st, id, sets))
  {
  }

  lemma SafeAfterUndelegating(s: Setting, m: Moment, n: string, p: string)
    requires WellSet(s) && Safe(s, m) && n in s.clusters && Delegates(s, s.clusters[n])
    requires IsParentOf(s, m.route53, s.clusters[n], p)
    ensures
      var after := WithSets(m.route53, p, m.route53.zones[p].sets - {DelegationKeyOf(s, s.clusters[n])});
      Safe(s, m.(route53 := after)) && SameZones(m.route53, after)
  {
    hide Canonical;
    hide WellSet;
    UndelegatingKeepsSane(s, m.route53, n, p);
    hide Sane;
    CoveredWithSets(s, m, p, m.route53.zones[p].sets - {DelegationKeyOf(s, s.clusters[n])});
  }

  /** A deletion of the delegation that removes at most that set is safe. */
  lemma SafeAfterUndelegation(s: Setting, m: Moment, n: string, p: string, name: string, after: State)
    requires WellSet(s) && Safe(s, m) && n in s.clusters && Delegates(s, s.clusters[n])
    requires KnownAs(m.route53.born, ParentAccount(s, s.clusters[n]), p, ParentName(s, s.clusters[n]))
    requires name == Canonical(ZoneName(s, s.clusters[n])) && AtMostRemoves(m.route53, after, p, StoredKey(name, NS))
    ensures Safe(s, m.(route53 := after)) && SameZones(m.route53, after)
    ensures p in after.zones && StoredKey(name, NS) !in after.zones[p].sets ==> NotDelegated(s, after, s.clusters[n])
    ensures '*' !in name && SameExcept(m.route53, after, p)
  {
    var c := s.clusters[n];
    DelegationIsStored(s, c);
    SafeIsValid(s, m);
    hide *;
    if after != m.route53 {
      Removed(m.route53, after, p, StoredKey(name, NS));
      KnownIsParent(s, m.route53, c, p);
      SafeAfterUndelegating(s, m, n, p);
    } else {
      SameAsItself(m.route53);
    }
    BornAlike(m.route53, after);
    SafeIsValid(s, m.(route53 := after));
    if p in after.zones && StoredKey(name, NS) !in after.zones[p].sets {
      KnownIsParent(s, after, c, p);
      OneParentDecides(s, after, n, p);
    }
  }

  lemma DelegationIsStored(s: Setting, c: Cluster)
    ensures '*' !in Canonical(ZoneName(s, c))
    ensures StoredKey(Canonical(ZoneName(s, c)), NS) == DelegationKeyOf(s, c)
  {
    CanonicalIsStable(ZoneName(s, c));
    assert NS != ALIAS;
    hide Canonical;
  }

  lemma SafeIsValid(s: Setting, m: Moment)
    requires Safe(s, m)
    ensures ValidState(m.route53) && Sane(s, m.route53)
  {
  }

  lemma Removed(st: State, after: State, id: string, key: Key)
    requires AtMostRemoves(st, after, id, key) && after != st
    ensures id in st.zones && after == WithSets(st, id, st.zones[id].sets - {key}) && SameExcept(st, after, id)
  {
  }

  lemma SameAsItself(st: State)
    ensures SameZones(st, st) && forall id :: SameExcept(st, st, id)
  {
  }

  lemma BornAlike(st: State, after: State)
    requires SameZones(st, after)
    ensures st.born == after.born
  {
  }

  // ---- records of others ----

  function Updated(sets: Sets, key: Key, data: Option<Data>): Sets {
    match data
    case Some(d) => sets[key := d]
    case None => sets - {key}
  }

  /** Others write neither the delegations and NS sets of the clusters' zones nor the clusters' wildcards. */
  predicate NotOurs(s: Setting, key: Key) {
    && StableName(key.name)
    && forall n :: n in s.clusters ==> key != WildcardKeyOf(s, s.clusters[n]) && key != DelegationKeyOf(s, s.clusters[n])
  }

  lemma ForeignSets(s: Setting, st: State, id: string, key: Key, data: Option<Data>)
    requires WildcardsAreOurs(s, st) && id in st.zones && ValidSets(st.zones[id].sets) && NotOurs(s, key)
    ensures
      var sets := Updated(st.zones[id].sets, key, data);
      ValidSets(sets) && SameDelegations(s, st.zones[id].sets, sets) && OwnWildcard(s, st, id, sets)
  {
    hide Canonical;
    var sets := Updated(st.zones[id].sets, key, data);
    forall n | n in s.clusters && IsZoneOf(s, st, s.clusters[n], id) ensures WildcardIsOurs(s, s.clusters[n], sets) {
      assert WildcardIsOurs(s, s.clusters[n], st.zones[id].sets);
      assert key != WildcardKeyOf(s, s.clusters[n]);
    }
  }

  lemma SafeAfterForeignWrite(s: Setting, m: Moment, id: string, key: Key, data: Option<Data>)
    requires Safe(s, m) && id in m.route53.zones && NotOurs(s, key)
    ensures
      var after := WithSets(m.route53, id, Updated(m.route53.zones[id].sets, key, data));
      Safe(s, m.(route53 := after)) && SameZones(m.route53, after)
  {
    hide Canonical;
    hide NotOurs;
    hide NoDangling;
    hide UniqueZones;
    hide AllApexIntact;
    hide WildcardsAreOurs;
    hide SameDelegations;
    hide OwnWildcard;
    assert ValidZone(m.route53, id);
    ForeignSets(s, m.route53, id, key, data);
    RecordsKeepSane(s, m.route53, id, Updated(m.route53.zones[id].sets, key, data));
    hide Sane;
    CoveredWithSets(s, m, id, Updated(m.route53.zones[id].sets, key, data));
  }

  // ---- zones of others ----

  /** A zone of others delegates nothing, and is nobody's. */
  lemma SafeAfterForeignCreation(s: Setting, m: Moment, id: string, account: string, name: string, nameServers: seq<string>)
    requires Safe(s, m) && id !in m.route53.born && id != "" && nameServers != [] && Stored(name) && !IsOurs(s, account, name)
    ensures
      var after := Created(m.route53, id, account, name, nameServers);
      Safe(s, m.(route53 := after)) && Later(m.route53, after)
  {
    hide *;
    SafeIsValid(s, m);
    SaneParts(s, m.route53);
    var after := Created(m.route53, id, account, name, nameServers);
    BornIsNew(m.route53, id);
    CreatedKeepsValid(m.route53, id, account, name, nameServers);
    CreatedKeepsApex(s, m.route53, id, account, name, nameServers);
    CreatedKeepsUnique(s, m.route53, id, account, name, nameServers);
    CreatedKeepsWildcards(s, m.route53, id, account, name, nameServers);
    SafeParts(s, m);
    ForeignCreationKeepsRest(s, m, id, account, name, nameServers);
    SaneParts(s, after);
    SafeParts(s, m.(route53 := after));
    CreatedIsLater(m.route53, id, account, name, nameServers);
  }

  lemma ForeignCreationKeepsRest(s: Setting, m: Moment, id: string, account: string, name: string, nameServers: seq<string>)
    requires NoDangling(s, m.route53) && Covered(s, m.route53, m.objects) && id !in m.route53.zones && !IsOurs(s, account, name)
    ensures
      var after := Created(m.route53, id, account, name, nameServers);
      NoDangling(s, after) && Covered(s, after, m.objects)
  {
    hide Canonical;
    var st, after := m.route53, Created(m.route53, id, account, name, nameServers);
    forall n, q | n in s.clusters && DelegatedFrom(s, after, s.clusters[n], q) ensures Grounded(s, after, s.clusters[n], q) {
      var c := s.clusters[n];
      assert q != id && DelegatedFrom(s, st, c, q);
      var own :| Serves(s, st, c, st.zones[q].sets[DelegationKeyOf(s, c)], own);
      assert Serves(s, after, c, after.zones[q].sets[DelegationKeyOf(s, c)], own);
    }
    forall n | n in s.clusters && HasZone(s, after, s.clusters[n]) ensures HasFinalizer(m.objects, n) {
      var own :| IsZoneOf(s, after, s.clusters[n], own);
      assert !OursFor(s, s.clusters[n], account, name);
      assert IsZoneOf(s, st, s.clusters[n], own);
    }
  }

  lemma SafeAfterForeignRemoval(s: Setting, m: Moment, id: string)
    requires Safe(s, m) && id in m.route53.zones && !ZoneIsOurs(s, m.route53.zones[id])
    ensures Safe(s, m.(route53 := WithoutZone(m.route53, id))) && Later(m.route53, WithoutZone(m.route53, id))
  {
    hide *;
    SafeIsValid(s, m);
    SaneParts(s, m.route53);
    SafeParts(s, m);
    var after := WithoutZone(m.route53, id);
    WithoutZoneKeepsValid(m.route53, id);
    ForeignRemovalKeepsGrounded(s, m.route53, id);
    ForeignRemovalKeepsRest(s, m, id);
    SaneParts(s, after);
    SafeParts(s, m.(route53 := after));
  }

  lemma ForeignRemovalKeepsGrounded(s: Setting, st: State, id: string)
    requires NoDangling(s, st) && id in st.zones && !ZoneIsOurs(s, st.zones[id])
    ensures NoDangling(s, WithoutZone(st, id))
  {
    hide Canonical;
    var after := WithoutZone(st, id);
    forall n, q | n in s.clusters && DelegatedFrom(s, after, s.clusters[n], q) ensures Grounded(s, after, s.clusters[n], q) {
      var c := s.clusters[n];
      assert DelegatedFrom(s, st, c, q);
      var own :| Serves(s, st, c, st.zones[q].sets[DelegationKeyOf(s, c)], own);
      ZoneOfIsOurs(s, st, n, own);
      assert Serves(s, after, c, after.zones[q].sets[DelegationKeyOf(s, c)], own);
    }
  }

  lemma ForeignRemovalKeepsRest(s: Setting, m: Moment, id: string)
    requires UniqueZones(s, m.route53) && AllApexIntact(s, m.route53) && WildcardsAreOurs(s, m.route53)
    requires Covered(s, m.route53, m.objects)
    ensures
      var after := WithoutZone(m.route53, id);
      && UniqueZones(s, after) && AllApexIntact(s, after) && WildcardsAreOurs(s, after) && Covered(s, after, m.objects)
      && Later(m.route53, after)
  {
    hide Canonical;
    hide IsOurs;
    var st, after := m.route53, WithoutZone(m.route53, id);
    forall n, own | n in s.clusters && IsZoneOf(s, after, s.clusters[n], own)
      ensures ApexIntact(after, own) && WildcardIsOurs(s, s.clusters[n], after.zones[own].sets) && HasFinalizer(m.objects, n)
    {
      assert IsZoneOf(s, st, s.clusters[n], own) && ApexIntact(st, own);
    }
  }

  lemma SaneParts(s: Setting, st: State)
    ensures Sane(s, st) <==>
      ValidState(st) && UniqueZones(s, st) && AllApexIntact(s, st) && NoDangling(s, st) && WildcardsAreOurs(s, st)
  {
  }

  lemma SafeParts(s: Setting, m: Moment)
    ensures Safe(s, m) <==> Sane(s, m.route53) && Covered(s, m.route53, m.objects)
  {
  }

  lemma BornIsNew(st: State, id: string)
    requires ValidState(st) && id !in st.born
    ensures id !in st.zones
  {
    assert id in st.zones ==> ValidZone(st, id);
  }

  lemma CreatedIsLater(st: State, id: string, account: string, name: string, nameServers: seq<string>)
    requires id !in st.born
    ensures Later(st, Created(st, id, account, name, nameServers))
  {
  }

  // ---- the objects ----

  lemma DriftKeepsFinalizer(before: map<string, Log>, after: map<string, Log>, n: string)
    requires Drifts(before, after, DNS_FINALIZER)
    ensures HasFinalizer(before, n) <==> HasFinalizer(after, n)
  {
    if n in before {
      assert LogDrifts(before[n], after[n], DNS_FINALIZER);
      if |after[n]| == |before[n]| {
        assert after[n] == before[n];
      }
    }
  }

  /** Whatever others do to the objects, every zone stays covered. */
  lemma SafeAfterDrift(s: Setting, m: Moment, after: Moment)
    requires Safe(s, m) && after.route53 == m.route53 && Drifts(m.objects, after.objects, DNS_FINALIZER)
    ensures Safe(s, after)
  {
    hide Sane;
    hide HasZone;
    hide Drifts;
    hide HasFinalizer;
    forall n | n in s.clusters && HasZone(s, m.route53, s.clusters[n]) ensures HasFinalizer(after.objects, n) {
      DriftKeepsFinalizer(m.objects, after.objects, n);
    }
  }

  /** Adding the finalizer is safe, and removing it is once the zone is gone. */
  lemma SafeAfterPatch(s: Setting, m: Moment, n: string, objects: map<string, Log>)
    requires Safe(s, m) && n in s.clusters
    requires forall k :: k != n && HasFinalizer(m.objects, k) ==> HasFinalizer(objects, k)
    requires HasZone(s, m.route53, s.clusters[n]) ==> HasFinalizer(objects, n)
    ensures Safe(s, m.(objects := objects))
  {
    hide Sane;
    hide HasZone;
    hide HasFinalizer;
  }

  lemma DriftsTwice(a: map<string, Log>, b: map<string, Log>, c: map<string, Log>)
    requires Drifts(a, b, DNS_FINALIZER) && Drifts(b, c, DNS_FINALIZER)
    ensures Drifts(a, c, DNS_FINALIZER)
  {
    forall n | n in a ensures LogDrifts(a[n], c[n], DNS_FINALIZER) {
      assert LogDrifts(a[n], b[n], DNS_FINALIZER) && LogDrifts(b[n], c[n], DNS_FINALIZER);
      LogDriftsTwice(a[n], b[n], c[n]);
    }
  }

  lemma LogDriftsTwice(a: Log, b: Log, c: Log)
    requires LogDrifts(a, b, DNS_FINALIZER) && LogDrifts(b, c, DNS_FINALIZER)
    ensures LogDrifts(a, c, DNS_FINALIZER)
  {
    forall i | |a| <= i < |c| ensures DNS_FINALIZER in c[i].finalizers <==> DNS_FINALIZER in Current(a).finalizers {
      if i < |b| {
        assert c[i] == b[i];
      }
      assert |b| == |a| ==> b == a;
    }
  }

  // ---- what a lookup says ----

  lemma KnownIsZone(s: Setting, st: State, c: Cluster, id: string)
    requires ValidState(st) && id in st.zones && KnownAs(st.born, Account(s, c), id, ZoneName(s, c))
    ensures IsZoneOf(s, st, c, id)
  {
    hide Canonical;
    assert ValidZone(st, id);
  }

  lemma KnownIsParent(s: Setting, st: State, c: Cluster, id: string)
    requires ValidState(st) && id in st.zones && KnownAs(st.born, ParentAccount(s, c), id, ParentName(s, c))
    ensures IsParentOf(s, st, c, id)
  {
    hide Canonical;
    assert ValidZone(st, id);
  }

  lemma ZoneIsKnown(s: Setting, st: State, c: Cluster, id: string)
    requires ValidState(st) && IsZoneOf(s, st, c, id)
    ensures KnownAs(st.born, Account(s, c), id, ZoneName(s, c)) && st.born[id].nameServers == st.zones[id].nameServers
  {
    hide Canonical;
    assert ValidZone(st, id);
  }

  lemma NewZoneIsValid(st: State, id: string, account: string, name: string, nameServers: seq<string>)
    requires ValidState(Created(st, id, account, name, nameServers))
    ensures id != "" && Stored(name)
  {
    hide Canonical;
    assert ValidZone(Created(st, id, account, name, nameServers), id);
  }

  /** Until deletion is seen, a finalizer that was ever there is still there. */
  ghost predicate KeptUntilSeen(objects: map<string, Log>, seen: set<string>) {
    forall n, v :: n in objects && n !in seen && 0 <= v < |objects[n]| && DNS_FINALIZER in objects[n][v].finalizers ==>
      HasFinalizer(objects, n)
  }

  lemma DriftKeepsKept(before: map<string, Log>, after: map<string, Log>, seen: set<string>)
    requires KeptUntilSeen(before, seen) && Drifts(before, after, DNS_FINALIZER)
    ensures KeptUntilSeen(after, seen)
  {
    forall n, v | n in after && n !in seen && 0 <= v < |after[n]| && DNS_FINALIZER in after[n][v].finalizers
      ensures HasFinalizer(after, n)
    {
      assert LogDrifts(before[n], after[n], DNS_FINALIZER);
      if v < |before[n]| {
        assert before[n][v] == after[n][v];
      }
      DriftKeepsFinalizer(before, after, n);
    }
  }

  /** A successful or lost addition: the finalizer is there, and nothing else changed. */
  lemma AddKeepsKept(before: map<string, Log>, after: map<string, Log>, n: string, version: nat, seen: set<string>)
    requires KeptUntilSeen(before, seen) && n in before && version < |before[n]|
    requires ObjectPatched(before, after, n, AddPatch(before[n], version, DNS_FINALIZER))
    ensures KeptUntilSeen(after, seen) && HasFinalizer(after, n) && after.Keys == before.Keys
    ensures forall k :: k != n ==> (HasFinalizer(after, k) <==> HasFinalizer(before, k))
  {
    LockedAddIsOwn(before[n], version, DNS_FINALIZER);
    assert DNS_FINALIZER in Current(after[n]).finalizers;
    forall k, v | k in after && k !in seen && 0 <= v < |after[k]| && DNS_FINALIZER in after[k][v].finalizers
      ensures HasFinalizer(after, k)
    {
      assert k != n ==> after[k] == before[k];
    }
  }

  lemma RemoveKeepsKept(before: map<string, Log>, after: map<string, Log>, n: string, version: nat, seen: set<string>)
    requires KeptUntilSeen(before, seen) && n in before && version < |before[n]| && n in seen
    requires ObjectPatched(before, after, n, RemovePatch(before[n], version, DNS_FINALIZER))
    ensures KeptUntilSeen(after, seen) && !HasFinalizer(after, n) && after.Keys == before.Keys
    ensures forall k :: k != n ==> (HasFinalizer(after, k) <==> HasFinalizer(before, k))
  {
    LockedRemoveIsOwn(before[n], version, DNS_FINALIZER);
    forall k, v | k in after && k !in seen && 0 <= v < |after[k]| && DNS_FINALIZER in after[k][v].finalizers
      ensures HasFinalizer(after, k)
    {
      assert after[k] == before[k];
    }
  }
}
