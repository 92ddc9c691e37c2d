/**
 Why the operator's caches may be trusted about the clusters' zones: the only zones of ours that were ever seen and
 are gone belong to clusters being deleted, and a remembered delegation of any other cluster is still there.
 */
module ZoneMemory {
  import opened Results
  import opened Strings
  import opened Listing
  import opened Cloud
  import opened CacheKeys
  import opened Clusters
  import opened Deletions
  import opened Upserts
  import opened ZoneCaches
  import opened ZoneSafety
  import opened ZoneEffects

  // ---- zones that were seen ----

  predicate IsNamedFor(s: Setting, c: Cluster, account: string, name: string) {
    account == Account(s, c) && name == Canonical(ZoneName(s, c))
  }

  /** The name is that of a cluster which is being deleted and has no zone any more. */
  ghost predicate Departed(s: Setting, st: State, leaving: set<string>, account: string, name: string) {
    exists n ::
      && n in leaving && n in s.clusters && IsNamedFor(s, s.clusters[n], account, name)
      && !HasZone(s, st, s.clusters[n])
  }

  /** A zone of ours is still there, or its cluster has departed. */
  ghost predicate Persists(s: Setting, st: State, leaving: set<string>, id: string, z: Zone) {
    ZoneIsOurs(s, z) ==> (id in st.zones && SameZone(st.zones[id], z)) || Departed(s, st, leaving, z.account, z.name)
  }

  ghost predicate Kept(s: Setting, st: State, leaving: set<string>, trail: seq<Moment>) {
    forall i, id :: 0 <= i < |trail| && id in trail[i].route53.zones ==>
      Persists(s, st, leaving, id, trail[i].route53.zones[id])
  }

  /** No cluster's zone is ever lost before its deletion is read: one that was there at any moment is there now. */
  lemma KeptSays(s: Setting, st: State, leaving: set<string>, trail: seq<Moment>, i: nat, n: string, id: string)
    requires WellSet(s) && Kept(s, st, leaving, trail) && i < |trail| && n in s.clusters && n !in leaving
    requires IsZoneOf(s, trail[i].route53, s.clusters[n], id)
    ensures IsZoneOf(s, st, s.clusters[n], id)
  {
    hide Canonical;
    hide ProperZone;
    ZoneOfIsOurs(s, trail[i].route53, n, id);
    hide IsOurs;
    var z := trail[i].route53.zones[id];
    assert Persists(s, st, leaving, id, z);
    forall m | m in leaving && m in s.clusters ensures !IsNamedFor(s, s.clusters[m], z.account, z.name) {
      assert Apart(s, s.clusters[m], s.clusters[n]);
    }
  }

  // ---- what each step respects ----

  ghost predicate Retains(s: Setting, st: State, after: State, leaving: set<string>) {
    forall id :: id in st.zones ==> Persists(s, after, leaving, id, st.zones[id])
  }

  ghost predicate StayGone(s: Setting, st: State, after: State, leaving: set<string>) {
    forall n :: n in leaving && n in s.clusters && !HasZone(s, st, s.clusters[n]) ==> !HasZone(s, after, s.clusters[n])
  }

  ghost predicate StayDelegated(s: Setting, st: State, after: State, leaving: set<string>) {
    forall n, q :: n in s.clusters && n !in leaving && DelegatedFrom(s, st, s.clusters[n], q) ==>
      DelegatedFrom(s, after, s.clusters[n], q)
  }

  ghost predicate Continues(s: Setting, st: State, after: State, leaving: set<string>) {
    Retains(s, st, after, leaving) && StayGone(s, st, after, leaving) && StayDelegated(s, st, after, leaving)
  }

  lemma DepartedStays(s: Setting, st: State, after: State, leaving: set<string>, account: string, name: string)
    requires StayGone(s, st, after, leaving) && Departed(s, st, leaving, account, name)
    ensures Departed(s, after, leaving, account, name)
  {
    hide IsNamedFor;
    hide HasZone;
  }

  lemma PersistsFurther(s: Setting, st: State, after: State, leaving: set<string>, id: string, z: Zone)
    requires Continues(s, st, after, leaving) && Persists(s, st, leaving, id, z)
    ensures Persists(s, after, leaving, id, z)
  {
    hide Departed;
    hide IsOurs;
    if ZoneIsOurs(s, z) {
      if Departed(s, st, leaving, z.account, z.name) {
        DepartedStays(s, st, after, leaving, z.account, z.name);
      } else {
        assert Persists(s, after, leaving, id, st.zones[id]);
      }
    }
  }

  lemma KeptGoesOn(s: Setting, leaving: set<string>, trail: seq<Moment>, longer: seq<Moment>, before: Moment, after: Moment)
    requires Kept(s, before.route53, leaving, trail) && Passed(trail, longer, before, after)
    requires Continues(s, before.route53, after.route53, leaving)
    ensures Kept(s, after.route53, leaving, longer)
  {
    forall i, id | 0 <= i < |longer| && id in longer[i].route53.zones
      ensures Persists(s, after.route53, leaving, id, longer[i].route53.zones[id])
    {
      hide Persists;
      if i < |trail| {
        assert longer[i] == trail[i];
        hide Continues;
        PersistsFurther(s, before.route53, after.route53, leaving, id, trail[i].route53.zones[id]);
      } else if longer[i] == before {
        assert Persists(s, after.route53, leaving, id, before.route53.zones[id]);
      } else {
        AlivePersists(s, after.route53, leaving, id);
      }
    }
  }

  lemma AlivePersists(s: Setting, st: State, leaving: set<string>, id: string)
    requires id in st.zones
    ensures Persists(s, st, leaving, id, st.zones[id])
  {
  }

  /** When another cluster starts being deleted. */
  lemma MoreLeave(s: Setting, st: State, leaving: set<string>, n: string, trail: seq<Moment>)
    requires Kept(s, st, leaving, trail)
    ensures Kept(s, st, leaving + {n}, trail)
  {
    hide ZoneIsOurs;
    hide IsNamedFor;
    hide HasZone;
    forall i, id | 0 <= i < |trail| && id in trail[i].route53.zones
      ensures Persists(s, st, leaving + {n}, id, trail[i].route53.zones[id])
    {
      assert Persists(s, st, leaving, id, trail[i].route53.zones[id]);
    }
  }

  // ---- what a lookup may rely on ----

  /** The zone that exists under one of our names. */
  predicate IsThe(s: Setting, st: State, account: string, name: string, id: string) {
    && id in st.zones && st.zones[id].account == account && st.zones[id].name == Canonical(name)
    && ZoneIsOurs(s, st.zones[id])
  }

  /** While a name of ours has a zone, whatever id was seen under it is that zone's. */
  lemma SeenIsTheOne(s: Setting, st: State, leaving: set<string>, trail: seq<Moment>, now: nat, account: string,
                     id: string, name: string, own: string)
    requires Kept(s, st, leaving, trail) && UniqueZones(s, st) && IsThe(s, st, account, name, own)
    requires Recent(trail, now, account, id, name)
    ensures id == own
  {
    hide Canonical;
    hide IsOurs;
    var time :| now - 90 <= time <= now && SeenAt(trail, time, account, id, name);
    var i :| 0 <= i < |trail| && trail[i].time == time && Saw(trail[i], account, id, name);
    var z := trail[i].route53.zones[id];
    assert Persists(s, st, leaving, id, z) && SameZone(z, st.zones[own]);
    forall n | n in s.clusters && IsNamedFor(s, s.clusters[n], account, z.name) ensures HasZone(s, st, s.clusters[n]) {
      assert IsZoneOf(s, st, s.clusters[n], own);
    }
  }

  /** Whatever id was seen for a cluster that is not leaving is its zone's. */
  lemma SeenIsStillThere(s: Setting, st: State, leaving: set<string>, trail: seq<Moment>, now: nat, n: string, id: string)
    requires WellSet(s) && Kept(s, st, leaving, trail) && n in s.clusters && n !in leaving
    requires Recent(trail, now, Account(s, s.clusters[n]), id, ZoneName(s, s.clusters[n]))
    ensures IsZoneOf(s, st, s.clusters[n], id)
  {
    hide Canonical;
    hide WellSet;
    hide Kept;
    var account, name := Account(s, s.clusters[n]), ZoneName(s, s.clusters[n]);
    var time :| now - 90 <= time <= now && SeenAt(trail, time, account, id, name);
    var i :| 0 <= i < |trail| && trail[i].time == time && Saw(trail[i], account, id, name);
    KeptSays(s, st, leaving, trail, i, n, id);
  }

  /** A cluster's zone is the only one of its name, and without one there is none. */
  lemma OwnIsOnly(s: Setting, st: State, n: string)
    requires UniqueZones(s, st) && n in s.clusters && Plain(ZoneName(s, s.clusters[n]))
    ensures
      var account, name := Account(s, s.clusters[n]), ZoneName(s, s.clusters[n]);
      if HasZone(s, st, s.clusters[n]) then exists id :: OnlyZone(st, account, id, name) else NoZone(st, account, name)
  {
    hide Canonical;
    hide IsOurs;
    var c := s.clusters[n];
    var account, name := Account(s, c), ZoneName(s, c);
    forall id ensures Named(st, account, id, name) <==> IsZoneOf(s, st, c, id) {
    }
    if own :| IsZoneOf(s, st, c, own) {
      ZoneOfIsOurs(s, st, n, own);
      forall other | Named(st, account, other, name) ensures other == own {
        assert SameZone(st.zones[own], st.zones[other]);
      }
      assert OnlyZone(st, account, own, name);
    } else {
      assert !HasZone(s, st, c);
    }
  }

  /** The uncached answer for such a name. */
  lemma AnswerIsTheOne(s: Setting, st: State, account: string, name: string, own: string, r: Result<string>)
    requires UniqueZones(s, st) && IsThe(s, st, account, name, own) && Plain(name) && Answers(st, account, name, r)
    ensures r == Ok(own)
  {
    hide Canonical;
    hide IsOurs;
    assert Named(st, account, own, name);
    forall other ensures Named(st, account, other, name) ==> other == own {
      assert Named(st, account, other, name) ==> SameZone(st.zones[own], st.zones[other]);
    }
  }

  lemma OwnIsTheOne(s: Setting, st: State, n: string, id: string)
    requires n in s.clusters && IsZoneOf(s, st, s.clusters[n], id)
    ensures IsThe(s, st, Account(s, s.clusters[n]), ZoneName(s, s.clusters[n]), id)
  {
    hide Canonical;
    ZoneOfIsOurs(s, st, n, id);
  }

  lemma ParentIsTheOne(s: Setting, st: State, n: string, id: string)
    requires n in s.clusters && Delegates(s, s.clusters[n]) && IsParentOf(s, st, s.clusters[n], id)
    ensures IsThe(s, st, ParentAccount(s, s.clusters[n]), ParentName(s, s.clusters[n]), id)
  {
    hide Canonical;
    ParentOfIsOurs(s, st, n, id);
  }

  // ---- the steps ----

  lemma NothingContinues(s: Setting, st: State, leaving: set<string>)
    ensures Continues(s, st, st, leaving)
  {
    forall id | id in st.zones ensures Persists(s, st, leaving, id, st.zones[id]) {
      AlivePersists(s, st, leaving, id);
    }
  }

  /** Writing record sets: no zone comes or goes, and no delegation of a cluster that is not leaving is lost. */
  lemma SameZonesContinue(s: Setting, st: State, after: State, leaving: set<string>)
    requires SameZones(st, after) && StayDelegated(s, st, after, leaving)
    ensures Continues(s, st, after, leaving)
  {
    hide Canonical;
    hide IsOurs;
    hide StayDelegated;
    forall id | id in st.zones ensures Persists(s, after, leaving, id, st.zones[id]) {
    }
    forall n | n in leaving && n in s.clusters && !HasZone(s, st, s.clusters[n]) ensures !HasZone(s, after, s.clusters[n]) {
      SameZonesSame(s, st, after, s.clusters[n]);
    }
  }

  /** The delegating sets of one zone are left alone, except perhaps one of a leaving cluster. */
  lemma WritingContinues(s: Setting, st: State, id: string, sets: Sets, leaving: set<string>)
    requires id in st.zones
    requires forall n :: n in s.clusters && n !in leaving && DelegationKeyOf(s, s.clusters[n]) in st.zones[id].sets ==>
      DelegationKeyOf(s, s.clusters[n]) in sets
    ensures Continues(s, st, WithSets(st, id, sets), leaving)
  {
    hide Canonical;
    var after := WithSets(st, id, sets);
    forall n, q | n in s.clusters && n !in leaving && DelegatedFrom(s, st, s.clusters[n], q)
      ensures DelegatedFrom(s, after, s.clusters[n], q)
    {
    }
    hide StayDelegated;
    WithSetsSame(st, id, sets);
    SameZonesContinue(s, st, after, leaving);
  }

  lemma KeepingDelegationsContinues(s: Setting, st: State, id: string, sets: Sets, leaving: set<string>)
    requires id in st.zones && SameDelegations(s, st.zones[id].sets, sets)
    ensures Continues(s, st, WithSets(st, id, sets), leaving)
  {
    hide Canonical;
    WritingContinues(s, st, id, sets, leaving);
  }

  /** A zone that is created is not one of a leaving cluster. */
  lemma CreatingContinues(s: Setting, st: State, id: string, account: string, name: string, nameServers: seq<string>,
                          leaving: set<string>)
    requires id !in st.zones
    requires forall n :: n in leaving && n in s.clusters ==> !IsNamedFor(s, s.clusters[n], account, name)
    ensures Continues(s, st, Created(st, id, account, name, nameServers), leaving)
  {
    hide Canonical;
    hide IsOurs;
    var after := Created(st, id, account, name, nameServers);
    forall other | other in st.zones ensures Persists(s, after, leaving, other, st.zones[other]) {
      assert after.zones[other] == st.zones[other];
    }
    forall n | n in leaving && n in s.clusters && HasZone(s, after, s.clusters[n]) ensures HasZone(s, st, s.clusters[n]) {
      var own :| IsZoneOf(s, after, s.clusters[n], own);
      assert own != id && IsZoneOf(s, st, s.clusters[n], own);
    }
  }

  /** A zone that is removed has no delegation left in it, and is not ours or its cluster is leaving. */
  lemma RemovingContinues(s: Setting, st: State, id: string, leaving: set<string>)
    requires id in st.zones && Deletable(st.zones[id])
    requires Persists(s, WithoutZone(st, id), leaving, id, st.zones[id])
    ensures Continues(s, st, WithoutZone(st, id), leaving)
  {
    hide Canonical;
    hide IsOurs;
    hide Departed;
    var after := WithoutZone(st, id);
    forall other | other in st.zones ensures Persists(s, after, leaving, other, st.zones[other]) {
    }
    forall n | n in leaving && n in s.clusters && HasZone(s, after, s.clusters[n]) ensures HasZone(s, st, s.clusters[n]) {
      var own :| IsZoneOf(s, after, s.clusters[n], own);
      assert IsZoneOf(s, st, s.clusters[n], own);
    }
    forall n, q | n in s.clusters && n !in leaving && DelegatedFrom(s, st, s.clusters[n], q)
      ensures DelegatedFrom(s, after, s.clusters[n], q)
    {
      assert q == id ==> IsApex(st.zones[id].name, DelegationKeyOf(s, s.clusters[n]));
    }
  }

  lemma LeavingContinues(s: Setting, st: State, n: string, id: string, leaving: set<string>)
    requires n in s.clusters && n in leaving && IsZoneOf(s, st, s.clusters[n], id) && Deletable(st.zones[id])
    requires !HasZone(s, WithoutZone(st, id), s.clusters[n])
    ensures Continues(s, st, WithoutZone(st, id), leaving)
  {
    hide Canonical;
    hide Deletable;
    assert IsNamedFor(s, s.clusters[n], st.zones[id].account, st.zones[id].name);
    RemovingContinues(s, st, id, leaving);
  }

  // ---- what the operator does ----

  lemma UpsertingContinues(s: Setting, m: Moment, n: string, id: string, records: seq<DnsRecord>,
                           canonicalZone: string -> string, after: State, leaving: set<string>)
    requires Safe(s, m) && n in s.clusters && IsZoneOf(s, m.route53, s.clusters[n], id)
    requires OurRecords(s, s.clusters[n], records) && HaveValues(records)
    requires Some(after) == Changed(m.route53, id, ChangesFor(records, canonicalZone))
    ensures Continues(s, m.route53, after, leaving)
  {
    var sets := after.zones[id].sets;
    assert after == WithSets(m.route53, id, sets) && WildcardsAreOurs(s, m.route53);
    var z := m.route53.zones[id];
    assert ApplyAll(z.name, z.sets, ChangesFor(records, canonicalZone)) == Some(sets);
    hide *;
    UpsertedSets(s, m.route53, n, id, records, canonicalZone, sets);
    KeepingDelegationsContinues(s, m.route53, id, sets, leaving);
  }

  lemma DeletingContinues(s: Setting, st: State, id: string, gone: set<Key>, leaving: set<string>)
    requires id in st.zones && forall k :: k in gone ==> k.kind != NS
    ensures Continues(s, st, WithSets(st, id, st.zones[id].sets - gone), leaving)
  {
    hide Canonical;
    hide Continues;
    WritingContinues(s, st, id, st.zones[id].sets - gone, leaving);
  }

  lemma OneDeletionContinues(s: Setting, st: State, id: string, key: Key, after: State, leaving: set<string>)
    requires key.kind != NS && AtMostRemoves(st, after, id, key)
    ensures Continues(s, st, after, leaving)
  {
    hide Continues;
    NothingContinues(s, st, leaving);
    if after != st {
      DeletingContinues(s, st, id, {key}, leaving);
    }
  }

  lemma EmptyingContinues(s: Setting, st: State, id: string, page: seq<RecordSet>, after: State, leaving: set<string>)
    requires Emptied(st, after, id, page)
    ensures Continues(s, st, after, leaving)
  {
    hide Continues;
    DeletingContinues(s, st, id, Doomed(page), leaving);
  }

  lemma DelegatingContinues(s: Setting, st: State, c: Cluster, p: string, values: seq<string>, after: State, leaving: set<string>)
    requires Some(after) == Changed(st, p, [DelegationChange(Canonical(ZoneName(s, c)), values)])
    ensures Continues(s, st, after, leaving)
  {
    DelegationApplied(s, st, c, p, values, after);
    hide *;
    WritingContinues(s, st, p, st.zones[p].sets[DelegationKeyOf(s, c) := Values(RECORD_TTL, values)], leaving);
  }

  /** Only a leaving cluster is undelegated. */
  lemma UndelegatingContinues(s: Setting, st: State, n: string, p: string, after: State, leaving: set<string>)
    requires WellSet(s) && n in s.clusters && n in leaving && AtMostRemoves(st, after, p, DelegationKeyOf(s, s.clusters[n]))
    ensures Continues(s, st, after, leaving)
  {
    hide Canonical;
    hide Continues;
    hide ProperZone;
    NothingContinues(s, st, leaving);
    if after != st {
      var key := DelegationKeyOf(s, s.clusters[n]);
      forall m | m in s.clusters && m !in leaving ensures DelegationKeyOf(s, s.clusters[m]) != key {
        assert Apart(s, s.clusters[m], s.clusters[n]);
      }
      WritingContinues(s, st, p, st.zones[p].sets - {key}, leaving);
    }
  }

  // ---- what others do ----

  lemma ForeignWriteContinues(s: Setting, m: Moment, id: string, key: Key, data: Option<Data>, leaving: set<string>)
    requires Safe(s, m) && id in m.route53.zones && NotOurs(s, key)
    ensures Continues(s, m.route53, WithSets(m.route53, id, Updated(m.route53.zones[id].sets, key, data)), leaving)
  {
    assert WildcardsAreOurs(s, m.route53) && ValidZone(m.route53, id);
    hide *;
    ValidSetsOf(m.route53, id);
    ForeignSets(s, m.route53, id, key, data);
    KeepingDelegationsContinues(s, m.route53, id, Updated(m.route53.zones[id].sets, key, data), leaving);
  }

  lemma ValidSetsOf(st: State, id: string)
    requires id in st.zones && ValidZone(st, id)
    ensures ValidSets(st.zones[id].sets)
  {
  }

  lemma OursIsNamed(s: Setting, n: string, account: string, name: string)
    requires n in s.clusters && !IsOurs(s, account, name)
    ensures !IsNamedFor(s, s.clusters[n], account, name)
  {
    hide Canonical;
    assert !OursFor(s, s.clusters[n], account, name);
  }

  lemma ForeignCreationContinues(s: Setting, st: State, id: string, account: string, name: string,
                                 nameServers: seq<string>, leaving: set<string>)
    requires id !in st.zones && !IsOurs(s, account, name)
    ensures Continues(s, st, Created(st, id, account, name, nameServers), leaving)
  {
    hide *;
    forall n | n in leaving && n in s.clusters ensures !IsNamedFor(s, s.clusters[n], account, name) {
      OursIsNamed(s, n, account, name);
    }
    CreatingContinues(s, st, id, account, name, nameServers, leaving);
  }

  /** The cluster a zone is created for is not leaving. */
  lemma OwnCreationContinues(s: Setting, st: State, n: string, id: string, nameServers: seq<string>, leaving: set<string>)
    requires WellSet(s) && n in s.clusters && n !in leaving && id !in st.zones
    ensures
      var c := s.clusters[n];
      Continues(s, st, Created(st, id, Account(s, c), Canonical(ZoneName(s, c)), nameServers), leaving)
  {
    hide Canonical;
    hide ProperZone;
    hide Continues;
    var account, name := Account(s, s.clusters[n]), Canonical(ZoneName(s, s.clusters[n]));
    forall m | m in leaving && m in s.clusters ensures !IsNamedFor(s, s.clusters[m], account, name) {
      assert Apart(s, s.clusters[m], s.clusters[n]);
    }
    CreatingContinues(s, st, id, account, name, nameServers, leaving);
  }

  lemma ForeignRemovalContinues(s: Setting, st: State, id: string, leaving: set<string>)
    requires id in st.zones && Deletable(st.zones[id]) && !ZoneIsOurs(s, st.zones[id])
    ensures Continues(s, st, WithoutZone(st, id), leaving)
  {
    hide IsOurs;
    hide Deletable;
    hide Continues;
    RemovingContinues(s, st, id, leaving);
  }

  // ---- remembered delegations ----

  /** A delegation that a client need not send, of a cluster that is not leaving, is in the parent zone. */
  ghost predicate Remembers(s: Setting, st: State, leaving: set<string>, printable: char -> bool, upserts: Cache<bool>) {
    forall n, q, values ::
      && n in s.clusters && n !in leaving
      && DelegationKey(printable, q, Canonical(ZoneName(s, s.clusters[n])), values) in upserts
      ==> DelegatedFrom(s, st, s.clusters[n], q)
  }

  lemma NothingRemembered(s: Setting, st: State, leaving: set<string>, printable: char -> bool)
    ensures Remembers(s, st, leaving, printable, map[])
  {
  }

  lemma StillRemembers(s: Setting, st: State, after: State, leaving: set<string>, printable: char -> bool, upserts: Cache<bool>)
    requires Remembers(s, st, leaving, printable, upserts) && Continues(s, st, after, leaving)
    ensures Remembers(s, after, leaving, printable, upserts)
  {
    hide Canonical;
    hide DelegationKey;
    hide DelegatedFrom;
    hide Retains;
    hide StayGone;
  }

  lemma FewerRemembered(s: Setting, st: State, leaving: set<string>, printable: char -> bool, upserts: Cache<bool>,
                        fewer: Cache<bool>)
    requires Remembers(s, st, leaving, printable, upserts) && fewer.Keys <= upserts.Keys
    ensures Remembers(s, st, leaving, printable, fewer)
  {
    hide Canonical;
    hide DelegationKey;
    hide DelegatedFrom;
  }

  lemma RemembersWhenMoreLeave(s: Setting, st: State, leaving: set<string>, n: string, printable: char -> bool,
                               upserts: Cache<bool>)
    requires Remembers(s, st, leaving, printable, upserts)
    ensures Remembers(s, st, leaving + {n}, printable, upserts)
  {
    hide Canonical;
    hide DelegationKey;
    hide DelegatedFrom;
  }

  /** A remembered batch of records is no delegation. */
  lemma RecordsRemembered(s: Setting, st: State, leaving: set<string>, printable: char -> bool, upserts: Cache<bool>,
                          after: Cache<bool>, zoneId: string, records: seq<DnsRecord>)
    requires Remembers(s, st, leaving, printable, upserts)
    requires after.Keys <= upserts.Keys + {ZoneKey(printable, zoneId, records)}
    ensures Remembers(s, st, leaving, printable, after)
  {
    hide Canonical;
    hide DelegationKey;
    hide ZoneKey;
    hide DelegatedFrom;
    forall n, q, values |
      && n in s.clusters && n !in leaving
      && DelegationKey(printable, q, Canonical(ZoneName(s, s.clusters[n])), values) in after
      ensures DelegatedFrom(s, st, s.clusters[n], q)
    {
      KindsNeverCollide(printable, zoneId, records, q, Canonical(ZoneName(s, s.clusters[n])), values);
      assert DelegationKey(printable, q, Canonical(ZoneName(s, s.clusters[n])), values) in upserts;
    }
  }

  /** A delegation is remembered under its own parent and cluster. */
  lemma DelegationRemembered(s: Setting, st: State, leaving: set<string>, printable: char -> bool, upserts: Cache<bool>,
                             after: Cache<bool>, n: string, p: string, servers: seq<string>)
    requires WellSet(s) && n in s.clusters && Remembers(s, st, leaving, printable, upserts)
    requires DelegatedFrom(s, st, s.clusters[n], p)
    requires after.Keys <= upserts.Keys + {DelegationKey(printable, p, Canonical(ZoneName(s, s.clusters[n])), servers)}
    ensures Remembers(s, st, leaving, printable, after)
  {
    hide Canonical;
    hide DelegationKey;
    hide DelegatedFrom;
    hide ProperZone;
    forall m, q, values |
      && m in s.clusters && m !in leaving
      && DelegationKey(printable, q, Canonical(ZoneName(s, s.clusters[m])), values) in after
      ensures DelegatedFrom(s, st, s.clusters[m], q)
    {
      var mine, other := Canonical(ZoneName(s, s.clusters[n])), Canonical(ZoneName(s, s.clusters[m]));
      DelegationKeysAgreeIff(printable, p, mine, servers, q, other, values);
      assert m != n ==> Apart(s, s.clusters[m], s.clusters[n]);
    }
  }
}
