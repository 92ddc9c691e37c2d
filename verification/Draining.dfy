/** Emptying a zone page by page: how much one pass takes away, and when nothing stands in its way. */
module Draining {
  import opened Results
  import opened Strings
  import opened Listing
  import opened Cloud
  import opened CacheKeys
  import opened Clusters
  import opened Deletions
  import opened NameServers
  import opened Upserts
  import opened ZoneCaches
  import opened Route53Client
  import opened ZoneSafety
  import opened ZoneEffects
  import opened ZoneMemory

  /** The only NS and SOA sets are the zone's own. */
  ghost predicate Tame(z: Zone) {
    forall k :: k in z.sets && IsKept(k.kind) ==> k.name == z.name
  }

  function KeySet(page: seq<RecordSet>): set<Key> {
    set i | 0 <= i < |page| :: page[i].key
  }

  lemma {:induction false} DistinctKeys(page: seq<RecordSet>)
    requires forall i, j :: 0 <= i < j < |page| ==> page[i].key != page[j].key
    ensures |KeySet(page)| == |page|
    decreases |page|
  {
    if page != [] {
      var init, last := page[..|page| - 1], page[|page| - 1];
      assert forall i :: 0 <= i < |init| ==> init[i] == page[i];
      DistinctKeys(init);
      assert KeySet(page) == KeySet(init) + {last.key} by {
        forall k | k in KeySet(page) ensures k in KeySet(init) + {last.key} {
          var i :| 0 <= i < |page| && page[i].key == k;
          if i < |init| {
            assert init[i].key == k;
          }
        }
        forall k | k in KeySet(init) ensures k in KeySet(page) {
          var i :| 0 <= i < |init| && init[i].key == k;
          assert page[i].key == k;
        }
      }
      assert last.key !in KeySet(init);
    }
  }

  lemma AtMostTwo(a: Key, b: Key, some: set<Key>)
    requires some <= {a, b}
    ensures |some| <= 2
  {
    assert some == (some - {a}) + (some * {a});
    assert some - {a} <= {b} && some * {a} <= {a};
    SubsetIsNotLarger(some - {a}, {b});
    SubsetIsNotLarger(some * {a}, {a});
  }

  lemma {:induction false} SubsetIsNotLarger(a: set<Key>, b: set<Key>)
    requires a <= b
    ensures |a| <= |b|
  {
    if a != {} {
      var x :| x in a;
      SubsetIsNotLarger(a - {x}, b - {x});
    }
  }

  /** A page keeps at most the zone's own NS and SOA. */
  lemma PageKeepsTwo(z: Zone, page: seq<RecordSet>)
    requires Tame(z) && Present(page, z.sets)
    ensures Doomed(page) <= z.sets.Keys && |Doomed(page)| + 2 >= |page|
  {
    var kept := KeySet(page) - Doomed(page);
    forall k | k in kept ensures k in {Key(z.name, NS), Key(z.name, SOA)} {
      var i :| 0 <= i < |page| && page[i].key == k;
      assert IsKept(k.kind) && k.name == z.name;
    }
    AtMostTwo(Key(z.name, NS), Key(z.name, SOA), kept);
    DistinctKeys(page);
    assert Doomed(page) <= KeySet(page) by {
      forall k | k in Doomed(page) ensures k in KeySet(page) {
        var i :| 0 <= i < |page| && !IsKept(page[i].key.kind) && page[i].key == k;
      }
    }
    assert KeySet(page) == kept + Doomed(page);
    assert |KeySet(page)| == |kept| + |Doomed(page)|;
  }

  /** One pass over a tame zone with pages of size k leaves it deletable, or takes away at least k - 2 sets. */
  lemma PassShrinks(o: Order, z: Zone, k: nat, page: seq<RecordSet>)
    requires Sound(o) && Tame(z) && IsSetPage(o, z.sets, Beginning, k, page)
    ensures
      var rest := z.(sets := z.sets - Doomed(page));
      Tame(rest) && (Deletable(rest) || |rest.sets.Keys| + k <= |z.sets.Keys| + 2)
  {
    PageIsPresent(o, z.sets, Beginning, k, page);
    PageKeepsTwo(z, page);
    var rest := z.(sets := z.sets - Doomed(page));
    assert rest.sets.Keys == z.sets.Keys - Doomed(page);
    if !Deletable(rest) {
      var left :| left in rest.sets && !IsApex(z.name, left);
      assert !IsKept(left.kind);
      NotShown(o, z.sets, k, page, left);
      assert |z.sets.Keys - Doomed(page)| == |z.sets.Keys| - |Doomed(page)|;
    }
  }

  lemma NotShown(o: Order, sets: Sets, k: nat, page: seq<RecordSet>, left: Key)
    requires IsSetPage(o, sets, Beginning, k, page) && left in sets && left !in Doomed(page) && !IsKept(left.kind)
    ensures |page| == k
  {
    assert left !in Keys(page) by {
      forall i | 0 <= i < |page| ensures Keys(page)[i] != left {
        assert page[i].key == Keys(page)[i];
      }
    }
    assert AtOrAfter(o, left, Beginning);
  }

  /** A pass over such a zone is in vain if and only if the page shows nothing but NS and SOA of the zone itself, for
      which a page of three is too long. */
  lemma PassIsInVainIff(o: Order, z: Zone, k: nat, page: seq<RecordSet>)
    requires Sound(o) && Tame(z) && !Deletable(z) && IsSetPage(o, z.sets, Beginning, k, page)
    ensures Doomed(page) == {} <==> forall i :: 0 <= i < |page| ==> IsApex(z.name, page[i].key)
    ensures Doomed(page) == {} ==> k <= 2
  {
    PageIsPresent(o, z.sets, Beginning, k, page);
    PassShrinks(o, z, k, page);
    forall i | 0 <= i < |page| ensures page[i].key in Doomed(page) <==> !IsApex(z.name, page[i].key) {
      assert page[i].key in z.sets;
      if page[i].key in Doomed(page) {
        var j :| 0 <= j < |page| && !IsKept(page[j].key.kind) && page[j].key == page[i].key;
      }
    }
    if Doomed(page) == {} {
      assert z.sets - Doomed(page) == z.sets;
    } else {
      var key :| key in Doomed(page);
      var i :| 0 <= i < |page| && !IsKept(page[i].key.kind) && page[i].key == key;
    }
  }

  /** With pages of two the page may show nothing but NS and SOA, and a pass may take away nothing. */
  lemma PagesOfTwoGetStuck(o: Order, z: Zone, ns: Data, soa: Data, other: Key, data: Data)
    requires Sound(o) && !IsKept(other.kind)
    requires z.sets == map[Key(z.name, NS) := ns, Key(z.name, SOA) := soa, other := data]
    requires Before(o, Key(z.name, NS), Key(z.name, SOA)) && Before(o, Key(z.name, SOA), other)
    ensures
      var page := [RecordSet(Key(z.name, NS), ns), RecordSet(Key(z.name, SOA), soa)];
      IsSetPage(o, z.sets, Beginning, 2, page) && Doomed(page) == {} && !Deletable(z)
  {
    var page := [RecordSet(Key(z.name, NS), ns), RecordSet(Key(z.name, SOA), soa)];
    BeforeIsStrictTotal(o, Key(z.name, NS), Key(z.name, SOA), other);
    assert Keys(page) == [Key(z.name, NS), Key(z.name, SOA)];
    assert NS != SOA;
    assert other in z.sets && !IsApex(z.name, other);
  }

  // ---- zones that are never emptied ----

  /** An NS or SOA set below the top of the zone outlives every pass, whatever the page shows. */
  lemma UntameStays(z: Zone, page: seq<RecordSet>)
    requires !Tame(z)
    ensures
      var rest := z.(sets := z.sets - Doomed(page));
      !Tame(rest) && !Deletable(rest)
  {
    var k :| k in z.sets && IsKept(k.kind) && k.name != z.name;
    var rest := z.(sets := z.sets - Doomed(page));
    assert k in rest.sets;
  }

  /** A delegation of some name below the zone is such a set. */
  lemma SubDelegationIsUntame(z: Zone, zone: string, host: string, data: Data)
    requires z.name == Canonical(zone) && zone != ""
    ensures !Tame(z.(sets := z.sets[Key(Canonical(host + "." + zone), NS) := data]))
  {
    var name := host + "." + zone;
    assert Below(name, zone, host);
    AboveDiffers(name, zone, host);
    hide Canonical;
    assert IsKept(NS);
    assert Key(Canonical(name), NS) in z.sets[Key(Canonical(name), NS) := data];
  }

  // ---- when nothing stands in the way ----

  /** The parent the zone would be delegated from can be found. */
  ghost predicate ParentIsThere(s: Setting, st: State, c: Cluster) {
    Delegates(s, c) ==> Plain(ParentName(s, c)) && exists p :: IsParentOf(s, st, c, p)
  }

  /** The cluster's zone is there and tame, and so is the parent it would be delegated from. */
  ghost predicate Drainable(s: Setting, st: State, c: Cluster, own: string) {
    IsZoneOf(s, st, c, own) && Tame(st.zones[own]) && ParentIsThere(s, st, c)
  }

  /** The cluster's zone is there, and something does stand in the way. */
  ghost predicate Stuck(s: Setting, st: State, c: Cluster, own: string) {
    IsZoneOf(s, st, c, own) && !Drainable(s, st, c, own)
  }

  lemma StuckMeans(s: Setting, st: State, c: Cluster, own: string)
    ensures Stuck(s, st, c, own) <==> IsZoneOf(s, st, c, own) && !Drainable(s, st, c, own)
    ensures Stuck(s, st, c, own) ==> own in st.zones && (Tame(st.zones[own]) ==> !ParentIsThere(s, st, c))
    ensures IsZoneOf(s, st, c, own) ==> own in st.zones && (Drainable(s, st, c, own) || Stuck(s, st, c, own))
  {
  }

  lemma StuckStays(s: Setting, st: State, after: State, c: Cluster, own: string)
    requires Stuck(s, st, c, own) && SameZones(st, after)
    requires own in after.zones && Tame(after.zones[own]) ==> own in st.zones && Tame(st.zones[own])
    ensures Stuck(s, after, c, own) && own in after.zones
  {
    hide Canonical;
    hide Tame;
    if ParentIsThere(s, after, c) && Delegates(s, c) {
      var p :| IsParentOf(s, after, c, p);
      assert IsParentOf(s, st, c, p);
    }
  }

  /** The delegation that is there names the zone's own servers, so its deletion goes through. */
  lemma DelegationMatches(s: Setting, st: State, n: string, own: string, p: string)
    requires WellSet(s) && Sane(s, st) && n in s.clusters && Delegates(s, s.clusters[n])
    requires IsZoneOf(s, st, s.clusters[n], own) && IsParentOf(s, st, s.clusters[n], p)
    ensures
      var c := s.clusters[n];
      var key := DelegationKeyOf(s, c);
      && !IsApex(st.zones[p].name, key)
      && (key in st.zones[p].sets ==> SameServers(st.zones[p].sets[key], st.zones[own].nameServers))
  {
    hide Canonical;
    var c := s.clusters[n];
    var key := DelegationKeyOf(s, c);
    DelegationIsNotApex(s, st, n, p);
    if key in st.zones[p].sets {
      assert DelegatedFrom(s, st, c, p);
      var id :| Serves(s, st, c, st.zones[p].sets[key], id);
      ZoneOfIsOurs(s, st, n, id);
      assert SameZone(st.zones[id], st.zones[own]);
      EveryListIsItsOwn(st.zones[own].nameServers);
    }
  }

  /** What one pass did to a tame zone. */
  ghost predicate Drained(before: Zone, after: Zone, k: nat) {
    Tame(after) && (Deletable(after) || |after.sets.Keys| + k <= |before.sets.Keys| + 2)
  }

  lemma EmptiedDrains(o: Order, st: State, after: State, id: string, k: nat, page: seq<RecordSet>)
    requires Sound(o) && Emptied(st, after, id, page) && Tame(st.zones[id])
    requires IsSetPage(o, st.zones[id].sets, Beginning, k, page)
    ensures id in after.zones && Drained(st.zones[id], after.zones[id], k)
  {
    PassShrinks(o, st.zones[id], k, page);
  }

  /** The delegation in the parent, if any, names these servers, and is not the parent's own NS set. */
  ghost predicate Undelegable(st: State, p: string, record: DnsRecord) {
    && p in st.zones && !IsApex(st.zones[p].name, StoredKey(record.name, NS))
    && (StoredKey(record.name, NS) in st.zones[p].sets ==>
          SameServers(st.zones[p].sets[StoredKey(record.name, NS)], record.values))
  }

  lemma UndelegableMeans(st: State, p: string, record: DnsRecord)
    ensures Undelegable(st, p, record) <==>
      && p in st.zones && !IsApex(st.zones[p].name, StoredKey(record.name, NS))
      && (StoredKey(record.name, NS) in st.zones[p].sets ==>
            SameServers(st.zones[p].sets[StoredKey(record.name, NS)], record.values))
  {
  }

  /** The record the zone's name servers are read as can be undelegated. */
  lemma OwnRecordIsUndelegable(s: Setting, st: State, n: string, own: string, p: string, record: DnsRecord)
    requires WellSet(s) && Sane(s, st) && n in s.clusters && Delegates(s, s.clusters[n])
    requires IsZoneOf(s, st, s.clusters[n], own) && IsParentOf(s, st, s.clusters[n], p) && own in st.born
    requires record == DnsRecord(NS, Canonical(ZoneName(s, s.clusters[n])), st.born[own].nameServers, "")
    ensures Undelegable(st, p, record) && p != own
  {
    DelegationIsStored(s, s.clusters[n]);
    DelegationMatches(s, st, n, own, p);
    DelegationIsNotApex(s, st, n, p);
    assert ValidZone(st, own);
    hide *;
    UndelegableMeans(st, p, record);
    IsTheZone(s, st, s.clusters[n], own, p);
  }

  lemma IsTheZone(s: Setting, st: State, c: Cluster, own: string, p: string)
    requires IsZoneOf(s, st, c, own) && own in st.born && p in st.zones && DelegationKeyOf(s, c).name != st.zones[p].name
    ensures p != own
    ensures ValidZone(st, own) ==> st.born[own].nameServers == st.zones[own].nameServers
  {
    hide Canonical;
  }

  lemma DrainableStays(s: Setting, st: State, after: State, c: Cluster, own: string)
    requires SameZones(st, after) && Drainable(s, st, c, own) && (own in after.zones ==> Tame(after.zones[own]))
    ensures Drainable(s, after, c, own) && own in st.zones && own in after.zones
  {
    hide Canonical;
    hide Tame;
    if Delegates(s, c) {
      var p :| IsParentOf(s, st, c, p);
      assert IsParentOf(s, after, c, p);
    }
  }

  lemma DrainableParts(s: Setting, st: State, c: Cluster, own: string)
    requires Drainable(s, st, c, own)
    ensures own in st.zones && IsZoneOf(s, st, c, own) && Tame(st.zones[own])
  {
  }

  lemma DrainableParent(s: Setting, st: State, n: string, own: string) returns (p: string)
    requires n in s.clusters && Drainable(s, st, s.clusters[n], own) && Delegates(s, s.clusters[n])
    ensures IsParentOf(s, st, s.clusters[n], p) && Plain(ParentName(s, s.clusters[n]))
    ensures IsThe(s, st, ParentAccount(s, s.clusters[n]), ParentName(s, s.clusters[n]), p)
  {
    hide Canonical;
    hide Tame;
    p :| IsParentOf(s, st, s.clusters[n], p);
    ParentIsTheOne(s, st, n, p);
  }
}
