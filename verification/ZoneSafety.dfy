/**
 What must hold at every moment of a run of the DNS controller, and that each of its effects keeps it. The
 operator is the only writer of zones, delegations and wildcard records; names, roles and modes are fixed.
 */
module ZoneSafety {
  import opened Results
  import opened Strings
  import opened Listing
  import opened Cloud
  import opened Clusters
  import opened Upserts
  import opened ApiServer

  const DNS_FINALIZER := "capa-operator.finalizers.giantswarm.io/dns-controller"

  /** The clusters by the name of their object, and the account behind each role. */
  datatype Setting = Setting(clusters: map<string, Cluster>, defaultDomain: string, accountOf: string -> string)

  function ZoneName(s: Setting, c: Cluster): string {
    HostedZoneName(s.defaultDomain, c)
  }

  function ParentName(s: Setting, c: Cluster): string {
    ParentHostedZoneName(s.defaultDomain, c)
  }

  function Account(s: Setting, c: Cluster): string {
    s.accountOf(c.iamRoleARN)
  }

  function ParentAccount(s: Setting, c: Cluster): string {
    s.accountOf(DelegationRoleARN(c))
  }

  predicate Delegates(s: Setting, c: Cluster) {
    !c.isDnsModePrivate && ParentName(s, c) != ""
  }

  /** Regions have no slash. Zone names have no backslash, are written as Route 53 stores them, are each used by one
      cluster, and differ from their parent's. */
  ghost predicate WellSet(s: Setting) {
    && (forall n :: n in s.clusters ==> ProperZone(s, s.clusters[n]))
    && (forall a, b :: a in s.clusters && b in s.clusters && a != b ==> Apart(s, s.clusters[a], s.clusters[b]))
  }

  predicate ProperZone(s: Setting, c: Cluster) {
    && '/' !in c.region && '\\' !in ZoneName(s, c) && Plain(ZoneName(s, c))
    && (Delegates(s, c) ==> Canonical(ParentName(s, c)) != Canonical(ZoneName(s, c)))
  }

  predicate Apart(s: Setting, a: Cluster, b: Cluster) {
    Canonical(ZoneName(s, a)) != Canonical(ZoneName(s, b))
  }

  function DelegationKeyOf(s: Setting, c: Cluster): Key {
    Key(Canonical(ZoneName(s, c)), NS)
  }

  function WildcardKeyOf(s: Setting, c: Cluster): Key {
    Key(Canonical(WildcardName(s.defaultDomain, c)), CNAME)
  }

  predicate IsZoneOf(s: Setting, st: State, c: Cluster, id: string) {
    id in st.zones && st.zones[id].account == Account(s, c) && st.zones[id].name == Canonical(ZoneName(s, c))
  }

  predicate IsParentOf(s: Setting, st: State, c: Cluster, id: string) {
    id in st.zones && st.zones[id].account == ParentAccount(s, c) && st.zones[id].name == Canonical(ParentName(s, c))
  }

  ghost predicate HasZone(s: Setting, st: State, c: Cluster) {
    exists id :: IsZoneOf(s, st, c, id)
  }

  /** Some zone delegates the cluster's zone. */
  predicate DelegatedFrom(s: Setting, st: State, c: Cluster, q: string) {
    q in st.zones && st.zones[q].name != Canonical(ZoneName(s, c)) && DelegationKeyOf(s, c) in st.zones[q].sets
  }

  ghost predicate NotDelegated(s: Setting, st: State, c: Cluster) {
    forall q :: !DelegatedFrom(s, st, c, q)
  }

  predicate Serves(s: Setting, st: State, c: Cluster, data: Data, id: string) {
    IsZoneOf(s, st, c, id) && data == Values(RECORD_TTL, st.zones[id].nameServers)
  }

  /** The delegation is in the parent zone and names the servers of the cluster's existing zone. */
  ghost predicate Grounded(s: Setting, st: State, c: Cluster, q: string) {
    && DelegatedFrom(s, st, c, q) && Delegates(s, c) && IsParentOf(s, st, c, q)
    && exists id :: Serves(s, st, c, st.zones[q].sets[DelegationKeyOf(s, c)], id)
  }

  ghost predicate NoDangling(s: Setting, st: State) {
    forall n, q :: n in s.clusters && DelegatedFrom(s, st, s.clusters[n], q) ==> Grounded(s, st, s.clusters[n], q)
  }

  predicate SameZone(a: Zone, b: Zone) {
    a.account == b.account && a.name == b.name
  }

  /** The account and name of a cluster's zone, or of the zone it is delegated from. */
  predicate OursFor(s: Setting, c: Cluster, account: string, name: string) {
    || (account == Account(s, c) && name == Canonical(ZoneName(s, c)))
    || (Delegates(s, c) && account == ParentAccount(s, c) && name == Canonical(ParentName(s, c)))
  }

  predicate IsOurs(s: Setting, account: string, name: string) {
    exists n :: n in s.clusters && OursFor(s, s.clusters[n], account, name)
  }

  predicate ZoneIsOurs(s: Setting, z: Zone) {
    IsOurs(s, z.account, z.name)
  }

  /** No name of ours has two zones. */
  ghost predicate UniqueZones(s: Setting, st: State) {
    forall a, b :: a in st.zones && b in st.zones && SameZone(st.zones[a], st.zones[b]) && ZoneIsOurs(s, st.zones[a]) ==> a == b
  }

  /** The clusters' zones have the NS sets AWS gave them. */
  ghost predicate AllApexIntact(s: Setting, st: State) {
    forall n, id :: n in s.clusters && IsZoneOf(s, st, s.clusters[n], id) ==> ApexIntact(st, id)
  }

  lemma ZoneOfIsOurs(s: Setting, st: State, n: string, id: string)
    requires n in s.clusters && IsZoneOf(s, st, s.clusters[n], id)
    ensures ZoneIsOurs(s, st.zones[id])
  {
    hide Canonical;
    assert OursFor(s, s.clusters[n], st.zones[id].account, st.zones[id].name);
  }

  lemma ParentOfIsOurs(s: Setting, st: State, n: string, id: string)
    requires n in s.clusters && Delegates(s, s.clusters[n]) && IsParentOf(s, st, s.clusters[n], id)
    ensures ZoneIsOurs(s, st.zones[id])
  {
    hide Canonical;
    assert OursFor(s, s.clusters[n], st.zones[id].account, st.zones[id].name);
  }

  predicate WildcardIsOurs(s: Setting, c: Cluster, sets: Sets) {
    WildcardKeyOf(s, c) in sets ==>
      sets[WildcardKeyOf(s, c)] == Values(RECORD_TTL, [WildcardTarget(s.defaultDomain, c)])
  }

  ghost predicate WildcardsAreOurs(s: Setting, st: State) {
    forall n, id :: n in s.clusters && IsZoneOf(s, st, s.clusters[n], id) ==>
      WildcardIsOurs(s, s.clusters[n], st.zones[id].sets)
  }

  /** What holds of Route 53 alone. */
  ghost predicate Sane(s: Setting, st: State) {
    ValidState(st) && UniqueZones(s, st) && AllApexIntact(s, st) && NoDangling(s, st) && WildcardsAreOurs(s, st)
  }

  predicate HasFinalizer(objects: map<string, Log>, n: string) {
    n in objects && DNS_FINALIZER in Current(objects[n]).finalizers
  }

  /** An existing zone is covered by the finalizer on its cluster's object. */
  ghost predicate Covered(s: Setting, st: State, objects: map<string, Log>) {
    forall n :: n in s.clusters && HasZone(s, st, s.clusters[n]) ==> HasFinalizer(objects, n)
  }

  ghost predicate Safe(s: Setting, m: Moment) {
    Sane(s, m.route53) && Covered(s, m.route53, m.objects)
  }

  /** Before the operator has done anything, the world is safe. */
  lemma StartIsSafe(s: Setting, m: Moment)
    requires ValidState(m.route53) && UniqueZones(s, m.route53)
    requires forall n :: n in s.clusters ==> !HasZone(s, m.route53, s.clusters[n]) && NotDelegated(s, m.route53, s.clusters[n])
    ensures Safe(s, m)
  {
    hide Canonical;
    forall n, id | n in s.clusters ensures !IsZoneOf(s, m.route53, s.clusters[n], id) {
      assert !HasZone(s, m.route53, s.clusters[n]);
    }
    forall n, q | n in s.clusters ensures !DelegatedFrom(s, m.route53, s.clusters[n], q) {
      assert NotDelegated(s, m.route53, s.clusters[n]);
    }
  }

  /** When the finalizer is gone, neither the zone nor its delegation is left. */
  lemma NoFinalizerNoZone(s: Setting, m: Moment, n: string)
    requires Safe(s, m) && n in s.clusters && !HasFinalizer(m.objects, n)
    ensures !HasZone(s, m.route53, s.clusters[n]) && NotDelegated(s, m.route53, s.clusters[n])
  {
    hide Canonical;
    var c := s.clusters[n];
    forall q ensures !DelegatedFrom(s, m.route53, c, q) {
      assert DelegatedFrom(s, m.route53, c, q) ==> Grounded(s, m.route53, c, q);
    }
  }

  /** Without a zone there is no delegation either: the shortcut on a missing zone skips nothing. */
  lemma NoZoneNoDelegation(s: Setting, st: State, n: string)
    requires Sane(s, st) && n in s.clusters && !HasZone(s, st, s.clusters[n])
    ensures NotDelegated(s, st, s.clusters[n])
  {
    hide Canonical;
    var c := s.clusters[n];
    forall q ensures !DelegatedFrom(s, st, c, q) {
      assert DelegatedFrom(s, st, c, q) ==> Grounded(s, st, c, q);
    }
  }

  // ---- creating the zone ----

  lemma CreatedKeepsDelegations(s: Setting, st: State, n: string, id: string, nameServers: seq<string>)
    requires WellSet(s) && NoDangling(s, st) && n in s.clusters && id !in st.zones
    ensures
      NoDangling(s, Created(st, id, Account(s, s.clusters[n]), Canonical(ZoneName(s, s.clusters[n])), nameServers))
  {
    hide Canonical;
    var c := s.clusters[n];
    var after := Created(st, id, Account(s, c), Canonical(ZoneName(s, c)), nameServers);
    forall m, q | m in s.clusters && DelegatedFrom(s, after, s.clusters[m], q) ensures Grounded(s, after, s.clusters[m], q) {
      var d := s.clusters[m];
      assert m != n ==> Apart(s, d, c);
      assert q != id;
      assert DelegatedFrom(s, st, d, q);
      var own :| Serves(s, st, d, st.zones[q].sets[DelegationKeyOf(s, d)], own);
      assert Serves(s, after, d, after.zones[q].sets[DelegationKeyOf(s, d)], own);
    }
  }

  lemma CreatedKeepsApex(s: Setting, st: State, id: string, account: string, name: string, nameServers: seq<string>)
    requires AllApexIntact(s, st) && nameServers != []
    ensures AllApexIntact(s, Created(st, id, account, name, nameServers))
  {
    hide Canonical;
    var after := Created(st, id, account, name, nameServers);
    forall n, other | n in s.clusters && IsZoneOf(s, after, s.clusters[n], other) ensures ApexIntact(after, other) {
      if other != id {
        assert IsZoneOf(s, st, s.clusters[n], other) && ApexIntact(st, other);
      }
    }
  }

  lemma CreatedKeepsUnique(s: Setting, st: State, id: string, account: string, name: string, nameServers: seq<string>)
    requires UniqueZones(s, st) && id !in st.zones
    requires IsOurs(s, account, name) ==>
      forall other :: other in st.zones ==> !(st.zones[other].account == account && st.zones[other].name == name)
    ensures UniqueZones(s, Created(st, id, account, name, nameServers))
  {
    hide IsOurs;
  }

  lemma CreatedKeepsWildcards(s: Setting, st: State, id: string, account: string, name: string,
                              nameServers: seq<string>)
    requires WildcardsAreOurs(s, st) && id !in st.zones
    ensures WildcardsAreOurs(s, Created(st, id, account, name, nameServers))
  {
    hide Canonical;
    var after := Created(st, id, account, name, nameServers);
    forall n, other | n in s.clusters && IsZoneOf(s, after, s.clusters[n], other)
      ensures WildcardIsOurs(s, s.clusters[n], after.zones[other].sets)
    {
      if other == id {
        assert NS != CNAME && SOA != CNAME;
      } else {
        assert IsZoneOf(s, st, s.clusters[n], other);
      }
    }
  }

  /** Creating a zone for a cluster that has none is safe. */
  lemma CreatedKeepsSane(s: Setting, st: State, n: string, id: string, nameServers: seq<string>)
    requires WellSet(s) && Sane(s, st) && n in s.clusters && id !in st.born && id != "" && nameServers != []
    requires !HasZone(s, st, s.clusters[n]) && Stored(Canonical(ZoneName(s, s.clusters[n])))
    ensures Sane(s, Created(st, id, Account(s, s.clusters[n]), Canonical(ZoneName(s, s.clusters[n])), nameServers))
  {
    hide Canonical;
    hide NoDangling;
    hide WildcardsAreOurs;
    hide AllApexIntact;
    hide UniqueZones;
    var c := s.clusters[n];
    var account, name := Account(s, c), Canonical(ZoneName(s, c));
    assert forall other :: other in st.zones ==> ValidZone(st, other) && other != id && !IsZoneOf(s, st, c, other);
    CreatedKeepsValid(st, id, account, name, nameServers);
    CreatedKeepsDelegations(s, st, n, id, nameServers);
    CreatedKeepsApex(s, st, id, account, name, nameServers);
    CreatedKeepsUnique(s, st, id, account, name, nameServers);
    CreatedKeepsWildcards(s, st, id, account, name, nameServers);
  }

  // ---- writing record sets ----

  predicate SameAt(a: Sets, b: Sets, k: Key) {
    (k in a <==> k in b) && (k in a ==> a[k] == b[k])
  }

  /** The sets that delegate the clusters' zones, and the NS sets of those zones themselves. */
  ghost predicate SameDelegations(s: Setting, a: Sets, b: Sets) {
    forall n :: n in s.clusters ==> SameAt(a, b, DelegationKeyOf(s, s.clusters[n]))
  }

  /** Writing other record sets of one zone changes no delegation. */
  lemma RecordsKeepDelegations(s: Setting, st: State, id: string, sets: Sets)
    requires id in st.zones && NoDangling(s, st) && SameDelegations(s, st.zones[id].sets, sets)
    ensures NoDangling(s, WithSets(st, id, sets))
  {
    hide Canonical;
    var after := WithSets(st, id, sets);
    forall n, q | n in s.clusters && DelegatedFrom(s, after, s.clusters[n], q) ensures Grounded(s, after, s.clusters[n], q) {
      var c := s.clusters[n];
      assert q == id ==> SameAt(st.zones[id].sets, sets, DelegationKeyOf(s, c));
      assert DelegatedFrom(s, st, c, q);
      var own :| Serves(s, st, c, st.zones[q].sets[DelegationKeyOf(s, c)], own);
      assert Serves(s, after, c, after.zones[q].sets[DelegationKeyOf(s, c)], own);
    }
  }

  /** The NS set of the cluster whose zone it is, if it is one's, is left alone. */
  ghost predicate OwnApex(s: Setting, st: State, id: string, sets: Sets)
    requires id in st.zones
  {
    forall n :: n in s.clusters && IsZoneOf(s, st, s.clusters[n], id) ==>
      SameAt(st.zones[id].sets, sets, DelegationKeyOf(s, s.clusters[n]))
  }

  lemma RecordsKeepApex(s: Setting, st: State, id: string, sets: Sets)
    requires AllApexIntact(s, st) && UniqueZones(s, st) && id in st.zones && OwnApex(s, st, id, sets)
    ensures AllApexIntact(s, WithSets(st, id, sets)) && UniqueZones(s, WithSets(st, id, sets))
  {
    hide Canonical;
    hide IsOurs;
    var after := WithSets(st, id, sets);
    forall n, other | n in s.clusters && IsZoneOf(s, after, s.clusters[n], other) ensures ApexIntact(after, other) {
      assert IsZoneOf(s, st, s.clusters[n], other) && ApexIntact(st, other);
    }
  }

  /** The wildcard of the cluster whose zone it is, if it is one's, is ours. */
  ghost predicate OwnWildcard(s: Setting, st: State, id: string, sets: Sets) {
    forall n :: n in s.clusters && IsZoneOf(s, st, s.clusters[n], id) ==> WildcardIsOurs(s, s.clusters[n], sets)
  }

  lemma RecordsKeepWildcards(s: Setting, st: State, id: string, sets: Sets)
    requires WildcardsAreOurs(s, st) && id in st.zones && OwnWildcard(s, st, id, sets)
    ensures WildcardsAreOurs(s, WithSets(st, id, sets))
  {
    hide Canonical;
    hide WildcardIsOurs;
    var after := WithSets(st, id, sets);
    forall n, other | n in s.clusters && IsZoneOf(s, after, s.clusters[n], other)
      ensures WildcardIsOurs(s, s.clusters[n], after.zones[other].sets)
    {
      assert IsZoneOf(s, st, s.clusters[n], other);
    }
  }

  lemma RecordsKeepRest(s: Setting, st: State, id: string, sets: Sets)
    requires Sane(s, st) && id in st.zones && ValidSets(sets) && OwnWildcard(s, st, id, sets)
    requires OwnApex(s, st, id, sets)
    ensures NoDangling(s, WithSets(st, id, sets)) ==> Sane(s, WithSets(st, id, sets))
  {
    hide NoDangling;
    hide WildcardsAreOurs;
    hide AllApexIntact;
    hide UniqueZones;
    hide ValidState;
    hide OwnWildcard;
    hide OwnApex;
    WithSetsKeepsValid(st, id, sets);
    RecordsKeepApex(s, st, id, sets);
    RecordsKeepWildcards(s, st, id, sets);
  }

  lemma RecordsKeepSane(s: Setting, st: State, id: string, sets: Sets)
    requires Sane(s, st) && id in st.zones && ValidSets(sets) && SameDelegations(s, st.zones[id].sets, sets)
    requires OwnWildcard(s, st, id, sets)
    ensures Sane(s, WithSets(st, id, sets))
  {
    hide Canonical;
    RecordsKeepDelegations(s, st, id, sets);
    RecordsKeepRest(s, st, id, sets);
  }

  // ---- the delegation ----

  lemma DelegatingKeepsGrounded(s: Setting, st: State, n: string, id: string, p: string)
    requires WellSet(s) && NoDangling(s, st) && n in s.clusters && Delegates(s, s.clusters[n])
    requires IsZoneOf(s, st, s.clusters[n], id) && IsParentOf(s, st, s.clusters[n], p)
    ensures
      var data := Values(RECORD_TTL, st.zones[id].nameServers);
      NoDangling(s, WithSets(st, p, st.zones[p].sets[DelegationKeyOf(s, s.clusters[n]) := data]))
  {
    hide Canonical;
    var c := s.clusters[n];
    var key, data := DelegationKeyOf(s, c), Values(RECORD_TTL, st.zones[id].nameServers);
    var after := WithSets(st, p, st.zones[p].sets[key := data]);
    forall m, q | m in s.clusters && DelegatedFrom(s, after, s.clusters[m], q) ensures Grounded(s, after, s.clusters[m], q) {
      var d := s.clusters[m];
      if m == n && q == p {
        assert Serves(s, after, c, data, id);
      } else {
        assert m != n ==> Apart(s, d, c);
        assert DelegatedFrom(s, st, d, q);
        var own :| Serves(s, st, d, st.zones[q].sets[DelegationKeyOf(s, d)], own);
        assert Serves(s, after, d, after.zones[q].sets[DelegationKeyOf(s, d)], own);
      }
    }
  }

  /** An NS set is nobody's wildcard. */
  lemma DelegationsKeepWildcards(s: Setting, st: State, p: string, sets: Sets, key: Key)
    requires WildcardsAreOurs(s, st) && p in st.zones && key.kind == NS
    requires sets - {key} == st.zones[p].sets - {key}
    ensures OwnWildcard(s, st, p, sets)
  {
    hide Canonical;
    forall m | m in s.clusters && IsZoneOf(s, st, s.clusters[m], p) ensures WildcardIsOurs(s, s.clusters[m], sets) {
      var wildcard := WildcardKeyOf(s, s.clusters[m]);
      assert NS != CNAME;
      assert wildcard in sets ==> wildcard in sets - {key} && (sets - {key})[wildcard] == sets[wildcard];
      assert WildcardIsOurs(s, s.clusters[m], st.zones[p].sets);
    }
  }

  lemma DelegationSetsAreValid(s: Setting, c: Cluster, sets: Sets, data: Data)
    requires ValidSets(sets)
    ensures ValidSets(sets[DelegationKeyOf(s, c) := data])
  {
    CanonicalIsStable(ZoneName(s, c));
    hide Canonical;
  }

  lemma DelegationIsNotApex(s: Setting, st: State, n: string, p: string)
    requires WellSet(s) && n in s.clusters && Delegates(s, s.clusters[n]) && IsParentOf(s, st, s.clusters[n], p)
    ensures DelegationKeyOf(s, s.clusters[n]).name != st.zones[p].name
  {
    hide Canonical;
    assert ProperZone(s, s.clusters[n]);
  }

  lemma DelegationKeepsApex(s: Setting, st: State, n: string, p: string, sets: Sets)
    requires WellSet(s) && n in s.clusters && Delegates(s, s.clusters[n]) && IsParentOf(s, st, s.clusters[n], p)
    requires sets - {DelegationKeyOf(s, s.clusters[n])} == st.zones[p].sets - {DelegationKeyOf(s, s.clusters[n])}
    ensures OwnApex(s, st, p, sets)
  {
    hide Canonical;
    var key := DelegationKeyOf(s, s.clusters[n]);
    DelegationIsNotApex(s, st, n, p);
    forall m | m in s.clusters && IsZoneOf(s, st, s.clusters[m], p)
      ensures SameAt(st.zones[p].sets, sets, DelegationKeyOf(s, s.clusters[m]))
    {
      var other := DelegationKeyOf(s, s.clusters[m]);
      assert other != key;
      assert other in sets <==> other in sets - {key};
      assert other in st.zones[p].sets <==> other in st.zones[p].sets - {key};
      assert other in sets ==> (sets - {key})[other] == sets[other];
    }
  }

  /** Delegating an existing zone from its parent is safe. */
  lemma DelegatingKeepsSane(s: Setting, st: State, n: string, id: string, p: string)
    requires WellSet(s) && Sane(s, st) && n in s.clusters && Delegates(s, s.clusters[n])
    requires IsZoneOf(s, st, s.clusters[n], id) && IsParentOf(s, st, s.clusters[n], p)
    ensures
      var data := Values(RECORD_TTL, st.zones[id].nameServers);
      Sane(s, WithSets(st, p, st.zones[p].sets[DelegationKeyOf(s, s.clusters[n]) := data]))
  {
    hide Canonical;
    hide NoDangling;
    hide WildcardsAreOurs;
    hide WellSet;
    var c := s.clusters[n];
    var key, data := DelegationKeyOf(s, c), Values(RECORD_TTL, st.zones[id].nameServers);
    var sets := st.zones[p].sets[key := data];
    DelegatingKeepsGrounded(s, st, n, id, p);
    assert ValidZone(st, p);
    DelegationSetsAreValid(s, c, st.zones[p].sets, data);
    DelegationsKeepWildcards(s, st, p, sets, key);
    DelegationKeepsApex(s, st, n, p, sets);
    RecordsKeepRest(s, st, p, sets);
  }

  /** Taking the delegation away is safe. */
  lemma UndelegatingKeepsSane(s: Setting, st: State, n: string, p: string)
    requires WellSet(s) && Sane(s, st) && n in s.clusters && Delegates(s, s.clusters[n])
    requires IsParentOf(s, st, s.clusters[n], p)
    ensures Sane(s, WithSets(st, p, st.zones[p].sets - {DelegationKeyOf(s, s.clusters[n])}))
  {
    hide Canonical;
    hide NoDangling;
    hide WildcardsAreOurs;
    hide WellSet;
    var key := DelegationKeyOf(s, s.clusters[n]);
    var sets := st.zones[p].sets - {key};
    UndelegatingKeepsGrounded(s, st, p, key);
    assert ValidZone(st, p);
    DelegationsKeepWildcards(s, st, p, sets, key);
    DelegationKeepsApex(s, st, n, p, sets);
    RecordsKeepRest(s, st, p, sets);
  }

  lemma UndelegatingKeepsGrounded(s: Setting, st: State, p: string, key: Key)
    requires NoDangling(s, st) && p in st.zones
    ensures NoDangling(s, WithSets(st, p, st.zones[p].sets - {key}))
  {
    hide Canonical;
    var after := WithSets(st, p, st.zones[p].sets - {key});
    forall m, q | m in s.clusters && DelegatedFrom(s, after, s.clusters[m], q) ensures Grounded(s, after, s.clusters[m], q) {
      var d := s.clusters[m];
      assert DelegatedFrom(s, st, d, q);
      var own :| Serves(s, st, d, st.zones[q].sets[DelegationKeyOf(s, d)], own);
      assert Serves(s, after, d, after.zones[q].sets[DelegationKeyOf(s, d)], own);
    }
  }

  /** Where the one parent zone does not delegate, no zone does. */
  lemma OneParentDecides(s: Setting, st: State, n: string, p: string)
    requires Sane(s, st) && n in s.clusters && IsParentOf(s, st, s.clusters[n], p)
    requires DelegationKeyOf(s, s.clusters[n]) !in st.zones[p].sets
    ensures NotDelegated(s, st, s.clusters[n])
  {
    hide Canonical;
    var c := s.clusters[n];
    forall q ensures !DelegatedFrom(s, st, c, q) {
      assert DelegatedFrom(s, st, c, q) ==> Grounded(s, st, c, q);
      if Delegates(s, c) {
        ParentOfIsOurs(s, st, n, p);
        assert IsParentOf(s, st, c, q) ==> SameZone(st.zones[p], st.zones[q]);
      }
    }
  }

  lemma NeverDelegated(s: Setting, st: State, n: string)
    requires Sane(s, st) && n in s.clusters && !Delegates(s, s.clusters[n])
    ensures NotDelegated(s, st, s.clusters[n])
  {
    hide Canonical;
    var c := s.clusters[n];
    forall q ensures !DelegatedFrom(s, st, c, q) {
      assert DelegatedFrom(s, st, c, q) ==> Grounded(s, st, c, q);
    }
  }

  // ---- deleting the zone ----

  lemma RemovingKeepsGrounded(s: Setting, st: State, n: string, id: string)
    requires WellSet(s) && NoDangling(s, st) && n in s.clusters && IsZoneOf(s, st, s.clusters[n], id)
    requires NotDelegated(s, st, s.clusters[n])
    ensures NoDangling(s, WithoutZone(st, id))
  {
    hide Canonical;
    var c := s.clusters[n];
    var after := WithoutZone(st, id);
    forall m, q | m in s.clusters && DelegatedFrom(s, after, s.clusters[m], q) ensures Grounded(s, after, s.clusters[m], q) {
      var d := s.clusters[m];
      assert DelegatedFrom(s, st, d, q);
      assert m != n ==> Apart(s, d, c);
      var own :| Serves(s, st, d, st.zones[q].sets[DelegationKeyOf(s, d)], own);
      assert Serves(s, after, d, after.zones[q].sets[DelegationKeyOf(s, d)], own);
    }
  }

  /** Deleting a zone that is not delegated is safe, and leaves the cluster without one. */
  lemma RemovingKeepsSane(s: Setting, st: State, n: string, id: string)
    requires WellSet(s) && Sane(s, st) && n in s.clusters && IsZoneOf(s, st, s.clusters[n], id)
    requires NotDelegated(s, st, s.clusters[n])
    ensures Sane(s, WithoutZone(st, id)) && !HasZone(s, WithoutZone(st, id), s.clusters[n])
  {
    hide Canonical;
    hide NoDangling;
    var c := s.clusters[n];
    var after := WithoutZone(st, id);
    RemovingKeepsGrounded(s, st, n, id);
    WithoutZoneKeepsValid(st, id);
    forall m, other | m in s.clusters && IsZoneOf(s, after, s.clusters[m], other) ensures ApexIntact(after, other) {
      assert IsZoneOf(s, st, s.clusters[m], other) && ApexIntact(st, other);
    }
    ZoneOfIsOurs(s, st, n, id);
    forall other ensures !IsZoneOf(s, after, c, other) {
      assert IsZoneOf(s, st, c, other) ==> SameZone(st.zones[id], st.zones[other]);
    }
    forall m, other | m in s.clusters && IsZoneOf(s, after, s.clusters[m], other)
      ensures WildcardIsOurs(s, s.clusters[m], after.zones[other].sets)
    {
      assert IsZoneOf(s, st, s.clusters[m], other);
    }
  }
}
