/** What a reconcile asks the cluster's zone to hold, and when a success means that it does. */
module RecordWrites {
  import opened Results
  import opened Strings
  import opened Listing
  import opened Cloud
  import opened CacheKeys
  import opened Clusters
  import opened Deletions
  import opened Upserts
  import opened ZoneCaches
  import opened ZoneSafety
  import opened ZoneEffects
  import opened Wildcards

  /** One reconcile of the records: the zone, the sets its records were computed from, and whether a remembered batch
      was skipped. */
  datatype Writing = Writing(id: string, asked: Sets, skipped: bool)

  /** The wildcard of the cluster's zone, as a CNAME of the configured host in it. */
  predicate ServesWildcard(s: Setting, c: Cluster, sets: Sets) {
    var key := Key(Canonical("*." + ZoneName(s, c)), "CNAME");
    && key in sets && sets[key].Values? && sets[key].ttl == 300
    && sets[key].values == [(if c.wildcardCNAMETarget != "" then c.wildcardCNAMETarget else "ingress") + "." + ZoneName(s, c)]
  }

  /** The host of an endpoint: what follows the scheme, if it has one. */
  predicate IsHostOf(host: string, endpoint: string) {
    endpoint == "https://" + host || (!("https://" <= endpoint) && endpoint == host)
  }

  /** The api name of the cluster's zone: on EKS a CNAME of the endpoint's host, elsewhere an alias to the endpoint in
      the load balancer zone of the region. */
  predicate ServesApi(s: Setting, c: Cluster, sets: Sets, canonicalZone: string -> string) {
    var name := Canonical("api." + ZoneName(s, c));
    if c.isEKS then
      && Key(name, "CNAME") in sets && sets[Key(name, "CNAME")].Values? && sets[Key(name, "CNAME")].ttl == 300
      && |sets[Key(name, "CNAME")].values| == 1 && IsHostOf(sets[Key(name, "CNAME")].values[0], c.controlPlaneEndpoint)
    else
      && Key(name, "A") in sets && sets[Key(name, "A")].AliasTo?
      && sets[Key(name, "A")].target == c.controlPlaneEndpoint && sets[Key(name, "A")].zoneId == canonicalZone(c.region)
  }

  /** The sets serve what these sets ask for: the wildcard if its target is there and the cluster waits for nothing, and
      the api name if there is an endpoint. */
  predicate Holds(s: Setting, c: Cluster, asked: Sets, sets: Sets, canonicalZone: string -> string) {
    && (Wildcards.Ready(s, c, asked) && TargetExists(s, c, asked) && PlainHost(TargetHost(c)) ==> ServesWildcard(s, c, sets))
    && (c.controlPlaneEndpoint != "" ==> ServesApi(s, c, sets, canonicalZone))
  }

  /** The sets the records are computed from: the zone's, or those of the zone that was just created. */
  function Asked(before: State, after: State, id: string): Sets {
    if id in before.zones then before.zones[id].sets
    else if id in after.zones then NewZone(after.zones[id].account, after.zones[id].name, after.zones[id].nameServers).sets
    else map[]
  }

  /** Exactly when a success means that the zone holds what was asked for: when the batch was sent, or it was there. */
  ghost predicate WrittenIff(s: Setting, c: Cluster, asked: Sets, sets: Sets, canonicalZone: string -> string, skipped: bool) {
    Holds(s, c, asked, sets, canonicalZone) <==> !skipped || Holds(s, c, asked, asked, canonicalZone)
  }

  /** What is known of a reconcile that succeeded. */
  ghost predicate Recorded(s: Setting, c: Cluster, before: State, after: State, w: Writing, canonicalZone: string -> string) {
    && IsZoneOf(s, after, c, w.id) && w.asked == Asked(before, after, w.id)
    && WrittenIff(s, c, w.asked, after.zones[w.id].sets, canonicalZone, w.skipped)
  }

  lemma ServesWildcardIff(s: Setting, c: Cluster, sets: Sets, canonicalZone: string -> string)
    ensures HoldsRecord(sets, WildcardRecord(s, c), canonicalZone) <==> ServesWildcard(s, c, sets)
  {
    hide Canonical;
  }

  lemma ServesApiIff(s: Setting, c: Cluster, sets: Sets, canonicalZone: string -> string)
    ensures HoldsRecord(sets, ApiRecord(s, c), canonicalZone) <==> ServesApi(s, c, sets, canonicalZone)
  {
    hide Canonical;
    var endpoint := c.controlPlaneEndpoint;
    forall host ensures IsHostOf(host, endpoint) <==> host == if HTTPS <= endpoint then endpoint[|HTTPS|..] else endpoint {
      if HTTPS <= endpoint {
        assert endpoint == HTTPS + endpoint[|HTTPS|..];
      }
    }
  }

  /** The batch holds at most these two, for two sets. */
  lemma BatchIs(s: Setting, c: Cluster, asked: Sets, sets: Sets, canonicalZone: string -> string)
    ensures HoldsBatch(sets, RecordsToCreate(s, c, asked), canonicalZone) <==>
      && (Eligible(s, c, asked) && TargetShown(s, c, asked) ==> HoldsRecord(sets, WildcardRecord(s, c), canonicalZone))
      && (c.controlPlaneEndpoint != "" ==> HoldsRecord(sets, ApiRecord(s, c), canonicalZone))
  {
    ZoneNameIsNotEmpty(s, c);
    ApiIsNotWildcard(ZoneName(s, c));
    var records := RecordsToCreate(s, c, asked);
    assert !SameSet(ApiRecord(s, c), WildcardRecord(s, c));
    hide Canonical;
    hide SameSet;
    hide Eligible;
    hide TargetShown;
    hide HoldsRecord;
    if |records| > 0 {
      assert LastOfItsSet(records, |records| - 1);
    }
    if |records| == 2 {
      assert LastOfItsSet(records, 0);
    }
  }

  lemma HoldsIsAgreed(s: Setting, c: Cluster, asked: Sets, st: State, id: string, canonicalZone: string -> string)
    requires id in st.zones && ProperZone(s, c) && ValidSets(asked)
    ensures Holds(s, c, asked, st.zones[id].sets, canonicalZone) <==>
      ZoneHolds(st, id, RecordsToCreate(s, c, asked), canonicalZone)
  {
    BatchIs(s, c, asked, st.zones[id].sets, canonicalZone);
    ServesWildcardIff(s, c, st.zones[id].sets, canonicalZone);
    ServesApiIff(s, c, st.zones[id].sets, canonicalZone);
    EligibleIff(s, c, asked);
    TargetShownIff(s, c, asked);
    hide *;
    HoldsMeans(s, c, asked, st.zones[id].sets, canonicalZone);
    ZoneHoldsMeans(st, id, RecordsToCreate(s, c, asked), canonicalZone);
  }

  lemma HoldsMeans(s: Setting, c: Cluster, asked: Sets, sets: Sets, canonicalZone: string -> string)
    ensures Holds(s, c, asked, sets, canonicalZone) <==>
      && (Wildcards.Ready(s, c, asked) && TargetExists(s, c, asked) && PlainHost(TargetHost(c)) ==> ServesWildcard(s, c, sets))
      && (c.controlPlaneEndpoint != "" ==> ServesApi(s, c, sets, canonicalZone))
  {
  }

  lemma ZoneHoldsMeans(st: State, id: string, records: seq<DnsRecord>, canonicalZone: string -> string)
    requires id in st.zones
    ensures ZoneHolds(st, id, records, canonicalZone) <==> HoldsBatch(st.zones[id].sets, records, canonicalZone)
  {
  }

  lemma NothingAsked(s: Setting, c: Cluster, asked: Sets, sets: Sets, canonicalZone: string -> string)
    requires RecordsToCreate(s, c, asked) == [] && ProperZone(s, c) && ValidSets(asked)
    ensures Holds(s, c, asked, sets, canonicalZone)
  {
    EligibleIff(s, c, asked);
    TargetShownIff(s, c, asked);
    hide Canonical;
    hide Eligible;
    hide TargetShown;
    hide Wildcards.Ready;
    hide TargetExists;
    hide PlainHost;
    hide ServesWildcard;
    hide ServesApi;
  }

  /** Taking the wildcard away takes nothing that is asked for. */
  lemma RemovalTakesNothingAsked(s: Setting, c: Cluster, asked: Sets, canonicalZone: string -> string)
    requires RecordsToDelete(s, c, asked) != [] && ProperZone(s, c) && ValidSets(asked)
    ensures Holds(s, c, asked, asked - {WildcardKeyOf(s, c)}, canonicalZone) <==> Holds(s, c, asked, asked, canonicalZone)
  {
    WantedShape(s, c, asked);
    EligibleIff(s, c, asked);
    TargetShownIff(s, c, asked);
    ApiIsApart(s, c, asked, canonicalZone);
    hide *;
    HoldsMeans(s, c, asked, asked - {WildcardKeyOf(s, c)}, canonicalZone);
    HoldsMeans(s, c, asked, asked, canonicalZone);
  }

  lemma ApiIsApart(s: Setting, c: Cluster, sets: Sets, canonicalZone: string -> string)
    ensures ServesApi(s, c, sets - {WildcardKeyOf(s, c)}, canonicalZone) <==> ServesApi(s, c, sets, canonicalZone)
  {
    ZoneNameIsNotEmpty(s, c);
    ApiIsNotWildcard(ZoneName(s, c));
    assert WildcardKeyOf(s, c).name == Canonical("*." + ZoneName(s, c));
    hide Canonical;
    hide WildcardKeyOf;
    hide IsHostOf;
  }

  lemma WantedShape(s: Setting, c: Cluster, sets: Sets)
    ensures RecordsToDelete(s, c, sets) != [] <==> Eligible(s, c, sets) && !TargetShown(s, c, sets)
    ensures RecordsToDelete(s, c, sets) != [] ==>
      RecordsToCreate(s, c, sets) == [] || RecordsToCreate(s, c, sets) == [ApiRecord(s, c)]
  {
    hide Eligible;
    hide TargetShown;
  }

  /** From the batch to the whole reconcile. */
  lemma AgreedIsWritten(s: Setting, c: Cluster, st: State, mid: State, after: State, id: string,
                        canonicalZone: string -> string, skipped: bool)
    requires id in st.zones && id in mid.zones && id in after.zones && ProperZone(s, c) && ValidSets(st.zones[id].sets)
    requires mid == st || (RecordsToDelete(s, c, st.zones[id].sets) != []
                           && mid.zones[id].sets == st.zones[id].sets - {WildcardKeyOf(s, c)})
    requires
      var records := RecordsToCreate(s, c, st.zones[id].sets);
      ZoneHolds(after, id, records, canonicalZone) <==> !skipped || ZoneHolds(mid, id, records, canonicalZone)
    ensures WrittenIff(s, c, st.zones[id].sets, after.zones[id].sets, canonicalZone, skipped)
  {
    hide *;
    HoldsIsAgreed(s, c, st.zones[id].sets, after, id, canonicalZone);
    HoldsIsAgreed(s, c, st.zones[id].sets, mid, id, canonicalZone);
    if mid != st {
      RemovalTakesNothingAsked(s, c, st.zones[id].sets, canonicalZone);
    }
    WrittenMeans(s, c, st.zones[id].sets, after.zones[id].sets, canonicalZone, skipped);
  }

  lemma WrittenMeans(s: Setting, c: Cluster, asked: Sets, sets: Sets, canonicalZone: string -> string, skipped: bool)
    requires ProperZone(s, c) && ValidSets(asked)
    ensures WrittenIff(s, c, asked, sets, canonicalZone, skipped) <==>
      (Holds(s, c, asked, sets, canonicalZone) <==> !skipped || Holds(s, c, asked, asked, canonicalZone))
    ensures RecordsToCreate(s, c, asked) == [] ==> WrittenIff(s, c, asked, sets, canonicalZone, skipped)
  {
    if RecordsToCreate(s, c, asked) == [] {
      NothingAsked(s, c, asked, sets, canonicalZone);
      NothingAsked(s, c, asked, asked, canonicalZone);
    }
    hide Holds;
  }

  lemma OnlyWildcardGone(st: State, mid: State, id: string, key: Key)
    requires id in st.zones && AtMostRemoves(st, mid, id, key)
    ensures mid == st || (id in mid.zones && mid.zones[id].sets == st.zones[id].sets - {key})
  {
  }

  /** A zone that only got other record sets is asked the same. */
  lemma AskedAlike(before: State, after: State, later: State, id: string)
    requires SameZones(after, later)
    ensures Asked(before, after, id) == Asked(before, later, id)
  {
  }

  lemma RecordedMeans(s: Setting, c: Cluster, before: State, after: State, w: Writing, canonicalZone: string -> string)
    ensures Recorded(s, c, before, after, w, canonicalZone) <==>
      && IsZoneOf(s, after, c, w.id) && w.asked == Asked(before, after, w.id) && w.id in after.zones
      && WrittenIff(s, c, w.asked, after.zones[w.id].sets, canonicalZone, w.skipped)
  {
    hide WrittenIff;
    hide Asked;
    hide Canonical;
  }

  lemma AskedIs(st: State, after: State, id: string, account: string, name: string, nameServers: seq<string>)
    ensures id in st.zones ==> Asked(st, st, id) == st.zones[id].sets
    ensures id !in st.zones && after == Created(st, id, account, name, nameServers) ==>
      id in after.zones && Asked(st, after, id) == after.zones[id].sets
  {
  }
}
