/** The records of a cluster's zone, and why its wildcard never points at itself. */
module Wildcards {
  import opened Results
  import opened Strings
  import opened Listing
  import opened Cloud
  import opened CacheKeys
  import opened Clusters
  import opened Deletions
  import opened Upserts
  import opened ZoneCaches
  import opened ZoneSafety
  import opened ZoneEffects
  import opened Synthesis

  function WildcardRecord(s: Setting, c: Cluster): DnsRecord {
    DnsRecord(CNAME, WildcardName(s.defaultDomain, c), [WildcardTarget(s.defaultDomain, c)], "")
  }

  const HTTPS := "https://"

  function ApiRecord(s: Setting, c: Cluster): DnsRecord {
    if c.isEKS then
      DnsRecord(CNAME, ApiName(s.defaultDomain, c),
                [if HTTPS <= c.controlPlaneEndpoint then c.controlPlaneEndpoint[|HTTPS|..] else c.controlPlaneEndpoint], c.region)
    else
      DnsRecord(ALIAS, ApiName(s.defaultDomain, c), [c.controlPlaneEndpoint], c.region)
  }

  /** EKS and China have no irsa record to wait for. */
  predicate Eligible(s: Setting, c: Cluster, sets: Sets) {
    c.isEKS || IsAWSChinaRegion(c.region) || Shown(sets, IrsaName(s.defaultDomain, c))
  }

  predicate TargetShown(s: Setting, c: Cluster, sets: Sets) {
    Shown(sets, WildcardTarget(s.defaultDomain, c))
  }

  function RecordsToCreate(s: Setting, c: Cluster, sets: Sets): seq<DnsRecord> {
    (if Eligible(s, c, sets) && TargetShown(s, c, sets) then [WildcardRecord(s, c)] else [])
    + (if c.controlPlaneEndpoint != "" then [ApiRecord(s, c)] else [])
  }

  function RecordsToDelete(s: Setting, c: Cluster, sets: Sets): seq<DnsRecord> {
    if Eligible(s, c, sets) && !TargetShown(s, c, sets)
    then [DnsRecord(CNAME, WildcardName(s.defaultDomain, c), [], "")] else []
  }

  lemma CreatesOnlyOurs(s: Setting, c: Cluster, sets: Sets)
    ensures OurRecords(s, c, RecordsToCreate(s, c, sets)) && HaveValues(RecordsToCreate(s, c, sets))
  {
    hide Canonical;
    hide Eligible;
    hide TargetShown;
    hide WildcardTarget;
    assert OurRecord(s, c, WildcardRecord(s, c)) && OurRecord(s, c, ApiRecord(s, c));
    OurRecordsHaveValues(s, c, RecordsToCreate(s, c, sets));
  }

  // ---- in terms of what is stored ----

  /** The cluster waits for nothing, or its irsa record exists. */
  predicate Ready(s: Setting, c: Cluster, sets: Sets) {
    c.isEKS || IsAWSChinaRegion(c.region) || HasName(sets, IrsaName(s.defaultDomain, c))
  }

  /** The target has a record set of its own. */
  predicate TargetExists(s: Setting, c: Cluster, sets: Sets) {
    HasName(sets, WildcardTarget(s.defaultDomain, c))
  }

  function TargetHost(c: Cluster): string {
    if c.wildcardCNAMETarget != "" then c.wildcardCNAMETarget else "ingress"
  }

  /** Lower case and no asterisk: stored as it is written. */
  predicate PlainHost(host: string) {
    Escape(Lower(host)) == host
  }

  /** A name below a zone that is stored as written is stored as written if and only if what is put in front is. */
  lemma PlainBelowIff(zone: string, host: string)
    requires Plain(zone) && zone != ""
    ensures Plain(host + "." + zone) <==> PlainHost(host)
  {
    UnderZone(zone, host);
    DottedBelow(zone, host);
    var tail := "." + Canonical(zone);
    hide *;
    PlainMeans(zone);
    PlainMeans(host + "." + zone);
    if Escape(Lower(host)) + tail == host + tail {
      SuffixCancels(Escape(Lower(host)), host, tail);
    }
    PlainHostMeans(host);
  }

  lemma PlainMeans(name: string)
    ensures Plain(name) <==> Canonical(name) == Dotted(name)
  {
  }

  lemma PlainHostMeans(host: string)
    ensures PlainHost(host) <==> Escape(Lower(host)) == host
  {
  }

  lemma DottedBelow(zone: string, host: string)
    requires zone != ""
    ensures Dotted(host + "." + zone) == host + ("." + Dotted(zone))
  {
    var name := host + "." + zone;
    if zone[|zone| - 1] == '.' {
      assert name[..|name| - 1] == host + "." + zone[..|zone| - 1];
    }
  }

  lemma SuffixCancels(a: string, b: string, tail: string)
    requires a + tail == b + tail
    ensures a == b
  {
    assert |a| == |b|;
    assert a == (a + tail)[..|a|] && b == (b + tail)[..|b|];
  }

  lemma IrsaIsPlain(s: Setting, c: Cluster)
    requires ProperZone(s, c)
    ensures Plain(IrsaName(s.defaultDomain, c))
  {
    ZoneNameIsNotEmpty(s, c);
    NamesBelow(s, c);
    HostsStored();
    PlainBelowIff(ZoneName(s, c), "irsa");
    hide Canonical;
  }

  lemma EligibleIff(s: Setting, c: Cluster, sets: Sets)
    requires ProperZone(s, c) && ValidSets(sets)
    ensures Eligible(s, c, sets) <==> Ready(s, c, sets)
  {
    IrsaIsPlain(s, c);
    ShownIff(sets, IrsaName(s.defaultDomain, c));
    hide Canonical;
  }

  lemma TargetShownIff(s: Setting, c: Cluster, sets: Sets)
    requires ProperZone(s, c) && ValidSets(sets)
    ensures TargetShown(s, c, sets) <==> PlainHost(TargetHost(c)) && TargetExists(s, c, sets)
  {
    ZoneNameIsNotEmpty(s, c);
    assert WildcardTarget(s.defaultDomain, c) == TargetHost(c) + "." + ZoneName(s, c);
    PlainBelowIff(ZoneName(s, c), TargetHost(c));
    ShownIff(sets, WildcardTarget(s.defaultDomain, c));
    hide Canonical;
  }

  /** The wildcard is written if and only if its target has a record set of its own, the target was configured as
      Route 53 stores it and, outside EKS and China, the irsa record exists. */
  lemma WildcardIsWrittenIff(s: Setting, c: Cluster, sets: Sets)
    requires ProperZone(s, c) && ValidSets(sets)
    ensures (exists r :: r in RecordsToCreate(s, c, sets) && r.name == WildcardName(s.defaultDomain, c))
       <==> Ready(s, c, sets) && TargetExists(s, c, sets) && PlainHost(TargetHost(c))
  {
    EligibleIff(s, c, sets);
    TargetShownIff(s, c, sets);
    hide Eligible;
    hide TargetShown;
    assert ApiRecord(s, c).name[0] == 'a' && WildcardName(s.defaultDomain, c)[0] == '*';
    if Eligible(s, c, sets) && TargetShown(s, c, sets) {
      assert WildcardRecord(s, c) in RecordsToCreate(s, c, sets);
    }
  }

  /** With an upper-case letter in the configured target the wildcard is taken away although the target exists. */
  lemma UpperCaseTargetLosesWildcard(s: Setting, c: Cluster, sets: Sets)
    requires ProperZone(s, c) && ValidSets(sets) && c.wildcardCNAMETarget == "Ingress"
    requires Ready(s, c, sets) && TargetExists(s, c, sets)
    ensures RecordsToDelete(s, c, sets) != []
  {
    EligibleIff(s, c, sets);
    TargetShownIff(s, c, sets);
    UpperCaseIsNotPlain();
    hide Eligible;
    hide TargetShown;
    hide PlainHost;
  }

  lemma UpperCaseIsNotPlain()
    ensures !PlainHost("Ingress")
  {
    assert Lower("Ingress")[0] == 'i' && "Ingress"[0] == 'I';
    assert Escape(Lower("Ingress"))[0] == 'i';
  }

  // ---- loop freedom ----

  /** The wildcard exists only if its target has a record of its own. */
  predicate LoopFree(s: Setting, c: Cluster, sets: Sets) {
    WildcardKeyOf(s, c) in sets ==> TargetExists(s, c, sets)
  }

  /** What every successful reconcile leaves: a loop-free wildcard on a cluster that is ready for one. */
  predicate WildcardIsSafe(s: Setting, c: Cluster, sets: Sets) {
    Ready(s, c, sets) ==> LoopFree(s, c, sets)
  }

  /** No wildcard, the cluster's own or any other, is the source of an answer for the name the cluster's wildcard
      points to. */
  lemma NeverItsOwnTarget(s: Setting, c: Cluster, sets: Sets, value: string, key: Key)
    requires LoopFree(s, c, sets) && WildcardIsOurs(s, c, sets) && WildcardKeyOf(s, c) in sets
    requires sets[WildcardKeyOf(s, c)].Values? && value in sets[WildcardKeyOf(s, c)].values
    ensures !Synthesizes(sets, Canonical(value), key)
  {
    hide Canonical;
    assert value in [WildcardTarget(s.defaultDomain, c)];
    var k :| k in sets && k.name == Canonical(WildcardTarget(s.defaultDomain, c));
    OwnRecordIsNotSynthesized(sets, k, key);
  }

  lemma WildcardIsTheSource(s: Setting, c: Cluster)
    ensures WildcardKeyOf(s, c).name == SourceOfSynthesis(Canonical(ZoneName(s, c)))
  {
    ZoneNameIsNotEmpty(s, c);
    UnderZone(ZoneName(s, c), "*");
    assert WildcardName(s.defaultDomain, c) == "*" + "." + ZoneName(s, c);
    assert Lower("*") == "*" && Escape("*") == ESCAPED_ASTERISK + Escape("");
  }

  lemma TargetIsBelow(s: Setting, c: Cluster)
    ensures
      var zone, target := Canonical(ZoneName(s, c)), Canonical(WildcardTarget(s.defaultDomain, c));
      AtOrAbove(zone, target) && |zone| < |target|
  {
    ZoneNameIsNotEmpty(s, c);
    UnderZone(ZoneName(s, c), TargetHost(c));
    assert WildcardTarget(s.defaultDomain, c) == TargetHost(c) + "." + ZoneName(s, c);
    var host, zone := Escape(Lower(TargetHost(c))), Canonical(ZoneName(s, c));
    assert host + "." + zone == host + ("." + zone);
    BelowIsBelow(host, zone);
  }

  /** Exactly when the cluster's wildcard points at itself: it is there, and nothing exists at, below, or on the way
      down to its target. */
  lemma WildcardLoopsIff(s: Setting, c: Cluster, sets: Sets)
    requires Key(Canonical(ZoneName(s, c)), NS) in sets && WildcardKeyOf(s, c) in sets
    ensures Synthesizes(sets, Canonical(WildcardTarget(s.defaultDomain, c)), WildcardKeyOf(s, c)) <==>
      forall a :: AtOrAbove(a, Canonical(WildcardTarget(s.defaultDomain, c))) && |Canonical(ZoneName(s, c))| < |a| ==>
        !NameExists(sets, a)
  {
    var zone := Canonical(ZoneName(s, c));
    TargetIsBelow(s, c);
    WildcardIsTheSource(s, c);
    hide Canonical;
    assert Key(zone, NS) in sets && AtOrAbove(zone, zone);
    WildcardAnswersIff(sets, zone, Canonical(WildcardTarget(s.defaultDomain, c)), WildcardKeyOf(s, c));
  }

  /** Without the check of the target the loop is there: in a zone with nothing else, the default wildcard is the source
      of the answer for its own target. */
  lemma UncheckedWildcardLoops(s: Setting, c: Cluster, ns: Data)
    requires c.wildcardCNAMETarget == ""
    ensures
      var wildcard := WildcardKeyOf(s, c);
      var sets := map[Key(Canonical(ZoneName(s, c)), NS) := ns,
                      wildcard := Values(RECORD_TTL, [WildcardTarget(s.defaultDomain, c)])];
      Synthesizes(sets, Canonical(WildcardTarget(s.defaultDomain, c)), wildcard)
  {
    var zone, wildcard := Canonical(ZoneName(s, c)), WildcardKeyOf(s, c);
    var target := Canonical(WildcardTarget(s.defaultDomain, c));
    var sets := map[Key(zone, NS) := ns, wildcard := Values(RECORD_TTL, [WildcardTarget(s.defaultDomain, c)])];
    assert Key(zone, NS) in sets && wildcard in sets;
    IngressIs(s, c);
    WildcardIsTheSource(s, c);
    WildcardLoopsIff(s, c, sets);
    LoneWildcard(zone, sets, Key(zone, NS), wildcard);
    hide *;
  }

  lemma LoneWildcard(zone: string, sets: Sets, apex: Key, wildcard: Key)
    requires sets.Keys == {apex, wildcard} && apex.name == zone && wildcard.name == SourceOfSynthesis(zone)
    ensures forall a :: AtOrAbove(a, "ingress" + ("." + zone)) && |zone| < |a| ==> !NameExists(sets, a)
  {
    forall a | AtOrAbove(a, "ingress" + ("." + zone)) && |zone| < |a| ensures !NameExists(sets, a) {
      NotOnTheWay(zone, a);
      hide AtOrAbove;
    }
  }

  lemma IngressIs(s: Setting, c: Cluster)
    requires c.wildcardCNAMETarget == ""
    ensures Canonical(WildcardTarget(s.defaultDomain, c)) == "ingress" + ("." + Canonical(ZoneName(s, c)))
  {
    ZoneNameIsNotEmpty(s, c);
    UnderZone(ZoneName(s, c), "ingress");
    IngressIsPlain();
    hide Canonical;
    hide Escape;
    hide Lower;
  }

  lemma IngressIsPlain()
    ensures Escape(Lower("ingress")) == "ingress"
  {
    assert Lower("ingress") == "ingress";
    EscapeKeepsPlainText("ingress");
  }

  /** Between a zone and its ingress name there is no other name, and the wildcard does not lie below that one. */
  lemma NotOnTheWay(zone: string, a: string)
    requires AtOrAbove(a, "ingress" + ("." + zone)) && |zone| < |a|
    ensures !AtOrAbove(a, zone) && !AtOrAbove(a, SourceOfSynthesis(zone))
  {
    var target := "ingress" + ("." + zone);
    assert forall i :: 0 <= i < 7 ==> target[i] == "ingress"[i] != '.';
    assert |a| < |target| ==> |a| == |zone| + 1;
    assert |target| - |zone| - 2 == 6;
    assert a == target;
  }

  // ---- the two ways a reconcile ends ----

  lemma PlainIsLower(name: string)
    requires Plain(name)
    ensures Lower(Dotted(name)) == Dotted(name)
  {
    EscapeOfLowerIsLower(Dotted(name));
  }

  /** The wildcard record of a proper zone is recognised in a listing. */
  lemma WildcardIsRecognised(s: Setting, c: Cluster)
    requires ProperZone(s, c)
    ensures Recognised(WildcardName(s.defaultDomain, c))
  {
    var zone, name := ZoneName(s, c), WildcardName(s.defaultDomain, c);
    ZoneNameIsNotEmpty(s, c);
    PlainIsLower(zone);
    assert Lower(zone) == zone by {
      assert forall i :: 0 <= i < |TrimDot(zone)| ==> Dotted(zone)[i] == zone[i] == LowerChar(zone[i]);
      assert LowerChar('.') == '.';
    }
    LowerAppend("*.", zone);
    assert Lower("*.") == "*.";
    LowerCaseIsRecognised(name);
  }

  lemma UpsertKeepsNames(zoneName: string, sets: Sets, changes: seq<Change>, after: Sets, name: string)
    requires OnlyUpserts(changes) && ApplyAll(zoneName, sets, changes) == Some(after) && HasName(sets, name)
    ensures HasName(after, name)
  {
    hide Canonical;
    UpsertsApply(zoneName, sets, changes);
    hide ApplyAll;
    var k :| k in sets && k.name == Canonical(name);
    assert k in after;
  }

  /** The target exists: it still does after writing. */
  lemma WritingKeepsTarget(s: Setting, c: Cluster, st: State, id: string, records: seq<DnsRecord>,
                           canonicalZone: string -> string, after: State)
    requires id in st.zones && TargetExists(s, c, st.zones[id].sets) && HaveValues(records)
    requires after == st || Some(after) == Changed(st, id, ChangesFor(records, canonicalZone))
    ensures id in after.zones && LoopFree(s, c, after.zones[id].sets)
  {
    hide Canonical;
    hide WildcardTarget;
    hide HasName;
    hide ApplyAll;
    if after != st {
      ChangesForUpserts(records, canonicalZone);
      UpsertKeepsNames(st.zones[id].name, st.zones[id].sets, ChangesFor(records, canonicalZone), after.zones[id].sets,
                       WildcardTarget(s.defaultDomain, c));
    }
  }

  lemma ApiChangesNoWildcard(s: Setting, c: Cluster, canonicalZone: string -> string)
    ensures HaveValues([ApiRecord(s, c)])
    ensures FinalData(ChangesFor([ApiRecord(s, c)], canonicalZone), WildcardKeyOf(s, c)).None?
  {
    ZoneNameIsNotEmpty(s, c);
    ApiIsNotWildcard(ZoneName(s, c));
    hide Canonical;
    var api := ApiRecord(s, c);
    assert [api][..0] == [];
    var change := ChangeFor(api, canonicalZone);
    assert ChangesFor([], canonicalZone) == [];
    assert ChangesFor([api], canonicalZone) == [change];
    assert KeyOf(change).name == Canonical("api." + ZoneName(s, c));
    assert [change][..0] == [];
    assert FinalData([], WildcardKeyOf(s, c)).None?;
  }

  /** The wildcard is gone: writing the api record does not bring it back. */
  lemma WritingApiAddsNoWildcard(s: Setting, c: Cluster, st: State, id: string, canonicalZone: string -> string, after: State)
    requires id in st.zones && WildcardKeyOf(s, c) !in st.zones[id].sets && HaveValues([ApiRecord(s, c)])
    requires after == st || Some(after) == Changed(st, id, ChangesFor([ApiRecord(s, c)], canonicalZone))
    ensures id in after.zones && LoopFree(s, c, after.zones[id].sets)
  {
    hide Canonical;
    if after != st {
      var changes := ChangesFor([ApiRecord(s, c)], canonicalZone);
      ApiChangesNoWildcard(s, c, canonicalZone);
      ChangesForUpserts([ApiRecord(s, c)], canonicalZone);
      UpsertsApply(st.zones[id].name, st.zones[id].sets, changes);
    }
  }

  // ---- the irsa record is not the operator's ----

  lemma FirstCharacter(zone: string, host: string, stored: string)
    requires zone != "" && Escape(Lower(host)) == stored && stored != ""
    ensures |Canonical(host + "." + zone)| > 0 && Canonical(host + "." + zone)[0] == stored[0]
  {
    UnderZone(zone, host);
    hide Canonical;
  }

  lemma HostsStored()
    ensures Escape(Lower("irsa")) == "irsa" && Escape(Lower("api")) == "api"
    ensures Escape(Lower("*")) == ESCAPED_ASTERISK
  {
    assert Lower("irsa") == "irsa" && Lower("api") == "api" && Lower("*") == "*";
    EscapeKeepsPlainText("irsa");
    EscapeKeepsPlainText("api");
    assert Escape("*") == ESCAPED_ASTERISK + Escape("");
  }

  lemma IrsaIsNeither(zone: string)
    requires zone != ""
    ensures Canonical("irsa" + "." + zone) != Canonical("api" + "." + zone)
    ensures Canonical("irsa" + "." + zone) != Canonical("*" + "." + zone)
  {
    HostsStored();
    FirstCharacter(zone, "irsa", "irsa");
    FirstCharacter(zone, "api", "api");
    FirstCharacter(zone, "*", ESCAPED_ASTERISK);
    hide Canonical;
  }

  lemma NamesBelow(s: Setting, c: Cluster)
    ensures IrsaName(s.defaultDomain, c) == "irsa" + "." + ZoneName(s, c)
    ensures ApiName(s.defaultDomain, c) == "api" + "." + ZoneName(s, c)
    ensures WildcardName(s.defaultDomain, c) == "*" + "." + ZoneName(s, c)
  {
    assert "irsa" + "." == "irsa." && "api" + "." == "api." && "*" + "." == "*.";
  }

  /** Writing the operator's records makes no irsa record. */
  lemma WritingMakesNoIrsa(s: Setting, c: Cluster, st: State, id: string, records: seq<DnsRecord>,
                           canonicalZone: string -> string, after: State)
    requires id in st.zones && OurRecords(s, c, records) && HaveValues(records)
    requires after == st || Some(after) == Changed(st, id, ChangesFor(records, canonicalZone))
    ensures id in after.zones
    ensures HasName(after.zones[id].sets, IrsaName(s.defaultDomain, c)) ==>
      HasName(st.zones[id].sets, IrsaName(s.defaultDomain, c))
  {
    if after != st {
      ChangesForUpserts(records, canonicalZone);
      UpsertsApply(st.zones[id].name, st.zones[id].sets, ChangesFor(records, canonicalZone));
      IrsaIsNotOurs(s, c, records, canonicalZone);
      hide Canonical;
      hide ApplyAll;
      hide OurRecords;
      hide ChangesFor;
      if k :| k in after.zones[id].sets && k.name == Canonical(IrsaName(s.defaultDomain, c)) {
        assert FinalData(ChangesFor(records, canonicalZone), k).None?;
        assert k in st.zones[id].sets;
      }
    }
  }

  /** A record set our records ask for has the name of one of them. */
  lemma OurNames(s: Setting, c: Cluster, records: seq<DnsRecord>, canonicalZone: string -> string, k: Key)
    requires OurRecords(s, c, records) && HaveValues(records) && FinalData(ChangesFor(records, canonicalZone), k).Some?
    ensures k.name == Canonical(WildcardName(s.defaultDomain, c)) || k.name == Canonical(ApiName(s.defaultDomain, c))
  {
    hide Canonical;
    var change := FinalDataIsFromChange(ChangesFor(records, canonicalZone), k);
    ChangesForUpserts(records, canonicalZone);
    var r :| r in records && Supported(r.kind) && change == ChangeFor(r, canonicalZone);
    assert OurRecord(s, c, r);
  }

  lemma IrsaIsNotOurs(s: Setting, c: Cluster, records: seq<DnsRecord>, canonicalZone: string -> string)
    requires OurRecords(s, c, records) && HaveValues(records)
    ensures forall k: Key :: k.name == Canonical(IrsaName(s.defaultDomain, c)) ==>
      FinalData(ChangesFor(records, canonicalZone), k).None?
  {
    ZoneNameIsNotEmpty(s, c);
    IrsaIsNeither(ZoneName(s, c));
    NamesBelow(s, c);
    hide Canonical;
    hide ChangesFor;
    hide FinalData;
    forall k: Key | FinalData(ChangesFor(records, canonicalZone), k).Some?
      ensures k.name != Canonical(IrsaName(s.defaultDomain, c))
    {
      OurNames(s, c, records, canonicalZone, k);
    }
  }
}
