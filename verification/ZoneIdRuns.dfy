/** The zone id cache over whole runs of one client that is the only writer of its account's zones. */
module ZoneIdRuns {
  import opened Results
  import opened Strings
  import Listing
  import opened Cloud
  import opened CacheKeys
  import opened Deletions
  import opened Upserts
  import opened ZoneCaches
  import opened Route53Client

  /** Everything a client can be asked to do, and time passing. */
  datatype Operation =
    | Lookup(name: string)
    | Create(name: string, tags: map<string, string>)
    | DeleteZone(id: string)
    | AddRecords(id: string, records: seq<DnsRecord>)
    | DeleteRecord(id: string, record: DnsRecord)
    | DeleteRecords(id: string)
    | AddDelegation(id: string, record: DnsRecord)
    | DeleteDelegation(id: string, record: DnsRecord)
    | ReadNameServers(id: string, name: string)
    | RecordExists(id: string, name: string)
    | Wait(seconds: nat)

  /** One answered lookup, with the state it was answered in. */
  datatype Answer = Answer(st: State, name: string, r: Result<string>)

  /** The lookup answered as one without a cache would have, unless the call to AWS failed. */
  ghost predicate AsUncached(a: Answer, account: string, reliable: bool) {
    reliable || a.r != Err(Failed) ==> Answers(a.st, account, a.name, a.r)
  }

  ghost predicate AllUnique(trail: seq<Moment>, start: nat, account: string) {
    forall i :: start <= i < |trail| ==> UniqueNames(trail[i].route53, account)
  }

  lemma PassedIsUnique(trail: seq<Moment>, longer: seq<Moment>, before: Moment, after: Moment, start: nat, account: string)
    requires Passed(trail, longer, before, after) && start <= |trail| && AllUnique(trail, start, account)
    requires UniqueNames(before.route53, account) && UniqueNames(after.route53, account)
    ensures start <= |longer| && AllUnique(longer, start, account)
  {
    forall i | start <= i < |longer| ensures UniqueNames(longer[i].route53, account) {
      if i < |trail| {
        assert longer[i] == trail[i];
      }
    }
  }

  // ---- what each write does to the names of zones ----

  ghost predicate NamesKept(a: State, b: State) {
    && a.zones.Keys == b.zones.Keys
    && forall id :: id in a.zones ==> a.zones[id].account == b.zones[id].account && a.zones[id].name == b.zones[id].name
  }

  lemma KeptIsUnique(a: State, b: State, account: string)
    requires NamesKept(a, b) && UniqueNames(a, account)
    ensures UniqueNames(b, account)
  {
  }

  lemma RecordsKeepNames(st: State, after: State, id: string, changes: seq<Change>, key: Listing.Key, page: seq<RecordSet>)
    requires
      || after == st || Some(after) == Changed(st, id, changes)
      || AtMostRemoves(st, after, id, key) || Emptied(st, after, id, page)
    ensures NamesKept(st, after)
  {
    hide ApplyAll;
    hide Doomed;
  }

  /** A name written as Route 53 stores it is free when no lookup finds it. */
  lemma PlainIsFree(st: State, account: string, name: string)
    requires NoZone(st, account, name) && Plain(name)
    ensures forall id :: id in st.zones && st.zones[id].account == account ==> st.zones[id].name != Canonical(name)
  {
    hide Canonical;
    forall id | id in st.zones && st.zones[id].account == account ensures st.zones[id].name != Canonical(name) {
      assert !Named(st, account, id, name);
    }
  }

  /** A created zone is the only one of its name. */
  lemma CreatedIsUnique(st: State, account: string, name: string, id: string, nameServers: seq<string>)
    requires ValidState(st) && UniqueNames(st, account) && id !in st.born && NoZone(st, account, name) && Plain(name)
    ensures UniqueNames(Created(st, id, account, Canonical(name), nameServers), account)
  {
    hide Canonical;
    PlainIsFree(st, account, name);
    CreatingKeepsUnique(st, account, Canonical(name), id, nameServers);
  }

  lemma LaterIsItself(st: State)
    ensures Later(st, st)
  {
  }

  method Pass(client: Route53, seconds: nat)
    requires client.Valid()
    modifies client.cloud`now
    ensures client.Valid() && client.cloud.now == old(client.cloud.now) + seconds
    ensures old(client.ZoneIdsExact()) ==> client.ZoneIdsExact()
  {
    hide *;
    client.StateIsValid();
    client.cloud.Tick(seconds);
    client.cloud.StillValid();
    LaterIsItself(client.cloud.route53);
    client.Survives();
    if old(client.ZoneIdsExact()) {
      client.TimeKeepsExact();
    }
  }

  predicate IsZoneWrite(op: Operation) {
    op.Create? || op.DeleteZone?
  }

  predicate IsRecordCall(op: Operation) {
    !op.Lookup? && !op.Wait? && !IsZoneWrite(op)
  }

  method WriteZone(client: Route53, op: Operation)
    requires client.Valid() && IsZoneWrite(op) && UniqueNames(client.cloud.route53, client.account)
    modifies client, client.cloud`route53, client.cloud`trail
    ensures client.Valid()
    ensures op.Create? ==> Plain(op.name) ==> UniqueNames(client.cloud.route53, client.account)
    ensures op.DeleteZone? ==> UniqueNames(client.cloud.route53, client.account)
    ensures old(client.ZoneIdsExact()) && (op.Create? ==> Bare(op.name)) ==> client.ZoneIdsExact()
    ensures Passed(old(client.cloud.trail), client.cloud.trail, old(client.cloud.Here()), client.cloud.Here())
  {
    hide ZoneIdsSound;
    hide NsSound;
    hide Exact;
    hide Canonical;
    hide NoZone;
    hide EntryExact;
    ghost var st := client.cloud.route53;
    if op.Create? {
      var _, made := client.CreateHostedZone(op.name, op.tags);
      if made.Some? && Plain(op.name) {
        CreatedIsUnique(st, client.account, op.name, made.value.0, made.value.1);
      }
    } else {
      var _ := client.DeleteHostedZone(op.id);
    }
  }

  /** One call that writes or reads record sets. */
  method CallRecords(client: Route53, op: Operation)
    requires client.Valid() && IsRecordCall(op)
    modifies client, client.cloud`route53, client.cloud`trail
    ensures client.Valid() && NamesKept(old(client.cloud.route53), client.cloud.route53)
    ensures old(client.ZoneIdsExact()) ==> client.ZoneIdsExact()
    ensures Passed(old(client.cloud.trail), client.cloud.trail, old(client.cloud.Here()), client.cloud.Here())
  {
    hide *;
    ghost var st := client.cloud.route53;
    ghost var changes: seq<Change>, key, page: seq<RecordSet> := [], Listing.Key("", ""), [];
    client.cloud.HereIs();
    client.SeenIs();
    IsRecordCallMeans(op);
    match op {
      case AddRecords(id, records) =>
        var _ := client.AddDnsRecordsToHostedZone(id, records);
        client.SeenIs();
        changes := if HaveValues(records) then ChangesFor(records, client.canonicalZone) else [];
        RecordsKeepNames(st, client.cloud.route53, id, changes, key, page);
      case AddDelegation(id, record) =>
        var _ := client.AddDelegationToParentZone(id, record);
        RecordsKeepNames(st, client.cloud.route53, id, [DelegationChange(record.name, record.values)], key, page);
      case DeleteRecord(id, record) =>
        var _ := client.DeleteDnsRecord(id, record);
        RecordsKeepNames(st, client.cloud.route53, id, changes, StoredKey(record.name, record.kind), page);
      case DeleteDelegation(id, record) =>
        var _ := client.DeleteDelegationFromParentZone(id, record);
        RecordsKeepNames(st, client.cloud.route53, id, changes, StoredKey(record.name, NS), page);
      case DeleteRecords(id) =>
        var _, shown := client.DeleteDnsRecordsFromHostedZone(id);
        RecordsKeepNames(st, client.cloud.route53, id, changes, key, shown);
      case ReadNameServers(id, name) =>
        var _ := client.GetHostedZoneNSRecord(id, name);
        RecordsKeepNames(st, client.cloud.route53, id, changes, key, page);
      case RecordExists(id, name) =>
        var _ := client.DnsRecordExists(id, name);
        RecordsKeepNames(st, client.cloud.route53, id, changes, key, page);
      case _ =>
        assert false;
    }
    client.cloud.HereIs();
  }

  /** After any sequence of calls of one client, whatever AWS does to them: if zones are created under names as Route 53
      stores them, no two zones of one name ever exist side by side; and if they are created under their bare names, a
      cached lookup answers as an uncached one would. */
  method RunAlone(client: Route53, operations: seq<Operation>) returns (ghost answers: seq<Answer>)
    requires client.Valid() && client.ZoneIdsExact()
    requires forall op :: op in operations && op.Create? ==> Plain(op.name)
    modifies client, client.cloud`route53, client.cloud`trail, client.cloud`now
    ensures client.Valid() && AllUnique(client.cloud.trail, |old(client.cloud.trail)|, client.account)
    ensures (forall op :: op in operations && op.Create? ==> Bare(op.name)) ==>
      && client.ZoneIdsExact()
      && forall i :: 0 <= i < |answers| ==> AsUncached(answers[i], client.account, client.cloud.reliable)
  {
    hide *;
    ghost var bare := forall op :: op in operations && op.Create? ==> Bare(op.name);
    answers := [];
    var cloud := client.cloud;
    ghost var start := |cloud.trail|;
    ExactMeansUnique(client);
    NothingYet(cloud.trail, client.account);
    for n := 0 to |operations|
      invariant client.Valid() && (bare ==> client.ZoneIdsExact())
      invariant UniqueNames(cloud.route53, client.account)
      invariant start <= |cloud.trail| && AllUnique(cloud.trail, start, client.account)
      invariant bare ==> forall i :: 0 <= i < |answers| ==> AsUncached(answers[i], client.account, cloud.reliable)
    {
      ghost var trail, before := cloud.trail, cloud.Here();
      cloud.HereIs();
      var op := operations[n];
      assert op in operations;
      if op.Wait? {
        Pass(client, op.seconds);
      } else {
        if op.Lookup? {
          var r := client.GetHostedZoneIdByName(op.name);
          answers := answers + [Answer(cloud.route53, op.name, r)];
          AsUncachedMeans(answers[|answers| - 1], client.account, cloud.reliable);
        } else if op.Create? || op.DeleteZone? {
          IsZoneWriteMeans(op);
          WriteZone(client, op);
        } else {
          IsRecordCallMeans(op);
          CallRecords(client, op);
          KeptIsUnique(before.route53, cloud.route53, client.account);
        }
        cloud.HereIs();
        PassedIsUnique(trail, cloud.trail, before, cloud.Here(), start, client.account);
      }
    }
  }

  lemma ExactMeansUnique(client: Route53)
    requires client.ZoneIdsExact()
    ensures UniqueNames(client.cloud.route53, client.account)
  {
  }

  lemma NothingYet(trail: seq<Moment>, account: string)
    ensures AllUnique(trail, |trail|, account)
  {
  }

  lemma AsUncachedMeans(a: Answer, account: string, reliable: bool)
    ensures AsUncached(a, account, reliable) <==> (reliable || a.r != Err(Failed) ==> Answers(a.st, account, a.name, a.r))
  {
  }

  lemma IsZoneWriteMeans(op: Operation)
    ensures IsZoneWrite(op) <==> op.Create? || op.DeleteZone?
  {
  }

  lemma IsRecordCallMeans(op: Operation)
    ensures IsRecordCall(op) <==> !op.Lookup? && !op.Wait? && !op.Create? && !op.DeleteZone?
  {
  }

  // ---- what goes wrong under any other name ----

  /** A zone created with a final dot is cached under two names once it has been looked up without it. Deleting the zone
      forgets one of them, and the other goes on answering with the id of a zone that is gone. */
  method TrailingDotOutlivesItsZone(client: Route53, bare: string, tags: map<string, string>)
    returns (done: bool, id: string, undotted: Result<string>, dotted: Result<string>)
    requires client.Valid() && client.zoneIds == map[]
    requires Bare(bare) && TrimDot(bare) == bare && NoZone(client.cloud.route53, client.account, bare)
    modifies client, client.cloud`route53, client.cloud`trail
    ensures client.cloud.reliable && id != "" ==> done  // once the zone was made, only failing calls prevent it
    ensures done ==> undotted == Ok(id) || dotted == Ok(id)
    ensures done ==> Answers(client.cloud.route53, client.account, bare, Err(ZoneNotFound))
    ensures done ==> Answers(client.cloud.route53, client.account, bare + ".", Err(ZoneNotFound))
  {
    hide *;
    var name := bare + ".";
    done, id, undotted, dotted := false, "", Err(Failed), Err(Failed);
    ghost var st := client.cloud.route53;
    client.StateIsValid();
    DottedIsAnotherName(st, client.account, bare);
    NothingCached(name, client.cloud.now);
    var created, made := client.CreateHostedZone(name, tags);
    if created.Err? {
      return;
    }
    id := created.value;
    ghost var account := client.account;
    if made.None? {
      NotBoth(client.cloud.route53, account, id, name);
    }
    client.StateIsValid();
    ghost var cached := client.zoneIds;
    BareIsNotCached(cached, st, account, bare, client.cloud.now);
    var looked := client.GetHostedZoneIdByName(bare);
    if looked.Ok? || client.cloud.reliable {
      CreatedIsFound(st, account, bare, id, made.value.1, client.cloud.route53, looked);
    }
    if looked.Err? {
      return;
    }
    ghost var both := client.zoneIds;
    StillCached(cached, both, account, client.cloud.route53, name, client.cloud.now);
    var deleted := client.DeleteHostedZone(id);
    if deleted.Err? {
      return;
    }
    OneOfTwoIsLeft(both, client.zoneIds, id, client.cloud.now, bare, name);
    GoneForGood(st, account, bare, id, made.value.1, client.cloud.route53);
    ghost var left := client.zoneIds;
    undotted := client.GetHostedZoneIdByName(bare);
    StillCached(left, client.zoneIds, account, client.cloud.route53, name, client.cloud.now);
    dotted := client.GetHostedZoneIdByName(name);
    done := true;
  }

  lemma DottedIsAnotherName(st: State, account: string, bare: string)
    requires TrimDot(bare) == bare && NoZone(st, account, bare)
    ensures NoZone(st, account, bare + ".") && TrimDot(bare + ".") == bare && Canonical(bare + ".") == Canonical(bare)
  {
    assert bare + "." == Dotted(bare);
    DottedTwice(bare);
    hide Canonical;
    forall id ensures !Named(st, account, id, bare + ".") {
      assert !Named(st, account, id, bare);
    }
  }

  lemma NothingCached(name: string, now: nat)
    ensures Get<string>(map[], name, now).None?
  {
  }

  lemma NotBoth(st: State, account: string, id: string, name: string)
    requires OnlyZone(st, account, id, name)
    ensures !NoZone(st, account, name)
  {
  }

  lemma BareIsNotCached(cache: Cache<string>, st: State, account: string, bare: string, now: nat)
    requires ValidState(st) && TrimDot(bare) == bare && NoZone(st, account, bare)
    requires bare in cache ==> EntryExact(st, account, bare, cache[bare].value)
    ensures Get(cache, bare, now).None?
  {
    hide Canonical;
    assert forall id :: id in st.zones ==> ValidZone(st, id) && !Named(st, account, id, bare);
  }

  lemma CreatedIsFound(st: State, account: string, bare: string, id: string, ns: seq<string>, after: State, r: Result<string>)
    requires Bare(bare) && TrimDot(bare) == bare && after == Created(st, id, account, Canonical(bare + "."), ns)
    requires ValidState(after) && NoZone(st, account, bare) && Answers(after, account, bare, r)
    ensures r == Ok(id) && id in after.zones && Deletable(after.zones[id])
  {
    CreatedIsStored(st, account, bare + ".", id, ns);
    BareIsPlain(bare);
    CreatedIsNamed(st, account, bare, id, Canonical(bare + "."), ns);
    OnlyOneIsNamed(st, account, bare, id, Canonical(bare + "."), ns);
    hide *;
    OnlyMeans(after, account, bare, id);
    OnlyAnswer(after, account, bare, id, r);
  }

  lemma CreatedIsStored(st: State, account: string, name: string, id: string, ns: seq<string>)
    requires ValidState(Created(st, id, account, Canonical(name), ns))
    ensures Stored(Canonical(name))
  {
    hide Canonical;
    assert ValidZone(Created(st, id, account, Canonical(name), ns), id);
  }

  lemma BareIsPlain(bare: string)
    requires Bare(bare) && TrimDot(bare) == bare && Stored(Canonical(bare + "."))
    ensures Canonical(bare + ".") == Dotted(bare)
  {
    DottedTwice(bare);
    assert bare + "." == Dotted(bare);
    hide Canonical;
  }

  lemma CreatedIsNamed(st: State, account: string, bare: string, id: string, name: string, ns: seq<string>)
    requires name == Dotted(bare)
    ensures
      var after := Created(st, id, account, name, ns);
      Named(after, account, id, bare) && id in after.zones && Deletable(after.zones[id])
  {
    hide Dotted;
  }

  lemma OnlyMeans(st: State, account: string, name: string, id: string)
    requires Named(st, account, id, name) && forall other :: Named(st, account, other, name) ==> other == id
    ensures OnlyZone(st, account, id, name)
  {
  }

  lemma OnlyOneIsNamed(st: State, account: string, bare: string, id: string, name: string, ns: seq<string>)
    requires NoZone(st, account, bare)
    ensures forall other :: Named(Created(st, id, account, name, ns), account, other, bare) ==> other == id
  {
    forall other | Named(Created(st, id, account, name, ns), account, other, bare) ensures other == id {
      assert !Named(st, account, other, bare);
    }
  }

  lemma OnlyAnswer(st: State, account: string, name: string, id: string, r: Result<string>)
    requires OnlyZone(st, account, id, name) && Answers(st, account, name, r)
    ensures r == Ok(id)
  {
    hide Named;
  }

  lemma StillCached(cache: Cache<string>, after: Cache<string>, account: string, st: State, name: string, now: nat)
    requires OnlyAdds(cache, after, account, st) && TrimDot(name) != name
    ensures Get(cache, name, now).Some? ==> Get(after, name, now) == Get(cache, name, now)
  {
  }

  lemma GoneForGood(st: State, account: string, bare: string, id: string, ns: seq<string>, after: State)
    requires TrimDot(bare) == bare && NoZone(st, account, bare) && NoZone(st, account, bare + ".") && id !in after.zones
    requires var made := Created(st, id, account, Canonical(bare + "."), ns); after == made || after == WithoutZone(made, id)
    ensures Answers(after, account, bare, Err(ZoneNotFound)) && Answers(after, account, bare + ".", Err(ZoneNotFound))
  {
    hide Canonical;
    forall other ensures !Named(after, account, other, bare) && !Named(after, account, other, bare + ".") {
      assert !Named(st, account, other, bare) && !Named(st, account, other, bare + ".");
    }
  }

  /** A zone created under a name that Route 53 stores in another form answers from the cache, while AWS knows no zone of
      that name: the next lookup after 90 s finds none, and the next creation makes a second one. */
  method UnstoredNameAnswersDiffer(client: Route53, name: string, tags: map<string, string>)
    returns (created: Result<string>, looked: Result<string>)
    requires client.Valid() && client.zoneIds == map[] && !Plain(name)
    modifies client, client.cloud`route53, client.cloud`trail
    ensures created.Ok? ==> looked == created
    ensures Answers(client.cloud.route53, client.account, name, Err(ZoneNotFound))
  {
    hide *;
    ghost var made;
    NothingCached(name, client.cloud.now);
    created, made := client.CreateHostedZone(name, tags);
    client.StateIsValid();
    NeverNamed(client.cloud.route53, client.account, name);
    if made.None? && created.Ok? {
      NotBoth(client.cloud.route53, client.account, created.value, name);
    }
    looked := client.GetHostedZoneIdByName(name);
  }

  lemma NeverNamed(st: State, account: string, name: string)
    requires ValidState(st) && !Plain(name)
    ensures NoZone(st, account, name) && Answers(st, account, name, Err(ZoneNotFound))
  {
    forall other ensures !Named(st, account, other, name) {
      if Named(st, account, other, name) {
        assert ValidZone(st, other);
        WantedIsCanonical(st.zones[other].name, name);
      }
    }
  }

  // ---- exactly when answers agree ----

  /** What is cached is what AWS would answer now. */
  ghost predicate CachedAgree(cache: Cache<string>, st: State, account: string, now: nat) {
    forall name :: Get(cache, name, now).Some? ==> Answers(st, account, name, Ok(Get(cache, name, now).value))
  }

  /** A cache of at most two names for one zone. */
  function Pair(a: string, b: string, id: string, now: nat): Cache<string> {
    SetDefault(SetDefault(map[], a, id, now, ZONE_TTL), b, id, now, ZONE_TTL)
  }

  /** Whichever entry deletion forgets, what is left agrees with AWS. */
  ghost predicate AgreesWhenDeleted(cache: Cache<string>, st: State, account: string, id: string, now: nat) {
    forall rest :: Forgotten(cache, rest, id, now) ==> CachedAgree(rest, WithoutZone(st, id), account, now)
  }

  /** Through creation, a lookup of the bare name and deletion, cached and uncached answers agree if and only if the zone
      was created under its bare name. */
  lemma AnswersAgreeIff(account: string, st: State, now: nat, name: string, id: string, nameServers: seq<string>)
    requires ValidState(st) && id !in st.born && NoZone(st, account, name) && Stored(Canonical(name))
    ensures
      var made := Created(st, id, account, Canonical(name), nameServers);
      && CachedAgree(Pair(name, name, id, now), made, account, now)
      && AgreesWhenDeleted(Pair(name, TrimDot(Canonical(name)), id, now), made, account, id, now)
      <==> Bare(name)
  {
    var made := Created(st, id, account, Canonical(name), nameServers);
    CreatedNameIff(account, st, name, id, nameServers);
    if Bare(name) {
      assert Dotted(name) == Canonical(name);
      hide *;
      BareMeans(name);
      OneAgrees(made, account, name, id, now);
      NoneIsLeft(made, account, name, id, now);
    } else if Plain(name) {
      hide Canonical;
      TwoDisagree(made, account, name, TrimDot(Canonical(name)), id, now);
    } else {
      hide Canonical;
      assert Get(Pair(name, name, id, now), name, now) == Some(id);
    }
  }

  ghost predicate AllAsUncached(answers: seq<Answer>, account: string, reliable: bool) {
    forall i :: 0 <= i < |answers| ==> AsUncached(answers[i], account, reliable)
  }

  /** The same on the client: the zone is created, looked up under the name it was created with and under its bare name,
      deleted, and looked up under both again. Unless a call fails before that, every answer is the uncached one if and
      only if the zone was created under its bare name. */
  method ZoneLife(client: Route53, name: string, tags: map<string, string>)
    returns (made: bool, done: bool, ghost answers: seq<Answer>)
    requires client.Valid() && client.ZoneIdsExact() && client.zoneIds == map[]
    requires NoZone(client.cloud.route53, client.account, name)
    requires NoZone(client.cloud.route53, client.account, TrimDot(Canonical(name)))
    modifies client, client.cloud`route53, client.cloud`trail
    ensures client.cloud.reliable && made ==> done
    ensures done ==>
      && |answers| == 4 && answers[0].name == answers[3].name == name
      && answers[1].name == answers[2].name == TrimDot(Canonical(name))
    ensures done ==> (AllAsUncached(answers, client.account, client.cloud.reliable) <==> Bare(name))
  {
    hide *;
    made, done, answers := false, false, [];
    var bare := TrimDot(Canonical(name));
    ghost var st, account, reliable := client.cloud.route53, client.account, client.cloud.reliable;
    NothingCached(name, client.cloud.now);
    client.StateIsValid();
    var created, birth := client.CreateHostedZone(name, tags);
    if created.Err? {
      return;
    }
    made := true;
    var id := created.value;
    if birth.None? {
      NotBoth(client.cloud.route53, account, id, name);
    }
    client.StateIsValid();
    ghost var after := client.cloud.route53;
    CreatedIsStored(st, account, name, id, birth.value.1);
    BareForm(name);
    ghost var cached := client.zoneIds;
    if bare != name {
      BareIsNotCached(cached, st, account, bare, client.cloud.now);
    }
    var first := client.GetHostedZoneIdByName(name);
    var second := client.GetHostedZoneIdByName(bare);
    if second.Ok? || client.cloud.reliable {
      CreatedIsFound(st, account, bare, id, birth.value.1, after, second);
    }
    if second.Err? {
      return;
    }
    ghost var both := client.zoneIds;
    if Plain(name) && !Bare(name) {
      StillCached(cached, both, account, after, name, client.cloud.now);
    }
    var deleted := client.DeleteHostedZone(id);
    if deleted.Err? {
      return;
    }
    ghost var gone, left := client.cloud.route53, client.zoneIds;
    var third := client.GetHostedZoneIdByName(bare);
    if Plain(name) && !Bare(name) {
      StillCached(left, client.zoneIds, account, gone, name, client.cloud.now);
    }
    var fourth := client.GetHostedZoneIdByName(name);
    done := true;
    answers := [Answer(after, name, first), Answer(after, bare, second), Answer(gone, bare, third), Answer(gone, name, fourth)];
    FourAnswers(answers, account, reliable);
    if !Plain(name) {
      NeverNamed(after, account, name);
      DiffersFromNone(after, account, name, id, reliable);
    } else if !Bare(name) {
      OneOfTwoIsLeft(both, left, id, client.cloud.now, bare, name);
      GoneForGood(st, account, bare, id, birth.value.1, gone);
      DiffersFromNone(gone, account, bare, id, reliable);
      DiffersFromNone(gone, account, name, id, reliable);
    }
  }

  /** The bare form of a name whose stored form is given. */
  lemma BareForm(name: string)
    requires Stored(Canonical(name))
    ensures
      var bare := TrimDot(Canonical(name));
      && Bare(bare) && TrimDot(bare) == bare && Canonical(bare + ".") == Canonical(name)
      && (Bare(name) <==> bare == name) && (Bare(name) ==> Plain(name))
      && (Plain(name) && !Bare(name) ==> name == bare + "." && TrimDot(name) != name)
  {
    var stored := Canonical(name);
    StoredNameTrims(stored);
    StoredHasOneDot(stored);
    hide Canonical;
  }

  lemma FourAnswers(answers: seq<Answer>, account: string, reliable: bool)
    requires |answers| == 4
    ensures AllAsUncached(answers, account, reliable) <==>
      && AsUncached(answers[0], account, reliable) && AsUncached(answers[1], account, reliable)
      && AsUncached(answers[2], account, reliable) && AsUncached(answers[3], account, reliable)
    ensures forall a :: a in answers ==>
      (AsUncached(a, account, reliable) <==> (reliable || a.r != Err(Failed) ==> Answers(a.st, account, a.name, a.r)))
  {
    hide Answers;
  }

  lemma DiffersFromNone(st: State, account: string, name: string, id: string, reliable: bool)
    requires Answers(st, account, name, Err(ZoneNotFound))
    ensures !AsUncached(Answer(st, name, Ok(id)), account, reliable)
  {
  }

  lemma BareMeans(name: string)
    requires Bare(name)
    ensures TrimDot(Canonical(name)) == name
  {
  }

  lemma CreatedNameIff(account: string, st: State, name: string, id: string, nameServers: seq<string>)
    requires ValidState(st) && id !in st.born && NoZone(st, account, name)
    ensures OnlyZone(Created(st, id, account, Canonical(name), nameServers), account, id, name) <==> Plain(name)
  {
    hide Canonical;
    var made := Created(st, id, account, Canonical(name), nameServers);
    forall other | other != id ensures !Named(made, account, other, name) {
      assert !Named(st, account, other, name);
    }
  }

  lemma OneAgrees(st: State, account: string, name: string, id: string, now: nat)
    requires OnlyZone(st, account, id, name)
    ensures CachedAgree(Pair(name, name, id, now), st, account, now)
  {
    hide Dotted;
  }

  lemma NoneIsLeft(st: State, account: string, name: string, id: string, now: nat)
    ensures AgreesWhenDeleted(Pair(name, name, id, now), st, account, id, now)
  {
    var cache := Pair(name, name, id, now);
    assert Get(cache, name, now) == Some(id);
    forall rest | Forgotten(cache, rest, id, now) ensures rest == map[] {
      assert rest != cache;
    }
  }

  lemma TwoDisagree(st: State, account: string, a: string, b: string, id: string, now: nat)
    requires a != b
    ensures !AgreesWhenDeleted(Pair(a, b, id, now), st, account, id, now)
  {
    hide Dotted;
    var cache := Pair(a, b, id, now);
    var rest := cache - {b};
    assert Get(cache, b, now) == Some(id) && b !in rest && rest != cache;
    assert Forgotten(cache, rest, id, now);
    assert Get(rest, a, now) == Some(id) && !Named(WithoutZone(st, id), account, id, a);
  }

  /** A created zone is found again under its name if and only if Route 53 stores the name as written. */
  lemma FoundAgainIff(st: State, account: string, name: string, id: string, nameServers: seq<string>)
    requires ValidState(st) && id !in st.born
    ensures Named(Created(st, id, account, Canonical(name), nameServers), account, id, name) <==> Plain(name)
    ensures !Plain(name) ==> NoZone(st, account, name)
  {
    if !Plain(name) {
      NeverNamed(st, account, name);
    }
  }
}
